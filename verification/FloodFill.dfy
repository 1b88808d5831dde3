/**
 Background removal of scripts/build_stream_image.py: a stack-driven flood fill over a flat,
 row-major pixel list. The reference notion is geometric (4-connected paths over coordinates);
 the code works on flat indices.
 */
module FloodFill {

  datatype Pixel = Pixel(r: int, g: int, b: int, a: int)

  const THRESHOLD := 244
  const TRANSPARENT := Pixel(0, 0, 0, 0)

  predicate IsWhite(p: Pixel) {
    p.r >= THRESHOLD && p.g >= THRESHOLD && p.b >= THRESHOLD
  }

  function Column(i: nat, w: nat): nat
    requires w > 0
  {
    i % w
  }

  function Row(i: nat, w: nat): nat
    requires w > 0
  {
    i / w
  }

  /** Pixels touching along an edge, by their coordinates. */
  ghost predicate Adjacent(i: nat, j: nat, w: nat)
    requires w > 0
  {
    var (xi, yi, xj, yj) := (Column(i, w), Row(i, w), Column(j, w), Row(j, w));
    || (yi == yj && (xi == xj + 1 || xj == xi + 1))
    || (xi == xj && (yi == yj + 1 || yj == yi + 1))
  }

  ghost predicate OnBorder(i: nat, w: nat, h: nat)
    requires w > 0
  {
    Column(i, w) == 0 || Column(i, w) == w - 1 || Row(i, w) == 0 || Row(i, w) == h - 1
  }

  ghost predicate Path(data: seq<Pixel>, w: nat, p: seq<nat>)
    requires w > 0
  {
    && p != []
    && (forall k :: 0 <= k < |p| ==> p[k] < |data| && data[p[k]].r >= 244 && data[p[k]].g >= 244 && data[p[k]].b >= 244)
    && (forall k :: 0 < k < |p| ==> Adjacent(p[k - 1], p[k], w))
  }

  /** White, and joined to the image border by a 4-connected path of white pixels. */
  ghost predicate Background(data: seq<Pixel>, w: nat, h: nat, i: nat)
    requires w > 0
  {
    exists p :: Path(data, w, p) && OnBorder(p[0], w, h) && p[|p| - 1] == i
  }

  lemma DivModUnique(q: nat, r: nat, w: nat)
    requires r < w
    ensures (q * w + r) / w == q && (q * w + r) % w == r
  {
    var n := q * w + r;
    var (a, b) := (n / w, n % w);
    assert a * w + b == q * w + r;
    if a < q {
      assert (q - a) * w >= w by { assert q - a >= 1; MulMono(q - a, 1, w); }
      assert false;
    } else if a > q {
      assert (a - q) * w >= w by { assert a - q >= 1; MulMono(a - q, 1, w); }
      assert false;
    }
  }

  lemma MulMono(a: nat, b: nat, w: nat)
    requires a >= b
    ensures a * w >= b * w
  {
  }

  /** The four candidates the code builds; a negative one is skipped by its bounds test. */
  function Neighbours(i: nat, w: nat): (r: seq<int>)
    requires w > 0
    ensures |r| == 4
  {
    [if Column(i, w) != 0 then i - 1 else -1, if Column(i, w) < w - 1 then i + 1 else -1, i - w, i + w]
  }

  /** The flat index of the pixel at column @p x of row @p y. */
  function At(x: nat, y: nat, w: nat): nat {
    y * w + x
  }

  lemma CoordinatesOf(i: nat, w: nat)
    requires w > 0
    ensures Column(i, w) < w && At(Column(i, w), Row(i, w), w) == i
  {
  }

  lemma AtCoordinates(x: nat, y: nat, w: nat)
    requires x < w
    ensures Column(At(x, y, w), w) == x && Row(At(x, y, w), w) == y
  {
    DivModUnique(y, x, w);
  }

  lemma AtSteps(x: nat, y: nat, w: nat)
    ensures At(x + 1, y, w) == At(x, y, w) + 1 && At(x, y + 1, w) == At(x, y, w) + w
  {
  }

  lemma StepIsAdjacent(i: nat, j: nat, w: nat)
    requires w > 0 && j in Neighbours(i, w)
    ensures Adjacent(i, j, w)
  {
    hide Column, Row, At;
    CoordinatesOf(i, w);
    var (x, y) := (Column(i, w), Row(i, w));
    if j == i - 1 && x != 0 {
      AtSteps(x - 1, y, w);
      AtCoordinates(x - 1, y, w);
    } else if j == i + 1 && x < w - 1 {
      AtSteps(x, y, w);
      AtCoordinates(x + 1, y, w);
    } else if j == i - w {
      if y == 0 { FirstRow(i, w); }
      AtSteps(x, y - 1, w);
      AtCoordinates(x, y - 1, w);
    } else {
      AtSteps(x, y, w);
      AtCoordinates(x, y + 1, w);
    }
  }

  lemma FirstRow(i: nat, w: nat)
    requires w > 0 && Row(i, w) == 0
    ensures i < w
  {
  }

  lemma AdjacentIsStep(i: nat, j: nat, w: nat)
    requires w > 0 && Adjacent(i, j, w)
    ensures j in Neighbours(i, w)
  {
  }

  /** Flat-index stepping is exactly coordinate adjacency: nothing missed, no wrap across a row end. */
  lemma NeighboursAreAdjacent(i: nat, j: nat, w: nat)
    requires w > 0
    ensures j in Neighbours(i, w) <==> Adjacent(i, j, w)
  {
    if j in Neighbours(i, w) { StepIsAdjacent(i, j, w); }
    if Adjacent(i, j, w) { AdjacentIsStep(i, j, w); }
  }

  // ----- What the marks mean while the fill runs ------------------------------------------------

  ghost predicate Sound(data: seq<Pixel>, w: nat, h: nat, vis: seq<bool>)
    requires w > 0
  {
    && |vis| == |data|
    && forall i :: 0 <= i < |vis| && vis[i] ==> IsWhite(data[i]) && Background(data, w, h, i)
  }

  /** Every marked pixel not in @p open has all its white neighbours marked. */
  ghost predicate Closed(data: seq<Pixel>, w: nat, vis: seq<bool>, open: set<int>)
    requires w > 0 && |vis| == |data|
  {
    forall i: nat, j: nat :: (i < |vis| && j < |vis| && vis[i] && i !in open && IsWhite(data[j])
                              && Adjacent(i, j, w)) ==> vis[j]
  }

  ghost predicate Stacked(vis: seq<bool>, st: seq<nat>) {
    forall k :: 0 <= k < |st| ==> st[k] < |vis| && vis[st[k]]
  }

  ghost function Elements(st: seq<nat>): set<int> {
    set k | 0 <= k < |st| :: st[k]
  }

  ghost function Unmarked(data: seq<Pixel>, vis: seq<bool>): set<int>
    requires |vis| == |data|
  {
    set i | 0 <= i < |data| && IsWhite(data[i]) && !vis[i]
  }

  ghost predicate BorderMarked(data: seq<Pixel>, w: nat, h: nat, vis: seq<bool>)
    requires w > 0 && |vis| == |data|
  {
    forall i: nat :: i < |vis| && OnBorder(i, w, h) && IsWhite(data[i]) ==> vis[i]
  }

  lemma BorderIsBackground(data: seq<Pixel>, w: nat, h: nat, i: nat)
    requires w > 0 && i < |data| && IsWhite(data[i]) && OnBorder(i, w, h)
    ensures Background(data, w, h, i)
  {
    assert Path(data, w, [i]);
  }

  lemma NeighbourIsBackground(data: seq<Pixel>, w: nat, h: nat, i: nat, j: nat)
    requires w > 0 && Background(data, w, h, i) && j < |data| && IsWhite(data[j]) && Adjacent(i, j, w)
    ensures Background(data, w, h, j)
  {
    var p :| Path(data, w, p) && OnBorder(p[0], w, h) && p[|p| - 1] == i;
    var q := p + [j];
    assert Path(data, w, q);
    assert q[0] == p[0] && q[|q| - 1] == j;
  }

  /** A closed, border-covering marking contains every background pixel. */
  lemma {:induction false} ClosedCoversPath(data: seq<Pixel>, w: nat, h: nat, vis: seq<bool>, p: seq<nat>)
    requires w > 0 && |vis| == |data|
    requires BorderMarked(data, w, h, vis) && Closed(data, w, vis, {})
    requires Path(data, w, p) && OnBorder(p[0], w, h)
    ensures vis[p[|p| - 1]]
    decreases |p|
  {
    if |p| > 1 {
      var q := p[..|p| - 1];
      ClosedCoversPath(data, w, h, vis, q);
      assert Adjacent(p[|p| - 2], p[|p| - 1], w);
    }
  }

  // ----- The script's loops ---------------------------------------------------------------------

  /** A white pixel met for the first time is marked and pushed. */
  method Mark(data: seq<Pixel>, vis: array<bool>, st: seq<nat>, i: nat) returns (st': seq<nat>)
    requires vis.Length == |data| && i < |data|
    modifies vis
    ensures IsWhite(data[i]) && !old(vis[i]) ==> vis[..] == old(vis[..])[i := true] && st' == st + [i]
    ensures !IsWhite(data[i]) || old(vis[i]) ==> vis[..] == old(vis[..]) && st' == st
  {
    st' := st;
    if IsWhite(data[i]) && !vis[i] {
      vis[i] := true;
      st' := st' + [i];
    }
  }

  ghost predicate Seeded(data: seq<Pixel>, w: nat, h: nat, vis: seq<bool>, st: seq<nat>)
    requires w > 0
  {
    && Sound(data, w, h, vis)
    && Stacked(vis, st)
    && forall i: nat :: i < |vis| && vis[i] ==> i in st
  }

  /** The first and last row are marked in columns below @p x. */
  ghost predicate EndRowsMarked(data: seq<Pixel>, w: nat, h: nat, vis: seq<bool>, x: nat)
    requires w > 0 && |vis| == |data|
  {
    forall i: nat :: i < |data| && Column(i, w) < x && (Row(i, w) == 0 || Row(i, w) == h - 1) && IsWhite(data[i])
                     ==> vis[i]
  }

  /** The first and last column are marked in rows below @p y. */
  ghost predicate EndColumnsMarked(data: seq<Pixel>, w: nat, vis: seq<bool>, y: nat)
    requires w > 0 && |vis| == |data|
  {
    forall i: nat :: i < |data| && Row(i, w) < y && (Column(i, w) == 0 || Column(i, w) == w - 1) && IsWhite(data[i])
                     ==> vis[i]
  }

  /** Both border sweeps: columns of the first and last row, then rows of the first and last column. */
  method SeedBorder(data: seq<Pixel>, w: nat, h: nat, vis: array<bool>) returns (st: seq<nat>)
    requires w > 0 && h > 0 && vis.Length == |data| == w * h
    requires forall i :: 0 <= i < vis.Length ==> !vis[i]
    modifies vis
    ensures Seeded(data, w, h, vis[..], st)
    ensures BorderMarked(data, w, h, vis[..])
  {
    st := SweepRows(data, w, h, vis);
    ghost var rows := vis[..];
    st := SweepColumns(data, w, h, vis, st);
    SweepsCoverBorder(data, w, h, rows, vis[..]);
  }

  method SweepRows(data: seq<Pixel>, w: nat, h: nat, vis: array<bool>) returns (st: seq<nat>)
    requires w > 0 && h > 0 && vis.Length == |data| == w * h
    requires forall i :: 0 <= i < vis.Length ==> !vis[i]
    modifies vis
    ensures Seeded(data, w, h, vis[..], st) && EndRowsMarked(data, w, h, vis[..], w)
  {
    hide Column, Row, At, IsWhite, Background;
    st := [];
    for x := 0 to w
      invariant Seeded(data, w, h, vis[..], st)
      invariant EndRowsMarked(data, w, h, vis[..], x)
    {
      st := SeedPair(data, w, h, vis, st, x, 0, x, h - 1);
      RowsAdvance(data, w, h, vis[..], x);
    }
  }

  method SweepColumns(data: seq<Pixel>, w: nat, h: nat, vis: array<bool>, seeds: seq<nat>) returns (st: seq<nat>)
    requires w > 0 && h > 0 && vis.Length == |data| == w * h
    requires Seeded(data, w, h, vis[..], seeds)
    modifies vis
    ensures Seeded(data, w, h, vis[..], st) && EndColumnsMarked(data, w, vis[..], h)
    ensures forall k :: 0 <= k < vis.Length && old(vis[..])[k] ==> vis[..][k]
  {
    hide Column, Row, At, IsWhite, Background;
    st := seeds;
    for y := 0 to h
      invariant Seeded(data, w, h, vis[..], st)
      invariant forall k :: 0 <= k < vis.Length && old(vis[..])[k] ==> vis[..][k]
      invariant EndColumnsMarked(data, w, vis[..], y)
    {
      st := SeedPair(data, w, h, vis, st, 0, y, w - 1, y);
      ColumnsAdvance(data, w, vis[..], y);
    }
  }

  lemma RowsAdvance(data: seq<Pixel>, w: nat, h: nat, vis: seq<bool>, x: nat)
    requires x < w && h > 0 && |vis| == |data|
    requires EndRowsMarked(data, w, h, vis, x)
    requires At(x, 0, w) < |data| && (IsWhite(data[At(x, 0, w)]) ==> vis[At(x, 0, w)])
    requires At(x, h - 1, w) < |data| && (IsWhite(data[At(x, h - 1, w)]) ==> vis[At(x, h - 1, w)])
    ensures EndRowsMarked(data, w, h, vis, x + 1)
  {
    hide Column, Row, At, IsWhite;
    forall i: nat | i < |data| && Column(i, w) == x && (Row(i, w) == 0 || Row(i, w) == h - 1) && IsWhite(data[i])
      ensures vis[i]
    {
      CoordinatesOf(i, w);
    }
  }

  lemma ColumnsAdvance(data: seq<Pixel>, w: nat, vis: seq<bool>, y: nat)
    requires w > 0 && |vis| == |data|
    requires EndColumnsMarked(data, w, vis, y)
    requires At(0, y, w) < |data| && (IsWhite(data[At(0, y, w)]) ==> vis[At(0, y, w)])
    requires At(w - 1, y, w) < |data| && (IsWhite(data[At(w - 1, y, w)]) ==> vis[At(w - 1, y, w)])
    ensures EndColumnsMarked(data, w, vis, y + 1)
  {
    hide Column, Row, At, IsWhite;
    forall i: nat | i < |data| && Row(i, w) == y && (Column(i, w) == 0 || Column(i, w) == w - 1) && IsWhite(data[i])
      ensures vis[i]
    {
      CoordinatesOf(i, w);
    }
  }

  lemma SweepsCoverBorder(data: seq<Pixel>, w: nat, h: nat, rows: seq<bool>, vis: seq<bool>)
    requires w > 0 && |rows| == |vis| == |data| == w * h
    requires EndRowsMarked(data, w, h, rows, w) && EndColumnsMarked(data, w, vis, h)
    requires forall k :: 0 <= k < |rows| && rows[k] ==> vis[k]
    ensures BorderMarked(data, w, h, vis)
  {
  }

  /** One round of a sweep: the two border pixels at (x0, y0) and (x1, y1). */
  method SeedPair(data: seq<Pixel>, w: nat, h: nat, vis: array<bool>, seeds: seq<nat>, x0: nat, y0: nat, x1: nat, y1: nat)
    returns (st: seq<nat>)
    requires w > 0 && vis.Length == |data| == w * h && x0 < w && x1 < w && y0 < h && y1 < h
    requires x0 == 0 || y0 == 0
    requires x1 == w - 1 || y1 == h - 1
    requires Seeded(data, w, h, vis[..], seeds)
    modifies vis
    ensures Seeded(data, w, h, vis[..], st)
    ensures forall k :: 0 <= k < vis.Length && old(vis[..])[k] ==> vis[..][k]
    ensures At(x0, y0, w) < |data| && (IsWhite(data[At(x0, y0, w)]) ==> vis[..][At(x0, y0, w)])
    ensures At(x1, y1, w) < |data| && (IsWhite(data[At(x1, y1, w)]) ==> vis[..][At(x1, y1, w)])
  {
    hide Column, Row, At;
    InGrid(x0, y0, w, h);
    st := MarkBorder(data, w, h, vis, seeds, At(x0, y0, w));
    InGrid(x1, y1, w, h);
    st := MarkBorder(data, w, h, vis, st, At(x1, y1, w));
  }

  lemma InGrid(x: nat, y: nat, w: nat, h: nat)
    requires x < w && y < h
    ensures At(x, y, w) < w * h
    ensures Column(At(x, y, w), w) == x && Row(At(x, y, w), w) == y
  {
    AtCoordinates(x, y, w);
    MulMono(h, y + 1, w);
  }

  method MarkBorder(data: seq<Pixel>, w: nat, h: nat, vis: array<bool>, st: seq<nat>, i: nat)
    returns (st': seq<nat>)
    requires w > 0 && vis.Length == |data| && i < |data| && OnBorder(i, w, h)
    requires Seeded(data, w, h, vis[..], st)
    modifies vis
    ensures Seeded(data, w, h, vis[..], st')
    ensures forall k :: 0 <= k < vis.Length && old(vis[k]) ==> vis[k]
    ensures IsWhite(data[i]) ==> vis[i]
  {
    if IsWhite(data[i]) { BorderIsBackground(data, w, h, i); }
    hide Column, Row;
    ghost var was := vis[..];
    st' := Mark(data, vis, st, i);
    assert forall k :: 0 <= k < vis.Length ==> vis[k] == vis[..][k] && old(vis[k]) == was[k];
    assert vis[..] == was || st' == st + [i];
  }

  /** The draining loop: pop one index, mark and push its unmarked white neighbours. */
  method Drain(data: seq<Pixel>, w: nat, h: nat, vis: array<bool>, seeds: seq<nat>)
    requires w > 0 && vis.Length == |data|
    requires Sound(data, w, h, vis[..]) && Stacked(vis[..], seeds)
    requires Closed(data, w, vis[..], Elements(seeds)) && BorderMarked(data, w, h, vis[..])
    modifies vis
    ensures Sound(data, w, h, vis[..]) && Closed(data, w, vis[..], {}) && BorderMarked(data, w, h, vis[..])
  {
    var st := seeds;
    while st != []
      invariant Sound(data, w, h, vis[..]) && Stacked(vis[..], st)
      invariant Closed(data, w, vis[..], Elements(st)) && BorderMarked(data, w, h, vis[..])
      decreases Unmarked(data, vis[..]), |st|
    {
      st := Visit(data, w, h, vis, st);
    }
    assert Elements(st) == {};
  }

  /** One round of the draining loop. Either the set of unmarked white pixels shrinks, or the stack does. */
  method Visit(data: seq<Pixel>, w: nat, h: nat, vis: array<bool>, stack: seq<nat>) returns (st: seq<nat>)
    requires w > 0 && vis.Length == |data| && stack != []
    requires Sound(data, w, h, vis[..]) && Stacked(vis[..], stack)
    requires Closed(data, w, vis[..], Elements(stack)) && BorderMarked(data, w, h, vis[..])
    modifies vis
    ensures Sound(data, w, h, vis[..]) && Stacked(vis[..], st)
    ensures Closed(data, w, vis[..], Elements(st)) && BorderMarked(data, w, h, vis[..])
    ensures || Unmarked(data, vis[..]) < Unmarked(data, old(vis[..]))
            || (vis[..] == old(vis[..]) && |st| == |stack| - 1)
  {
    hide Column, Row, Adjacent, Background;
    var i := stack[|stack| - 1];
    st := stack[..|stack| - 1];
    var js := Neighbours(i, w);
    assert Elements(stack) <= Elements(st) + {i};
    for k := 0 to 4
      invariant Sound(data, w, h, vis[..]) && Stacked(vis[..], st) && BorderMarked(data, w, h, vis[..])
      invariant vis[i] && Closed(data, w, vis[..], Elements(st) + {i})
      invariant forall m :: 0 <= m < k && 0 <= js[m] < |data| && IsWhite(data[js[m]]) ==> vis[js[m]]
      invariant || Unmarked(data, vis[..]) < Unmarked(data, old(vis[..]))
                || (vis[..] == old(vis[..]) && |st| == |stack| - 1)
    {
      var j := js[k];
      if 0 <= j < |data| {
        st := MarkNeighbour(data, w, h, vis, st, i, j);
      }
    }
    forall a: nat, b: nat | a < |data| && b < |data| && vis[a] && a !in Elements(st) && IsWhite(data[b])
                            && Adjacent(a, b, w)
      ensures vis[b]
    {
      if a == i { NeighboursAreAdjacent(i, b, w); }
    }
  }

  method MarkNeighbour(data: seq<Pixel>, w: nat, h: nat, vis: array<bool>, stack: seq<nat>, ghost i: nat, j: nat)
    returns (st: seq<nat>)
    requires w > 0 && vis.Length == |data| && i < |data| && j < |data| && vis[i] && j in Neighbours(i, w)
    requires Sound(data, w, h, vis[..]) && Stacked(vis[..], stack) && BorderMarked(data, w, h, vis[..])
    requires Closed(data, w, vis[..], Elements(stack) + {i})
    modifies vis
    ensures Sound(data, w, h, vis[..]) && Stacked(vis[..], st) && BorderMarked(data, w, h, vis[..])
    ensures Closed(data, w, vis[..], Elements(st) + {i})
    ensures forall k :: 0 <= k < vis.Length && old(vis[k]) ==> vis[k]
    ensures IsWhite(data[j]) ==> vis[j]
    ensures || Unmarked(data, vis[..]) < Unmarked(data, old(vis[..]))
            || (vis[..] == old(vis[..]) && st == stack)
  {
    ghost var was := vis[..];
    NeighboursAreAdjacent(i, j, w);
    assert was[i];
    if IsWhite(data[j]) { NeighbourIsBackground(data, w, h, i, j); }
    st := Mark(data, vis, stack, j);
    ghost var now := vis[..];
    assert forall k :: 0 <= k < vis.Length ==> vis[k] == now[k] && old(vis[k]) == was[k];
    if now != was {
      assert now == was[j := true] && st == stack + [j];
      assert j in Unmarked(data, was) && j !in Unmarked(data, now);
      PushedElements(stack, j);
    }
  }

  lemma PushedElements(stack: seq<nat>, j: nat)
    ensures Elements(stack + [j]) == Elements(stack) + {j}
  {
    var st := stack + [j];
    assert st[|stack|] == j;
    assert forall k :: 0 <= k < |stack| ==> st[k] == stack[k];
  }

  /**
   The whole step: a pixel comes out transparent exactly when it is background, and is otherwise
   untouched.
   */
  method RemoveBackground(data: seq<Pixel>, w: nat, h: nat) returns (cdata: seq<Pixel>)
    requires w > 0 && h > 0 && |data| == w * h
    ensures |cdata| == |data|
    ensures forall i :: 0 <= i < |data| ==>
                          cdata[i] == if Background(data, w, h, i) then Pixel(0, 0, 0, 0) else data[i]
  {
    hide Background, Closed, Sound, Seeded, BorderMarked, Stacked;
    var vis := new bool[|data|](_ => false);
    var st := SeedBorder(data, w, h, vis);
    SeedsAreOpen(data, w, h, vis[..], st);
    Drain(data, w, h, vis, st);
    MarksAreBackground(data, w, h, vis[..]);
    cdata := Cleared(data, vis);
  }

  /** Before the first round nothing is marked but what is on the stack. */
  lemma SeedsAreOpen(data: seq<Pixel>, w: nat, h: nat, vis: seq<bool>, st: seq<nat>)
    requires w > 0 && |vis| == |data| && Seeded(data, w, h, vis, st)
    ensures Closed(data, w, vis, Elements(st))
  {
    hide Background, Adjacent, IsWhite;
    forall i: nat | i < |data| && vis[i] ensures i in Elements(st) {
      var k :| 0 <= k < |st| && st[k] == i;
    }
  }

  /** When nothing is left on the stack the marks are the background. */
  lemma MarksAreBackground(data: seq<Pixel>, w: nat, h: nat, marks: seq<bool>)
    requires w > 0 && |marks| == |data|
    requires Sound(data, w, h, marks) && Closed(data, w, marks, {}) && BorderMarked(data, w, h, marks)
    ensures forall i: nat :: i < |data| ==> (marks[i] <==> Background(data, w, h, i))
  {
    hide OnBorder, Closed, BorderMarked, IsWhite;
    forall i: nat | i < |data| && Background(data, w, h, i) ensures marks[i] {
      var p :| Path(data, w, p) && OnBorder(p[0], w, h) && p[|p| - 1] == i;
      ClosedCoversPath(data, w, h, marks, p);
    }
  }

  /** The picture with every marked pixel made transparent. */
  method Cleared(data: seq<Pixel>, vis: array<bool>) returns (cdata: seq<Pixel>)
    requires vis.Length == |data|
    ensures |cdata| == |data|
    ensures forall k :: 0 <= k < |data| ==> cdata[k] == if vis[k] then TRANSPARENT else data[k]
  {
    cdata := [];
    for i := 0 to |data|
      invariant |cdata| == i
      invariant forall k :: 0 <= k < i ==> cdata[k] == if vis[k] then TRANSPARENT else data[k]
    {
      cdata := cdata + [if vis[i] then TRANSPARENT else data[i]];
    }
  }

  /** Opaque white islands survive: a white pixel keeps its colour iff no white path leads it out. */
  lemma InteriorWhiteSurvives(data: seq<Pixel>, w: nat, h: nat, i: nat, ring: set<nat>)
    requires w > 0 && i < |data|
    requires i in ring && forall a: nat :: a in ring ==> a < |data| && !OnBorder(a, w, h)
    requires forall a: nat, b: nat :: a in ring && b < |data| && b !in ring && Adjacent(b, a, w) ==> !IsWhite(data[b])
    ensures !Background(data, w, h, i)
  {
    if Background(data, w, h, i) {
      var p :| Path(data, w, p) && OnBorder(p[0], w, h) && p[|p| - 1] == i;
      WalkStaysInside(data, w, h, ring, p, |p| - 1);
    }
  }

  lemma {:induction false} WalkStaysInside(data: seq<Pixel>, w: nat, h: nat, ring: set<nat>, p: seq<nat>, k: nat)
    requires w > 0 && Path(data, w, p) && k < |p| && p[k] in ring
    requires forall a: nat, b: nat :: a in ring && b < |data| && b !in ring && Adjacent(b, a, w) ==> !IsWhite(data[b])
    ensures p[0] in ring
    decreases k
  {
    if k > 0 {
      assert Adjacent(p[k - 1], p[k], w);
      WalkStaysInside(data, w, h, ring, p, k - 1);
    }
  }
}
