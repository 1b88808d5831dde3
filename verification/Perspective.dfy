/**
 The perspective solver of scripts/build_stream_image.py: an 8x9 augmented system reduced in place by
 Gauss-Jordan elimination with partial pivoting. Coefficients are exact reals; Python's two exceptions
 are outcomes.
 */
module Perspective {

  type Row = seq<real>
  datatype Point = Point(x: real, y: real)
  datatype Outcome = Coeffs(c: seq<real>) | ZeroDivision | IndexError

  // ----- Linear systems -------------------------------------------------------------------------

  /** The sum of the first @p k products. */
  function Dot(a: Row, x: seq<real>, k: nat): real
    requires k <= |a| && k <= |x|
  {
    if k == 0 then 0.0 else Dot(a, x, k - 1) + a[k - 1] * x[k - 1]
  }

  /** @p m has at least @p n rows, the first n of them with n coefficients and a right-hand side. */
  ghost predicate Augmented(m: seq<Row>, n: nat) {
    |m| >= n && forall r :: 0 <= r < n ==> |m[r]| == n + 1
  }

  ghost predicate Solves(m: seq<Row>, n: nat, x: seq<real>)
    requires Augmented(m, n)
  {
    |x| == n && forall r :: 0 <= r < n ==> Dot(m[r], x, n) == m[r][n]
  }

  ghost predicate SameSolutions(m: seq<Row>, m': seq<Row>, n: nat)
    requires Augmented(m, n) && Augmented(m', n)
  {
    forall x :: Solves(m, n, x) <==> Solves(m', n, x)
  }

  ghost predicate UniquelySolvable(m: seq<Row>, n: nat)
    requires Augmented(m, n)
  {
    exists x :: Solves(m, n, x) && forall y :: Solves(m, n, y) ==> y == x
  }

  // ----- Row operations -------------------------------------------------------------------------

  function Minus(a: Row, f: real, b: Row): (r: Row)
    requires |a| == |b|
    ensures |r| == |a| && forall k :: 0 <= k < |a| ==> r[k] == a[k] - f * b[k]
  {
    seq(|a|, k requires 0 <= k < |a| => a[k] - f * b[k])
  }

  lemma {:induction false} DotMinus(a: Row, f: real, b: Row, x: seq<real>, k: nat)
    requires |a| == |b| && k <= |a| && k <= |x|
    ensures Dot(Minus(a, f, b), x, k) == Dot(a, x, k) - f * Dot(b, x, k)
  {
    if k > 0 {
      DotMinus(a, f, b, x, k - 1);
      Distribute(a[k - 1], f, b[k - 1], x[k - 1], Dot(b, x, k - 1));
    }
  }

  lemma Distribute(a: real, f: real, b: real, x: real, d: real)
    ensures (a - f * b) * x == a * x - f * (b * x)
    ensures f * (d + b * x) == f * d + f * (b * x)
  {
  }

  lemma SwapKeepsSolutions(m: seq<Row>, n: nat, i: nat, j: nat)
    requires Augmented(m, n) && i < n && j < n
    ensures Augmented(m[i := m[j]][j := m[i]], n)
    ensures SameSolutions(m, m[i := m[j]][j := m[i]], n)
  {
    var m' := m[i := m[j]][j := m[i]];
    forall x ensures Solves(m, n, x) <==> Solves(m', n, x) {
      assert m'[i] == m[j] && m'[j] == m[i];
      assert forall r :: 0 <= r < n && r != i && r != j ==> m'[r] == m[r];
    }
  }

  lemma EliminationKeepsSolutions(m: seq<Row>, n: nat, r: nat, f: real, p: nat)
    requires Augmented(m, n) && r < n && p < n && r != p
    ensures Augmented(m[r := Minus(m[r], f, m[p])], n)
    ensures SameSolutions(m, m[r := Minus(m[r], f, m[p])], n)
  {
    var m' := m[r := Minus(m[r], f, m[p])];
    forall x | |x| == n ensures Solves(m, n, x) <==> Solves(m', n, x) {
      DotMinus(m[r], f, m[p], x, n);
      assert m'[p] == m[p];
      assert forall q :: 0 <= q < n && q != r ==> m'[q] == m[q];
      if Solves(m, n, x) {
        assert Dot(m[r], x, n) == m[r][n] && Dot(m[p], x, n) == m[p][n];
      }
      if Solves(m', n, x) {
        assert Dot(m'[r], x, n) == m'[r][n] && Dot(m'[p], x, n) == m'[p][n];
        forall q | 0 <= q < n ensures Dot(m[q], x, n) == m[q][n] {
          if q != r { assert m'[q] == m[q]; }
        }
      }
    }
  }

  // ----- Shapes reached while columns are processed ---------------------------------------------

  /** Columns below @p col each hold exactly one nonzero entry, on the diagonal. */
  ghost predicate Diagonal(m: seq<Row>, n: nat, col: nat)
    requires Augmented(m, n) && col <= n
  {
    && (forall c :: 0 <= c < col ==> m[c][c] != 0.0)
    && (forall r, c :: 0 <= r < n && 0 <= c < col && r != c ==> m[r][c] == 0.0)
  }

  /** Some column below @p col is zero everywhere. */
  ghost predicate Dead(m: seq<Row>, n: nat, col: nat)
    requires Augmented(m, n) && col <= n
  {
    exists c :: 0 <= c < col && ZeroColumn(m, n, c)
  }

  ghost predicate ZeroColumn(m: seq<Row>, n: nat, c: nat)
    requires Augmented(m, n) && c < n
  {
    forall r :: 0 <= r < n ==> m[r][c] == 0.0
  }

  /** A product sum with at most the terms at @p i and @p j nonzero. */
  lemma {:induction false} SparseDot(a: Row, x: seq<real>, k: nat, i: nat, j: nat)
    requires k <= |a| && k <= |x| && i < |a| && i < |x| && j < |a| && j < |x| && i != j
    requires forall c :: 0 <= c < k && c != i && c != j ==> a[c] == 0.0 || x[c] == 0.0
    ensures Dot(a, x, k) == (if i < k then a[i] * x[i] else 0.0) + (if j < k then a[j] * x[j] else 0.0)
  {
    if k > 0 {
      SparseDot(a, x, k - 1, i, j);
      if k - 1 != i && k - 1 != j { assert a[k - 1] * x[k - 1] == 0.0; }
    }
  }

  lemma {:induction false} SingleDot(a: Row, x: seq<real>, k: nat, i: nat)
    requires k <= |a| && k <= |x| && i < |a| && i < |x|
    requires forall c :: 0 <= c < k && c != i ==> a[c] == 0.0 || x[c] == 0.0
    ensures Dot(a, x, k) == if i < k then a[i] * x[i] else 0.0
  {
    if k > 0 {
      SingleDot(a, x, k - 1, i);
      if k - 1 != i { assert a[k - 1] * x[k - 1] == 0.0; }
    }
  }

  /** A nonzero vector the coefficients send to zero rules out a unique solution. */
  lemma KernelMeansNotUnique(m: seq<Row>, n: nat, z: seq<real>, c: nat)
    requires Augmented(m, n) && |z| == n && c < n && z[c] != 0.0
    requires forall r :: 0 <= r < n ==> Dot(m[r], z, n) == 0.0
    ensures !UniquelySolvable(m, n)
  {
    forall x | Solves(m, n, x) ensures exists y :: Solves(m, n, y) && y != x {
      var y := seq(n, k requires 0 <= k < n => x[k] + z[k]);
      forall r | 0 <= r < n ensures Dot(m[r], y, n) == m[r][n] {
        DotSum(m[r], x, z, y, n);
      }
      assert Solves(m, n, y) && y[c] != x[c];
    }
  }

  lemma {:induction false} DotSum(a: Row, x: seq<real>, z: seq<real>, y: seq<real>, k: nat)
    requires k <= |a| && k <= |x| && |x| == |z| == |y|
    requires forall c :: 0 <= c < |x| ==> y[c] == x[c] + z[c]
    ensures Dot(a, y, k) == Dot(a, x, k) + Dot(a, z, k)
  {
    if k > 0 { DotSum(a, x, z, y, k - 1); }
  }

  lemma DeadIsNotUnique(m: seq<Row>, n: nat)
    requires Augmented(m, n) && Dead(m, n, n)
    ensures !UniquelySolvable(m, n)
  {
    var c :| 0 <= c < n && ZeroColumn(m, n, c);
    var z := seq(n, k => if k == c then 1.0 else 0.0);
    forall r | 0 <= r < n ensures Dot(m[r], z, n) == 0.0 {
      SingleDot(m[r], z, n, c);
    }
    KernelMeansNotUnique(m, n, z, c);
  }

  /** A zero pivot: no nonzero candidate from row @p col down. */
  ghost predicate NoPivot(m: seq<Row>, n: nat, col: nat)
    requires Augmented(m, n) && col < n
  {
    forall r :: col <= r < n ==> m[r][col] == 0.0
  }

  lemma DeadEarlier(m: seq<Row>, n: nat, col: nat, col': nat)
    requires Augmented(m, n) && col <= col' <= n && Dead(m, n, col)
    ensures Dead(m, n, col')
  {
  }

  /** A system with a unique solution never meets a zero pivot. */
  lemma ZeroPivotIsNotUnique(m: seq<Row>, n: nat, col: nat)
    requires Augmented(m, n) && col < n && NoPivot(m, n, col)
    requires Diagonal(m, n, col) || Dead(m, n, col)
    ensures !UniquelySolvable(m, n)
  {
    if Dead(m, n, col) {
      DeadEarlier(m, n, col, n);
      DeadIsNotUnique(m, n);
    } else {
      var z := seq(n, k requires 0 <= k < n =>
        if k < col then -(m[k][col] / m[k][k]) else if k == col then 1.0 else 0.0);
      forall r | 0 <= r < n ensures Dot(m[r], z, n) == 0.0 {
        if r < col {
          SparseDot(m[r], z, n, r, col);
          assert m[r][r] * z[r] == -m[r][col];
        } else {
          SingleDot(m[r], z, n, col);
        }
      }
      KernelMeansNotUnique(m, n, z, col);
    }
  }

  lemma DiagonalIsUnique(m: seq<Row>, n: nat, x: seq<real>)
    requires Augmented(m, n) && Diagonal(m, n, n)
    requires |x| == n && forall i :: 0 <= i < n ==> m[i][i] != 0.0 && x[i] == m[i][n] / m[i][i]
    ensures Solves(m, n, x) && forall y :: Solves(m, n, y) ==> y == x
  {
    forall r | 0 <= r < n ensures Dot(m[r], x, n) == m[r][n] {
      SingleDot(m[r], x, n, r);
    }
    forall y | Solves(m, n, y) ensures y == x {
      forall i | 0 <= i < n ensures y[i] == x[i] {
        SingleDot(m[i], y, n, i);
        Quotient(m[i][i], y[i], m[i][n]);
      }
    }
  }

  lemma Quotient(a: real, y: real, b: real)
    requires a != 0.0 && a * y == b
    ensures y == b / a
  {
  }

  lemma SameSolutionsSameUniqueness(m: seq<Row>, m': seq<Row>, n: nat)
    requires Augmented(m, n) && Augmented(m', n) && SameSolutions(m, m', n)
    ensures UniquelySolvable(m, n) <==> UniquelySolvable(m', n)
  {
  }

  // ----- The elimination loop -------------------------------------------------------------------

  function Abs(v: real): real {
    if v < 0.0 then -v else v
  }

  /** The first row of largest magnitude in the column, from the diagonal down. */
  method FindPivot(m: array<Row>, n: nat, col: nat) returns (piv: nat)
    requires Augmented(m[..], n) && col < n
    ensures col <= piv < n
    ensures forall r :: col <= r < n ==> Abs(m[r][col]) <= Abs(m[piv][col])
    ensures forall r :: col <= r < piv ==> Abs(m[r][col]) < Abs(m[piv][col])
  {
    assert forall r :: 0 <= r < n ==> m[..][r] == m[r];
    piv := col;
    for r := col + 1 to n
      invariant col <= piv < r
      invariant forall q :: col <= q < r ==> Abs(m[q][col]) <= Abs(m[piv][col])
      invariant forall q :: col <= q < piv ==> Abs(m[q][col]) < Abs(m[piv][col])
    {
      if Abs(m[r][col]) > Abs(m[piv][col]) { piv := r; }
    }
  }

  /** The inner loop over rows for one column whose pivot row is in place; false is a zero division. */
  method ClearColumn(m: array<Row>, n: nat, col: nat) returns (ok: bool)
    requires Augmented(m[..], n) && col < n
    requires Diagonal(m[..], n, col) || Dead(m[..], n, col)
    requires m[col][col] == 0.0 ==> NoPivot(m[..], n, col)
    modifies m
    ensures Augmented(m[..], n) && SameSolutions(old(m[..]), m[..], n)
    ensures ok ==> Diagonal(m[..], n, col + 1) || Dead(m[..], n, col + 1)
    ensures !ok ==> !UniquelySolvable(m[..], n)
  {
    var pv := m[col][col];
    ghost var before := m[..];
    ok := true;
    for r := 0 to n
      invariant Augmented(m[..], n) && SameSolutions(before, m[..], n)
      invariant m[..][col] == before[col]
      invariant Diagonal(m[..], n, col) || Dead(m[..], n, col)
      invariant pv == 0.0 ==> m[..] == before
      invariant forall q :: 0 <= q < r && q != col ==> m[..][q][col] == 0.0
    {
      ghost var here := m[..];
      if r != col && m[r][col] != 0.0 {
        if pv == 0.0 {
          ZeroPivotIsNotUnique(m[..], n, col);
          ok := false;
          return;
        }
        var f := m[r][col] / pv;
        m[r] := Minus(m[r], f, m[col]);
        assert m[..] == here[r := Minus(here[r], f, here[col])];
        EliminationKeepsSolutions(here, n, r, f, col);
        StepKeepsShape(here, n, r, f, col);
      }
    }
    ColumnCleared(m[..], n, col);
  }

  lemma StepKeepsShape(m: seq<Row>, n: nat, r: nat, f: real, col: nat)
    requires Augmented(m, n) && r < n && col < n && r != col
    requires Diagonal(m, n, col) || Dead(m, n, col)
    requires m[col][col] != 0.0 && f == m[r][col] / m[col][col]
    ensures Augmented(m[r := Minus(m[r], f, m[col])], n)
    ensures Diagonal(m[r := Minus(m[r], f, m[col])], n, col) || Dead(m[r := Minus(m[r], f, m[col])], n, col)
    ensures Minus(m[r], f, m[col])[col] == 0.0
  {
    var m' := m[r := Minus(m[r], f, m[col])];
    Cancelled(m[r][col], m[col][col], f);
    assert Minus(m[r], f, m[col])[col] == m[r][col] - f * m[col][col];
    assert forall c :: 0 <= c < n && m[col][c] == 0.0 ==> m'[r][c] == m[r][c];
    if Diagonal(m, n, col) {
      assert Diagonal(m', n, col);
    } else {
      var c :| 0 <= c < col && ZeroColumn(m, n, c);
      assert ZeroColumn(m', n, c);
    }
  }

  lemma Cancelled(a: real, b: real, f: real)
    requires b != 0.0 && f == a / b
    ensures a - f * b == 0.0
  {
  }

  lemma ColumnCleared(m: seq<Row>, n: nat, col: nat)
    requires Augmented(m, n) && col < n
    requires Diagonal(m, n, col) || Dead(m, n, col)
    requires forall q :: 0 <= q < n && q != col ==> m[q][col] == 0.0
    ensures Diagonal(m, n, col + 1) || Dead(m, n, col + 1)
  {
    if Dead(m, n, col) {
      DeadEarlier(m, n, col, col + 1);
    } else if m[col][col] == 0.0 {
      assert ZeroColumn(m, n, col);
    }
  }

  lemma SwapKeepsShape(m: seq<Row>, n: nat, col: nat, piv: nat)
    requires Augmented(m, n) && col <= piv < n
    requires Diagonal(m, n, col) || Dead(m, n, col)
    ensures Augmented(m[col := m[piv]][piv := m[col]], n)
    ensures Diagonal(m[col := m[piv]][piv := m[col]], n, col) || Dead(m[col := m[piv]][piv := m[col]], n, col)
  {
    var m' := m[col := m[piv]][piv := m[col]];
    if Diagonal(m, n, col) {
      assert Diagonal(m', n, col);
    } else {
      var c :| 0 <= c < col && ZeroColumn(m, n, c);
      assert ZeroColumn(m', n, c);
    }
  }

  /** The whole elimination and the closing divisions. None is a ZeroDivisionError. */
  method GaussJordan(m: array<Row>, n: nat) returns (ok: bool, x: seq<real>)
    requires Augmented(m[..], n)
    modifies m
    ensures ok <==> UniquelySolvable(old(m[..]), n)
    ensures ok ==> Solves(old(m[..]), n, x)
  {
    x := [];
    ghost var given := m[..];
    for col := 0 to n
      invariant Augmented(m[..], n) && SameSolutions(given, m[..], n)
      invariant Diagonal(m[..], n, col) || Dead(m[..], n, col)
    {
      ghost var here := m[..];
      var piv := FindPivot(m, n, col);
      m[col], m[piv] := m[piv], m[col];
      assert m[..] == here[col := here[piv]][piv := here[col]];
      SwapKeepsSolutions(here, n, col, piv);
      SwapKeepsShape(here, n, col, piv);
      assert m[col][col] == 0.0 ==> NoPivot(m[..], n, col);
      ok := ClearColumn(m, n, col);
      if !ok {
        SameSolutionsSameUniqueness(given, m[..], n);
        return;
      }
    }
    ok, x := Divide(m, n);
    SameSolutionsSameUniqueness(given, m[..], n);
  }

  lemma ZeroEntryMeansDead(m: seq<Row>, n: nat, i: nat)
    requires Augmented(m, n) && (Diagonal(m, n, n) || Dead(m, n, n)) && i < n && m[i][i] == 0.0
    ensures Dead(m, n, n)
  {
  }

  lemma FullDiagonalIsNotDead(m: seq<Row>, n: nat)
    requires Augmented(m, n) && forall i :: 0 <= i < n ==> m[i][i] != 0.0
    ensures !Dead(m, n, n)
  {
    forall c | 0 <= c < n ensures !ZeroColumn(m, n, c) {
      assert m[c][c] != 0.0;
    }
  }

  /** The closing divisions, each right-hand side by its diagonal entry. */
  method Divide(m: array<Row>, n: nat) returns (ok: bool, x: seq<real>)
    requires Augmented(m[..], n) && (Diagonal(m[..], n, n) || Dead(m[..], n, n))
    ensures ok <==> UniquelySolvable(m[..], n)
    ensures ok ==> Solves(m[..], n, x)
  {
    x := [];
    ok := true;
    assert forall r :: 0 <= r < n ==> m[..][r] == m[r];
    for i := 0 to n
      invariant |x| == i && forall k :: 0 <= k < i ==> m[k][k] != 0.0 && x[k] == m[k][n] / m[k][k]
    {
      if m[i][i] == 0.0 {
        ZeroEntryMeansDead(m[..], n, i);
        DeadIsNotUnique(m[..], n);
        ok := false;
        return;
      }
      x := x + [m[i][n] / m[i][i]];
    }
    FullDiagonalIsNotDead(m[..], n);
    DiagonalIsUnique(m[..], n, x);
  }

  // ----- The eight equations --------------------------------------------------------------------

  const N := 8

  /** The two linear conditions that make the map @p c carry @p p to @p q. */
  ghost predicate Carries(c: seq<real>, p: Point, q: Point)
    requires |c| == N
  {
    && c[0] * p.x + c[1] * p.y + c[2] == q.x * (c[6] * p.x + c[7] * p.y + 1.0)
    && c[3] * p.x + c[4] * p.y + c[5] == q.y * (c[6] * p.x + c[7] * p.y + 1.0)
  }

  ghost predicate CarriesCorners(c: seq<real>, pa: seq<Point>, pb: seq<Point>)
    requires |pa| >= 4 && |pb| >= 4
  {
    |c| == N && forall k :: 0 <= k < 4 ==> Carries(c, pa[k], pb[k])
  }

  /** Exactly one map carries the four output corners to the four input corners. */
  ghost predicate OneMap(pa: seq<Point>, pb: seq<Point>)
    requires |pa| >= 4 && |pb| >= 4
  {
    exists c :: CarriesCorners(c, pa, pb) && forall d :: CarriesCorners(d, pa, pb) ==> d == c
  }

  function RowU(p: Point, q: Point): Row {
    [p.x, p.y, 1.0, 0.0, 0.0, 0.0, -q.x * p.x, -q.x * p.y, q.x]
  }

  function RowV(p: Point, q: Point): Row {
    [0.0, 0.0, 0.0, p.x, p.y, 1.0, -q.y * p.x, -q.y * p.y, q.y]
  }

  lemma Dot8(a: Row, x: seq<real>)
    requires |a| == 9 && |x| == 8
    ensures Dot(a, x, 8) == a[0] * x[0] + a[1] * x[1] + a[2] * x[2] + a[3] * x[3]
                            + a[4] * x[4] + a[5] * x[5] + a[6] * x[6] + a[7] * x[7]
  {
    assert Dot(a, x, 1) == a[0] * x[0];
    assert Dot(a, x, 3) == Dot(a, x, 1) + a[1] * x[1] + a[2] * x[2];
    assert Dot(a, x, 5) == Dot(a, x, 3) + a[3] * x[3] + a[4] * x[4];
    assert Dot(a, x, 7) == Dot(a, x, 5) + a[5] * x[5] + a[6] * x[6];
  }

  lemma RowsStateTheMap(p: Point, q: Point, c: seq<real>)
    requires |c| == N
    ensures (Dot(RowU(p, q), c, N) == q.x && Dot(RowV(p, q), c, N) == q.y) <==> Carries(c, p, q)
  {
    Dot8(RowU(p, q), c);
    Dot8(RowV(p, q), c);
    Expand(q.x, p, c);
    Expand(q.y, p, c);
  }

  lemma Expand(u: real, p: Point, c: seq<real>)
    requires |c| == N
    ensures u * (c[6] * p.x + c[7] * p.y + 1.0) == u - (-u * p.x) * c[6] - (-u * p.y) * c[7]
  {
  }

  ghost predicate Encodes(m: seq<Row>, pa: seq<Point>, pb: seq<Point>)
    requires |pa| >= 4 && |pb| >= 4
  {
    && |m| >= N
    && forall k :: 0 <= k < 4 ==> m[2 * k] == RowU(pa[k], pb[k]) && m[2 * k + 1] == RowV(pa[k], pb[k])
  }

  lemma SolutionsAreMaps(m: seq<Row>, pa: seq<Point>, pb: seq<Point>)
    requires |pa| >= 4 && |pb| >= 4 && Encodes(m, pa, pb)
    ensures Augmented(m, N)
    ensures forall c :: Solves(m, N, c) <==> CarriesCorners(c, pa, pb)
  {
    hide RowU, RowV, Dot, Carries;
    forall r | 0 <= r < N ensures |m[r]| == N + 1 {
      RowOf(m, pa, pb, r);
    }
    forall c ensures Solves(m, N, c) <==> CarriesCorners(c, pa, pb) {
      if |c| == N { CornerByCorner(m, pa, pb, c); }
    }
  }

  lemma RowOf(m: seq<Row>, pa: seq<Point>, pb: seq<Point>, r: nat)
    requires |pa| >= 4 && |pb| >= 4 && Encodes(m, pa, pb) && r < N
    ensures m[r] == if r % 2 == 0 then RowU(pa[r / 2], pb[r / 2]) else RowV(pa[r / 2], pb[r / 2])
    ensures |m[r]| == N + 1
  {
    hide RowU, RowV;
    var k := r / 2;
    RightSides(pa[k], pb[k]);
    assert m[2 * k] == RowU(pa[k], pb[k]) && m[2 * k + 1] == RowV(pa[k], pb[k]);
    assert r == 2 * k || r == 2 * k + 1;
  }

  lemma CornerByCorner(m: seq<Row>, pa: seq<Point>, pb: seq<Point>, c: seq<real>)
    requires |pa| >= 4 && |pb| >= 4 && Encodes(m, pa, pb) && |c| == N
    requires Augmented(m, N)
    ensures (forall r :: 0 <= r < N ==> Dot(m[r], c, N) == m[r][N]) <==> (forall k :: 0 <= k < 4 ==> Carries(c, pa[k], pb[k]))
  {
    hide RowU, RowV, Dot, Carries;
    forall k | 0 <= k < 4
      ensures (Dot(m[2 * k], c, N) == m[2 * k][N] && Dot(m[2 * k + 1], c, N) == m[2 * k + 1][N])
              <==> Carries(c, pa[k], pb[k])
    {
      RowsStateTheMap(pa[k], pb[k], c);
      RightSides(pa[k], pb[k]);
    }
    if forall k :: 0 <= k < 4 ==> Carries(c, pa[k], pb[k]) {
      forall r | 0 <= r < N ensures Dot(m[r], c, N) == m[r][N] {
        assert Carries(c, pa[r / 2], pb[r / 2]);
        assert r == 2 * (r / 2) || r == 2 * (r / 2) + 1;
      }
    }
  }

  lemma RightSides(p: Point, q: Point)
    ensures |RowU(p, q)| == |RowV(p, q)| == N + 1
    ensures RowU(p, q)[N] == q.x && RowV(p, q)[N] == q.y
  {
  }

  lemma UniqueSolutionIsOneMap(m: seq<Row>, pa: seq<Point>, pb: seq<Point>)
    requires |pa| >= 4 && |pb| >= 4 && Encodes(m, pa, pb) && Augmented(m, N)
    ensures UniquelySolvable(m, N) <==> OneMap(pa, pb)
  {
    SolutionsAreMaps(m, pa, pb);
    forall c ensures (Solves(m, N, c) && forall y :: Solves(m, N, y) ==> y == c)
                     <==> (CarriesCorners(c, pa, pb) && forall d :: CarriesCorners(d, pa, pb) ==> d == c)
    {
    }
  }

  // ----- The warp itself ------------------------------------------------------------------------

  function Denominator(c: seq<real>, p: Point): real
    requires |c| == N
  {
    c[6] * p.x + c[7] * p.y + 1.0
  }

  /** What Image.PERSPECTIVE computes for an output point. */
  function Project(c: seq<real>, p: Point): Point
    requires |c| == N && Denominator(c, p) != 0.0
  {
    Point((c[0] * p.x + c[1] * p.y + c[2]) / Denominator(c, p), (c[3] * p.x + c[4] * p.y + c[5]) / Denominator(c, p))
  }

  /** Twice the signed area of a triangle; zero exactly when its corners are collinear. */
  function Area(p: Point, q: Point, r: Point): real {
    (q.x - p.x) * (r.y - p.y) - (r.x - p.x) * (q.y - p.y)
  }

  ghost predicate NoThreeCollinear(p: Point, q: Point, r: Point, s: Point) {
    Area(q, r, s) != 0.0 && Area(p, r, s) != 0.0 && Area(q, p, s) != 0.0 && Area(q, r, p) != 0.0
  }

  /** An affine form at @p p from its values at three other points, weighted by areas. */
  lemma Barycentric(a: real, b: real, e: real, p: Point, q: Point, r: Point, s: Point)
    ensures Area(q, r, s) * (a * p.x + b * p.y + e)
            == Area(p, r, s) * (a * q.x + b * q.y + e) + Area(q, p, s) * (a * r.x + b * r.y + e)
               + Area(q, r, p) * (a * s.x + b * s.y + e)
  {
  }

  /** Three weights that cancel at three non-collinear points are zero. */
  lemma NoRelation(a: real, b: real, c: real, q: Point, r: Point, s: Point)
    requires Area(q, r, s) != 0.0
    requires a + b + c == 0.0 && a * q.x + b * r.x + c * s.x == 0.0 && a * q.y + b * r.y + c * s.y == 0.0
    ensures a == 0.0 && b == 0.0 && c == 0.0
  {
  }

  /** With no three corners collinear on either side, no corner falls on the map's horizon. */
  lemma CornerOffHorizon(c: seq<real>, p: Point, q: Point, r: Point, s: Point, p': Point, q': Point, r': Point, s': Point)
    requires |c| == N && Carries(c, p, p') && Carries(c, q, q') && Carries(c, r, r') && Carries(c, s, s')
    requires NoThreeCollinear(p, q, r, s) && Area(q', r', s') != 0.0
    ensures Denominator(c, p) != 0.0
  {
    if Denominator(c, p) == 0.0 {
      Barycentric(c[6], c[7], 1.0, p, q, r, s);
      Barycentric(c[0], c[1], c[2], p, q, r, s);
      Barycentric(c[3], c[4], c[5], p, q, r, s);
      var (al, be, ga) := (Area(p, r, s), Area(q, p, s), Area(q, r, p));
      var (dq, dr, ds) := (Denominator(c, q), Denominator(c, r), Denominator(c, s));
      Reassociate(al, q'.x, dq);
      Reassociate(al, q'.y, dq);
      Reassociate(be, r'.x, dr);
      Reassociate(be, r'.y, dr);
      Reassociate(ga, s'.x, ds);
      Reassociate(ga, s'.y, ds);
      NoRelation(al * dq, be * dr, ga * ds, q', r', s');
      HorizonIsALine(c, q, r, s);
    }
  }

  lemma Reassociate(a: real, u: real, d: real)
    ensures a * (u * d) == (a * d) * u
  {
  }

  lemma HorizonIsALine(c: seq<real>, q: Point, r: Point, s: Point)
    requires |c| == N && Area(q, r, s) != 0.0
    ensures Denominator(c, q) != 0.0 || Denominator(c, r) != 0.0 || Denominator(c, s) != 0.0
  {
  }

  /** A found map sends every output corner exactly onto its input corner. */
  lemma CornersLand(c: seq<real>, pa: seq<Point>, pb: seq<Point>)
    requires |pa| >= 4 && |pb| >= 4 && CarriesCorners(c, pa, pb)
    requires NoThreeCollinear(pa[0], pa[1], pa[2], pa[3]) && NoThreeCollinear(pb[0], pb[1], pb[2], pb[3])
    ensures forall k :: 0 <= k < 4 ==> Denominator(c, pa[k]) != 0.0 && Project(c, pa[k]) == pb[k]
  {
    assert Carries(c, pa[0], pb[0]) && Carries(c, pa[1], pb[1]) && Carries(c, pa[2], pb[2]) && Carries(c, pa[3], pb[3]);
    AllOffHorizon(c, pa[0], pa[1], pa[2], pa[3], pb[0], pb[1], pb[2], pb[3]);
    Lands(c, pa[0], pb[0]);
    Lands(c, pa[1], pb[1]);
    Lands(c, pa[2], pb[2]);
    Lands(c, pa[3], pb[3]);
  }

  lemma AllOffHorizon(c: seq<real>, p: Point, q: Point, r: Point, s: Point, p': Point, q': Point, r': Point, s': Point)
    requires |c| == N && Carries(c, p, p') && Carries(c, q, q') && Carries(c, r, r') && Carries(c, s, s')
    requires NoThreeCollinear(p, q, r, s) && NoThreeCollinear(p', q', r', s')
    ensures Denominator(c, p) != 0.0 && Denominator(c, q) != 0.0 && Denominator(c, r) != 0.0 && Denominator(c, s) != 0.0
  {
    hide Area, Carries, Denominator;
    Permute(p, q, r, s);
    Permute(p', q', r', s');
    CornerOffHorizon(c, p, q, r, s, p', q', r', s');
    CornerOffHorizon(c, q, p, r, s, q', p', r', s');
    CornerOffHorizon(c, r, q, p, s, r', q', p', s');
    CornerOffHorizon(c, s, q, r, p, s', q', r', p');
  }

  lemma Lands(c: seq<real>, p: Point, q: Point)
    requires |c| == N && Carries(c, p, q) && Denominator(c, p) != 0.0
    ensures Project(c, p) == q
  {
  }

  lemma Permute(p: Point, q: Point, r: Point, s: Point)
    requires NoThreeCollinear(p, q, r, s)
    ensures NoThreeCollinear(q, p, r, s) && NoThreeCollinear(r, q, p, s) && NoThreeCollinear(s, q, r, p)
  {
  }
}
