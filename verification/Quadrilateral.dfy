/**
 `find_coeffs` of scripts/build_stream_image.py on any two quadrilaterals: a number read off the corners says
 whether it answers, and the map it answers with is written out. In general position the number is zero when
 the output origin is on the line the map sends to infinity, because the code fixes the last coefficient to 1.
 */
module Quadrilateral {
  import opened Perspective

  const ORIGIN := Point(0.0, 0.0)

  /** A form a·x + b·y + e. */
  datatype Form = Form(a: real, b: real, e: real)

  function At(f: Form, p: Point): real {
    f.a * p.x + f.b * p.y + f.e
  }

  function Over(f: Form, k: real): Form
    requires k != 0.0
  {
    Form(f.a / k, f.b / k, f.e / k)
  }

  /** The form with values wq, wr, ws at three corners, times the area they span. */
  function Through(q: Point, r: Point, s: Point, wq: real, wr: real, ws: real): Form {
    Form((r.y - s.y) * wq + (s.y - q.y) * wr + (q.y - r.y) * ws,
         (s.x - r.x) * wq + (q.x - s.x) * wr + (r.x - q.x) * ws,
         (r.x * s.y - s.x * r.y) * wq + (s.x * q.y - q.x * s.y) * wr + (q.x * r.y - r.x * q.y) * ws)
  }

  lemma ThroughByAreas(q: Point, r: Point, s: Point, wq: real, wr: real, ws: real, p: Point)
    ensures At(Through(q, r, s, wq, wr, ws), p) == Area(p, r, s) * wq + Area(q, p, s) * wr + Area(q, r, p) * ws
  {
    assert Area(p, r, s) == (r.y - s.y) * p.x + (s.x - r.x) * p.y + (r.x * s.y - s.x * r.y);
    assert Area(q, p, s) == (s.y - q.y) * p.x + (q.x - s.x) * p.y + (s.x * q.y - q.x * s.y);
    assert Area(q, r, p) == (q.y - r.y) * p.x + (r.x - q.x) * p.y + (q.x * r.y - r.x * q.y);
  }

  lemma ThroughAtCorners(q: Point, r: Point, s: Point, wq: real, wr: real, ws: real)
    ensures var f, area := Through(q, r, s, wq, wr, ws), Area(q, r, s);
            At(f, q) == area * wq && At(f, r) == area * wr && At(f, s) == area * ws
  {
    ThroughByAreas(q, r, s, wq, wr, ws, q);
    ThroughByAreas(q, r, s, wq, wr, ws, r);
    ThroughByAreas(q, r, s, wq, wr, ws, s);
  }

  lemma AtOver(f: Form, k: real, p: Point)
    requires k != 0.0
    ensures At(Over(f, k), p) * k == At(f, p)
  {
    Quotients(f.a, f.b, f.e, k, p.x, p.y);
  }

  lemma Quotients(a: real, b: real, e: real, k: real, x: real, y: real)
    requires k != 0.0
    ensures ((a / k) * x + (b / k) * y + e / k) * k == a * x + b * y + e
  {
    assert (a / k) * k == a && (b / k) * k == b && (e / k) * k == e;
    assert ((a / k) * x) * k == ((a / k) * k) * x;
    assert ((b / k) * y) * k == ((b / k) * k) * y;
  }

  // ----- Two quadrilaterals ---------------------------------------------------------------------

  datatype Quad = Quad(p: Point, q: Point, r: Point, s: Point)

  ghost predicate Proper(o: Quad) {
    NoThreeCollinear(o.p, o.q, o.r, o.s)
  }

  function Area0(o: Quad): real { Area(o.q, o.r, o.s) }
  function Area1(o: Quad): real { Area(o.p, o.r, o.s) }
  function Area2(o: Quad): real { Area(o.q, o.p, o.s) }
  function Area3(o: Quad): real { Area(o.q, o.r, o.p) }

  /** A homogeneous coordinate of an image point. */
  datatype Axis = X | Y | One

  function Of(k: Axis, p: Point): real {
    match k case X => p.x case Y => p.y case One => 1.0
  }

  /** The first corner from the other three, weighted by areas. */
  lemma FirstFromOthers(o: Quad, k: Axis)
    ensures Area0(o) * Of(k, o.p) == Area1(o) * Of(k, o.q) + Area2(o) * Of(k, o.r) + Area3(o) * Of(k, o.s)
  {
    match k
    case X => Barycentric(1.0, 0.0, 0.0, o.p, o.q, o.r, o.s);
    case Y => Barycentric(0.0, 1.0, 0.0, o.p, o.q, o.r, o.s);
    case One => Barycentric(0.0, 0.0, 1.0, o.p, o.q, o.r, o.s);
  }

  /** What the denominator is at the last three corners, up to one common factor. */
  function Weight1(o: Quad, i: Quad): real { Area1(i) * (Area2(o) * Area3(o)) }
  function Weight2(o: Quad, i: Quad): real { Area2(i) * (Area1(o) * Area3(o)) }
  function Weight3(o: Quad, i: Quad): real { Area3(i) * (Area1(o) * Area2(o)) }

  /** The coordinate @p k of the numerators there. */
  function Value1(o: Quad, i: Quad, k: Axis): real { Weight1(o, i) * Of(k, i.q) }
  function Value2(o: Quad, i: Quad, k: Axis): real { Weight2(o, i) * Of(k, i.r) }
  function Value3(o: Quad, i: Quad, k: Axis): real { Weight3(o, i) * Of(k, i.s) }

  /** The map's three forms on that scale. One is the denominator. */
  function Raw(o: Quad, i: Quad, k: Axis): Form {
    Through(o.q, o.r, o.s, Value1(o, i, k), Value2(o, i, k), Value3(o, i, k))
  }

  lemma RawByAreas(o: Quad, i: Quad, k: Axis, p: Point)
    ensures At(Raw(o, i, k), p)
         == Area(p, o.r, o.s) * Value1(o, i, k) + Area(o.q, p, o.s) * Value2(o, i, k) + Area(o.q, o.r, p) * Value3(o, i, k)
  {
    hide Through, At, Area, Value1, Value2, Value3;
    ThroughByAreas(o.q, o.r, o.s, Value1(o, i, k), Value2(o, i, k), Value3(o, i, k), p);
  }

  /** What the raw denominator is at the output origin. */
  function AtOrigin(o: Quad, i: Quad): real {
    Raw(o, i, One).e
  }

  /** The coefficients, scaled so that the denominator is 1 at the origin. */
  function TheMap(o: Quad, i: Quad): (c: seq<real>)
    requires AtOrigin(o, i) != 0.0
    ensures |c| == N
  {
    var k := AtOrigin(o, i);
    var u, v, d := Over(Raw(o, i, X), k), Over(Raw(o, i, Y), k), Over(Raw(o, i, One), k);
    [u.a, u.b, u.e, v.a, v.b, v.e, d.a, d.b]
  }

  /** The three forms of a coefficient list. */
  function Given(c: seq<real>, k: Axis): Form
    requires |c| == N
  {
    match k
    case X => Form(c[0], c[1], c[2])
    case Y => Form(c[3], c[4], c[5])
    case One => Form(c[6], c[7], 1.0)
  }

  ghost predicate CarriesQuad(c: seq<real>, o: Quad, i: Quad) {
    |c| == N && Carries(c, o.p, i.p) && Carries(c, o.q, i.q) && Carries(c, o.r, i.r) && Carries(c, o.s, i.s)
  }

  lemma CarriesByForms(c: seq<real>, p: Point, p': Point)
    requires |c| == N
    ensures Carries(c, p, p') <==> forall k :: At(Given(c, k), p) == Of(k, p') * At(Given(c, One), p)
  {
    assert At(Given(c, X), p) == c[0] * p.x + c[1] * p.y + c[2];
    assert At(Given(c, Y), p) == c[3] * p.x + c[4] * p.y + c[5];
    assert At(Given(c, One), p) == c[6] * p.x + c[7] * p.y + 1.0;
    assert Of(One, p') == 1.0 && Of(X, p') == p'.x && Of(Y, p') == p'.y;
  }

  // ----- The map exists -------------------------------------------------------------------------

  lemma RawAtFirst(o: Quad, i: Quad, k: Axis)
    ensures At(Raw(o, i, k), o.p) == Of(k, i.p) * At(Raw(o, i, One), o.p)
  {
    RawIs(o, i, k);
    RawIs(o, i, One);
    var all := Area1(o) * (Area2(o) * Area3(o));
    hide Raw, At, Area0;
    Swap(all, Area0(i), Of(k, i.p));
  }

  lemma RawIs(o: Quad, i: Quad, k: Axis)
    ensures At(Raw(o, i, k), o.p) == Area1(o) * (Area2(o) * Area3(o)) * (Area0(i) * Of(k, i.p))
  {
    RawByAreas(o, i, k, o.p);
    FirstFromOthers(i, k);
    ValuesAre(o, i, k);
    AreasAtFirst(o);
    hide Area, Area0, Area1, Area2, Area3, At, Of, Raw, Value1, Value2, Value3;
    Collect(Area1(o), Area2(o), Area3(o), Area1(i), Area2(i), Area3(i), Of(k, i.q), Of(k, i.r), Of(k, i.s),
            Value1(o, i, k), Value2(o, i, k), Value3(o, i, k), Area0(i) * Of(k, i.p));
  }

  lemma ValuesAre(o: Quad, i: Quad, k: Axis)
    ensures Value1(o, i, k) == Area1(i) * (Area2(o) * Area3(o)) * Of(k, i.q)
    ensures Value2(o, i, k) == Area2(i) * (Area1(o) * Area3(o)) * Of(k, i.r)
    ensures Value3(o, i, k) == Area3(i) * (Area1(o) * Area2(o)) * Of(k, i.s)
  {
    hide Area1, Area2, Area3, Of;
  }

  lemma AreasAtFirst(o: Quad)
    ensures Area(o.p, o.r, o.s) == Area1(o) && Area(o.q, o.p, o.s) == Area2(o) && Area(o.q, o.r, o.p) == Area3(o)
  {
  }

  lemma Collect(a1: real, a2: real, a3: real, b1: real, b2: real, b3: real, x: real, y: real, z: real,
                v1: real, v2: real, v3: real, total: real)
    requires v1 == b1 * (a2 * a3) * x && v2 == b2 * (a1 * a3) * y && v3 == b3 * (a1 * a2) * z
    requires total == b1 * x + b2 * y + b3 * z
    ensures a1 * v1 + a2 * v2 + a3 * v3 == a1 * (a2 * a3) * total
  {
  }

  lemma Swap(a: real, w: real, x: real)
    ensures a * (w * x) == x * (a * w)
  {
  }

  lemma RawAtOthers(o: Quad, i: Quad, k: Axis)
    ensures At(Raw(o, i, k), o.q) == Of(k, i.q) * At(Raw(o, i, One), o.q)
    ensures At(Raw(o, i, k), o.r) == Of(k, i.r) * At(Raw(o, i, One), o.r)
    ensures At(Raw(o, i, k), o.s) == Of(k, i.s) * At(Raw(o, i, One), o.s)
  {
    CornerOfRaw(o, i, k);
    CornerOfRaw(o, i, One);
    hide At, Raw, Area0, Weight1, Weight2, Weight3;
    Swap(Area0(o), Weight1(o, i), Of(k, i.q));
    Swap(Area0(o), Weight2(o, i), Of(k, i.r));
    Swap(Area0(o), Weight3(o, i), Of(k, i.s));
  }

  lemma CornerOfRaw(o: Quad, i: Quad, k: Axis)
    ensures At(Raw(o, i, k), o.q) == Area0(o) * Value1(o, i, k)
    ensures At(Raw(o, i, k), o.r) == Area0(o) * Value2(o, i, k)
    ensures At(Raw(o, i, k), o.s) == Area0(o) * Value3(o, i, k)
  {
    hide Through, At, Area, Value1, Value2, Value3;
    ThroughAtCorners(o.q, o.r, o.s, Value1(o, i, k), Value2(o, i, k), Value3(o, i, k));
  }

  lemma TheMapCarries(o: Quad, i: Quad)
    requires AtOrigin(o, i) != 0.0
    ensures CarriesQuad(TheMap(o, i), o, i)
  {
    hide Raw, At, TheMap, Carries;
    forall k ensures At(Raw(o, i, k), o.p) == Of(k, i.p) * At(Raw(o, i, One), o.p) {
      RawAtFirst(o, i, k);
    }
    forall k ensures At(Raw(o, i, k), o.q) == Of(k, i.q) * At(Raw(o, i, One), o.q)
                  && At(Raw(o, i, k), o.r) == Of(k, i.r) * At(Raw(o, i, One), o.r)
                  && At(Raw(o, i, k), o.s) == Of(k, i.s) * At(Raw(o, i, One), o.s) {
      RawAtOthers(o, i, k);
    }
    MapCarries(o, i, o.p, i.p);
    MapCarries(o, i, o.q, i.q);
    MapCarries(o, i, o.r, i.r);
    MapCarries(o, i, o.s, i.s);
  }

  lemma MapForms(o: Quad, i: Quad, k: Axis)
    requires AtOrigin(o, i) != 0.0
    ensures Given(TheMap(o, i), k) == Over(Raw(o, i, k), AtOrigin(o, i))
  {
    hide Raw;
    var h := Raw(o, i, One).e;
    assert h / h == 1.0;
  }

  lemma MapCarries(o: Quad, i: Quad, p: Point, p': Point)
    requires AtOrigin(o, i) != 0.0
    requires forall k :: At(Raw(o, i, k), p) == Of(k, p') * At(Raw(o, i, One), p)
    ensures Carries(TheMap(o, i), p, p')
  {
    hide TheMap, Given, Raw, At, Of, AtOrigin, Carries;
    forall k ensures At(Given(TheMap(o, i), k), p) == Of(k, p') * At(Given(TheMap(o, i), One), p) {
      ScaledBack(o, i, k, p);
      ScaledBack(o, i, One, p);
      assert At(Raw(o, i, k), p) == Of(k, p') * At(Raw(o, i, One), p);
      Divided(At(Given(TheMap(o, i), k), p), Of(k, p'), At(Given(TheMap(o, i), One), p), AtOrigin(o, i));
    }
    CarriesByForms(TheMap(o, i), p, p');
  }

  lemma ScaledBack(o: Quad, i: Quad, k: Axis, p: Point)
    requires AtOrigin(o, i) != 0.0
    ensures At(Given(TheMap(o, i), k), p) * AtOrigin(o, i) == At(Raw(o, i, k), p)
  {
    MapForms(o, i, k);
    hide TheMap, Given, Raw, Over, At;
    AtOver(Raw(o, i, k), AtOrigin(o, i), p);
  }

  lemma Divided(u: real, x: real, d: real, k: real)
    requires k != 0.0 && u * k == x * (d * k)
    ensures u == x * d
  {
    assert (u - x * d) * k == 0.0;
  }

  // ----- What a carrying list satisfies ---------------------------------------------------------

  datatype Vec = Vec(x: real, y: real, z: real)

  function Inner(a: Vec, b: Vec): real {
    a.x * b.x + a.y * b.y + a.z * b.z
  }

  function Cross(a: Vec, b: Vec): Vec {
    Vec(a.y * b.z - a.z * b.y, a.z * b.x - a.x * b.z, a.x * b.y - a.y * b.x)
  }

  /** A vector orthogonal to two others is along their cross product, whatever is measured of both. */
  lemma AlongTheCross(a: Vec, b: Vec, d: Vec, m: Vec, w: Vec, t: real, h: real)
    requires Inner(a, d) == 0.0 && Inner(b, d) == 0.0
    requires w == Cross(a, b) && t == Inner(m, d) && h == Inner(m, w)
    ensures w.x * t == h * d.x && w.y * t == h * d.y && w.z * t == h * d.z
  {
    Parallel(a, b, d);
    Exchange(w, d, m);
  }

  lemma Parallel(a: Vec, b: Vec, d: Vec)
    requires Inner(a, d) == 0.0 && Inner(b, d) == 0.0
    ensures var w := Cross(a, b); w.x * d.y == w.y * d.x && w.y * d.z == w.z * d.y && w.z * d.x == w.x * d.z
  {
    var w := Cross(a, b);
    assert w.x * d.y - w.y * d.x == a.z * -Inner(b, d) + b.z * Inner(a, d);
    assert w.y * d.z - w.z * d.y == a.x * -Inner(b, d) + b.x * Inner(a, d);
    assert w.z * d.x - w.x * d.z == a.y * -Inner(b, d) + b.y * Inner(a, d);
  }

  lemma Exchange(w: Vec, d: Vec, m: Vec)
    requires w.x * d.y == w.y * d.x && w.y * d.z == w.z * d.y && w.z * d.x == w.x * d.z
    ensures w.x * Inner(m, d) == Inner(m, w) * d.x
    ensures w.y * Inner(m, d) == Inner(m, w) * d.y
    ensures w.z * Inner(m, d) == Inner(m, w) * d.z
  {
    assert w.x * Inner(m, d) == m.x * (w.x * d.x) + m.y * (w.x * d.y) + m.z * (w.x * d.z);
    assert w.y * Inner(m, d) == m.x * (w.y * d.x) + m.y * (w.y * d.y) + m.z * (w.y * d.z);
    assert w.z * Inner(m, d) == m.x * (w.z * d.x) + m.y * (w.z * d.y) + m.z * (w.z * d.z);
  }

  /** How the last three corners' images stand off the first, on axis @p k, weighted by the output areas. */
  function Spread(o: Quad, i: Quad, k: Axis): Vec {
    Vec(Area1(o) * (Of(k, i.q) - Of(k, i.p)), Area2(o) * (Of(k, i.r) - Of(k, i.p)), Area3(o) * (Of(k, i.s) - Of(k, i.p)))
  }

  /** The three areas that weigh values at the last three corners into the value at @p p. */
  function Weighing(o: Quad, p: Point): Vec {
    Vec(Area(p, o.r, o.s), Area(o.q, p, o.s), Area(o.q, o.r, p))
  }

  function Weights(o: Quad, i: Quad): Vec {
    Vec(Weight1(o, i), Weight2(o, i), Weight3(o, i))
  }

  function Values(f: Form, o: Quad): Vec {
    Vec(At(f, o.q), At(f, o.r), At(f, o.s))
  }

  lemma SpreadsCross(o: Quad, i: Quad)
    ensures Cross(Spread(o, i, X), Spread(o, i, Y)) == Weights(o, i)
  {
    var a1, a2, a3 := Area1(o), Area2(o), Area3(o);
    var x1, x2, x3 := i.q.x - i.p.x, i.r.x - i.p.x, i.s.x - i.p.x;
    var y1, y2, y3 := i.q.y - i.p.y, i.r.y - i.p.y, i.s.y - i.p.y;
    ImageAreas(i);
    hide Area1, Area2, Area3, Cross;
    assert Spread(o, i, X) == Vec(a1 * x1, a2 * x2, a3 * x3) && Spread(o, i, Y) == Vec(a1 * y1, a2 * y2, a3 * y3);
    hide Spread;
    CrossOfScaled(a1, a2, a3, x1, x2, x3, y1, y2, y3, Area1(i), Area2(i), Area3(i));
  }

  lemma CrossOfScaled(a1: real, a2: real, a3: real, x1: real, x2: real, x3: real, y1: real, y2: real, y3: real,
                      b1: real, b2: real, b3: real)
    requires b1 == x2 * y3 - x3 * y2 && b2 == x3 * y1 - x1 * y3 && b3 == x1 * y2 - x2 * y1
    ensures var w := Cross(Vec(a1 * x1, a2 * x2, a3 * x3), Vec(a1 * y1, a2 * y2, a3 * y3));
            w.x == b1 * (a2 * a3) && w.y == b2 * (a1 * a3) && w.z == b3 * (a1 * a2)
  {
    var w := Cross(Vec(a1 * x1, a2 * x2, a3 * x3), Vec(a1 * y1, a2 * y2, a3 * y3));
    assert w.x == (a2 * x2) * (a3 * y3) - (a3 * x3) * (a2 * y2);
    assert w.y == (a3 * x3) * (a1 * y1) - (a1 * x1) * (a3 * y3);
    assert w.z == (a1 * x1) * (a2 * y2) - (a2 * x2) * (a1 * y1);
    hide Cross;
    Pulled(a2, a3, x2, y3, x3, y2, b1);
    Pulled(a3, a1, x3, y1, x1, y3, b2);
    Pulled(a1, a2, x1, y2, x2, y1, b3);
  }

  lemma ImageAreas(i: Quad)
    ensures Area1(i) == (i.r.x - i.p.x) * (i.s.y - i.p.y) - (i.s.x - i.p.x) * (i.r.y - i.p.y)
    ensures Area2(i) == (i.s.x - i.p.x) * (i.q.y - i.p.y) - (i.q.x - i.p.x) * (i.s.y - i.p.y)
    ensures Area3(i) == (i.q.x - i.p.x) * (i.r.y - i.p.y) - (i.r.x - i.p.x) * (i.q.y - i.p.y)
  {
  }

  lemma Pulled(a: real, b: real, x: real, y: real, u: real, v: real, minor: real)
    requires minor == x * y - u * v
    ensures (a * x) * (b * y) - (b * u) * (a * v) == minor * (a * b) == minor * (b * a)
  {
  }

  /** At the first corner a form is what its values at the others weigh to. */
  lemma ByAreas(f: Form, o: Quad, p: Point)
    ensures Area0(o) * At(f, p) == Inner(Weighing(o, p), Values(f, o))
  {
    Barycentric(f.a, f.b, f.e, p, o.q, o.r, o.s);
    hide Area;
  }

  /** The forms (@p u, @p v, @p d) send every corner of @p o to its partner in @p i. */
  ghost predicate Fit(u: Form, v: Form, d: Form, o: Quad, i: Quad) {
    && FitAt(u, v, d, o.p, i.p) && FitAt(u, v, d, o.q, i.q) && FitAt(u, v, d, o.r, i.r) && FitAt(u, v, d, o.s, i.s)
  }

  predicate FitAt(u: Form, v: Form, d: Form, p: Point, p': Point) {
    At(u, p) == p'.x * At(d, p) && At(v, p) == p'.y * At(d, p)
  }

  lemma CarriesIsFit(c: seq<real>, o: Quad, i: Quad)
    requires |c| == N
    ensures CarriesQuad(c, o, i) <==> Fit(Given(c, X), Given(c, Y), Given(c, One), o, i)
  {
    hide Carries, FitAt, Given;
    CarriesIsFitAt(c, o.p, i.p);
    CarriesIsFitAt(c, o.q, i.q);
    CarriesIsFitAt(c, o.r, i.r);
    CarriesIsFitAt(c, o.s, i.s);
  }

  lemma CarriesIsFitAt(c: seq<real>, p: Point, p': Point)
    requires |c| == N
    ensures Carries(c, p, p') <==> FitAt(Given(c, X), Given(c, Y), Given(c, One), p, p')
  {
  }

  /** Fitting forms leave the denominator's values orthogonal to both spreads. */
  lemma FitIsOrthogonal(f: Form, d: Form, o: Quad, i: Quad, k: Axis)
    requires At(f, o.p) == Of(k, i.p) * At(d, o.p) && At(f, o.q) == Of(k, i.q) * At(d, o.q)
    requires At(f, o.r) == Of(k, i.r) * At(d, o.r) && At(f, o.s) == Of(k, i.s) * At(d, o.s)
    ensures Inner(Spread(o, i, k), Values(d, o)) == 0.0
  {
    hide Area0, Area1, Area2, Area3, At, Of;
    FirstByAreas(f, o);
    FirstByAreas(d, o);
    Balanced(Area0(o), Area1(o), Area2(o), Area3(o), At(d, o.p), At(d, o.q), At(d, o.r), At(d, o.s),
             Of(k, i.p), Of(k, i.q), Of(k, i.r), Of(k, i.s), At(f, o.p), At(f, o.q), At(f, o.r), At(f, o.s));
  }

  lemma FirstByAreas(f: Form, o: Quad)
    ensures Area0(o) * At(f, o.p) == Area1(o) * At(f, o.q) + Area2(o) * At(f, o.r) + Area3(o) * At(f, o.s)
  {
    Barycentric(f.a, f.b, f.e, o.p, o.q, o.r, o.s);
    hide Area;
  }

  lemma Balanced(a0: real, a1: real, a2: real, a3: real, dp: real, dq: real, dr: real, ds: real,
                 xp: real, xq: real, xr: real, xs: real, fp: real, fq: real, fr: real, fs: real)
    requires a0 * dp == a1 * dq + a2 * dr + a3 * ds && a0 * fp == a1 * fq + a2 * fr + a3 * fs
    requires fp == xp * dp && fq == xq * dq && fr == xr * dr && fs == xs * ds
    ensures a1 * (xq - xp) * dq + a2 * (xr - xp) * dr + a3 * (xs - xp) * ds == 0.0
  {
    assert a0 * (xp * dp) == xp * (a1 * dq + a2 * dr + a3 * ds);
  }

  lemma FitIsOrthogonalToBoth(u: Form, v: Form, d: Form, o: Quad, i: Quad)
    requires Fit(u, v, d, o, i)
    ensures Inner(Spread(o, i, X), Values(d, o)) == 0.0 && Inner(Spread(o, i, Y), Values(d, o)) == 0.0
  {
    hide At, Inner, Spread, Values;
    FitIsOrthogonal(u, d, o, i, X);
    FitIsOrthogonal(v, d, o, i, Y);
  }

  /** A form's value at the origin, times the area of the last three corners. */
  function Scaled(d: Form, o: Quad): real {
    Area0(o) * d.e
  }

  /** So they are the raw weights, up to what the raw denominator is at the origin. */
  lemma ValuesForced(u: Form, v: Form, d: Form, o: Quad, i: Quad)
    requires Fit(u, v, d, o, i)
    ensures var w, z := Weights(o, i), Values(d, o);
            && w.x * Scaled(d, o) == AtOrigin(o, i) * z.x
            && w.y * Scaled(d, o) == AtOrigin(o, i) * z.y
            && w.z * Scaled(d, o) == AtOrigin(o, i) * z.z
  {
    FitIsOrthogonalToBoth(u, v, d, o, i);
    hide Fit, FitAt, Weights, Values, Spread, Weighing, Inner, Cross, Area0, AtOrigin;
    SpreadsCross(o, i);
    ByAreas(d, o, ORIGIN);
    OriginWeighs(o, i);
    assert At(d, ORIGIN) == d.e;
    assert Scaled(d, o) == Area0(o) * At(d, ORIGIN);
    hide At, Scaled;
    AlongTheCross(Spread(o, i, X), Spread(o, i, Y), Values(d, o), Weighing(o, ORIGIN), Weights(o, i), Scaled(d, o), AtOrigin(o, i));
    assert Weights(o, i).x * Scaled(d, o) == AtOrigin(o, i) * Values(d, o).x;
    assert Weights(o, i).y * Scaled(d, o) == AtOrigin(o, i) * Values(d, o).y;
    assert Weights(o, i).z * Scaled(d, o) == AtOrigin(o, i) * Values(d, o).z;
  }

  lemma OriginWeighs(o: Quad, i: Quad)
    ensures AtOrigin(o, i) == Inner(Weighing(o, ORIGIN), Weights(o, i))
    ensures AtOrigin(o, i) == At(Raw(o, i, One), ORIGIN)
  {
    RawByAreas(o, i, One, ORIGIN);
    hide Raw, Area, Weight1, Weight2, Weight3;
  }

  /** The raw forms are the given ones times the raw denominator at the origin. */
  ghost predicate Proportional(c: seq<real>, o: Quad, i: Quad)
    requires |c| == N
  {
    forall k, p :: At(Raw(o, i, k), p) == AtOrigin(o, i) * At(Given(c, k), p)
  }

  /** With the last three corners not in line, by the values there. */
  lemma ProportionalByValues(c: seq<real>, o: Quad, i: Quad)
    requires CarriesQuad(c, o, i) && Area0(o) != 0.0
    ensures Proportional(c, o, i)
  {
    hide Carries, Given, At, Raw, AtOrigin, Area0;
    forall k, p ensures At(Raw(o, i, k), p) == AtOrigin(o, i) * At(Given(c, k), p) {
      CornersProportional(c, o, i, k);
      RawAndGiven(c, o, i, k, p);
    }
  }

  lemma CornersProportional(c: seq<real>, o: Quad, i: Quad, k: Axis)
    requires CarriesQuad(c, o, i)
    ensures At(Raw(o, i, k), o.q) == AtOrigin(o, i) * At(Given(c, k), o.q)
    ensures At(Raw(o, i, k), o.r) == AtOrigin(o, i) * At(Given(c, k), o.r)
    ensures At(Raw(o, i, k), o.s) == AtOrigin(o, i) * At(Given(c, k), o.s)
  {
    hide Carries, Given, At, Raw, AtOrigin, Area0, Weight1, Weight2, Weight3, Value1, Value2, Value3, Fit, Of, Scaled;
    CarriesIsFit(c, o, i);
    ValuesForced(Given(c, X), Given(c, Y), Given(c, One), o, i);
    GivenIsScaled(c, o);
    CornerOfRaw(o, i, k);
    ValueByWeight(o, i, k);
    CornerProportional(c, k, o.q, i.q, Area0(o), Weight1(o, i), AtOrigin(o, i), At(Raw(o, i, k), o.q), Value1(o, i, k));
    CornerProportional(c, k, o.r, i.r, Area0(o), Weight2(o, i), AtOrigin(o, i), At(Raw(o, i, k), o.r), Value2(o, i, k));
    CornerProportional(c, k, o.s, i.s, Area0(o), Weight3(o, i), AtOrigin(o, i), At(Raw(o, i, k), o.s), Value3(o, i, k));
  }

  lemma ValueByWeight(o: Quad, i: Quad, k: Axis)
    ensures Value1(o, i, k) == Weight1(o, i) * Of(k, i.q)
    ensures Value2(o, i, k) == Weight2(o, i) * Of(k, i.r)
    ensures Value3(o, i, k) == Weight3(o, i) * Of(k, i.s)
  {
    hide Weight1, Weight2, Weight3, Of;
  }

  lemma CornerProportional(c: seq<real>, k: Axis, p: Point, p': Point, a: real, w: real, h: real, raw: real, v: real)
    requires |c| == N && Carries(c, p, p')
    requires w * a == h * At(Given(c, One), p) && v == w * Of(k, p') && raw == a * v
    ensures raw == h * At(Given(c, k), p)
  {
    hide Carries, Given, At, Of;
    CarriesByForms(c, p, p');
    Chained(a, w, h, At(Given(c, One), p), Of(k, p'), At(Given(c, k), p), v);
  }

  lemma GivenIsScaled(c: seq<real>, o: Quad)
    requires |c| == N
    ensures Scaled(Given(c, One), o) == Area0(o)
  {
    hide Area0;
  }

  lemma Chained(a: real, w: real, h: real, d: real, x: real, f: real, v: real)
    requires w * a == h * d && f == x * d && v == w * x
    ensures a * v == h * f
  {
    assert a * (w * x) == (w * a) * x;
    assert (h * d) * x == h * (x * d);
  }

  /** Two forms in proportion at three corners not in line are so everywhere. */
  lemma RawAndGiven(c: seq<real>, o: Quad, i: Quad, k: Axis, p: Point)
    requires |c| == N && Area0(o) != 0.0
    requires At(Raw(o, i, k), o.q) == AtOrigin(o, i) * At(Given(c, k), o.q)
    requires At(Raw(o, i, k), o.r) == AtOrigin(o, i) * At(Given(c, k), o.r)
    requires At(Raw(o, i, k), o.s) == AtOrigin(o, i) * At(Given(c, k), o.s)
    ensures At(Raw(o, i, k), p) == AtOrigin(o, i) * At(Given(c, k), p)
  {
    hide At, Given, Raw, AtOrigin, Area0, Weighing;
    ByAreas(Raw(o, i, k), o, p);
    ByAreas(Given(c, k), o, p);
    var m, f, g := Weighing(o, p), Values(Raw(o, i, k), o), Values(Given(c, k), o);
    SameRatio(Area0(o), At(Raw(o, i, k), p), At(Given(c, k), p), AtOrigin(o, i), m.x, m.y, m.z, f.x, f.y, f.z, g.x, g.y, g.z);
  }

  lemma SameRatio(a: real, u: real, v: real, h: real, m1: real, m2: real, m3: real,
                  f1: real, f2: real, f3: real, g1: real, g2: real, g3: real)
    requires a != 0.0 && a * u == m1 * f1 + m2 * f2 + m3 * f3 && a * v == m1 * g1 + m2 * g2 + m3 * g3
    requires f1 == h * g1 && f2 == h * g2 && f3 == h * g3
    ensures u == h * v
  {
    assert m1 * f1 == h * (m1 * g1) && m2 * f2 == h * (m2 * g2) && m3 * f3 == h * (m3 * g3);
    assert a * u == h * (a * v);
    assert a * (u - h * v) == 0.0;
  }

  // ----- The corners in another order -----------------------------------------------------------

  function SwapPQ(o: Quad): Quad { Quad(o.q, o.p, o.r, o.s) }
  function SwapQR(o: Quad): Quad { Quad(o.p, o.r, o.q, o.s) }
  function SwapRS(o: Quad): Quad { Quad(o.p, o.q, o.s, o.r) }

  lemma SwappedAreas(o: Quad)
    ensures Area0(SwapPQ(o)) == Area1(o) && Area1(SwapPQ(o)) == Area0(o)
    ensures Area2(SwapPQ(o)) == -Area2(o) && Area3(SwapPQ(o)) == -Area3(o)
    ensures Area0(SwapQR(o)) == -Area0(o) && Area1(SwapQR(o)) == -Area2(o)
    ensures Area2(SwapQR(o)) == -Area1(o) && Area3(SwapQR(o)) == -Area3(o)
    ensures Area0(SwapRS(o)) == -Area0(o) && Area1(SwapRS(o)) == -Area1(o)
    ensures Area2(SwapRS(o)) == -Area3(o) && Area3(SwapRS(o)) == -Area2(o)
  {
  }

  lemma SwappedWeighing(o: Quad, p: Point)
    ensures var m := Weighing(o, p);
            && Weighing(SwapQR(o), p) == Vec(-m.y, -m.x, -m.z)
            && Weighing(SwapRS(o), p) == Vec(-m.x, -m.z, -m.y)
  {
  }

  /** Five points: the areas over three of them are not independent. */
  lemma FivePoints(o: Quad, p: Point)
    ensures var m, n := Weighing(o, p), Weighing(SwapPQ(o), p);
            && n.x == m.x
            && n.y * Area0(o) == m.y * Area1(o) - m.x * Area2(o)
            && n.z * Area0(o) == m.z * Area1(o) - m.x * Area3(o)
  {
  }

  function RawAt(o: Quad, i: Quad, k: Axis, p: Point): real {
    Weighing(o, p).x * Value1(o, i, k) + Weighing(o, p).y * Value2(o, i, k) + Weighing(o, p).z * Value3(o, i, k)
  }

  lemma RawIsRawAt(o: Quad, i: Quad, k: Axis, p: Point)
    ensures At(Raw(o, i, k), p) == RawAt(o, i, k, p)
  {
    RawByAreas(o, i, k, p);
    hide At, Raw, Area, Value1, Value2, Value3;
  }

  lemma RawAfterQR(o: Quad, i: Quad, k: Axis, p: Point)
    ensures RawAt(SwapQR(o), SwapQR(i), k, p) == RawAt(o, i, k, p)
  {
    SwappedAreas(o);
    SwappedAreas(i);
    SwappedWeighing(o, p);
    ValuesAre(o, i, k);
    ValuesAre(SwapQR(o), SwapQR(i), k);
    hide Area0, Area1, Area2, Area3, Weighing, Value1, Value2, Value3, Of;
    assert Value1(SwapQR(o), SwapQR(i), k) == -Value2(o, i, k);
    assert Value2(SwapQR(o), SwapQR(i), k) == -Value1(o, i, k);
    assert Value3(SwapQR(o), SwapQR(i), k) == -Value3(o, i, k);
  }

  lemma RawAfterRS(o: Quad, i: Quad, k: Axis, p: Point)
    ensures RawAt(SwapRS(o), SwapRS(i), k, p) == RawAt(o, i, k, p)
  {
    SwappedAreas(o);
    SwappedAreas(i);
    SwappedWeighing(o, p);
    ValuesAre(o, i, k);
    ValuesAre(SwapRS(o), SwapRS(i), k);
    hide Area0, Area1, Area2, Area3, Weighing, Value1, Value2, Value3, Of;
    assert Value1(SwapRS(o), SwapRS(i), k) == -Value1(o, i, k);
    assert Value2(SwapRS(o), SwapRS(i), k) == -Value3(o, i, k);
    assert Value3(SwapRS(o), SwapRS(i), k) == -Value2(o, i, k);
  }

  lemma RawAfterPQ(o: Quad, i: Quad, k: Axis, p: Point)
    ensures RawAt(SwapPQ(o), SwapPQ(i), k, p) == RawAt(o, i, k, p)
  {
    SwappedAreas(o);
    SwappedAreas(i);
    FivePoints(o, p);
    FirstFromOthers(i, k);
    ValuesAre(o, i, k);
    ValuesAre(SwapPQ(o), SwapPQ(i), k);
    hide Area0, Area1, Area2, Area3, Weighing, Value1, Value2, Value3, Of;
    var m, n := Weighing(o, p), Weighing(SwapPQ(o), p);
    FirstExchanged(Area0(o), Area1(o), Area2(o), Area3(o), Area0(i), Area1(i), Area2(i), Area3(i), m.x, m.y, m.z, n.y, n.z,
                   Of(k, i.p), Of(k, i.q), Of(k, i.r), Of(k, i.s));
  }

  lemma FirstExchanged(a0: real, a1: real, a2: real, a3: real, b0: real, b1: real, b2: real, b3: real,
                       m1: real, m2: real, m3: real, n2: real, n3: real, xp: real, xq: real, xr: real, xs: real)
    requires n2 * a0 == m2 * a1 - m1 * a2 && n3 * a0 == m3 * a1 - m1 * a3
    requires b0 * xp == b1 * xq + b2 * xr + b3 * xs
    ensures m1 * (b0 * (-a2 * -a3) * xp) + n2 * (-b2 * (a0 * -a3) * xr) + n3 * (-b3 * (a0 * -a2) * xs)
         == m1 * (b1 * (a2 * a3) * xq) + m2 * (b2 * (a1 * a3) * xr) + m3 * (b3 * (a1 * a2) * xs)
  {
    assert m1 * (b0 * (-a2 * -a3) * xp) == m1 * (a2 * a3) * (b1 * xq + b2 * xr + b3 * xs);
    assert n2 * (-b2 * (a0 * -a3) * xr) == (m2 * a1 - m1 * a2) * (b2 * a3 * xr);
    assert n3 * (-b3 * (a0 * -a2) * xs) == (m3 * a1 - m1 * a3) * (b3 * a2 * xs);
  }

  lemma CarriesSwapped(c: seq<real>, o: Quad, i: Quad)
    ensures CarriesQuad(c, SwapPQ(o), SwapPQ(i)) <==> CarriesQuad(c, o, i)
    ensures CarriesQuad(c, SwapQR(o), SwapQR(i)) <==> CarriesQuad(c, o, i)
    ensures CarriesQuad(c, SwapRS(o), SwapRS(i)) <==> CarriesQuad(c, o, i)
  {
    hide Carries;
  }

  /** The raw forms, and so what is at the origin, do not depend on the order of the corners. */
  lemma RawSwapped(o: Quad, i: Quad)
    ensures forall k, p :: At(Raw(SwapPQ(o), SwapPQ(i), k), p) == At(Raw(o, i, k), p)
    ensures forall k, p :: At(Raw(SwapQR(o), SwapQR(i), k), p) == At(Raw(o, i, k), p)
    ensures forall k, p :: At(Raw(SwapRS(o), SwapRS(i), k), p) == At(Raw(o, i, k), p)
    ensures AtOrigin(SwapPQ(o), SwapPQ(i)) == AtOrigin(SwapQR(o), SwapQR(i)) == AtOrigin(SwapRS(o), SwapRS(i)) == AtOrigin(o, i)
  {
    hide At, Raw, RawAt, SwapPQ, SwapQR, SwapRS, AtOrigin;
    forall k, p ensures At(Raw(SwapPQ(o), SwapPQ(i), k), p) == At(Raw(o, i, k), p)
                     && At(Raw(SwapQR(o), SwapQR(i), k), p) == At(Raw(o, i, k), p)
                     && At(Raw(SwapRS(o), SwapRS(i), k), p) == At(Raw(o, i, k), p) {
      RawAfterPQ(o, i, k, p);
      RawAfterQR(o, i, k, p);
      RawAfterRS(o, i, k, p);
      RawIsRawAt(o, i, k, p);
      RawIsRawAt(SwapPQ(o), SwapPQ(i), k, p);
      RawIsRawAt(SwapQR(o), SwapQR(i), k, p);
      RawIsRawAt(SwapRS(o), SwapRS(i), k, p);
    }
    OriginWeighs(o, i);
    OriginWeighs(SwapPQ(o), SwapPQ(i));
    OriginWeighs(SwapQR(o), SwapQR(i));
    OriginWeighs(SwapRS(o), SwapRS(i));
  }

  /** All four corners in line. */
  predicate InLine(o: Quad) {
    Area0(o) == 0.0 && Area1(o) == 0.0 && Area2(o) == 0.0 && Area3(o) == 0.0
  }

  lemma InLineMeansNoRaw(o: Quad, i: Quad)
    requires InLine(o)
    ensures forall k, p :: At(Raw(o, i, k), p) == 0.0
    ensures AtOrigin(o, i) == 0.0
  {
    forall k, p ensures At(Raw(o, i, k), p) == 0.0 {
      RawByAreas(o, i, k, p);
      ValuesAre(o, i, k);
      hide At, Raw, Area, Area1, Area2, Area3, Of;
    }
    OriginWeighs(o, i);
  }

  /** Cramer's rule for the eight rows, whatever the corners: with no map there is nothing to say. */
  lemma CramersRule(c: seq<real>, o: Quad, i: Quad)
    requires CarriesQuad(c, o, i)
    ensures Proportional(c, o, i)
  {
    hide CarriesQuad, Given, At, Raw, AtOrigin, Area0, Area1, Area2, Area3, SwapPQ, SwapQR, SwapRS;
    CarriesSwapped(c, o, i);
    RawSwapped(o, i);
    SwappedAreas(o);
    if Area0(o) != 0.0 {
      ProportionalByValues(c, o, i);
    } else if Area1(o) != 0.0 {
      ProportionalByValues(c, SwapPQ(o), SwapPQ(i));
    } else if Area2(o) != 0.0 {
      ProportionalFromSecond(c, SwapQR(o), SwapQR(i));
    } else if Area3(o) != 0.0 {
      ProportionalFromThird(c, SwapRS(o), SwapRS(i));
    } else {
      InLineMeansNoRaw(o, i);
    }
  }

  lemma ProportionalFromSecond(c: seq<real>, o: Quad, i: Quad)
    requires CarriesQuad(c, o, i) && Area1(o) != 0.0
    ensures Proportional(c, o, i)
  {
    hide CarriesQuad, Given, At, Raw, AtOrigin, Area0, Area1, Area2, Area3, SwapPQ, SwapQR, SwapRS;
    CarriesSwapped(c, o, i);
    RawSwapped(o, i);
    SwappedAreas(o);
    ProportionalByValues(c, SwapPQ(o), SwapPQ(i));
  }

  lemma ProportionalFromThird(c: seq<real>, o: Quad, i: Quad)
    requires CarriesQuad(c, o, i) && Area2(o) != 0.0
    ensures Proportional(c, o, i)
  {
    hide CarriesQuad, Given, At, Raw, AtOrigin, Area0, Area1, Area2, Area3, SwapPQ, SwapQR, SwapRS;
    CarriesSwapped(c, o, i);
    RawSwapped(o, i);
    SwappedAreas(o);
    ProportionalFromSecond(c, SwapQR(o), SwapQR(i));
  }

  /** Off the horizon there is one carrying list at most, the map written out above. */
  lemma CarrierIsTheMap(c: seq<real>, o: Quad, i: Quad)
    requires CarriesQuad(c, o, i) && AtOrigin(o, i) != 0.0
    ensures c == TheMap(o, i)
  {
    CramersRule(c, o, i);
    forall k ensures Given(c, k) == Given(TheMap(o, i), k) {
      MapForms(o, i, k);
      hide Raw, TheMap, Given, CarriesQuad;
      SameForm(Given(c, k), Raw(o, i, k), AtOrigin(o, i));
    }
    assert Given(c, X) == Given(TheMap(o, i), X) && Given(c, Y) == Given(TheMap(o, i), Y) && Given(c, One) == Given(TheMap(o, i), One);
    hide TheMap;
  }

  lemma SameForm(f: Form, raw: Form, h: real)
    requires h != 0.0 && forall p: Point :: At(raw, p) == h * At(f, p)
    ensures f == Over(raw, h)
  {
    assert At(raw, ORIGIN) == h * At(f, ORIGIN);
    assert At(raw, Point(1.0, 0.0)) == h * At(f, Point(1.0, 0.0));
    assert At(raw, Point(0.0, 1.0)) == h * At(f, Point(0.0, 1.0));
    assert raw.e == h * f.e;
    assert raw.a == h * f.a;
    assert raw.b == h * f.b;
    SameQuotient(f.e, raw.e, h);
    SameQuotient(f.a, raw.a, h);
    SameQuotient(f.b, raw.b, h);
  }

  lemma SameQuotient(x: real, y: real, h: real)
    requires h != 0.0 && y == h * x
    ensures x == y / h
  {
  }

  // ----- On the horizon a map is never the only one ---------------------------------------------

  predicate Zero(f: Form) {
    f == Form(0.0, 0.0, 0.0)
  }

  /** Fitting forms that vanish at the origin, not all of them zero: what can be added to a map. */
  ghost predicate Kernel(u: Form, v: Form, d: Form, o: Quad, i: Quad) {
    Fit(u, v, d, o, i) && d.e == 0.0 && !(Zero(u) && Zero(v) && Zero(d))
  }

  function Shifted(c: seq<real>, u: Form, v: Form, d: Form): (r: seq<real>)
    requires |c| == N
    ensures |r| == N
  {
    [c[0] + u.a, c[1] + u.b, c[2] + u.e, c[3] + v.a, c[4] + v.b, c[5] + v.e, c[6] + d.a, c[7] + d.b]
  }

  lemma ShiftedCarries(c: seq<real>, u: Form, v: Form, d: Form, o: Quad, i: Quad)
    requires CarriesQuad(c, o, i) && Kernel(u, v, d, o, i)
    ensures CarriesQuad(Shifted(c, u, v, d), o, i) && Shifted(c, u, v, d) != c
  {
    hide Carries, FitAt;
    ShiftedCarriesAt(c, u, v, d, o.p, i.p);
    ShiftedCarriesAt(c, u, v, d, o.q, i.q);
    ShiftedCarriesAt(c, u, v, d, o.r, i.r);
    ShiftedCarriesAt(c, u, v, d, o.s, i.s);
    var r := Shifted(c, u, v, d);
    assert u.a != 0.0 ==> r[0] != c[0];
    assert u.b != 0.0 ==> r[1] != c[1];
    assert u.e != 0.0 ==> r[2] != c[2];
    assert v.a != 0.0 ==> r[3] != c[3];
    assert v.b != 0.0 ==> r[4] != c[4];
    assert v.e != 0.0 ==> r[5] != c[5];
    assert d.a != 0.0 ==> r[6] != c[6];
    assert d.b != 0.0 ==> r[7] != c[7];
  }

  lemma ShiftedCarriesAt(c: seq<real>, u: Form, v: Form, d: Form, p: Point, p': Point)
    requires |c| == N && Carries(c, p, p') && FitAt(u, v, d, p, p') && d.e == 0.0
    ensures Carries(Shifted(c, u, v, d), p, p')
  {
    var r := Shifted(c, u, v, d);
    assert r[6] * p.x + r[7] * p.y + 1.0 == (c[6] * p.x + c[7] * p.y + 1.0) + At(d, p);
    assert r[0] * p.x + r[1] * p.y + r[2] == (c[0] * p.x + c[1] * p.y + c[2]) + At(u, p);
    assert r[3] * p.x + r[4] * p.y + r[5] == (c[3] * p.x + c[4] * p.y + c[5]) + At(v, p);
    Added(p'.x, c[6] * p.x + c[7] * p.y + 1.0, At(d, p));
    Added(p'.y, c[6] * p.x + c[7] * p.y + 1.0, At(d, p));
  }

  lemma Added(x: real, a: real, b: real)
    ensures x * (a + b) == x * a + x * b
  {
  }

  // ----- A kernel for corners not all in line ---------------------------------------------------

  predicate NonZero(v: Vec) {
    v != Vec(0.0, 0.0, 0.0)
  }

  function Across(m: Vec): Vec {
    if m.x != 0.0 || m.y != 0.0 then Vec(m.y, -m.x, 0.0) else Vec(1.0, 0.0, 0.0)
  }

  lemma AcrossIsOrthogonal(m: Vec)
    ensures NonZero(Across(m)) && Inner(m, Across(m)) == 0.0
  {
  }

  /** What is parallel to a vector is orthogonal to what that is orthogonal to. */
  lemma ParallelOrthogonal(a: Vec, m: Vec, d: Vec)
    requires NonZero(m) && !NonZero(Cross(a, m)) && Inner(m, d) == 0.0
    ensures Inner(a, d) == 0.0
  {
    assert m.x * Inner(a, d) == a.x * Inner(m, d) && m.y * Inner(a, d) == a.y * Inner(m, d)
           && m.z * Inner(a, d) == a.z * Inner(m, d) by { Factor(a, m, d); }
    var n := if m.x != 0.0 then m.x else if m.y != 0.0 then m.y else m.z;
    hide Inner;
    assert n * Inner(a, d) == 0.0;
    NoFactor(n, Inner(a, d));
  }

  lemma Factor(a: Vec, m: Vec, d: Vec)
    requires !NonZero(Cross(a, m))
    ensures m.x * Inner(a, d) == a.x * Inner(m, d) && m.y * Inner(a, d) == a.y * Inner(m, d)
           && m.z * Inner(a, d) == a.z * Inner(m, d)
  {
    assert m.x * a.y == a.x * m.y && m.y * a.z == a.y * m.z && m.z * a.x == a.z * m.x;
    assert m.x * Inner(a, d) == (m.x * a.x) * d.x + (m.x * a.y) * d.y + (m.x * a.z) * d.z;
    assert m.y * Inner(a, d) == (m.y * a.x) * d.x + (m.y * a.y) * d.y + (m.y * a.z) * d.z;
    assert m.z * Inner(a, d) == (m.z * a.x) * d.x + (m.z * a.y) * d.y + (m.z * a.z) * d.z;
  }

  lemma NoFactor(x: real, y: real)
    requires x * y == 0.0 && x != 0.0
    ensures y == 0.0
  {
  }

  /** Two parallel vectors and a third leave a direction orthogonal to all of them. */
  lemma Orthogonal(a: Vec, b: Vec, m: Vec) returns (d: Vec)
    requires !NonZero(Cross(a, b))
    ensures NonZero(d) && Inner(a, d) == 0.0 && Inner(b, d) == 0.0 && Inner(m, d) == 0.0
  {
    if NonZero(Cross(a, m)) {
      d := Cross(a, m);
      CrossIsOrthogonal(a, m, b);
      hide Inner, Cross;
    } else if NonZero(Cross(b, m)) {
      d := Cross(b, m);
      CrossIsOrthogonal(b, m, a);
      CrossTurned(a, b);
      hide Inner, Cross;
    } else {
      var n := if NonZero(m) then m else if NonZero(a) then a else b;
      d := Across(n);
      AcrossIsOrthogonal(n);
      AllParallel(a, b, m, n, d);
    }
  }

  lemma CrossTurned(a: Vec, b: Vec)
    requires !NonZero(Cross(a, b))
    ensures !NonZero(Cross(b, a))
  {
  }

  lemma CrossIsOrthogonal(a: Vec, m: Vec, b: Vec)
    requires !NonZero(Cross(a, b))
    ensures Inner(a, Cross(a, m)) == 0.0 && Inner(m, Cross(a, m)) == 0.0 && Inner(b, Cross(a, m)) == 0.0
  {
    assert Inner(b, Cross(a, m)) == -Inner(m, Cross(a, b));
  }

  lemma AllParallel(a: Vec, b: Vec, m: Vec, n: Vec, d: Vec)
    requires !NonZero(Cross(a, b)) && !NonZero(Cross(a, m)) && !NonZero(Cross(b, m))
    requires n == (if NonZero(m) then m else if NonZero(a) then a else b) && Inner(n, d) == 0.0
    ensures Inner(a, d) == 0.0 && Inner(b, d) == 0.0 && Inner(m, d) == 0.0
  {
    if NonZero(m) {
      ParallelOrthogonal(a, m, d);
      ParallelOrthogonal(b, m, d);
    } else if NonZero(a) {
      CrossTurned(a, b);
      ParallelOrthogonal(b, a, d);
    }
  }

  /** Values at the last three corners times a coordinate of their images. */
  function Imaged(i: Quad, d: Vec, k: Axis): Vec {
    Vec(d.x * Of(k, i.q), d.y * Of(k, i.r), d.z * Of(k, i.s))
  }

  /** The form with those values there, times the area. */
  function Pull(o: Quad, i: Quad, d: Vec, k: Axis): Form {
    Through(o.q, o.r, o.s, Imaged(i, d, k).x, Imaged(i, d, k).y, Imaged(i, d, k).z)
  }

  lemma PullByAreas(o: Quad, i: Quad, d: Vec, k: Axis, p: Point)
    ensures At(Pull(o, i, d, k), p)
         == Weighing(o, p).x * (d.x * Of(k, i.q)) + Weighing(o, p).y * (d.y * Of(k, i.r)) + Weighing(o, p).z * (d.z * Of(k, i.s))
  {
    PullByValues(o, i, d, k, p);
    hide Pull, At, Weighing, Of;
  }

  lemma PullByValues(o: Quad, i: Quad, d: Vec, k: Axis, p: Point)
    ensures At(Pull(o, i, d, k), p)
         == Weighing(o, p).x * Imaged(i, d, k).x + Weighing(o, p).y * Imaged(i, d, k).y + Weighing(o, p).z * Imaged(i, d, k).z
  {
    hide Through, At, Area, Imaged;
    ThroughByAreas(o.q, o.r, o.s, Imaged(i, d, k).x, Imaged(i, d, k).y, Imaged(i, d, k).z, p);
  }

  lemma PullAtCorners(o: Quad, i: Quad, d: Vec, k: Axis)
    ensures At(Pull(o, i, d, k), o.q) == Area0(o) * (d.x * Of(k, i.q))
    ensures At(Pull(o, i, d, k), o.r) == Area0(o) * (d.y * Of(k, i.r))
    ensures At(Pull(o, i, d, k), o.s) == Area0(o) * (d.z * Of(k, i.s))
    ensures At(Pull(o, i, d, k), o.p) == Area1(o) * (d.x * Of(k, i.q)) + Area2(o) * (d.y * Of(k, i.r)) + Area3(o) * (d.z * Of(k, i.s))
  {
    PullByAreas(o, i, d, k, o.q);
    PullByAreas(o, i, d, k, o.r);
    PullByAreas(o, i, d, k, o.s);
    PullByAreas(o, i, d, k, o.p);
    AreasAtFirst(o);
    WeighingAtCorners(o);
    hide Pull, At, Of, Area, Area0, Area1, Area2, Area3;
  }

  lemma WeighingAtCorners(o: Quad)
    ensures Weighing(o, o.q) == Vec(Area0(o), 0.0, 0.0)
    ensures Weighing(o, o.r) == Vec(0.0, Area0(o), 0.0)
    ensures Weighing(o, o.s) == Vec(0.0, 0.0, Area0(o))
  {
  }

  /** Values orthogonal to a spread pull every corner onto its image on that axis. */
  lemma PullFits(o: Quad, i: Quad, d: Vec, k: Axis)
    requires Inner(Spread(o, i, k), d) == 0.0
    ensures At(Pull(o, i, d, k), o.p) == Of(k, i.p) * At(Pull(o, i, d, One), o.p)
    ensures At(Pull(o, i, d, k), o.q) == Of(k, i.q) * At(Pull(o, i, d, One), o.q)
    ensures At(Pull(o, i, d, k), o.r) == Of(k, i.r) * At(Pull(o, i, d, One), o.r)
    ensures At(Pull(o, i, d, k), o.s) == Of(k, i.s) * At(Pull(o, i, d, One), o.s)
  {
    PullAtCorners(o, i, d, k);
    PullAtCorners(o, i, d, One);
    hide Pull, At, Area0, Area1, Area2, Area3;
    Swap(Area0(o), d.x, Of(k, i.q));
    Swap(Area0(o), d.y, Of(k, i.r));
    Swap(Area0(o), d.z, Of(k, i.s));
    PulledFirst(Area1(o), Area2(o), Area3(o), d.x, d.y, d.z, Of(k, i.p), Of(k, i.q), Of(k, i.r), Of(k, i.s));
  }

  lemma PulledFirst(a1: real, a2: real, a3: real, d1: real, d2: real, d3: real, xp: real, xq: real, xr: real, xs: real)
    requires a1 * (xq - xp) * d1 + a2 * (xr - xp) * d2 + a3 * (xs - xp) * d3 == 0.0
    ensures a1 * (d1 * xq) + a2 * (d2 * xr) + a3 * (d3 * xs) == xp * (a1 * (d1 * 1.0) + a2 * (d2 * 1.0) + a3 * (d3 * 1.0))
  {
  }

  lemma PullIsKernel(o: Quad, i: Quad, d: Vec)
    requires Area0(o) != 0.0 && NonZero(d) && Inner(Weighing(o, ORIGIN), d) == 0.0
    requires Inner(Spread(o, i, X), d) == 0.0 && Inner(Spread(o, i, Y), d) == 0.0
    ensures Kernel(Pull(o, i, d, X), Pull(o, i, d, Y), Pull(o, i, d, One), o, i)
  {
    hide Pull, At, Area0, Inner, Spread, Weighing, NonZero;
    PullFits(o, i, d, X);
    PullFits(o, i, d, Y);
    PullAtOrigin(o, i, d);
    PullIsNotZero(o, i, d);
  }

  lemma PullAtOrigin(o: Quad, i: Quad, d: Vec)
    ensures Pull(o, i, d, One).e == Inner(Weighing(o, ORIGIN), d)
  {
    PullByAreas(o, i, d, One, ORIGIN);
    assert At(Pull(o, i, d, One), ORIGIN) == Pull(o, i, d, One).e;
    hide Pull, At, Weighing;
  }

  lemma PullIsNotZero(o: Quad, i: Quad, d: Vec)
    requires Area0(o) != 0.0 && NonZero(d)
    ensures !Zero(Pull(o, i, d, One))
  {
    PullAtCorners(o, i, d, One);
    var f := Pull(o, i, d, One);
    if Zero(f) {
      assert At(f, o.q) == 0.0 && At(f, o.r) == 0.0 && At(f, o.s) == 0.0;
      hide Pull, At, Area0;
      NoFactor(Area0(o), d.x);
      NoFactor(Area0(o), d.y);
      NoFactor(Area0(o), d.z);
    }
  }

  ghost predicate NotOnly(o: Quad, i: Quad) {
    forall c :: CarriesQuad(c, o, i) ==> exists r :: CarriesQuad(r, o, i) && r != c
  }

  /** The last three corners not in line: a map on the horizon has no raw forms, and that leaves a kernel. */
  lemma NotOnlyByKernel(o: Quad, i: Quad)
    requires Area0(o) != 0.0 && AtOrigin(o, i) == 0.0
    ensures NotOnly(o, i)
  {
    forall c | CarriesQuad(c, o, i) ensures exists r :: CarriesQuad(r, o, i) && r != c {
      WeightsVanish(c, o, i);
      SpreadsCross(o, i);
      hide CarriesQuad, Area0, AtOrigin, Spread, Weights, Weighing, Cross, Inner, Pull;
      var d := Orthogonal(Spread(o, i, X), Spread(o, i, Y), Weighing(o, ORIGIN));
      PullIsKernel(o, i, d);
      hide Kernel;
      ShiftedCarries(c, Pull(o, i, d, X), Pull(o, i, d, Y), Pull(o, i, d, One), o, i);
    }
  }

  lemma WeightsVanish(c: seq<real>, o: Quad, i: Quad)
    requires CarriesQuad(c, o, i) && Area0(o) != 0.0 && AtOrigin(o, i) == 0.0
    ensures !NonZero(Weights(o, i))
  {
    hide Carries, Fit, Given, AtOrigin, Area0, Weight1, Weight2, Weight3, Scaled;
    CarriesIsFit(c, o, i);
    ValuesForced(Given(c, X), Given(c, Y), Given(c, One), o, i);
    GivenIsScaled(c, o);
    NoFactor(Area0(o), Weight1(o, i));
    NoFactor(Area0(o), Weight2(o, i));
    NoFactor(Area0(o), Weight3(o, i));
  }

  // ----- A kernel for corners all in line -------------------------------------------------------

  /** The line through two points, as a form; where they coincide, any line through them. */
  function LineThrough(p: Point, q: Point): Form {
    if p == q then Form(1.0, 0.0, -p.x) else Form(p.y - q.y, q.x - p.x, p.x * q.y - q.x * p.y)
  }

  lemma LineByArea(p: Point, q: Point, r: Point)
    ensures !Zero(LineThrough(p, q))
    ensures p != q ==> At(LineThrough(p, q), r) == Area(p, q, r)
    ensures p == q ==> At(LineThrough(p, q), p) == 0.0
  {
  }

  function CommonLine(o: Quad): Form {
    if o.p != o.q then LineThrough(o.p, o.q)
    else if o.p != o.r then LineThrough(o.p, o.r)
    else LineThrough(o.p, o.s)
  }

  lemma InLineOnCommonLine(o: Quad)
    requires InLine(o)
    ensures var f := CommonLine(o); !Zero(f) && At(f, o.p) == 0.0 && At(f, o.q) == 0.0 && At(f, o.r) == 0.0 && At(f, o.s) == 0.0
  {
    var q := if o.p != o.q then o.q else if o.p != o.r then o.r else o.s;
    LineByArea(o.p, q, o.p);
    LineByArea(o.p, q, o.q);
    LineByArea(o.p, q, o.r);
    LineByArea(o.p, q, o.s);
    hide At, LineThrough;
  }

  lemma NotOnlyInLine(o: Quad, i: Quad)
    requires InLine(o)
    ensures NotOnly(o, i)
  {
    var f, z := CommonLine(o), Form(0.0, 0.0, 0.0);
    InLineOnCommonLine(o);
    LineIsKernel(f, z, o, i);
    forall c | CarriesQuad(c, o, i) ensures exists r :: CarriesQuad(r, o, i) && r != c {
      hide CarriesQuad, Kernel, CommonLine, InLine;
      ShiftedCarries(c, f, z, z, o, i);
    }
  }

  lemma LineIsKernel(f: Form, z: Form, o: Quad, i: Quad)
    requires Zero(z) && !Zero(f)
    requires At(f, o.p) == 0.0 && At(f, o.q) == 0.0 && At(f, o.r) == 0.0 && At(f, o.s) == 0.0
    ensures Kernel(f, z, z, o, i)
  {
    assert forall p :: At(z, p) == 0.0;
    hide At;
  }

  /** On the horizon there is no map, or more than one. */
  lemma NeverOneOnTheHorizon(o: Quad, i: Quad)
    requires AtOrigin(o, i) == 0.0
    ensures NotOnly(o, i)
  {
    hide CarriesQuad, AtOrigin, Area0, Area1, Area2, Area3, SwapPQ, SwapQR, SwapRS;
    forall c ensures (CarriesQuad(c, SwapPQ(o), SwapPQ(i)) <==> CarriesQuad(c, o, i))
                  && (CarriesQuad(c, SwapQR(o), SwapQR(i)) <==> CarriesQuad(c, o, i))
                  && (CarriesQuad(c, SwapRS(o), SwapRS(i)) <==> CarriesQuad(c, o, i)) {
      CarriesSwapped(c, o, i);
    }
    RawSwapped(o, i);
    SwappedAreas(o);
    if Area0(o) != 0.0 {
      NotOnlyByKernel(o, i);
    } else if Area1(o) != 0.0 {
      NotOnlyByKernel(SwapPQ(o), SwapPQ(i));
    } else if Area2(o) != 0.0 {
      NotOnlyFromSecond(SwapQR(o), SwapQR(i));
    } else if Area3(o) != 0.0 {
      NotOnlyFromThird(SwapRS(o), SwapRS(i));
    } else {
      NotOnlyInLine(o, i);
    }
  }

  lemma NotOnlyFromSecond(o: Quad, i: Quad)
    requires AtOrigin(o, i) == 0.0 && Area1(o) != 0.0
    ensures NotOnly(o, i)
  {
    hide CarriesQuad, AtOrigin, Area0, Area1, Area2, Area3, SwapPQ, SwapQR, SwapRS;
    forall c ensures CarriesQuad(c, SwapPQ(o), SwapPQ(i)) <==> CarriesQuad(c, o, i) {
      CarriesSwapped(c, o, i);
    }
    RawSwapped(o, i);
    SwappedAreas(o);
    NotOnlyByKernel(SwapPQ(o), SwapPQ(i));
  }

  lemma NotOnlyFromThird(o: Quad, i: Quad)
    requires AtOrigin(o, i) == 0.0 && Area2(o) != 0.0
    ensures NotOnly(o, i)
  {
    hide CarriesQuad, AtOrigin, Area0, Area1, Area2, Area3, SwapPQ, SwapQR, SwapRS;
    forall c ensures CarriesQuad(c, SwapQR(o), SwapQR(i)) <==> CarriesQuad(c, o, i) {
      CarriesSwapped(c, o, i);
    }
    RawSwapped(o, i);
    SwappedAreas(o);
    NotOnlyFromSecond(SwapQR(o), SwapQR(i));
  }

  // ----- When find_coeffs answers ---------------------------------------------------------------

  /** The first four of a list of corners. */
  function QuadOf(corners: seq<Point>): Quad
    requires |corners| >= 4
  {
    Quad(corners[0], corners[1], corners[2], corners[3])
  }

  lemma CornersAreTheQuad(c: seq<real>, pa: seq<Point>, pb: seq<Point>)
    requires |pa| >= 4 && |pb| >= 4
    ensures CarriesCorners(c, pa, pb) <==> CarriesQuad(c, QuadOf(pa), QuadOf(pb))
  {
    hide Carries;
  }

  /**
   Four corners have exactly one map to four others if and only if what is at the origin is not zero; it is
   then the one written out. For corners in general position that is the output origin off the map's horizon.
   */
  lemma OneMapIffOffHorizon(pa: seq<Point>, pb: seq<Point>)
    requires |pa| >= 4 && |pb| >= 4
    ensures OneMap(pa, pb) <==> AtOrigin(QuadOf(pa), QuadOf(pb)) != 0.0
    ensures AtOrigin(QuadOf(pa), QuadOf(pb)) != 0.0 ==>
              forall c :: CarriesCorners(c, pa, pb) <==> c == TheMap(QuadOf(pa), QuadOf(pb))
  {
    var o, i := QuadOf(pa), QuadOf(pb);
    hide TheMap, CarriesQuad, CarriesCorners, AtOrigin, QuadOf;
    forall c ensures CarriesCorners(c, pa, pb) <==> CarriesQuad(c, o, i) {
      CornersAreTheQuad(c, pa, pb);
    }
    if AtOrigin(o, i) != 0.0 {
      TheMapCarries(o, i);
      forall c | CarriesCorners(c, pa, pb) ensures c == TheMap(o, i) {
        CarrierIsTheMap(c, o, i);
      }
      assert CarriesCorners(TheMap(o, i), pa, pb);
    } else {
      NeverOneOnTheHorizon(o, i);
    }
  }

  /** In general position a map, were it only one of several, is off the horizon all the same. */
  lemma ProperMapsAreOffHorizon(c: seq<real>, o: Quad, i: Quad)
    requires Proper(o) && Proper(i) && CarriesQuad(c, o, i)
    ensures AtOrigin(o, i) != 0.0
  {
    assert Area0(o) != 0.0 && Area1(i) != 0.0 && Area2(o) != 0.0 && Area3(o) != 0.0;
    if AtOrigin(o, i) == 0.0 {
      WeightsVanish(c, o, i);
      hide Area1, Area2, Area3, CarriesQuad, AtOrigin, Proper;
      NoFactor(Area1(i), Area2(o) * Area3(o));
      NoFactor(Area2(o), Area3(o));
    }
  }

  /** Two equal output corners, and `find_coeffs` fails whatever the input corners are. */
  lemma RepeatedCornerFails(o: Quad, i: Quad)
    requires o.p == o.q || o.p == o.r || o.p == o.s || o.q == o.r || o.q == o.s || o.r == o.s
    ensures AtOrigin(o, i) == 0.0
  {
    RepeatedAreas(o);
    RawByAreas(o, i, One, ORIGIN);
    OriginWeighs(o, i);
    ValuesAre(o, i, One);
    hide Raw, At, Area, Area1, Area2, Area3;
  }

  lemma RepeatedAreas(o: Quad)
    ensures o.p == o.q ==> Area2(o) == 0.0 && Area3(o) == 0.0
    ensures o.p == o.r ==> Area1(o) == 0.0 && Area3(o) == 0.0
    ensures o.p == o.s ==> Area1(o) == 0.0 && Area2(o) == 0.0
    ensures o.q == o.r ==> Area3(o) == 0.0 && Area(o.q, o.r, ORIGIN) == 0.0
    ensures o.q == o.s ==> Area2(o) == 0.0 && Area(o.q, ORIGIN, o.s) == 0.0
    ensures o.r == o.s ==> Area1(o) == 0.0 && Area(ORIGIN, o.r, o.s) == 0.0
  {
  }

  function Slanted(): Quad {
    Quad(Point(1.0, 0.0), Point(0.0, 1.0), Point(1.0, 1.0), Point(2.0, 3.0))
  }

  function Sunk(): Quad {
    Quad(Point(1.0, 1.0), Point(1.0, 0.0), Point(0.5, 0.5), Point(0.2, 0.4))
  }

  lemma SlantedAreas()
    ensures var o := Slanted(); Area0(o) == 2.0 && Area1(o) == -1.0 && Area2(o) == 4.0 && Area3(o) == -1.0
  {
  }

  lemma SlantedWeighs()
    ensures Weighing(Slanted(), ORIGIN) == Vec(1.0, 2.0, -1.0)
  {
    var q, r, t := Point(0.0, 1.0), Point(1.0, 1.0), Point(2.0, 3.0);
    assert Area(ORIGIN, r, t) == 1.0 && Area(q, ORIGIN, t) == 2.0 && Area(q, r, ORIGIN) == -1.0;
    hide Area;
  }

  lemma SunkAreas()
    ensures var i := Sunk(); Area0(i) == 0.2 && Area1(i) == -0.1 && Area2(i) == 0.8 && Area3(i) == -0.5
  {
  }

  /** And it may fail in general position: here the origin itself would go to infinity. */
  lemma FailsInGeneralPosition()
    ensures Proper(Slanted()) && Proper(Sunk()) && AtOrigin(Slanted(), Sunk()) == 0.0
  {
    hide *;
    SlantedAreas();
    SunkAreas();
    ProperByAreas(Slanted());
    ProperByAreas(Sunk());
    SlantedWeights();
    SlantedWeighs();
    OriginWeighs(Slanted(), Sunk());
    assert Inner(Vec(1.0, 2.0, -1.0), Vec(0.4, 0.8, 2.0)) == 0.0 by { CancelsOut(); }
  }

  lemma SlantedWeights()
    ensures Weights(Slanted(), Sunk()) == Vec(0.4, 0.8, 2.0)
  {
    hide Slanted, Sunk, Area0, Area1, Area2, Area3;
    SlantedAreas();
    SunkAreas();
  }

  lemma CancelsOut()
    ensures Inner(Vec(1.0, 2.0, -1.0), Vec(0.4, 0.8, 2.0)) == 0.0
  {
  }

  lemma ProperByAreas(o: Quad)
    ensures Proper(o) <==> Area0(o) != 0.0 && Area1(o) != 0.0 && Area2(o) != 0.0 && Area3(o) != 0.0
  {
  }

  /**
   `find_coeffs`, proved against the written-out map: it returns exactly when the first four output corners
   and input corners are off the horizon, and returns that map. Extra pairs are built and never read.
   */
  method FindCoeffs(pa: seq<Point>, pb: seq<Point>) returns (r: Outcome)
    ensures r.IndexError? <==> |pa| < 4 || |pb| < 4
    ensures |pa| >= 4 && |pb| >= 4 ==> (r.Coeffs? <==> OneMap(pa, pb))
    ensures |pa| >= 4 && |pb| >= 4 ==> (r.Coeffs? <==> AtOrigin(QuadOf(pa), QuadOf(pb)) != 0.0)
    ensures r.Coeffs? ==> CarriesCorners(r.c, pa, pb) && r.c == TheMap(QuadOf(pa), QuadOf(pb))
  {
    hide TheMap, AtOrigin, QuadOf;
    var rows: seq<Row> := [];
    var k := 0;
    while k < |pa| && k < |pb|
      invariant 0 <= k <= |pa| && k <= |pb| && |rows| == 2 * k
      invariant forall q :: 0 <= q < k ==> rows[2 * q] == RowU(pa[q], pb[q]) && rows[2 * q + 1] == RowV(pa[q], pb[q])
      decreases |pa| - k
    {
      rows := rows + [RowU(pa[k], pb[k]), RowV(pa[k], pb[k])];
      k := k + 1;
    }
    if |rows| < N { return IndexError; }
    var m := new Row[|rows|](i requires 0 <= i < |rows| => rows[i]);
    assert m[..] == rows;
    SolutionsAreMaps(rows, pa, pb);
    var ok, x := GaussJordan(m, N);
    r := if ok then Coeffs(x) else ZeroDivision;
    UniqueSolutionIsOneMap(rows, pa, pb);
    OneMapIffOffHorizon(pa, pb);
  }

  // ----- The script's own quadrilateral ---------------------------------------------------------

  function Lerp(a: Point, b: Point, t: real): Point {
    Point(a.x + (b.x - a.x) * t, a.y + (b.y - a.y) * t)
  }

  function Corners(q: Quad): seq<Point> {
    [q.p, q.q, q.r, q.s]
  }

  /** The laptop's screen below its title bar, as the script measures it. */
  function Screen(): Quad {
    var tl, tr, br, bl := Point(745.0, 317.0), Point(917.0, 397.0), Point(905.0, 530.0), Point(735.0, 452.0);
    Quad(Lerp(tl, bl, 0.30), Lerp(tr, br, 0.30), br, bl)
  }

  /** The corners of a picture @p cw wide and @p ch high. */
  function Picture(cw: real, ch: real): Quad {
    Quad(Point(0.0, 0.0), Point(cw, 0.0), Point(cw, ch), Point(0.0, ch))
  }

  lemma ScreenAreas()
    ensures var o := Screen();
            && o == Quad(Point(742.0, 357.5), Point(913.4, 436.9), Point(905.0, 530.0), Point(735.0, 452.0))
            && Area0(o) == 16482.2 && Area1(o) == 16611.0 && Area2(o) == -16753.1 && Area3(o) == 16624.3
  {
  }

  lemma PictureAreas(cw: real, ch: real)
    ensures var i := Picture(cw, ch);
            Area0(i) == cw * ch && Area1(i) == cw * ch && Area2(i) == -(cw * ch) && Area3(i) == cw * ch
  {
  }

  lemma ScreenOffHorizon(cw: real, ch: real)
    ensures AtOrigin(Screen(), Picture(cw, ch)) == -4787375816849.36 * (cw * ch)
  {
    var o, i := Screen(), Picture(cw, ch);
    ScreenAreas();
    PictureAreas(cw, ch);
    hide Area1, Area2, Area3, Screen, Picture;
    assert Value1(o, i, One) == -278508560.33 * (cw * ch);
    assert Value2(o, i, One) == -276146247.3 * (cw * ch);
    assert Value3(o, i, One) == -278285744.1 * (cw * ch);
    hide Value1, Value2, Value3;
    assert AtOrigin(o, i) == 19510.0 * Value1(o, i, One) - 91735.3 * Value2(o, i, One) + 88707.5 * Value3(o, i, One);
  }

  /**
   For a picture of any positive size `find_coeffs` answers, and the map it returns sends the four corners
   of the screen exactly onto the picture's.
   */
  lemma ScreenIsFilled(cw: real, ch: real)
    requires cw > 0.0 && ch > 0.0
    ensures var pa, pb := Corners(Screen()), Corners(Picture(cw, ch));
            && OneMap(pa, pb)
            && forall c :: CarriesCorners(c, pa, pb) ==>
                 forall k :: 0 <= k < 4 ==> Denominator(c, pa[k]) != 0.0 && Project(c, pa[k]) == pb[k]
  {
    var o, i := Screen(), Picture(cw, ch);
    assert cw * ch > 0.0;
    ScreenAreas();
    PictureAreas(cw, ch);
    ScreenOffHorizon(cw, ch);
    assert Proper(o) && Proper(i);
    hide Area, Screen, Picture, AtOrigin, Carries, Denominator, Project;
    assert QuadOf(Corners(o)) == o && QuadOf(Corners(i)) == i;
    OneMapIffOffHorizon(Corners(o), Corners(i));
    forall c | CarriesCorners(c, Corners(o), Corners(i))
      ensures forall k :: 0 <= k < 4 ==> Denominator(c, Corners(o)[k]) != 0.0 && Project(c, Corners(o)[k]) == Corners(i)[k]
    {
      CornersLand(c, Corners(o), Corners(i));
    }
  }
}
