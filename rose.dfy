/** The rose that ParticleSystem.morphToRose builds (js/particles.js:260-330):
    three index cohorts, one formula each, and one position request and one
    colour request per particle. */
module RoseShape {
  import opened MathModel
  import CardLayout
  import opened Tweens

  /** new THREE.Color(0x8b0000). */
  const RoseRed: Vec3 := Vec3(139.0 / 255.0, 0.0, 0.0)

  /** The Math.random() results morphToRose uses for one particle: t and p
      (drawn for every particle), a and b (the stem's x and z jitter, or the
      leaf's side and parameter), and the position tween's delay. */
  datatype RoseDraw = RoseDraw(t: real, p: real, a: real, b: real, delay: real)

  predicate WellDrawn(d: RoseDraw) {
    Unit(d.t) && Unit(d.p) && Unit(d.a) && Unit(d.b) && Unit(d.delay)
  }

  predicate AllWellDrawn(ds: seq<RoseDraw>) {
    forall i :: 0 <= i < |ds| ==> WellDrawn(ds[i])
  }

  /** `i < count * 0.7`: the first 70% of the indices. */
  predicate IsPetal(i: nat, count: nat) {
    (i as real) < (count as real) * 0.7
  }

  /** `i < count * 0.9` after the petal test failed: the next 20%. */
  predicate IsStem(i: nat, count: nat) {
    !IsPetal(i, count) && (i as real) < (count as real) * 0.9
  }

  predicate IsLeaf(i: nat, count: nat) {
    !IsPetal(i, count) && !IsStem(i, count)
  }

  /** r = 50 * sin(p)^0.5 * (1 + 0.2 * sin(8t)). */
  function PetalRadius(t: real, p: real, m: MathLib): real {
    50.0 * m.sqrt(m.sin(p)) * (1.0 + 0.2 * m.sin(8.0 * t))
  }

  function PetalPoint(t: real, p: real, m: MathLib): Vec3 {
    PointOnPetal(PetalRadius(t, p, m), t, p, m)
  }

  /** The petal formula for a given radius r. */
  function PointOnPetal(r: real, t: real, p: real, m: MathLib): Vec3 {
    Vec3(r * m.sin(p) * m.cos(t),
         r * m.sin(p) * m.sin(t) + m.cos(p) * 30.0,
         r * m.cos(p))
  }

  function StemPoint(p: real, a: real, b: real): Vec3 {
    Vec3((a - 0.5) * 2.0, -p * 25.0 - 20.0, (b - 0.5) * 2.0)
  }

  /** `side = Math.random() > 0.5 ? 1 : -1`, `leafT = Math.random() * PI`. */
  function LeafPoint(a: real, b: real, m: MathLib): Vec3 {
    var side := if a > 0.5 then 1.0 else -1.0;
    var leafT := b * PI;
    Vec3(side * (leafT * 10.0), -40.0 + m.sin(leafT) * 10.0, m.cos(leafT) * 5.0)
  }

  /** The rose target of particle i out of count. */
  function RosePoint(i: nat, count: nat, d: RoseDraw, m: MathLib): Vec3 {
    var t := d.t * PI * 2.0;
    var p := d.p * PI;
    if IsPetal(i, count) then PetalPoint(t, p, m)
    else if (i as real) < (count as real) * 0.9 then StemPoint(p, d.a, d.b)
    else LeafPoint(d.a, d.b, m)
  }

  /** The colour a particle is sent to: deep red for petals, gold otherwise. */
  function RoseColor(i: nat, count: nat): (c: Vec3)
    ensures IsPetal(i, count) ==> c == RoseRed
    ensures !IsPetal(i, count) ==> c == CardLayout.Gold
  {
    if IsPetal(i, count) then RoseRed else CardLayout.Gold
  }

  /** The 0.7 and 0.9 thresholds are exact: the cohorts are the index ranges
      10i < 7n, 7n <= 10i < 9n and 9n <= 10i, and they cover every index. */
  lemma CohortBoundaries(i: nat, count: nat)
    ensures IsPetal(i, count) <==> 10 * i < 7 * count
    ensures IsStem(i, count) <==> 7 * count <= 10 * i < 9 * count
    ensures IsLeaf(i, count) <==> 9 * count <= 10 * i
    ensures IsPetal(i, count) || IsStem(i, count) || IsLeaf(i, count)
  {
  }

  /** With p in [0, PI) the petal radius lies in [0, 60]. */
  lemma PetalRadiusBounds(t: real, p: real, m: MathLib)
    requires Sound(m) && 0.0 <= p <= PI
    ensures 0.0 <= PetalRadius(t, p, m) <= 60.0
  {
    var s := m.sin(p);
    SqrtAtMostOne(m, s);
    var q, w := m.sqrt(s), 1.0 + 0.2 * m.sin(8.0 * t);
    assert 0.8 <= w <= 1.2;
    MulBound(q, w, 1.0, 1.2);
    assert 0.0 <= q * w;
    assert PetalRadius(t, p, m) == 50.0 * (q * w);
  }

  /** Spherical coordinates: (r s ct, r s st, r c) has length r when
      ct^2 + st^2 = 1 and s^2 + c^2 = 1. */
  lemma SphereIdentity(r: real, s: real, c: real, st: real, ct: real)
    requires ct * ct + st * st == 1.0 && s * s + c * c == 1.0
    ensures (r * s * ct) * (r * s * ct) + (r * s * st) * (r * s * st) + (r * c) * (r * c) == r * r
  {
    calc {
      (r * s * ct) * (r * s * ct) + (r * s * st) * (r * s * st) + (r * c) * (r * c);
      (r * s) * (r * s) * (ct * ct + st * st) + (r * r) * (c * c);
      (r * r) * (s * s) + (r * r) * (c * c);
      (r * r) * (s * s + c * c);
      r * r;
    }
  }

  /** v lies on the sphere of radius r about (0, 30 cos p, 0). */
  predicate OnPetalSphere(v: Vec3, r: real, p: real, m: MathLib) {
    var cy := v.y - m.cos(p) * 30.0;
    v.x * v.x + cy * cy + v.z * v.z == r * r
  }

  /** For any radius r, the petal formula lies on the sphere of radius r. */
  lemma PointOnPetalSphere(r: real, t: real, p: real, m: MathLib)
    requires Sound(m)
    ensures OnPetalSphere(PointOnPetal(r, t, p, m), r, p, m)
  {
    var s, c, st, ct := m.sin(p), m.cos(p), m.sin(t), m.cos(t);
    assert ct * ct + st * st == 1.0 && s * s + c * c == 1.0;
    SphereIdentity(r, s, c, st, ct);
  }

  /** A petal point lies on the sphere whose radius is its petal radius. */
  lemma PetalOnSphere(t: real, p: real, m: MathLib)
    requires Sound(m)
    ensures OnPetalSphere(PetalPoint(t, p, m), PetalRadius(t, p, m), p, m)
  {
    PointOnPetalSphere(PetalRadius(t, p, m), t, p, m);
  }

  /** Every petal-cohort target lies on the petal surface: at distance r from
      (0, 30 cos p, 0), with r in [0, 60]. */
  lemma PetalOnSurface(i: nat, count: nat, d: RoseDraw, m: MathLib)
    requires Sound(m) && WellDrawn(d) && IsPetal(i, count)
    ensures OnPetalSphere(RosePoint(i, count, d, m), PetalRadius(d.t * PI * 2.0, d.p * PI, m), d.p * PI, m)
    ensures 0.0 <= PetalRadius(d.t * PI * 2.0, d.p * PI, m) <= 60.0
  {
    var t, p := d.t * PI * 2.0, d.p * PI;
    assert 0.0 <= p <= PI;
    PetalRadiusBounds(t, p, m);
    PetalOnSphere(t, p, m);
    assert RosePoint(i, count, d, m) == PetalPoint(t, p, m);
  }

  /** The stem is a column at most 1 unit off the y axis, from y = -20 down
      to above y = -25 PI - 20. */
  lemma StemBounds(i: nat, count: nat, d: RoseDraw, m: MathLib)
    requires WellDrawn(d) && IsStem(i, count)
    ensures -1.0 <= RosePoint(i, count, d, m).x < 1.0
    ensures -1.0 <= RosePoint(i, count, d, m).z < 1.0
    ensures -25.0 * PI - 20.0 < RosePoint(i, count, d, m).y <= -20.0
  {
  }

  /** The leaves lie in the band y in [-40, -30] (sin is not negative on
      [0, PI)), within 10 PI of the axis, on the side that `a` picks. */
  lemma LeafBounds(i: nat, count: nat, d: RoseDraw, m: MathLib)
    requires Sound(m) && WellDrawn(d) && IsLeaf(i, count)
    ensures -40.0 <= RosePoint(i, count, d, m).y <= -30.0
    ensures -5.0 <= RosePoint(i, count, d, m).z <= 5.0
    ensures Abs(RosePoint(i, count, d, m).x) < 10.0 * PI
    ensures d.a > 0.5 ==> RosePoint(i, count, d, m).x >= 0.0
    ensures d.a <= 0.5 ==> RosePoint(i, count, d, m).x <= 0.0
  {
    var leafT := d.b * PI;
    assert 0.0 <= leafT <= PI;
    assert 0.0 <= m.sin(leafT) <= 1.0;
  }

  /** The targets of every particle, in index order. */
  function RoseTargets(count: nat, ds: seq<RoseDraw>, m: MathLib): (pts: seq<Vec3>)
    requires |ds| == count
    ensures |pts| == count
  {
    seq(count, i requires 0 <= i < count => RosePoint(i, count, ds[i], m))
  }

  /** The first loop of morphToRose: exactly count targets, one per index. */
  method GenerateRose(count: nat, ds: seq<RoseDraw>, m: MathLib) returns (rosePoints: seq<Vec3>)
    requires |ds| == count
    ensures rosePoints == RoseTargets(count, ds, m)
  {
    rosePoints := [];
    var i := 0;
    while i < count
      invariant 0 <= i <= count
      invariant |rosePoints| == i
      invariant forall j :: 0 <= j < i ==> rosePoints[j] == RosePoint(j, count, ds[j], m)
    {
      var t := ds[i].t * PI * 2.0;
      var p := ds[i].p * PI;
      var point: Vec3;
      if (i as real) < (count as real) * 0.7 {
        point := PetalPoint(t, p, m);
      } else if (i as real) < (count as real) * 0.9 {
        point := StemPoint(p, ds[i].a, ds[i].b);
      } else {
        point := LeafPoint(ds[i].a, ds[i].b, m);
      }
      rosePoints := rosePoints + [point];
      i := i + 1;
    }
  }

  /** The two requests the second loop of morphToRose makes for particle i:
      position over 3 s with power3.inOut after a delay in [0, 0.5), then
      colour over 2 s with the default ease. */
  function RosePair(i: nat, count: nat, target: Vec3, d: RoseDraw): seq<Tween> {
    [Tween(PositionAttr, i, target, 3.0, Power3InOut, d.delay * 0.5),
     Tween(ColorAttr, i, RoseColor(i, count), 2.0, Power1Out, 0.0)]
  }

  /** The requests of the first k iterations of the second loop. */
  function RoseTweens(pts: seq<Vec3>, ds: seq<RoseDraw>, k: nat): (ts: seq<Tween>)
    requires |pts| == |ds| && k <= |pts|
    ensures |ts| == 2 * k
  {
    if k == 0 then [] else RoseTweens(pts, ds, k - 1) + RosePair(k - 1, |pts|, pts[k - 1], ds[k - 1])
  }

  /** Request 2i sends particle i's position to its rose target, request
      2i + 1 sends its colour to red (petals) or gold (stem and leaves). */
  lemma {:induction false} RoseTweensAt(pts: seq<Vec3>, ds: seq<RoseDraw>, k: nat, i: nat)
    requires |pts| == |ds| && k <= |pts| && i < k
    requires WellDrawn(ds[i])
    ensures var ts := RoseTweens(pts, ds, k);
            ts[2 * i].attr == PositionAttr && ts[2 * i].particle == i && ts[2 * i].goal == pts[i] &&
            ts[2 * i].duration == 3.0 && 0.0 <= ts[2 * i].delay < 0.5 &&
            ts[2 * i + 1].attr == ColorAttr && ts[2 * i + 1].particle == i &&
            ts[2 * i + 1].goal == (if IsPetal(i, |pts|) then RoseRed else CardLayout.Gold)
  {
    if i < k - 1 {
      RoseTweensAt(pts, ds, k - 1, i);
    }
  }
}
