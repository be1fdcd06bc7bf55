/** Numeric stand-ins for what the particle core takes from the browser's Math
    object and from Three.js: vectors, colours, PI, and the transcendental
    functions. Doubles are modelled as mathematical reals. */
module MathModel {

  /** Math.PI, written as the double literal the browser prints for it. */
  const PI: real := 3.141592653589793

  /** THREE.Vector2 (mouse positions). */
  datatype Vec2 = Vec2(x: real, y: real)

  /** THREE.Vector3, and also a THREE.Color read as (r, g, b). */
  datatype Vec3 = Vec3(x: real, y: real, z: real)

  /** Math.sin, Math.cos and Math.pow(_, 0.5). The model does not fix them;
      every operation that needs their values takes them as a parameter and
      relies only on the laws listed in Sound. */
  datatype MathLib = MathLib(sin: real -> real, cos: real -> real, sqrt: real -> real)

  /** The laws of sine, cosine and square root that the proofs use. */
  ghost predicate Sound(m: MathLib) {
    (forall a :: -1.0 <= m.sin(a) <= 1.0) &&
    (forall a :: -1.0 <= m.cos(a) <= 1.0) &&
    (forall a :: m.sin(a) * m.sin(a) + m.cos(a) * m.cos(a) == 1.0) &&
    (forall a :: 0.0 <= a <= PI ==> 0.0 <= m.sin(a)) &&
    (forall v :: 0.0 <= v ==> 0.0 <= m.sqrt(v) && m.sqrt(v) * m.sqrt(v) == v)
  }

  /** One output of Math.random(): a value in [0, 1). */
  predicate Unit(r: real) {
    0.0 <= r < 1.0
  }

  function Abs(r: real): (a: real)
    ensures 0.0 <= a && (a == r || a == -r)
  {
    if r < 0.0 then -r else r
  }

  /** Component `axis` (0, 1, 2) of a vector, the way a flat Float32Array
      stores it at index 3 * i + axis. */
  function Coord(v: Vec3, axis: nat): real
    requires axis < 3
  {
    if axis == 0 then v.x else if axis == 1 then v.y else v.z
  }

  /** A flat attribute buffer of item size 3: the layout of the position,
      target and colour arrays. */
  function Flatten(vs: seq<Vec3>): (s: seq<real>)
    ensures |s| == 3 * |vs|
  {
    seq(3 * |vs|, k requires 0 <= k < 3 * |vs| => Coord(vs[k / 3], k % 3))
  }

  /** Index 3 * i + axis of a flat buffer lies in particle i's slot. */
  lemma SlotOf(i: nat, axis: nat)
    requires axis < 3
    ensures (3 * i + axis) / 3 == i && (3 * i + axis) % 3 == axis
  {
  }

  /** Particle i of a flattened buffer reads back as the vector that was stored. */
  lemma FlattenParticle(vs: seq<Vec3>, i: nat)
    requires i < |vs|
    ensures 3 * i + 2 < |Flatten(vs)|
    ensures Flatten(vs)[3 * i] == vs[i].x
    ensures Flatten(vs)[3 * i + 1] == vs[i].y
    ensures Flatten(vs)[3 * i + 2] == vs[i].z
  {
    SlotOf(i, 0);
    SlotOf(i, 1);
    SlotOf(i, 2);
  }

  /** Appending a vector appends its three components. */
  lemma FlattenSnoc(vs: seq<Vec3>, i: nat)
    requires i < |vs|
    ensures Flatten(vs[..i + 1]) == Flatten(vs[..i]) + [vs[i].x, vs[i].y, vs[i].z]
  {
    var a, b := Flatten(vs[..i + 1]), Flatten(vs[..i]) + [vs[i].x, vs[i].y, vs[i].z];
    forall k | 0 <= k < 3 * i + 3
      ensures a[k] == b[k]
    {
      var j, axis := k / 3, k % 3;
      SlotOf(j, axis);
    }
  }

  /** A square root of a value in [0, 1] is itself in [0, 1]. */
  lemma SqrtAtMostOne(m: MathLib, v: real)
    requires Sound(m)
    requires 0.0 <= v <= 1.0
    ensures 0.0 <= m.sqrt(v) <= 1.0
  {
    var s := m.sqrt(v);
    assert s * s == v;
    assert (s - 1.0) * (s + 1.0) == v - 1.0;
  }

  /** Bounds multiply: |a * b| <= A * B when |a| <= A and |b| <= B. */
  lemma MulBound(a: real, b: real, bigA: real, bigB: real)
    requires Abs(a) <= bigA && Abs(b) <= bigB
    ensures Abs(a * b) <= bigA * bigB
  {
    assert Abs(a * b) == Abs(a) * Abs(b);
    assert Abs(a) * Abs(b) <= bigA * Abs(b);
    assert bigA * Abs(b) <= bigA * bigB;
  }
}
