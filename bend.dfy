/** The hinge bend of ParticleSystem.applyBendEffect
    (js/particles.js:222-242), as a function on the flat position buffer. */
module HingeBend {
  import opened MathModel

  /** The hinge angle: 0.0015 rad per millisecond since startTime, capped at
      PI (Math.min). The source reads performance.now() afresh for every
      left-half particle, so `now` is that particle's own clock reading. */
  function BendAngle(now: real, start: real): (a: real)
    ensures a <= PI
    ensures start <= now ==> 0.0 <= a
    ensures a < PI ==> a == (now - start) * 0.0015
    ensures (now - start) * 0.0015 < PI ==> a == (now - start) * 0.0015
    ensures (now - start) * 0.0015 >= PI ==> a == PI
  {
    var raw := (now - start) * 0.0015;
    if raw < PI then raw else PI
  }

  /** Where particle i's x and z head: its card x rotated about the hinge. */
  function GoalX(tx: real, angle: real, m: MathLib): real {
    tx * m.cos(angle)
  }

  function GoalZ(tx: real, angle: real, m: MathLib): real {
    tx * m.sin(angle)
  }

  /** `p += (goal - p) * 0.1`. */
  function Approach(p: real, goal: real): real {
    p + (goal - p) * 0.1
  }

  predicate Shaped(pos: seq<real>, tgt: seq<real>, clock: seq<real>) {
    |pos| == |tgt| == 3 * |clock|
  }

  /** The new value of flat position component k after one bend pass. */
  function BendComponent(pos: seq<real>, tgt: seq<real>, clock: seq<real>, start: real,
                         m: MathLib, k: nat): real
    requires Shaped(pos, tgt, clock) && k < |pos|
  {
    var i := k / 3;
    var tx := tgt[3 * i];
    if tx < 0.0 && k % 3 == 0 then Approach(pos[k], GoalX(tx, BendAngle(clock[i], start), m))
    else if tx < 0.0 && k % 3 == 2 then Approach(pos[k], GoalZ(tx, BendAngle(clock[i], start), m))
    else pos[k]
  }

  /** The whole position buffer after one applyBendEffect call. */
  function Bend(pos: seq<real>, tgt: seq<real>, clock: seq<real>, start: real, m: MathLib): (r: seq<real>)
    requires Shaped(pos, tgt, clock)
    ensures |r| == |pos|
  {
    seq(|pos|, k requires 0 <= k < |pos| => BendComponent(pos, tgt, clock, start, m, k))
  }

  /** The buffer after bending particle i alone at the given angle. */
  function BendSlot(s: seq<real>, tgt: seq<real>, i: nat, angle: real, m: MathLib): (r: seq<real>)
    requires |s| == |tgt| && 3 * i + 2 < |s|
    ensures |r| == |s|
    ensures forall k :: 0 <= k < |s| && k != 3 * i && k != 3 * i + 2 ==> r[k] == s[k]
    ensures tgt[3 * i] >= 0.0 ==> r == s
    ensures tgt[3 * i] < 0.0 ==>
              r[3 * i] - GoalX(tgt[3 * i], angle, m) == 0.9 * (s[3 * i] - GoalX(tgt[3 * i], angle, m)) &&
              r[3 * i + 2] - GoalZ(tgt[3 * i], angle, m) == 0.9 * (s[3 * i + 2] - GoalZ(tgt[3 * i], angle, m))
  {
    if tgt[3 * i] < 0.0 then
      s[3 * i := Approach(s[3 * i], GoalX(tgt[3 * i], angle, m))]
       [3 * i + 2 := Approach(s[3 * i + 2], GoalZ(tgt[3 * i], angle, m))]
    else s
  }

  /** One iteration of the bend loop: with particles 0 .. i-1 bent and the
      rest untouched, bending particle i leaves particles 0 .. i bent. */
  lemma BendStep(pos: seq<real>, tgt: seq<real>, clock: seq<real>, start: real, m: MathLib, i: nat)
    requires Shaped(pos, tgt, clock) && i < |clock|
    ensures BendSlot(Bend(pos, tgt, clock, start, m)[..3 * i] + pos[3 * i..], tgt, i, BendAngle(clock[i], start), m)
            == Bend(pos, tgt, clock, start, m)[..3 * i + 3] + pos[3 * i + 3..]
  {
    var r := Bend(pos, tgt, clock, start, m);
    var s := r[..3 * i] + pos[3 * i..];
    var next := r[..3 * i + 3] + pos[3 * i + 3..];
    var u := BendSlot(s, tgt, i, BendAngle(clock[i], start), m);
    SlotOf(i, 0);
    SlotOf(i, 1);
    SlotOf(i, 2);
    assert s[3 * i] == pos[3 * i] && s[3 * i + 2] == pos[3 * i + 2];
    forall k | 0 <= k < |pos|
      ensures u[k] == next[k]
    {
    }
  }

  /** Frame: a particle whose card x is not negative keeps all three
      components, and no particle's y ever changes. */
  lemma BendFrame(pos: seq<real>, tgt: seq<real>, clock: seq<real>, start: real, m: MathLib, i: nat)
    requires Shaped(pos, tgt, clock) && i < |clock|
    ensures Bend(pos, tgt, clock, start, m)[3 * i + 1] == pos[3 * i + 1]
    ensures tgt[3 * i] >= 0.0 ==>
              Bend(pos, tgt, clock, start, m)[3 * i] == pos[3 * i] &&
              Bend(pos, tgt, clock, start, m)[3 * i + 2] == pos[3 * i + 2]
  {
    SlotOf(i, 0);
    SlotOf(i, 1);
    SlotOf(i, 2);
  }

  /** A left-half particle's x and z each close exactly 10% of their distance
      to the rotated goal, at an angle of at most PI. */
  lemma BendContracts(pos: seq<real>, tgt: seq<real>, clock: seq<real>, start: real, m: MathLib, i: nat)
    requires Shaped(pos, tgt, clock) && i < |clock|
    requires tgt[3 * i] < 0.0
    ensures BendAngle(clock[i], start) <= PI
    ensures Bend(pos, tgt, clock, start, m)[3 * i] - GoalX(tgt[3 * i], BendAngle(clock[i], start), m)
            == 0.9 * (pos[3 * i] - GoalX(tgt[3 * i], BendAngle(clock[i], start), m))
    ensures Bend(pos, tgt, clock, start, m)[3 * i + 2] - GoalZ(tgt[3 * i], BendAngle(clock[i], start), m)
            == 0.9 * (pos[3 * i + 2] - GoalZ(tgt[3 * i], BendAngle(clock[i], start), m))
  {
    SlotOf(i, 0);
    SlotOf(i, 2);
  }

  /** The goal lies on the circle of radius |tx| about the hinge (x = 0, z = 0):
      at angle 0 it is the card position itself, at PI its mirror image. */
  lemma GoalOnHingeCircle(tx: real, angle: real, m: MathLib)
    requires Sound(m)
    ensures GoalX(tx, angle, m) * GoalX(tx, angle, m) + GoalZ(tx, angle, m) * GoalZ(tx, angle, m) == tx * tx
  {
    var c, s := m.cos(angle), m.sin(angle);
    calc {
      GoalX(tx, angle, m) * GoalX(tx, angle, m) + GoalZ(tx, angle, m) * GoalZ(tx, angle, m);
      (tx * c) * (tx * c) + (tx * s) * (tx * s);
      tx * tx * (s * s + c * c);
      tx * tx;
    }
  }
}
