/** GSAP tween requests. The model records what each gsap.to call asks for
    (which attribute, which particle, the end values, duration, ease and
    delay); it does not interpolate. Also the dispersal of
    ParticleSystem.disperseParticles (js/particles.js:244-258). */
module Tweens {
  import opened MathModel

  datatype Attribute = PositionAttr | ColorAttr

  /** Power1Out is GSAP's default ease, used when a call names none. */
  datatype Ease = Power1Out | Power2Out | Power3InOut

  /** One gsap.to request on three consecutive slots 3i, 3i+1, 3i+2 of an
      attribute array. */
  datatype Tween = Tween(attr: Attribute, particle: nat, goal: Vec3,
                         duration: real, ease: Ease, delay: real)

  /** The three Math.random() results one dispersal request consumes. */
  datatype DisperseDraw = DisperseDraw(x: real, y: real, z: real)

  predicate WellDrawn(d: DisperseDraw) {
    Unit(d.x) && Unit(d.y) && Unit(d.z)
  }

  predicate AllWellDrawn(ds: seq<DisperseDraw>) {
    forall i :: 0 <= i < |ds| ==> WellDrawn(ds[i])
  }

  /** A scattered target in a 200 x 200 x 100 box about the origin. */
  function DisperseTarget(d: DisperseDraw): (v: Vec3)
    requires WellDrawn(d)
    ensures -100.0 <= v.x < 100.0
    ensures -100.0 <= v.y < 100.0
    ensures -50.0 <= v.z < 50.0
  {
    Vec3((d.x - 0.5) * 200.0, (d.y - 0.5) * 200.0, (d.z - 0.5) * 100.0)
  }

  function DisperseTween(i: nat, d: DisperseDraw): Tween
    requires WellDrawn(d)
  {
    Tween(PositionAttr, i, DisperseTarget(d), 2.5, Power2Out, 0.0)
  }

  /** The requests of the first k iterations of disperseParticles' loop. */
  function DisperseTweens(ds: seq<DisperseDraw>, k: nat): (ts: seq<Tween>)
    requires AllWellDrawn(ds) && k <= |ds|
    ensures |ts| == k
  {
    if k == 0 then [] else DisperseTweens(ds, k - 1) + [DisperseTween(k - 1, ds[k - 1])]
  }

  /** Request i moves particle i's position, over 2.5 s with power2.out, to a
      target inside the dispersal box. */
  lemma {:induction false} DisperseTweensAt(ds: seq<DisperseDraw>, k: nat, i: nat)
    requires AllWellDrawn(ds) && k <= |ds| && i < k
    ensures DisperseTweens(ds, k)[i].attr == PositionAttr
    ensures DisperseTweens(ds, k)[i].particle == i
    ensures DisperseTweens(ds, k)[i].duration == 2.5 && DisperseTweens(ds, k)[i].ease == Power2Out
    ensures -100.0 <= DisperseTweens(ds, k)[i].goal.x < 100.0
    ensures -100.0 <= DisperseTweens(ds, k)[i].goal.y < 100.0
    ensures -50.0 <= DisperseTweens(ds, k)[i].goal.z < 50.0
  {
    if i < k - 1 {
      DisperseTweensAt(ds, k - 1, i);
    }
  }
}
