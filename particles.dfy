/** ParticleSystem (js/particles.js:3-331): the particle buffers, the
    four-value animation state, the mouse fields and the recorded tween
    requests, with one method per method of the source. */
module Particles {
  import opened MathModel
  import opened CardLayout
  import opened HingeBend
  import opened Tweens
  import RoseShape
  import Watermark
  import opened MouseInput

  /** this.states: CARD, OPENING, FLOATING, ROSE. */
  datatype State = Card | Opening | Floating | Rose

  datatype Option<T> = None | Some(value: T)

  /** 4000 particles on a narrow viewport (innerWidth < 768), else 7000. */
  function ParticleCountFor(innerWidth: real): (n: nat)
    ensures n == 4000 || n == 7000
    ensures n == 4000 <==> innerWidth < 768.0
  {
    if innerWidth < 768.0 then 4000 else 7000
  }

  /** `a[i * 3] = v.x; a[i * 3 + 1] = v.y; a[i * 3 + 2] = v.z;` */
  method SetSlot(a: array<real>, i: nat, v: Vec3)
    requires 3 * i + 2 < a.Length
    modifies a
    ensures a[..3 * i + 3] == old(a[..3 * i]) + [v.x, v.y, v.z]
    ensures a[3 * i + 3..] == old(a[3 * i + 3..])
  {
    a[i * 3] := v.x;
    a[i * 3 + 1] := v.y;
    a[i * 3 + 2] := v.z;
  }

  /** Five different arrays. */
  predicate Distinct(a: array<real>, b: array<real>, c: array<real>, d: array<real>, e: array<real>) {
    a != b && a != c && a != d && a != e && b != c && b != d && b != e && c != d && c != e && d != e
  }

  /** One iteration of init's loop: particle i's slots in all five arrays,
      which extends the filled prefix of each by one particle. */
  method WriteParticle(positions: array<real>, targets: array<real>, colors: array<real>,
                       sizes: array<real>, phases: array<real>, draws: seq<CardDraw>, i: nat)
    requires CardLayout.AllWellDrawn(draws) && i < |draws|
    requires positions.Length == targets.Length == colors.Length == 3 * |draws|
    requires sizes.Length == phases.Length == |draws|
    requires Distinct(positions, targets, colors, sizes, phases)
    requires positions[..3 * i] == Flatten(Positions(draws)[..i])
    requires targets[..3 * i] == Flatten(Positions(draws)[..i])
    requires colors[..3 * i] == Flatten(Colors(draws)[..i])
    requires sizes[..i] == Sizes(draws)[..i]
    requires phases[..i] == Phases(draws)[..i]
    modifies positions, targets, colors, sizes, phases
    ensures positions[..3 * i + 3] == Flatten(Positions(draws)[..i + 1])
    ensures targets[..3 * i + 3] == Flatten(Positions(draws)[..i + 1])
    ensures colors[..3 * i + 3] == Flatten(Colors(draws)[..i + 1])
    ensures sizes[..i + 1] == Sizes(draws)[..i + 1]
    ensures phases[..i + 1] == Phases(draws)[..i + 1]
    ensures positions[3 * i + 3..] == old(positions[3 * i + 3..])
    ensures targets[3 * i + 3..] == old(targets[3 * i + 3..])
    ensures colors[3 * i + 3..] == old(colors[3 * i + 3..])
    ensures sizes[i + 1..] == old(sizes[i + 1..]) && phases[i + 1..] == old(phases[i + 1..])
  {
    BuffersSnoc(draws, i);
    var d := draws[i];
    var p := CardPosition(d);
    SetSlot(positions, i, p);
    SetSlot(targets, i, p);
    var mixed := CardColor(d);
    SetSlot(colors, i, mixed);
    sizes[i] := CardSize(d);
    phases[i] := CardPhase(d);
  }

  /** The loop of init: five freshly allocated typed arrays, the vector ones
      of length 3n and the scalar ones of length n, filled from the draws,
      with the same card point written to position and to target. */
  method InitBuffers(draws: seq<CardDraw>)
    returns (positions: array<real>, targets: array<real>, colors: array<real>,
             sizes: array<real>, phases: array<real>)
    requires CardLayout.AllWellDrawn(draws)
    ensures fresh(positions) && fresh(targets) && fresh(colors) && fresh(sizes) && fresh(phases)
    ensures Distinct(positions, targets, colors, sizes, phases)
    ensures positions[..] == Flatten(Positions(draws))
    ensures targets[..] == positions[..]
    ensures colors[..] == Flatten(Colors(draws))
    ensures sizes[..] == Sizes(draws)
    ensures phases[..] == Phases(draws)
  {
    var n := |draws|;
    positions := new real[n * 3];
    colors := new real[n * 3];
    sizes := new real[n];
    phases := new real[n];
    targets := new real[n * 3];
    var i := 0;
    while i < n
      invariant 0 <= i <= n
      invariant positions[..3 * i] == Flatten(Positions(draws)[..i])
      invariant targets[..3 * i] == Flatten(Positions(draws)[..i])
      invariant colors[..3 * i] == Flatten(Colors(draws)[..i])
      invariant sizes[..i] == Sizes(draws)[..i]
      invariant phases[..i] == Phases(draws)[..i]
    {
      WriteParticle(positions, targets, colors, sizes, phases, draws, i);
      i := i + 1;
    }
    assert Positions(draws)[..n] == Positions(draws) && Colors(draws)[..n] == Colors(draws);
  }

  class ParticleSystem {
    const particleCount: nat
    /** The five geometry attributes; the arrays are never replaced. */
    const position: array<real>
    const target: array<real>
    const color: array<real>
    const size: array<real>
    const phase: array<real>
    /** The static background points; never touched after construction. */
    const watermark: seq<Vec3>

    var currentState: State
    var mouse: Vec2
    var targetMouse: Vec2
    /** Written by the interaction layer before it opens the card; JavaScript
        leaves it undefined until then. */
    var startTime: Option<real>
    /** The `time` shader uniform. */
    var time: real
    /** Every gsap.to request made so far, in call order. */
    var tweens: seq<Tween>
    var positionNeedsUpdate: bool
    var colorNeedsUpdate: bool
    /** openCard callbacks scheduled with setTimeout and not yet run. */
    var pendingFloat: nat

    ghost predicate Valid()
      reads this
    {
      position.Length == 3 * particleCount &&
      target.Length == 3 * particleCount &&
      color.Length == 3 * particleCount &&
      size.Length == particleCount &&
      phase.Length == particleCount &&
      Distinct(position, target, color, size, phase)
    }

    /** The constructor and init: the card layout, the watermark and the
        initial CARD state. Math.random() is the `draws`, the ImageData of the
        watermark canvas is `image`. */
    constructor (innerWidth: real, draws: seq<CardDraw>, image: seq<Watermark.byte>)
      requires |draws| == ParticleCountFor(innerWidth) && CardLayout.AllWellDrawn(draws)
      requires |image| == Watermark.ImageBytes
      ensures Valid()
      ensures particleCount == ParticleCountFor(innerWidth)
      ensures currentState == Card
      ensures fresh(position) && fresh(target) && fresh(color) && fresh(size) && fresh(phase)
      ensures position[..] == Flatten(Positions(draws)) && target[..] == position[..]
      ensures color[..] == Flatten(Colors(draws))
      ensures size[..] == Sizes(draws) && phase[..] == Phases(draws)
      ensures watermark == Watermark.Scan(image, Watermark.Cells)
      ensures mouse == Vec2(-100.0, -100.0) && targetMouse == Vec2(-100.0, -100.0)
      ensures startTime == None && time == 0.0 && tweens == [] && pendingFloat == 0
      ensures !positionNeedsUpdate && !colorNeedsUpdate
    {
      particleCount := ParticleCountFor(innerWidth);
      currentState := Card;
      mouse := Vec2(-100.0, -100.0);
      targetMouse := Vec2(-100.0, -100.0);
      var p, t, c, s, ph := InitBuffers(draws);
      position, target, color, size, phase := p, t, c, s, ph;
      var points := Watermark.CreateWatermark(image);
      watermark := points;
      startTime := None;
      time := 0.0;
      tweens := [];
      positionNeedsUpdate, colorNeedsUpdate := false, false;
      pendingFloat := 0;
    }

    method OnMouseMove(clientX: real, clientY: real, view: Viewport)
      requires Showing(view)
      modifies this`targetMouse
      ensures targetMouse == ToNdc(clientX, clientY, view)
    {
      targetMouse := Vec2(clientX / view.width * 2.0 - 1.0, -(clientY / view.height) * 2.0 + 1.0);
    }

    /** Only the first touch counts; an event with no touches changes nothing. */
    method OnTouchMove(touches: seq<Vec2>, view: Viewport)
      requires Showing(view)
      modifies this`targetMouse
      ensures |touches| > 0 ==> targetMouse == ToNdc(touches[0].x, touches[0].y, view)
      ensures |touches| == 0 ==> targetMouse == old(targetMouse)
    {
      if |touches| > 0 {
        targetMouse := ToNdc(touches[0].x, touches[0].y, view);
      }
    }

    /** One frame: the time uniform, the mouse smoothing and, only in OPENING,
        the bend. `now` is the frame's performance.now(); `clock` holds the
        readings the bend takes, one per particle. */
    method Update(now: real, clock: seq<real>, m: MathLib)
      requires Valid()
      requires currentState == Opening ==> startTime.Some? && |clock| == particleCount
      modifies this`time, this`mouse, this`positionNeedsUpdate, position
      ensures Valid()
      ensures time == now * 0.001
      ensures mouse == Lerp(old(mouse), targetMouse, 0.05)
      ensures currentState == Opening ==>
                position[..] == Bend(old(position[..]), target[..], clock, startTime.value, m) &&
                positionNeedsUpdate
      ensures currentState != Opening ==>
                position[..] == old(position[..]) && positionNeedsUpdate == old(positionNeedsUpdate)
      ensures target[..] == old(target[..])
    {
      time := now * 0.001;
      mouse := Lerp(mouse, targetMouse, 0.05);
      if currentState == Opening {
        ApplyBendEffect(clock, m);
      }
    }

    /** Sets OPENING whatever the current state, and schedules the 2500 ms
        callback (OnOpenTimeout). */
    method OpenCard()
      requires Valid()
      modifies this`currentState, this`pendingFloat
      ensures Valid()
      ensures currentState == Opening
      ensures pendingFloat == old(pendingFloat) + 1
    {
      currentState := Opening;
      pendingFloat := pendingFloat + 1;
    }

    /** The delayed callback of openCard: FLOATING, whatever the state is by
        then, and one dispersal request per particle. */
    method OnOpenTimeout(ds: seq<DisperseDraw>)
      requires Valid() && pendingFloat > 0
      requires |ds| == particleCount && Tweens.AllWellDrawn(ds)
      modifies this`currentState, this`pendingFloat, this`tweens
      ensures Valid()
      ensures currentState == Floating
      ensures pendingFloat == old(pendingFloat) - 1
      ensures tweens == old(tweens) + DisperseTweens(ds, particleCount)
    {
      pendingFloat := pendingFloat - 1;
      currentState := Floating;
      DisperseParticles(ds);
    }

    /** Moves only left-half particles (card x < 0), and only their x and z,
        10% of the way toward the hinge-rotated card point. */
    method ApplyBendEffect(clock: seq<real>, m: MathLib)
      requires Valid() && startTime.Some? && |clock| == particleCount
      modifies position, this`positionNeedsUpdate
      ensures Valid()
      ensures position[..] == Bend(old(position[..]), target[..], clock, startTime.value, m)
      ensures target[..] == old(target[..])
      ensures positionNeedsUpdate
    {
      ghost var pos0 := position[..];
      ghost var bent := Bend(pos0, target[..], clock, startTime.value, m);
      var start := startTime.value;
      var i := 0;
      while i < particleCount
        invariant 0 <= i <= particleCount
        invariant position[..] == bent[..3 * i] + pos0[3 * i..]
      {
        BendStep(pos0, target[..], clock, start, m, i);
        BendParticle(i, BendAngle(clock[i], start), m);
        i := i + 1;
      }
      assert bent[..3 * particleCount] == bent && pos0[3 * particleCount..] == [];
      positionNeedsUpdate := true;
    }

    /** The loop body of applyBendEffect for particle i at the given angle. */
    method BendParticle(i: nat, angle: real, m: MathLib)
      requires Valid() && i < particleCount
      modifies position
      ensures Valid()
      ensures position[..] == BendSlot(old(position[..]), target[..], i, angle, m)
    {
      var tx := target[i * 3];
      if tx < 0.0 {
        var x := GoalX(tx, angle, m);
        var z := GoalZ(tx, angle, m);
        position[i * 3] := position[i * 3] + (x - position[i * 3]) * 0.1;
        position[i * 3 + 2] := position[i * 3 + 2] + (z - position[i * 3 + 2]) * 0.1;
      }
    }

    method DisperseParticles(ds: seq<DisperseDraw>)
      requires Valid()
      requires |ds| == particleCount && Tweens.AllWellDrawn(ds)
      modifies this`tweens
      ensures Valid()
      ensures tweens == old(tweens) + DisperseTweens(ds, particleCount)
    {
      var i := 0;
      while i < particleCount
        invariant 0 <= i <= particleCount
        invariant tweens == old(tweens) + DisperseTweens(ds, i)
      {
        tweens := tweens + [Tween(PositionAttr, i, DisperseTarget(ds[i]), 2.5, Power2Out, 0.0)];
        i := i + 1;
      }
    }

    /** Sets ROSE whatever the current state, then requests for every particle
        its rose target and its cohort colour. */
    method MorphToRose(ds: seq<RoseShape.RoseDraw>, m: MathLib)
      requires Valid() && |ds| == particleCount
      modifies this`currentState, this`tweens, this`colorNeedsUpdate
      ensures Valid()
      ensures currentState == Rose
      ensures tweens == old(tweens) +
                RoseShape.RoseTweens(RoseShape.RoseTargets(particleCount, ds, m), ds, particleCount)
      ensures colorNeedsUpdate
    {
      currentState := Rose;
      var rosePoints := RoseShape.GenerateRose(particleCount, ds, m);
      RequestRose(rosePoints, ds);
      colorNeedsUpdate := true;
    }

    /** The second loop of morphToRose: a position request and a colour
        request per particle, in index order. */
    method RequestRose(rosePoints: seq<Vec3>, ds: seq<RoseShape.RoseDraw>)
      requires |rosePoints| == |ds|
      modifies this`tweens
      ensures tweens == old(tweens) + RoseShape.RoseTweens(rosePoints, ds, |ds|)
    {
      var count := |ds|;
      var i := 0;
      while i < count
        invariant 0 <= i <= count
        invariant tweens == old(tweens) + RoseShape.RoseTweens(rosePoints, ds, i)
      {
        var finalColor := if (i as real) < (count as real) * 0.7 then RoseShape.RoseRed else CardLayout.Gold;
        tweens := tweens + [Tween(PositionAttr, i, rosePoints[i], 3.0, Power3InOut, ds[i].delay * 0.5),
                            Tween(ColorAttr, i, finalColor, 2.0, Power1Out, 0.0)];
        i := i + 1;
      }
    }
  }
}
