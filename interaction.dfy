/** InteractionManager (js/interaction.js:3-130): the three-click heart game
    that sits on top of the particle system. DOM, CSS and audio calls become
    recorded effects, each setTimeout becomes a pending timer that the
    environment fires later, Math.random() is a parameter in [0, 1) and
    window.particleSystem is a possibly-null reference. */
module Interaction {
  import opened MathModel
  import opened MouseInput
  import Particles
  import RoseShape

  /** What the manager does to the page and the engine, in call order. */
  datatype Effect =
    | ResumeAudio
    | FadeOutLobby              // lobbyCard.style.opacity = '0'
    | HideLobby                 // lobbyCard.style.display = 'none'
    | PlayMusic
    | ShowHeart(x: real, y: real)
    | WaterDrop                 // playWaterDrop's oscillator
    | HideHeart
    | AppendDim(dim: nat)       // the n-th black overlay, at opacity 0
    | DimTo(dim: nat, opacity: real)
    | SetBloom(strength: real, radius: real, threshold: real)
    | ShowMessage

  /** The setTimeout callbacks the manager schedules. */
  datatype Timer =
    | HideLobbyTimer
    | ActivateGameTimer
    | DimTimer(dim: nat)
    | MessageTimer

  /** `100 + Math.random() * (extent - 200)`: one coordinate of the heart. */
  function HeartCoord(extent: real, r: real): real {
    100.0 + r * (extent - 200.0)
  }

  /** On a viewport at least 200 wide the heart keeps a 100 px margin: the
      coordinate lies in [100, extent - 100), or is exactly 100 when the
      extent is exactly 200. */
  lemma HeartInMargin(extent: real, r: real)
    requires Unit(r) && extent >= 200.0
    ensures 100.0 <= HeartCoord(extent, r) <= extent - 100.0
    ensures extent > 200.0 ==> HeartCoord(extent, r) < extent - 100.0
  {
    var w := extent - 200.0;
    assert HeartCoord(extent, r) == 100.0 + r * w;
    assert 0.0 <= r * w;
    assert (1.0 - r) * w == w - r * w;
    assert 0.0 <= (1.0 - r) * w;
    if w > 0.0 {
      assert 0.0 < (1.0 - r) * w;
    }
  }

  /** Below 200 px the margin cannot be kept: the heart may start left of 100. */
  lemma HeartLeavesMargin(extent: real, r: real)
    requires extent < 200.0 && 0.0 < r
    ensures HeartCoord(extent, r) < 100.0
  {
    assert r * (extent - 200.0) < 0.0;
  }

  /** What handleHeartClick does after counting: below three another heart,
      from three on the egg. */
  datatype ClickOutcome = Respawn | Egg

  function ClickAction(newCount: nat): (o: ClickOutcome)
    ensures o == Respawn <==> newCount < 3
    ensures o == Egg <==> newCount >= 3
  {
    if newCount < 3 then Respawn else Egg
  }

  /** How many of the clicks numbered from + 1 .. from + k trigger the egg. */
  function EggsIn(from: nat, k: nat): nat {
    if k == 0 then 0
    else EggsIn(from, k - 1) + (if ClickAction(from + k) == Egg then 1 else 0)
  }

  /** There is no isGameActive guard on the click handler: every click from
      the third on triggers the egg again, so k clicks from a fresh start
      trigger it max(0, k - 2) times. */
  lemma {:induction false} EggsAfterClicks(k: nat)
    ensures EggsIn(0, k) == if k < 3 then 0 else k - 2
  {
    if k > 0 {
      EggsAfterClicks(k - 1);
    }
  }

  /** Once the count has reached three, every further click is an egg. */
  lemma {:induction false} EggsAfterThird(from: nat, k: nat)
    requires from >= 2
    ensures EggsIn(from, k) == k
  {
    if k > 0 {
      EggsAfterThird(from, k - 1);
    }
  }

  /** The particle-system fields no manager method writes: the mouse, the
      time uniform and the position-upload flag. */
  twostate predicate MouseAndTimeUnchanged(p: Particles.ParticleSystem)
    reads p
  {
    p.mouse == old(p.mouse) && p.targetMouse == old(p.targetMouse) &&
    p.time == old(p.time) && p.positionNeedsUpdate == old(p.positionNeedsUpdate)
  }

  /** The opening bookkeeping that only startExperience writes: startTime and
      the pending openCard callbacks. */
  twostate predicate StartTimeAndPendingUnchanged(p: Particles.ParticleSystem)
    reads p
  {
    p.startTime == old(p.startTime) && p.pendingFloat == old(p.pendingFloat)
  }

  class InteractionManager {
    var clickCount: nat
    var isGameActive: bool
    /** window.particleSystem, which the source tests before every use. */
    const particles: Particles.ParticleSystem?
    /** Overlays appended by triggerEgg so far. */
    var dims: nat
    var effects: seq<Effect>
    var pending: multiset<Timer>

    ghost predicate Valid()
      reads this, particles
    {
      particles != null ==> particles.Valid()
    }

    constructor (particles: Particles.ParticleSystem?)
      requires particles != null ==> particles.Valid()
      ensures Valid()
      ensures this.particles == particles
      ensures clickCount == 0 && !isGameActive && dims == 0
      ensures effects == [] && pending == multiset{}
    {
      this.particles := particles;
      clickCount := 0;
      isGameActive := false;
      dims := 0;
      effects := [];
      pending := multiset{};
    }

    /** The start button: hide the lobby, start the music, stamp startTime
        and open the card, and schedule the game's activation. isGameActive is
        left as it was; only the 4000 ms callback sets it. */
    method StartExperience(now: real, audioSuspended: bool)
      requires Valid()
      modifies this`effects, this`pending, particles
      ensures Valid()
      ensures effects == old(effects) + (if audioSuspended then [ResumeAudio] else []) + [FadeOutLobby, PlayMusic]
      ensures pending == old(pending) + multiset{HideLobbyTimer, ActivateGameTimer}
      ensures particles != null ==>
                particles.startTime == Particles.Some(now) &&
                particles.currentState == Particles.Opening &&
                particles.pendingFloat == old(particles.pendingFloat) + 1 &&
                particles.tweens == old(particles.tweens) &&
                particles.colorNeedsUpdate == old(particles.colorNeedsUpdate) &&
                MouseAndTimeUnchanged(particles)
    {
      if audioSuspended {
        effects := effects + [ResumeAudio];
      }
      effects := effects + [FadeOutLobby];
      pending := pending + multiset{HideLobbyTimer};
      effects := effects + [PlayMusic];
      if particles != null {
        particles.startTime := Particles.Some(now);
        particles.OpenCard();
      }
      pending := pending + multiset{ActivateGameTimer};
    }

    /** The 1000 ms callback: the lobby card leaves the layout. */
    method OnHideLobbyTimeout()
      requires HideLobbyTimer in pending
      modifies this`effects, this`pending
      ensures effects == old(effects) + [HideLobby]
      ensures pending == old(pending) - multiset{HideLobbyTimer}
    {
      pending := pending - multiset{HideLobbyTimer};
      effects := effects + [HideLobby];
    }

    /** The 4000 ms callback: the game becomes active and the first heart
        appears. */
    method OnActivateGameTimeout(view: Viewport, rx: real, ry: real)
      requires ActivateGameTimer in pending
      modifies this`isGameActive, this`effects, this`pending
      ensures isGameActive
      ensures effects == old(effects) + [ShowHeart(HeartCoord(view.width, rx), HeartCoord(view.height, ry))]
      ensures pending == old(pending) - multiset{ActivateGameTimer}
    {
      pending := pending - multiset{ActivateGameTimer};
      isGameActive := true;
      SpawnHeart(view, rx, ry);
    }

    /** Shows the heart at a random spot 100 px in from the edges, but only
        while the game is active. */
    method SpawnHeart(view: Viewport, rx: real, ry: real)
      modifies this`effects
      ensures isGameActive ==>
                effects == old(effects) + [ShowHeart(HeartCoord(view.width, rx), HeartCoord(view.height, ry))]
      ensures !isGameActive ==> effects == old(effects)
    {
      if isGameActive {
        var x := HeartCoord(view.width, rx);
        var y := HeartCoord(view.height, ry);
        effects := effects + [ShowHeart(x, y)];
      }
    }

    /** A click on the heart: a water drop, one more click, then another heart
        below three clicks and the egg from three on. Nothing checks
        isGameActive, so clicks after the egg trigger it again. */
    method HandleHeartClick(view: Viewport, rx: real, ry: real, ds: seq<RoseShape.RoseDraw>, m: MathLib)
      requires Valid()
      requires particles != null ==> |ds| == particles.particleCount
      modifies this`clickCount, this`isGameActive, this`dims, this`effects, this`pending, particles
      ensures Valid()
      ensures clickCount == old(clickCount) + 1
      ensures ClickAction(clickCount) == Respawn ==>
                isGameActive == old(isGameActive) && dims == old(dims) && pending == old(pending) &&
                effects == old(effects) + [WaterDrop] +
                  (if isGameActive then [ShowHeart(HeartCoord(view.width, rx), HeartCoord(view.height, ry))] else []) &&
                (particles != null ==> particles.currentState == old(particles.currentState) &&
                                       particles.tweens == old(particles.tweens) &&
                                       particles.colorNeedsUpdate == old(particles.colorNeedsUpdate))
      ensures ClickAction(clickCount) == Egg ==>
                !isGameActive && dims == old(dims) + 1 &&
                pending == old(pending) + multiset{DimTimer(old(dims)), MessageTimer} &&
                effects == old(effects) + [WaterDrop, HideHeart, AppendDim(old(dims))] +
                  (if particles != null then [SetBloom(2.5, 0.6, 0.1)] else []) &&
                (particles != null ==>
                   particles.currentState == Particles.Rose &&
                   particles.colorNeedsUpdate &&
                   particles.tweens == old(particles.tweens) +
                     RoseShape.RoseTweens(RoseShape.RoseTargets(particles.particleCount, ds, m), ds,
                                          particles.particleCount))
      ensures particles != null ==> StartTimeAndPendingUnchanged(particles) && MouseAndTimeUnchanged(particles)
    {
      effects := effects + [WaterDrop];
      clickCount := clickCount + 1;
      if clickCount < 3 {
        SpawnHeart(view, rx, ry);
      } else {
        TriggerEgg(ds, m);
      }
    }

    /** The egg: the game stops, the heart hides, a dimming overlay is added
        and faded in 100 ms later, the particles morph into the rose with a
        stronger bloom, and the message is shown 3500 ms later. */
    method TriggerEgg(ds: seq<RoseShape.RoseDraw>, m: MathLib)
      requires Valid()
      requires particles != null ==> |ds| == particles.particleCount
      modifies this`isGameActive, this`dims, this`effects, this`pending, particles
      ensures Valid()
      ensures !isGameActive
      ensures dims == old(dims) + 1
      ensures pending == old(pending) + multiset{DimTimer(old(dims)), MessageTimer}
      ensures effects == old(effects) + [HideHeart, AppendDim(old(dims))] +
                (if particles != null then [SetBloom(2.5, 0.6, 0.1)] else [])
      ensures particles != null ==>
                particles.currentState == Particles.Rose &&
                particles.tweens == old(particles.tweens) +
                  RoseShape.RoseTweens(RoseShape.RoseTargets(particles.particleCount, ds, m), ds,
                                       particles.particleCount) &&
                particles.colorNeedsUpdate
      ensures particles != null ==> StartTimeAndPendingUnchanged(particles) && MouseAndTimeUnchanged(particles)
    {
      isGameActive := false;
      effects := effects + [HideHeart];
      var dim := dims;
      effects := effects + [AppendDim(dim)];
      dims := dims + 1;
      pending := pending + multiset{DimTimer(dim)};
      if particles != null {
        particles.MorphToRose(ds, m);
        effects := effects + [SetBloom(2.5, 0.6, 0.1)];
      }
      pending := pending + multiset{MessageTimer};
    }

    /** The 100 ms callback: that overlay fades to 0.8 opacity. */
    method OnDimTimeout(dim: nat)
      requires DimTimer(dim) in pending
      modifies this`effects, this`pending
      ensures effects == old(effects) + [DimTo(dim, 0.8)]
      ensures pending == old(pending) - multiset{DimTimer(dim)}
    {
      pending := pending - multiset{DimTimer(dim)};
      effects := effects + [DimTo(dim, 0.8)];
    }

    /** The 3500 ms callback: the message overlay becomes visible. */
    method OnMessageTimeout()
      requires MessageTimer in pending
      modifies this`effects, this`pending
      ensures effects == old(effects) + [ShowMessage]
      ensures pending == old(pending) - multiset{MessageTimer}
    {
      pending := pending - multiset{MessageTimer};
      effects := effects + [ShowMessage];
    }
  }
}
