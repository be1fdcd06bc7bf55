/** The card layout that ParticleSystem.init generates: each particle's
    position/target, colour, size and phase as a function of that particle's
    Math.random() draws (js/particles.js:34-55). */
module CardLayout {
  import opened MathModel

  /** new THREE.Color(0xd4af37): each channel is the hex byte over 255. */
  const Gold: Vec3 := Vec3(212.0 / 255.0, 175.0 / 255.0, 55.0 / 255.0)
  /** new THREE.Color(0xff911e). */
  const Orange: Vec3 := Vec3(255.0 / 255.0, 145.0 / 255.0, 30.0 / 255.0)

  /** The six Math.random() results init consumes for one particle, in order. */
  datatype CardDraw = CardDraw(x: real, y: real, z: real, mix: real, size: real, phase: real)

  predicate WellDrawn(d: CardDraw) {
    Unit(d.x) && Unit(d.y) && Unit(d.z) && Unit(d.mix) && Unit(d.size) && Unit(d.phase)
  }

  predicate AllWellDrawn(ds: seq<CardDraw>) {
    forall i :: 0 <= i < |ds| ==> WellDrawn(ds[i])
  }

  /** The card is a 60 x 80 x 5 slab centred on the origin. */
  function CardPosition(d: CardDraw): (p: Vec3)
    requires WellDrawn(d)
    ensures -30.0 <= p.x < 30.0
    ensures -40.0 <= p.y < 40.0
    ensures -2.5 <= p.z < 2.5
  {
    Vec3((d.x - 0.5) * 60.0, (d.y - 0.5) * 80.0, (d.z - 0.5) * 5.0)
  }

  /** Color.lerp: this + (other - this) * alpha, channel by channel. */
  function LerpColor(from: Vec3, to: Vec3, alpha: real): Vec3 {
    Vec3(from.x + (to.x - from.x) * alpha,
         from.y + (to.y - from.y) * alpha,
         from.z + (to.z - from.z) * alpha)
  }

  /** Gold mixed toward orange by less than 30%: every channel lies between
      the two endpoint colours and within 30% of the way from gold. */
  function CardColor(d: CardDraw): (c: Vec3)
    requires WellDrawn(d)
    ensures Gold.x <= c.x < Gold.x + 0.3 * (Orange.x - Gold.x)
    ensures Gold.y + 0.3 * (Orange.y - Gold.y) < c.y <= Gold.y
    ensures Gold.z + 0.3 * (Orange.z - Gold.z) < c.z <= Gold.z
    ensures 0.0 <= c.x <= 1.0 && 0.0 <= c.y <= 1.0 && 0.0 <= c.z <= 1.0
  {
    LerpColor(Gold, Orange, d.mix * 0.3)
  }

  function CardSize(d: CardDraw): (s: real)
    requires WellDrawn(d)
    ensures 1.0 <= s < 3.0
  {
    d.size * 2.0 + 1.0
  }

  function CardPhase(d: CardDraw): (ph: real)
    requires WellDrawn(d)
    ensures 0.0 <= ph < 2.0 * PI
  {
    d.phase * PI * 2.0
  }

  function Positions(ds: seq<CardDraw>): (ps: seq<Vec3>)
    requires AllWellDrawn(ds)
    ensures |ps| == |ds|
  {
    seq(|ds|, i requires 0 <= i < |ds| => CardPosition(ds[i]))
  }

  function Colors(ds: seq<CardDraw>): (cs: seq<Vec3>)
    requires AllWellDrawn(ds)
    ensures |cs| == |ds|
  {
    seq(|ds|, i requires 0 <= i < |ds| => CardColor(ds[i]))
  }

  function Sizes(ds: seq<CardDraw>): (ss: seq<real>)
    requires AllWellDrawn(ds)
    ensures |ss| == |ds|
  {
    seq(|ds|, i requires 0 <= i < |ds| => CardSize(ds[i]))
  }

  function Phases(ds: seq<CardDraw>): (ps: seq<real>)
    requires AllWellDrawn(ds)
    ensures |ps| == |ds|
  {
    seq(|ds|, i requires 0 <= i < |ds| => CardPhase(ds[i]))
  }

  /** Writing particle i extends every buffer by that particle's entries. */
  lemma BuffersSnoc(ds: seq<CardDraw>, i: nat)
    requires AllWellDrawn(ds) && i < |ds|
    ensures Flatten(Positions(ds)[..i + 1]) ==
              Flatten(Positions(ds)[..i]) + [CardPosition(ds[i]).x, CardPosition(ds[i]).y, CardPosition(ds[i]).z]
    ensures Flatten(Colors(ds)[..i + 1]) ==
              Flatten(Colors(ds)[..i]) + [CardColor(ds[i]).x, CardColor(ds[i]).y, CardColor(ds[i]).z]
    ensures Sizes(ds)[..i + 1] == Sizes(ds)[..i] + [CardSize(ds[i])]
    ensures Phases(ds)[..i + 1] == Phases(ds)[..i] + [CardPhase(ds[i])]
  {
    FlattenSnoc(Positions(ds), i);
    FlattenSnoc(Colors(ds), i);
  }

  /** The buffers init fills: vector buffers of length 3n, scalar buffers of
      length n, and every generated value of particle i in its range. */
  lemma CardBuffersInRange(ds: seq<CardDraw>, i: nat)
    requires AllWellDrawn(ds) && i < |ds|
    ensures |Flatten(Positions(ds))| == 3 * |ds| && |Flatten(Colors(ds))| == 3 * |ds|
    ensures |Sizes(ds)| == |ds| && |Phases(ds)| == |ds|
    ensures -30.0 <= Flatten(Positions(ds))[3 * i] < 30.0
    ensures -40.0 <= Flatten(Positions(ds))[3 * i + 1] < 40.0
    ensures -2.5 <= Flatten(Positions(ds))[3 * i + 2] < 2.5
    ensures 1.0 <= Sizes(ds)[i] < 3.0
    ensures 0.0 <= Phases(ds)[i] < 2.0 * PI
  {
    FlattenParticle(Positions(ds), i);
  }
}
