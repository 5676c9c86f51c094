/** The bomb: its cooldown countdown, the explosion particles, and the growing
    explosion ring. */
module Bomb {
  import opened Seqs

  /** The cooldown set by an activation, in the units the 10 Hz tick counts down. */
  const COOLDOWN: real := 45.0
  /** The amount one cooldown tick removes. */
  const COOLDOWN_STEP: real := 0.1
  /** The number of particles an activation creates. */
  const PARTICLE_COUNT := 80
  /** The ring stops growing once it reaches `maxRadius`. */
  const MAX_RING := 300
  const RING_STEP := 20

  // ---------------------------------------------------------------------------
  // Cooldown
  // ---------------------------------------------------------------------------

  /** The cooldown tick: a positive cooldown loses 0.1 and is clamped at 0; a
      cooldown that is not positive is left alone. */
  function NextCooldown(cd: real): (r: real)
    ensures cd <= 0.0 ==> r == cd
    ensures cd > 0.0 ==> 0.0 <= r < cd && cd - COOLDOWN_STEP <= r
    ensures cd > 0.0 && r > 0.0 ==> r == cd - COOLDOWN_STEP
  {
    if cd > 0.0 then
      var lowered := cd - COOLDOWN_STEP;
      if lowered < 0.0 then 0.0 else lowered
    else cd
  }

  /** The cooldown after `n` ticks. */
  function CooldownAfter(cd: real, n: nat): real
    decreases n
  {
    if n == 0 then cd else NextCooldown(CooldownAfter(cd, n - 1))
  }

  /** From a fresh activation the cooldown falls by 0.1 per tick: it is still
      positive after 449 ticks and exactly 0 after 450, and then stays 0. */
  lemma {:induction false} Countdown(n: nat)
    ensures n <= 450 ==> CooldownAfter(COOLDOWN, n) == COOLDOWN - n as real * COOLDOWN_STEP
    ensures n >= 450 ==> CooldownAfter(COOLDOWN, n) == 0.0
    decreases n
  {
    if n > 0 {
      Countdown(n - 1);
    }
  }

  /** The cooldown never leaves [0, 45] once inside it. */
  lemma CooldownStaysInRange(cd: real)
    requires 0.0 <= cd <= COOLDOWN
    ensures 0.0 <= NextCooldown(cd) <= COOLDOWN
  {
  }

  // ---------------------------------------------------------------------------
  // Particles
  // ---------------------------------------------------------------------------

  /** An explosion particle. Its `hsl` colour is kept as the hue it was drawn with. */
  datatype Particle = Particle(x: real, y: real, vx: real, vy: real, life: real, hue: real, size: real)

  /** Four `Math.random()` results shaping one particle. */
  datatype Spark = Spark(a: real, b: real, c: real, d: real)

  predicate UnitSpark(s: Spark) {
    0.0 <= s.a < 1.0 && 0.0 <= s.b < 1.0 && 0.0 <= s.c < 1.0 && 0.0 <= s.d < 1.0
  }

  predicate UnitSparks(ss: seq<Spark>) {
    forall i :: 0 <= i < |ss| ==> UnitSpark(ss[i])
  }

  /** A particle at the explosion centre with full life, a velocity in
      [-7.5, 7.5) on each axis, a hue in [0, 360) and a size in [2, 6). */
  function Spawn(cx: real, cy: real, s: Spark): (p: Particle)
    ensures p.x == cx && p.y == cy && p.life == 1.0
    ensures UnitSpark(s) ==>
      && -7.5 <= p.vx < 7.5 && -7.5 <= p.vy < 7.5
      && 0.0 <= p.hue < 360.0 && 2.0 <= p.size < 6.0
  {
    Particle(cx, cy, (s.a - 0.5) * 15.0, (s.b - 0.5) * 15.0, 1.0, s.c * 360.0, s.d * 4.0 + 2.0)
  }

  /** One particle per spark, in order. */
  function Burst(cx: real, cy: real, ss: seq<Spark>): (ps: seq<Particle>)
    ensures |ps| == |ss|
    ensures forall i :: 0 <= i < |ss| ==> ps[i] == Spawn(cx, cy, ss[i])
  {
    seq(|ss|, i requires 0 <= i < |ss| => Spawn(cx, cy, ss[i]))
  }

  /** One animation step of a particle: it moves by its velocity, loses 0.02 of
      its life, and gravity adds 0.1 to its downward velocity afterwards. */
  function Advance(p: Particle): (q: Particle)
    ensures q.life == p.life - 0.02 && q.vy == p.vy + 0.1
    ensures q.x == p.x + p.vx && q.y == p.y + p.vy
    ensures q.vx == p.vx && q.hue == p.hue && q.size == p.size
  {
    p.(x := p.x + p.vx, y := p.y + p.vy, life := p.life - 0.02, vy := p.vy + 0.1)
  }

  /** Every particle advanced by one step, in place. */
  function AdvanceAll(ps: seq<Particle>): (r: seq<Particle>)
    ensures |r| == |ps|
    ensures forall i :: 0 <= i < |ps| ==> r[i] == Advance(ps[i])
  {
    seq(|ps|, i requires 0 <= i < |ps| => Advance(ps[i]))
  }

  /** `q` is one of `ps` and has life left. */
  predicate Survives(q: Particle, ps: seq<Particle>) {
    q in ps && q.life > 0.0
  }

  /** The particles with life left. */
  function Survivors(ps: seq<Particle>): (r: seq<Particle>)
    ensures |r| <= |ps|
    ensures forall q :: q in r <==> Survives(q, ps)
  {
    Filter(ps, (p: Particle) => p.life > 0.0)
  }

  /** Pruning keeps every particle with life left as often as it occurs and
      drops every other one, and it keeps the survivors in their order: pruning
      a concatenation prunes each part. */
  lemma SurvivorsExactly(ps: seq<Particle>, qs: seq<Particle>)
    ensures forall q :: multiset(Survivors(ps))[q] == if q.life > 0.0 then multiset(ps)[q] else 0
    ensures Survivors(ps + qs) == Survivors(ps) + Survivors(qs)
  {
    FilterCounts(ps, (p: Particle) => p.life > 0.0);
    FilterConcat(ps, qs, (p: Particle) => p.life > 0.0);
  }

  /** Every particle has a life in (0, 1]. */
  predicate ParticlesLive(ps: seq<Particle>) {
    forall i :: 0 <= i < |ps| ==> 0.0 < ps[i].life <= 1.0
  }

  /** A fresh burst is live, and advancing a live set then dropping the dead
      leaves a live set no larger than before. */
  lemma ParticlesStayLive(ps: seq<Particle>, cx: real, cy: real, ss: seq<Spark>)
    requires ParticlesLive(ps)
    ensures ParticlesLive(Burst(cx, cy, ss))
    ensures var r := Survivors(AdvanceAll(ps));
      |r| <= |ps| && ParticlesLive(r)
  {
    var advanced := AdvanceAll(ps);
    var r := Survivors(advanced);
    forall k | 0 <= k < |r| ensures 0.0 < r[k].life <= 1.0 {
      assert r[k] in r;
      var i :| 0 <= i < |advanced| && advanced[i] == r[k];
    }
  }

  // ---------------------------------------------------------------------------
  // Ring
  // ---------------------------------------------------------------------------

  /** The ring grows by 20 only while it is below 300. */
  function GrowRing(radius: int): (r: int)
    ensures radius < MAX_RING ==> r == radius + RING_STEP
    ensures radius >= MAX_RING ==> r == radius
  {
    if radius < MAX_RING then radius + RING_STEP else radius
  }

  /** The ring's reachable radii: multiples of 20 from 0 to 300. */
  predicate RingValid(radius: int) {
    0 <= radius <= MAX_RING && radius % RING_STEP == 0
  }

  /** Growing keeps the ring valid, so it never exceeds 300, and from 0 it reaches
      300 after exactly 15 steps. */
  lemma {:induction false} RingBounded(radius: int, n: nat)
    requires RingValid(radius)
    ensures RingValid(GrowRing(radius))
    ensures RingValid(RingAfter(radius, n))
    ensures radius == 0 ==> (RingAfter(0, n) == if n < 15 then n * RING_STEP else MAX_RING)
    decreases n
  {
    if n > 0 {
      RingBounded(radius, n - 1);
      if radius == 0 {
        RingBounded(0, n - 1);
      }
    }
  }

  /** The ring after `n` animation steps. */
  function RingAfter(radius: int, n: nat): int
    decreases n
  {
    if n == 0 then radius else GrowRing(RingAfter(radius, n - 1))
  }
}
