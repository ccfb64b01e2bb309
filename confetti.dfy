/**
 * The particle ("confetti") system of src/features/generator/renderLoop.ts: the list of
 * particles that `renderFrame` keeps across frames in `particlesRef.current`, the burst
 * that fills it, the per-frame integration, the fade rule and the cull.
 *
 * `Math.random` is a stream `rng: Stream` read in order: the system remembers how many
 * values it has drawn. Each new particle takes seven consecutive draws: angle, speed, life,
 * colour, size, rotation and spin, in the order the source calls them.
 */
module Confetti {
  import opened Wrappers
  import opened MathModel
  import opened Store

  datatype Particle = Particle(
    x: real, y: real,
    vx: real, vy: real,
    life: real, maxLife: real,
    color: Option<string>,       // None: the palette lookup gave `undefined`
    size: real,
    rotation: real, vRotation: real)

  const LifeDecrement: real := 0.02

  /** The invariant the fade rule needs: a particle never has more life than it started with. */
  ghost predicate AllValid(ps: seq<Particle>) {
    forall i :: 0 <= i < |ps| ==> ps[i].life <= ps[i].maxLife
  }

  lemma ValidAppend(a: seq<Particle>, b: seq<Particle>)
    requires AllValid(a) && AllValid(b)
    ensures AllValid(a + b)
  {
    forall i | 0 <= i < |a + b| ensures (a + b)[i].life <= (a + b)[i].maxLife {
      if i >= |a| {
        assert (a + b)[i] == b[i - |a|];
      }
    }
  }

  /** The random values `rng[k] .. rng[k + n - 1]` are all in [0, 1), as `Math.random` promises. */
  ghost predicate DrawsInRange(rng: Stream, k: nat, n: nat) {
    forall j: nat :: k <= j < k + n ==> 0.0 <= rng[j] < 1.0
  }

  // ---------------------------------------------------------------------------------------
  // Spawning

  /** How often `for (let i = 0; i < count; i++)` runs: the number of naturals below `count`. */
  function SpawnCount(count: real): (n: nat)
    ensures count <= n as real
    ensures n == 0 || (n - 1) as real < count
  {
    if count <= 0.0 then 0 else Ceil(count)
  }

  lemma SpawnCountOfWhole(c: nat)
    ensures SpawnCount(c as real) == c
  {
  }

  /** `lo + Math.random() * (hi - lo)`: a draw in [0, 1) lands in [lo, hi), and at `lo` when the
      range is empty. */
  function Between(lo: real, hi: real, r: real): (v: real)
    ensures 0.0 <= r < 1.0 && lo < hi ==> lo <= v < hi
    ensures lo == hi ==> v == lo
  {
    if 0.0 <= r < 1.0 && lo < hi then MulBelow(r, hi - lo); lo + Mul(r, hi - lo)
    else lo + Mul(r, hi - lo)
  }

  /** `speed * 0.5 + Math.random() * speed`. */
  function SpawnSpeed(cfg: ParticleSettings, r: real): (s: real)
    ensures 0.0 <= r < 1.0 && cfg.speed > 0.0 ==> 0.5 * cfg.speed <= s < 1.5 * cfg.speed
  {
    if 0.0 <= r < 1.0 && cfg.speed > 0.0 then MulBelow(r, cfg.speed); cfg.speed * 0.5 + Mul(r, cfg.speed)
    else cfg.speed * 0.5 + Mul(r, cfg.speed)
  }

  function SpawnLife(cfg: ParticleSettings, r: real): (l: real)
    ensures 0.0 <= r < 1.0 && cfg.lifeMin < cfg.lifeMax ==> cfg.lifeMin <= l < cfg.lifeMax
    ensures cfg.lifeMin == cfg.lifeMax ==> l == cfg.lifeMin
  {
    Between(cfg.lifeMin, cfg.lifeMax, r)
  }

  function SpawnSize(cfg: ParticleSettings, r: real): (s: real)
    ensures 0.0 <= r < 1.0 && cfg.minSize < cfg.maxSize ==> cfg.minSize <= s < cfg.maxSize
    ensures cfg.minSize == cfg.maxSize ==> s == cfg.minSize
  {
    Between(cfg.minSize, cfg.maxSize, r)
  }

  /** `colors[Math.floor(Math.random() * colors.length)]`; an index outside the palette reads
      `undefined`. */
  function PickColor(colors: seq<string>, r: real): (c: Option<string>)
    ensures c.Some? ==> c.value in colors
    ensures 0.0 <= r < 1.0 && |colors| > 0 ==> c.Some?
  {
    var k := Floor(Mul(r, |colors| as real));
    if 0.0 <= r < 1.0 && |colors| > 0 then MulBelow(r, |colors| as real);
      if 0 <= k < |colors| then Some(colors[k]) else None
    else if 0 <= k < |colors| then Some(colors[k]) else None
  }

  /** The object literal that `renderFrame` pushes, given its seven draws in the order the source
      makes them, for a particle at the box centre (cx, cy). */
  function ParticleFromDraws(m: MathLib, cfg: ParticleSettings, cx: real, cy: real,
                             angleDraw: real, speedDraw: real, lifeDraw: real, colorDraw: real,
                             sizeDraw: real, rotationDraw: real, spinDraw: real): (p: Particle)
    ensures p.x == cx && p.y == cy && p.maxLife == p.life
    ensures p.life == SpawnLife(cfg, lifeDraw)
    ensures p.color == PickColor(cfg.colors, colorDraw)
    ensures p.size == SpawnSize(cfg, sizeDraw)
    ensures p.rotation == rotationDraw * 360.0
    ensures var angle := Mul(angleDraw, m.pi) * 2.0;
      && p.vx == Mul(m.cos(angle), SpawnSpeed(cfg, speedDraw))
      && p.vy == Mul(m.sin(angle), SpawnSpeed(cfg, speedDraw))
    ensures p.vRotation == Mul(spinDraw - 0.5, cfg.rotationSpeed)
  {
    var angle := Mul(angleDraw, m.pi) * 2.0;
    var speed := SpawnSpeed(cfg, speedDraw);
    var life := SpawnLife(cfg, lifeDraw);
    Particle(
      x := cx, y := cy,
      vx := Mul(m.cos(angle), speed), vy := Mul(m.sin(angle), speed),
      life := life, maxLife := life,
      color := PickColor(cfg.colors, colorDraw),
      size := SpawnSize(cfg, sizeDraw),
      rotation := rotationDraw * 360.0,
      vRotation := Mul(spinDraw - 0.5, cfg.rotationSpeed))
  }

  /** The particle made from the seven draws starting at `k`, read in the order of the
      object literal: angle, speed, life, colour, size, rotation, spin. */
  function NewParticle(m: MathLib, cfg: ParticleSettings, cx: real, cy: real,
                       rng: Stream, k: nat): (p: Particle)
    ensures p.x == cx && p.y == cy
    ensures var angle := Mul(rng[k], m.pi) * 2.0;
      && p.vx == Mul(m.cos(angle), SpawnSpeed(cfg, rng[k + 1]))
      && p.vy == Mul(m.sin(angle), SpawnSpeed(cfg, rng[k + 1]))
    ensures p.life == p.maxLife == SpawnLife(cfg, rng[k + 2])
    ensures p.color == PickColor(cfg.colors, rng[k + 3])
    ensures p.size == SpawnSize(cfg, rng[k + 4])
    ensures p.rotation == rng[k + 5] * 360.0
    ensures p.vRotation == Mul(rng[k + 6] - 0.5, cfg.rotationSpeed)
  {
    ParticleFromDraws(m, cfg, cx, cy, rng[k], rng[k + 1], rng[k + 2], rng[k + 3],
                      rng[k + 4], rng[k + 5], rng[k + 6])
  }

  /** The `n` particles of one burst, drawn from the stream starting at `base`. */
  function Burst(m: MathLib, cfg: ParticleSettings, cx: real, cy: real,
                 rng: Stream, base: nat, n: nat): (ps: seq<Particle>)
    ensures |ps| == n
  {
    if n == 0 then []
    else Burst(m, cfg, cx, cy, rng, base, n - 1)
         + [NewParticle(m, cfg, cx, cy, rng, base + 7 * (n - 1))]
  }

  lemma BurstSnoc(m: MathLib, cfg: ParticleSettings, cx: real, cy: real,
                  rng: Stream, base: nat, i: nat)
    ensures Burst(m, cfg, cx, cy, rng, base, i + 1)
            == Burst(m, cfg, cx, cy, rng, base, i) + [NewParticle(m, cfg, cx, cy, rng, base + 7 * i)]
  {
  }

  /** One more turn of the burst loop appends the next particle of the burst. */
  lemma BurstGrows(m: MathLib, cfg: ParticleSettings, cx: real, cy: real,
                   rng: Stream, base: nat, i: nat, k: nat, start: seq<Particle>, p: Particle)
    requires k == base + 7 * i && p == NewParticle(m, cfg, cx, cy, rng, k)
    ensures start + Burst(m, cfg, cx, cy, rng, base, i) + [p]
            == start + Burst(m, cfg, cx, cy, rng, base, i + 1)
  {
    BurstSnoc(m, cfg, cx, cy, rng, base, i);
  }

  lemma {:induction false} BurstAt(m: MathLib, cfg: ParticleSettings, cx: real, cy: real,
                                   rng: Stream, base: nat, n: nat, i: nat)
    requires i < n
    ensures Burst(m, cfg, cx, cy, rng, base, n)[i]
            == NewParticle(m, cfg, cx, cy, rng, base + 7 * i)
  {
    if i < n - 1 {
      BurstAt(m, cfg, cx, cy, rng, base, n - 1, i);
    }
  }

  /** A particle depends on nothing but its seven draws. */
  lemma NewParticleDependsOnlyOnItsDraws(
    m: MathLib, cfg: ParticleSettings, cx: real, cy: real,
    rng1: Stream, rng2: Stream, k: nat)
    requires forall j: nat :: k <= j < k + 7 ==> rng1[j] == rng2[j]
    ensures NewParticle(m, cfg, cx, cy, rng1, k) == NewParticle(m, cfg, cx, cy, rng2, k)
  {
    assert rng1[k] == rng2[k] && rng1[k + 1] == rng2[k + 1] && rng1[k + 2] == rng2[k + 2];
    assert rng1[k + 3] == rng2[k + 3] && rng1[k + 4] == rng2[k + 4];
    assert rng1[k + 5] == rng2[k + 5] && rng1[k + 6] == rng2[k + 6];
  }

  /** Determinism: a burst depends on nothing but the 7n draws it consumes. */
  lemma {:induction false} BurstDependsOnlyOnItsDraws(
    m: MathLib, cfg: ParticleSettings, cx: real, cy: real,
    rng1: Stream, rng2: Stream, base: nat, n: nat)
    requires forall j: nat :: base <= j < base + 7 * n ==> rng1[j] == rng2[j]
    ensures Burst(m, cfg, cx, cy, rng1, base, n) == Burst(m, cfg, cx, cy, rng2, base, n)
  {
    if n > 0 {
      BurstDependsOnlyOnItsDraws(m, cfg, cx, cy, rng1, rng2, base, n - 1);
      var k := base + 7 * (n - 1);
      assert k + 7 == base + 7 * n;
      NewParticleDependsOnlyOnItsDraws(m, cfg, cx, cy, rng1, rng2, k);
    }
  }

  /** The square of a particle's speed, `vx^2 + vy^2`. */
  function SpeedSquared(p: Particle): real {
    Mul(p.vx, p.vx) + Mul(p.vy, p.vy)
  }

  /** What a freshly spawned particle looks like when its draws are in [0, 1): at the centre with
      full life; life, size and colour inside the configured ranges; rotated by less than a full
      turn; spinning by at most half the rotation speed either way; and launched at a speed in
      `[0.5 speed, 1.5 speed)` when sine and cosine lie on the unit circle. */
  ghost predicate InSpawnRange(m: MathLib, cfg: ParticleSettings, cx: real, cy: real, p: Particle) {
    && p.x == cx && p.y == cy && p.life == p.maxLife
    && (cfg.lifeMin < cfg.lifeMax ==> cfg.lifeMin <= p.life < cfg.lifeMax)
    && (cfg.lifeMin == cfg.lifeMax ==> p.life == cfg.lifeMin)
    && (cfg.minSize < cfg.maxSize ==> cfg.minSize <= p.size < cfg.maxSize)
    && (|cfg.colors| > 0 ==> p.color.Some? && p.color.value in cfg.colors)
    && 0.0 <= p.rotation < 360.0
    && (cfg.rotationSpeed >= 0.0 ==>
          -0.5 * cfg.rotationSpeed <= p.vRotation <= 0.5 * cfg.rotationSpeed)
    && (UnitCircle(m) && cfg.speed > 0.0 ==>
          Square(0.5 * cfg.speed) <= SpeedSquared(p) < Square(1.5 * cfg.speed))
  }

  /** A launch direction on the unit circle keeps the speed: `|(cos a, sin a) * s|^2 = s^2`. */
  lemma {:induction false} DirectionKeepsSpeed(c: real, sn: real, sp: real)
    requires Mul(sn, sn) + Mul(c, c) == 1.0
    ensures Mul(Mul(c, sp), Mul(c, sp)) + Mul(Mul(sn, sp), Mul(sn, sp)) == sp * sp
  {
    assert Mul(Mul(c, sp), Mul(c, sp)) == (c * c) * (sp * sp);
    assert Mul(Mul(sn, sp), Mul(sn, sp)) == (sn * sn) * (sp * sp);
    assert (c * c) * (sp * sp) + (sn * sn) * (sp * sp) == (c * c + sn * sn) * (sp * sp);
  }

  /** A speed in `[0.5 s, 1.5 s)` has its square in `[0.25 s^2, 2.25 s^2)`. */
  lemma {:induction false} SquareBetween(sp: real, s: real)
    requires s > 0.0 && 0.5 * s <= sp < 1.5 * s
    ensures Square(0.5 * s) <= sp * sp < Square(1.5 * s)
  {
    MulNonNegative(sp - 0.5 * s, sp + 0.5 * s);
    assert Mul(sp - 0.5 * s, sp + 0.5 * s) == sp * sp - Square(0.5 * s);
    MulPositive(1.5 * s - sp, 1.5 * s + sp);
    assert Mul(1.5 * s - sp, 1.5 * s + sp) == Square(1.5 * s) - sp * sp;
  }

  /** One particle made from seven draws in [0, 1) is in the spawn ranges. */
  lemma {:induction false} NewParticleInRange(m: MathLib, cfg: ParticleSettings, cx: real, cy: real,
                                              rng: Stream, k: nat)
    requires DrawsInRange(rng, k, 7)
    ensures InSpawnRange(m, cfg, cx, cy, NewParticle(m, cfg, cx, cy, rng, k))
  {
    var p := NewParticle(m, cfg, cx, cy, rng, k);
    assert 0.0 <= rng[k + 1] < 1.0 && 0.0 <= rng[k + 2] < 1.0 && 0.0 <= rng[k + 3] < 1.0;
    assert 0.0 <= rng[k + 4] < 1.0 && 0.0 <= rng[k + 5] < 1.0 && 0.0 <= rng[k + 6] < 1.0;
    var rs := cfg.rotationSpeed;
    if rs > 0.0 {
      MulBelow(rng[k + 6], rs);
      assert Mul(rng[k + 6] - 0.5, rs) == Mul(rng[k + 6], rs) - 0.5 * rs;
    }
    if UnitCircle(m) && cfg.speed > 0.0 {
      var angle := Mul(rng[k], m.pi) * 2.0;
      var sp := SpawnSpeed(cfg, rng[k + 1]);
      DirectionKeepsSpeed(m.cos(angle), m.sin(angle), sp);
      SquareBetween(sp, cfg.speed);
    }
  }

  /** Every particle of a burst made from draws in [0, 1) is in the spawn ranges. */
  lemma {:induction false} BurstInRange(m: MathLib, cfg: ParticleSettings, cx: real, cy: real,
                                        rng: Stream, base: nat, n: nat)
    requires DrawsInRange(rng, base, 7 * n)
    ensures var ps := Burst(m, cfg, cx, cy, rng, base, n);
      forall i :: 0 <= i < n ==> InSpawnRange(m, cfg, cx, cy, ps[i])
  {
    var ps := Burst(m, cfg, cx, cy, rng, base, n);
    forall i | 0 <= i < n
      ensures InSpawnRange(m, cfg, cx, cy, ps[i])
    {
      BurstAt(m, cfg, cx, cy, rng, base, n, i);
      var k := base + 7 * i;
      assert 7 * i + 6 < 7 * n;
      assert DrawsInRange(rng, k, 7);
      NewParticleInRange(m, cfg, cx, cy, rng, k);
    }
  }

  /** A fresh burst satisfies the life invariant. */
  lemma {:induction false} BurstValid(m: MathLib, cfg: ParticleSettings, cx: real, cy: real,
                                      rng: Stream, base: nat, n: nat)
    ensures AllValid(Burst(m, cfg, cx, cy, rng, base, n))
  {
    forall i | 0 <= i < n
      ensures Burst(m, cfg, cx, cy, rng, base, n)[i].life
              <= Burst(m, cfg, cx, cy, rng, base, n)[i].maxLife
    {
      BurstAt(m, cfg, cx, cy, rng, base, n, i);
    }
  }

  lemma BurstExtendsValid(m: MathLib, cfg: ParticleSettings, cx: real, cy: real,
                          rng: Stream, base: nat, n: nat, start: seq<Particle>)
    requires AllValid(start)
    ensures AllValid(start + Burst(m, cfg, cx, cy, rng, base, n))
  {
    BurstValid(m, cfg, cx, cy, rng, base, n);
    ValidAppend(start, Burst(m, cfg, cx, cy, rng, base, n));
  }

  /** The spawn window: particles on, and `2500 D <= tMs < 2500 D + 50`. It is shut when the
      particles are off, and for `D >= 0.04` it lies inside the cycle `[0, 6000 D)` and after the
      reset period of the first 100 ms. */
  predicate SpawnWindowOpen(cfg: ParticleSettings, tMs: real, d: real)
    ensures !cfg.enabled ==> !SpawnWindowOpen(cfg, tMs, d)
    ensures SpawnWindowOpen(cfg, tMs, d) && d >= 0.04 ==> 100.0 <= tMs < 6000.0 * d
  {
    cfg.enabled && 2500.0 * d <= tMs < 2500.0 * d + 50.0
  }

  /** The list as the pure model sees it: the particles and the number of draws used so far. */
  datatype Pool = Pool(particles: seq<Particle>, drawn: nat)

  /** The spawn-once guard (a burst only into an empty list) followed by the reset near the cycle start. */
  function SpawnAndReset(m: MathLib, cfg: ParticleSettings, tMs: real, d: real,
                         cx: real, cy: real, rng: Stream, pool: Pool): (r: Pool)
    ensures AllValid(pool.particles) ==> AllValid(r.particles)
    ensures tMs < 100.0 ==> r.particles == []
  {
    var n := SpawnCount(cfg.count);
    var spawned :=
      if SpawnWindowOpen(cfg, tMs, d) && |pool.particles| == 0 then
        BurstValid(m, cfg, cx, cy, rng, pool.drawn, n);
        Pool(pool.particles + Burst(m, cfg, cx, cy, rng, pool.drawn, n),
             pool.drawn + 7 * n)
      else pool;
    if tMs < 100.0 then spawned.(particles := []) else spawned
  }

  /** Outside the reset period, a burst happens exactly when the window is open and the list is
      empty, and adds exactly `count` particles; otherwise nothing changes. */
  lemma SpawnExactlyWhenDue(m: MathLib, cfg: ParticleSettings, tMs: real, d: real,
                            cx: real, cy: real, rng: Stream, pool: Pool)
    requires tMs >= 100.0
    ensures var r := SpawnAndReset(m, cfg, tMs, d, cx, cy, rng, pool);
      if SpawnWindowOpen(cfg, tMs, d) && pool.particles == [] then
        r.particles == Burst(m, cfg, cx, cy, rng, pool.drawn, SpawnCount(cfg.count))
        && |r.particles| == SpawnCount(cfg.count)
        && r.drawn == pool.drawn + 7 * SpawnCount(cfg.count)
      else r == pool
  {
  }

  // ---------------------------------------------------------------------------------------
  // Integration, fade and cull

  /** `noise2D(p.x / noiseScale, ...)` is evaluated only when noise is on, and then needs a scale. */
  predicate NoiseDefined(cfg: ParticleSettings) {
    cfg.noiseStrength > 0.0 ==> cfg.noiseScale != 0.0
  }

  /** One frame of motion for one particle. */
  function Step(m: MathLib, cfg: ParticleSettings, p: Particle): (q: Particle)
    requires NoiseDefined(cfg)
    ensures q.x == p.x + q.vx && q.y == p.y + (q.vy - cfg.gravity)
    ensures q.life == p.life - LifeDecrement && q.maxLife == p.maxLife
    ensures q.rotation == p.rotation + p.vRotation && q.vRotation == p.vRotation
    ensures q.color == p.color && q.size == p.size
    ensures cfg.noiseStrength <= 0.0 ==> q.vx == p.vx && q.vy == p.vy + cfg.gravity
  {
    var (vx, vy) :=
      if cfg.noiseStrength > 0.0 then
        var n := m.noise2D(Div(p.x, cfg.noiseScale), Div(p.y, cfg.noiseScale));
        var angle := Mul(n, m.pi) * 2.0;
        (p.vx + Mul(m.cos(angle), cfg.noiseStrength) * 0.1, p.vy + Mul(m.sin(angle), cfg.noiseStrength) * 0.1)
      else (p.vx, p.vy);
    Particle(
      x := p.x + vx, y := p.y + vy,
      vx := vx, vy := vy + cfg.gravity,
      life := p.life - LifeDecrement, maxLife := p.maxLife,
      color := p.color, size := p.size,
      rotation := p.rotation + p.vRotation, vRotation := p.vRotation)
  }

  /** `forEach` applied to the motion step. */
  function StepAll(m: MathLib, cfg: ParticleSettings, ps: seq<Particle>): (r: seq<Particle>)
    requires NoiseDefined(cfg)
    ensures |r| == |ps|
  {
    if ps == [] then []
    else StepAll(m, cfg, ps[..|ps| - 1]) + [Step(m, cfg, ps[|ps| - 1])]
  }

  lemma StepAllSnoc(m: MathLib, cfg: ParticleSettings, ps: seq<Particle>, q: Particle)
    requires NoiseDefined(cfg)
    ensures StepAll(m, cfg, ps + [q]) == StepAll(m, cfg, ps) + [Step(m, cfg, q)]
  {
    assert (ps + [q])[..|ps|] == ps;
  }

  /** Every particle is stepped, each on its own and in its own place. */
  lemma {:induction false} StepAllAt(m: MathLib, cfg: ParticleSettings, ps: seq<Particle>)
    requires NoiseDefined(cfg)
    ensures forall i :: 0 <= i < |ps| ==> StepAll(m, cfg, ps)[i] == Step(m, cfg, ps[i])
  {
    if ps != [] {
      var init := ps[..|ps| - 1];
      StepAllAt(m, cfg, init);
      forall i | 0 <= i < |ps| ensures StepAll(m, cfg, ps)[i] == Step(m, cfg, ps[i]) {
        if i < |ps| - 1 {
          assert StepAll(m, cfg, ps)[i] == StepAll(m, cfg, init)[i];
          assert ps[i] == init[i];
        }
      }
    }
  }

  /** `filter(p => p.life > 0)`. */
  function Survivors(ps: seq<Particle>): (r: seq<Particle>)
    ensures |r| <= |ps|
    ensures forall i :: 0 <= i < |r| ==> r[i].life > 0.0
  {
    if ps == [] then []
    else
      var last := ps[|ps| - 1];
      Survivors(ps[..|ps| - 1]) + (if last.life > 0.0 then [last] else [])
  }

  lemma SurvivorsSnoc(ps: seq<Particle>, q: Particle)
    ensures Survivors(ps + [q]) == Survivors(ps) + (if q.life > 0.0 then [q] else [])
  {
    assert (ps + [q])[..|ps|] == ps;
  }

  /** The survivors are exactly the particles of the list that are still alive. */
  lemma {:induction false} SurvivorsMembers(ps: seq<Particle>)
    ensures forall p :: p in Survivors(ps) <==> p in ps && p.life > 0.0
  {
    if ps != [] {
      var init, last := ps[..|ps| - 1], ps[|ps| - 1];
      SurvivorsMembers(init);
      assert ps == init + [last];
      SurvivorsSnoc(init, last);
    }
  }

  /** A list of live particles survives the cull unchanged. */
  lemma {:induction false} SurvivorsOfLive(ps: seq<Particle>)
    requires forall i :: 0 <= i < |ps| ==> ps[i].life > 0.0
    ensures Survivors(ps) == ps
  {
    if ps != [] {
      var init, last := ps[..|ps| - 1], ps[|ps| - 1];
      SurvivorsOfLive(init);
      assert ps == init + [last];
    }
  }

  /** A step keeps the invariant and takes every particle strictly below its starting life. */
  lemma StepKeepsValid(m: MathLib, cfg: ParticleSettings, ps: seq<Particle>)
    requires NoiseDefined(cfg) && AllValid(ps)
    ensures AllValid(StepAll(m, cfg, ps)) && AllValid(Survivors(StepAll(m, cfg, ps)))
    ensures forall i :: 0 <= i < |ps| ==> StepAll(m, cfg, ps)[i].life < ps[i].maxLife
  {
    StepAllAt(m, cfg, ps);
    var stepped := StepAll(m, cfg, ps);
    var r := Survivors(stepped);
    SurvivorsMembers(stepped);
    forall i | 0 <= i < |r| ensures r[i].life <= r[i].maxLife {
      assert r[i] in stepped;
    }
  }

  /** Particles that all have more than one step of life left all survive the step. */
  lemma NothingDiesEarly(m: MathLib, cfg: ParticleSettings, ps: seq<Particle>)
    requires NoiseDefined(cfg)
    requires forall i :: 0 <= i < |ps| ==> ps[i].life > LifeDecrement
    ensures Survivors(StepAll(m, cfg, ps)) == StepAll(m, cfg, ps)
  {
    StepAllAt(m, cfg, ps);
    SurvivorsOfLive(StepAll(m, cfg, ps));
  }

  /** How a particle's remaining life fraction shows: as opacity, as scale, as both, or not at all. */
  datatype Fade = Fade(opacity: real, scale: real)

  function FadeFor(mode: FadeMode, lifeProgress: real): (f: Fade)
    ensures f.opacity == (if mode == FadeOpacity || mode == FadeBoth then lifeProgress else 1.0)
    ensures f.scale == (if mode == FadeScale || mode == FadeBoth then lifeProgress else 1.0)
  {
    match mode
    case FadeOpacity => Fade(lifeProgress, 1.0)
    case FadeScale => Fade(1.0, lifeProgress)
    case FadeBoth => Fade(lifeProgress, lifeProgress)
    case FadeNone => Fade(1.0, 1.0)
  }

  /** The particle shape image, and the scratch canvas used to tint it, if the caller has them. */
  datatype SpriteAssets = SpriteAssets(particleImage: bool, scratchCanvas: bool)

  datatype Sprite =
    | ImageSprite(side: real, tinted: bool)   // the shape image, `size * 2` on a side
    | Disc(radius: real)
    | Block(side: real)

  /** What is painted for one live particle: position, rotation in radians, fade and shape. */
  datatype ParticlePaint = ParticlePaint(
    x: real, y: real, angle: real, opacity: real, scale: real,
    color: Option<string>, sprite: Sprite)

  function PaintOf(m: MathLib, cfg: ParticleSettings, sprites: SpriteAssets, p: Particle)
    : (q: ParticlePaint)
    requires 0.0 < p.life <= p.maxLife
    ensures q.x == p.x && q.y == p.y && q.color == p.color
    ensures q.opacity == (if cfg.fadeMode in {FadeOpacity, FadeBoth} then Div(p.life, p.maxLife) else 1.0)
    ensures q.scale == (if cfg.fadeMode in {FadeScale, FadeBoth} then Div(p.life, p.maxLife) else 1.0)
    ensures 0.0 < q.opacity <= 1.0 && 0.0 < q.scale <= 1.0
  {
    var progress := Div(p.life, p.maxLife);
    FractionInUnit(p.life, p.maxLife);
    var fade := FadeFor(cfg.fadeMode, progress);
    var sprite :=
      if cfg.shape == ImageShape && sprites.particleImage then ImageSprite(p.size * 2.0, sprites.scratchCanvas)
      else if cfg.shape == CircleShape then Disc(p.size)
      else Block(p.size);
    ParticlePaint(p.x, p.y, Mul(p.rotation, m.pi) / 180.0, fade.opacity, fade.scale, p.color, sprite)
  }

  ghost predicate AllLive(ps: seq<Particle>) {
    forall i :: 0 <= i < |ps| ==> 0.0 < ps[i].life <= ps[i].maxLife
  }

  function PaintAll(m: MathLib, cfg: ParticleSettings, sprites: SpriteAssets, ps: seq<Particle>)
    : (r: seq<ParticlePaint>)
    requires AllLive(ps)
    ensures |r| == |ps|
  {
    if ps == [] then []
    else PaintAll(m, cfg, sprites, ps[..|ps| - 1]) + [PaintOf(m, cfg, sprites, ps[|ps| - 1])]
  }

  lemma PaintAllSnoc(m: MathLib, cfg: ParticleSettings, sprites: SpriteAssets,
                     ps: seq<Particle>, q: Particle)
    requires AllLive(ps) && 0.0 < q.life <= q.maxLife
    ensures AllLive(ps + [q])
    ensures PaintAll(m, cfg, sprites, ps + [q])
            == PaintAll(m, cfg, sprites, ps) + [PaintOf(m, cfg, sprites, q)]
  {
    assert (ps + [q])[..|ps|] == ps;
  }

  /** One paint per live particle, in list order. */
  lemma {:induction false} PaintAllAt(m: MathLib, cfg: ParticleSettings, sprites: SpriteAssets,
                                      ps: seq<Particle>)
    requires AllLive(ps)
    ensures forall i :: 0 <= i < |ps| ==> PaintAll(m, cfg, sprites, ps)[i] == PaintOf(m, cfg, sprites, ps[i])
  {
    if ps != [] {
      var init := ps[..|ps| - 1];
      PaintAllAt(m, cfg, sprites, init);
      forall i | 0 <= i < |ps|
        ensures PaintAll(m, cfg, sprites, ps)[i] == PaintOf(m, cfg, sprites, ps[i])
      {
        if i < |ps| - 1 {
          assert PaintAll(m, cfg, sprites, ps)[i] == PaintAll(m, cfg, sprites, init)[i];
          assert ps[i] == init[i];
        }
      }
    }
  }

  /** The particles after one frame's update: stepped, then culled. */
  function Advance(m: MathLib, cfg: ParticleSettings, ps: seq<Particle>): (r: seq<Particle>)
    requires NoiseDefined(cfg) && AllValid(ps)
    ensures AllLive(r) && |r| <= |ps|
  {
    StepKeepsValid(m, cfg, ps);
    Survivors(StepAll(m, cfg, ps))
  }

  /** A list comes out of the update empty exactly when none of its particles has more than one
      step of life left. */
  lemma {:induction false} AdvanceEmptyExactlyWhenAllExpire(m: MathLib, cfg: ParticleSettings,
                                                            ps: seq<Particle>)
    requires NoiseDefined(cfg) && AllValid(ps)
    ensures Advance(m, cfg, ps) == [] <==> forall i :: 0 <= i < |ps| ==> ps[i].life <= LifeDecrement
  {
    var stepped := StepAll(m, cfg, ps);
    StepAllAt(m, cfg, ps);
    SurvivorsMembers(stepped);
    var r := Advance(m, cfg, ps);
    if r != [] {
      assert r[0] in Survivors(stepped);
      var j :| 0 <= j < |stepped| && stepped[j] == r[0];
      assert ps[j].life > LifeDecrement;
    }
    if exists i :: 0 <= i < |ps| && ps[i].life > LifeDecrement {
      var i :| 0 <= i < |ps| && ps[i].life > LifeDecrement;
      assert stepped[i] in stepped;
      assert stepped[i] in r;
    }
  }

  lemma AdvanceSnoc(m: MathLib, cfg: ParticleSettings, ps: seq<Particle>, q: Particle)
    requires NoiseDefined(cfg) && AllValid(ps) && q.life <= q.maxLife
    ensures AllValid(ps + [q])
    ensures Advance(m, cfg, ps + [q])
            == Advance(m, cfg, ps) + (if Step(m, cfg, q).life > 0.0 then [Step(m, cfg, q)] else [])
  {
    assert AllValid(ps + [q]) by {
      forall i | 0 <= i < |ps + [q]| ensures (ps + [q])[i].life <= (ps + [q])[i].maxLife {
        if i < |ps| {
          assert (ps + [q])[i] == ps[i];
        }
      }
    }
    StepAllSnoc(m, cfg, ps, q);
    SurvivorsSnoc(StepAll(m, cfg, ps), Step(m, cfg, q));
  }

  /** Replacing the element just past a prefix. */
  lemma UpdateAfter<T>(a: seq<T>, x: T, b: seq<T>, y: T)
    ensures (a + ([x] + b))[|a| := y] == a + [y] + b
  {
  }

  /** One turn of the `forEach`: the particle at `i` is stepped in place, and painted when it is
      still alive. */
  lemma {:induction false} UpdateOne(m: MathLib, cfg: ParticleSettings, sprites: SpriteAssets,
                                     start: seq<Particle>, i: nat)
    requires NoiseDefined(cfg) && AllValid(start) && i < |start|
    ensures (StepAll(m, cfg, start[..i]) + start[i..])[i] == start[i]
    ensures (StepAll(m, cfg, start[..i]) + start[i..])[i := Step(m, cfg, start[i])]
            == StepAll(m, cfg, start[..i + 1]) + start[i + 1..]
    ensures AllValid(start[..i]) && AllValid(start[..i + 1])
    ensures var q := Step(m, cfg, start[i]);
      PaintAll(m, cfg, sprites, Advance(m, cfg, start[..i + 1]))
      == PaintAll(m, cfg, sprites, Advance(m, cfg, start[..i]))
         + (if q.life > 0.0 then [PaintOf(m, cfg, sprites, q)] else [])
  {
    var ps, q, rest := start[..i], start[i], start[i + 1..];
    assert start[..i + 1] == ps + [q];
    assert start[i..] == [q] + rest;
    assert AllValid(ps) by {
      forall j | 0 <= j < |ps| ensures ps[j].life <= ps[j].maxLife {
        assert ps[j] == start[j];
      }
    }
    StepAllSnoc(m, cfg, ps, q);
    UpdateAfter(StepAll(m, cfg, ps), q, rest, Step(m, cfg, q));
    AdvanceSnoc(m, cfg, ps, q);
    var stepped := Step(m, cfg, q);
    if stepped.life > 0.0 {
      PaintAllSnoc(m, cfg, sprites, Advance(m, cfg, ps), stepped);
    } else {
      assert Advance(m, cfg, ps + [q]) == Advance(m, cfg, ps) + [];
      assert Advance(m, cfg, ps) + [] == Advance(m, cfg, ps);
    }
  }

  // ---------------------------------------------------------------------------------------
  // The list kept across frames

  class ParticleSystem {
    /** `particlesRef.current`. */
    var particles: seq<Particle>
    /** How many values of the random stream have been drawn so far. */
    var drawn: nat
    /** The stream `Math.random` reads from. */
    const rng: Stream

    ghost predicate Valid()
      reads this
    {
      AllValid(particles)
    }

    function State(): Pool
      reads this
    {
      Pool(particles, drawn)
    }

    constructor (rng: Stream, firstDraw: nat)
      ensures Valid() && particles == [] && drawn == firstDraw && this.rng == rng
    {
      this.rng := rng;
      particles := [];
      drawn := firstDraw;
    }

    /** The object literal of one push. Its seven `Math.random()` calls, in source order, read
        the next seven values of the stream. */
    method DrawParticle(m: MathLib, cfg: ParticleSettings, cx: real, cy: real) returns (p: Particle)
      modifies this
      ensures drawn == old(drawn) + 7 && particles == old(particles)
      ensures p == NewParticle(m, cfg, cx, cy, rng, drawn - 7)
    {
      var k := drawn;
      p := ParticleFromDraws(m, cfg, cx, cy, rng[k], rng[k + 1], rng[k + 2], rng[k + 3],
                             rng[k + 4], rng[k + 5], rng[k + 6]);
      drawn := k + 7;
    }

    /** The burst loop: `count` times, one particle pushed. */
    method Spawn(m: MathLib, cfg: ParticleSettings, cx: real, cy: real)
      requires Valid()
      modifies this
      ensures Valid()
      ensures particles == old(particles) + Burst(m, cfg, cx, cy, rng, old(drawn), SpawnCount(cfg.count))
      ensures drawn == old(drawn) + 7 * SpawnCount(cfg.count)
    {
      ghost var n := SpawnCount(cfg.count);
      ghost var base := drawn;
      ghost var start := particles;
      var i: nat := 0;
      while i as real < cfg.count
        invariant i <= n
        invariant drawn == base + 7 * i
        invariant particles == start + Burst(m, cfg, cx, cy, rng, base, i)
        decreases n - i
      {
        ghost var k := drawn;
        var p := DrawParticle(m, cfg, cx, cy);
        BurstGrows(m, cfg, cx, cy, rng, base, i, k, start, p);
        particles := particles + [p];
        i := i + 1;
      }
      BurstExtendsValid(m, cfg, cx, cy, rng, base, n, start);
    }

    /** `particlesRef.current = []`. */
    method Clear()
      modifies this
      ensures Valid() && particles == [] && drawn == old(drawn)
    {
      particles := [];
    }

    /** The `forEach` that moves and paints every particle, then the `filter` that culls the dead. */
    method Update(m: MathLib, cfg: ParticleSettings, sprites: SpriteAssets)
      returns (paints: seq<ParticlePaint>)
      requires Valid() && NoiseDefined(cfg)
      modifies this
      ensures Valid() && drawn == old(drawn)
      ensures particles == Advance(m, cfg, old(particles))
      ensures paints == PaintAll(m, cfg, sprites, particles)
    {
      ghost var start := particles;
      paints := [];
      var i := 0;
      while i < |particles|
        invariant 0 <= i <= |start| && |particles| == |start| && drawn == old(drawn)
        invariant particles == StepAll(m, cfg, start[..i]) + start[i..]
        invariant AllValid(start[..i])
        invariant paints == PaintAll(m, cfg, sprites, Advance(m, cfg, start[..i]))
      {
        UpdateOne(m, cfg, sprites, start, i);
        var p := Step(m, cfg, particles[i]);
        particles := particles[i := p];
        if p.life > 0.0 {
          paints := paints + [PaintOf(m, cfg, sprites, p)];
        }
        i := i + 1;
      }
      assert start[..i] == start && start[i..] == [];
      assert particles == StepAll(m, cfg, start);
      particles := Survivors(particles);
      assert particles == Advance(m, cfg, start);
    }
  }
}
