/** What `Dust.create` computes before it touches any object: its
    parameters and their defaults, the emission angles (random or evenly
    spaced), and the initial values `makeParticle` gives one particle. */
module Emission {

  import opened Arith
  import opened Random
  import opened Motion

  /** The numeric and boolean parameters of `create`, in its argument
      order. The sprite factory and the container are passed separately. */
  datatype Config = Config(
    x: real, y: real,
    numberOfParticles: int,
    gravity: real,
    randomSpacing: bool,
    minAngle: real, maxAngle: real,
    minSize: int, maxSize: int,
    minSpeed: real, maxSpeed: real,
    minScaleSpeed: real, maxScaleSpeed: real,
    minAlphaSpeed: real, maxAlphaSpeed: real,
    minRotationSpeed: real, maxRotationSpeed: real)

  /** The values `create` uses for the parameters a caller leaves out. */
  const DEFAULTS: Config := Config(
    0.0, 0.0, 20, 0.0, true,
    0.0, 6.28, 4, 16, 0.3, 3.0,
    0.01, 0.05, 0.02, 0.02, 0.01, 0.03)

  /** How many times the loop `for (i = 0; i < numberOfParticles; i++)` runs:
      never for a count of 0 or less, once per particle otherwise. */
  function Count(numberOfParticles: int): (runs: nat)
    ensures runs == 0 <==> numberOfParticles <= 0
    ensures 0 < numberOfParticles ==> runs == numberOfParticles
    ensures numberOfParticles <= runs
  {
    if numberOfParticles > 0 then numberOfParticles else 0
  }

  /** `(maxAngle - minAngle) / (numberOfParticles - 1)`. With one particle
      this divides by zero; the value is never used then, so it is taken
      as 0. */
  function Spacing(minAngle: real, maxAngle: real, numberOfParticles: int): (spacing: real)
    ensures numberOfParticles != 1 ==>
      spacing * (numberOfParticles - 1) as real == maxAngle - minAngle
    ensures numberOfParticles == 1 ==> spacing == 0.0
  {
    if numberOfParticles == 1 then 0.0
    else (maxAngle - minAngle) / (numberOfParticles - 1) as real
  }

  /** `n` angles from `start` on, `spacing` apart: the i-th is `start` with
      the spacing added i times. */
  function EvenFrom(start: real, spacing: real, n: nat): (angles: seq<real>)
    ensures |angles| == n
    ensures forall i :: 0 <= i < n ==> angles[i] == start + Times(i, spacing)
  {
    if n == 0 then [] else EvenFrom(start, spacing, n - 1) + [start + Times(n - 1, spacing)]
  }

  /** The evenly spaced angles of `create`. */
  function EvenAngles(minAngle: real, maxAngle: real, numberOfParticles: int): (angles: seq<real>)
    ensures |angles| == Count(numberOfParticles)
    ensures 0 < |angles| ==> angles[0] == minAngle
    ensures forall i :: 0 < i < |angles| ==>
      angles[i] == angles[i - 1] + Spacing(minAngle, maxAngle, numberOfParticles)
  {
    EvenFrom(minAngle, Spacing(minAngle, maxAngle, numberOfParticles), Count(numberOfParticles))
  }

  /** Every draw is a value `Math.random()` can return. */
  predicate AllDraws(draws: seq<real>) {
    forall i :: 0 <= i < |draws| ==> IsDraw(draws[i])
  }

  /** One `randomFloat(minAngle, maxAngle)` per draw, in order. */
  function RandomAngles(minAngle: real, maxAngle: real, draws: seq<real>): (angles: seq<real>)
    requires AllDraws(draws)
    ensures |angles| == |draws|
    ensures forall i :: 0 <= i < |draws| ==> angles[i] == RandomFloat(minAngle, maxAngle, draws[i])
    ensures minAngle < maxAngle ==> forall i :: 0 <= i < |angles| ==> minAngle <= angles[i] < maxAngle
  {
    if draws == [] then []
    else RandomAngles(minAngle, maxAngle, draws[..|draws| - 1])
         + [RandomFloat(minAngle, maxAngle, draws[|draws| - 1])]
  }

  /** The `angles` array `create` builds: random angles when `randomSpacing`
      is set, evenly spaced ones otherwise. */
  function EmissionAngles(cfg: Config, draws: seq<real>): (angles: seq<real>)
    requires cfg.randomSpacing ==> AllDraws(draws)
    ensures |angles| == if cfg.randomSpacing then |draws| else Count(cfg.numberOfParticles)
    ensures cfg.randomSpacing && cfg.minAngle < cfg.maxAngle ==>
      forall i :: 0 <= i < |angles| ==> cfg.minAngle <= angles[i] < cfg.maxAngle
    ensures !cfg.randomSpacing && 0 < |angles| ==> angles[0] == cfg.minAngle
  {
    if cfg.randomSpacing then RandomAngles(cfg.minAngle, cfg.maxAngle, draws)
    else EvenAngles(cfg.minAngle, cfg.maxAngle, cfg.numberOfParticles)
  }

  /** The angle loop of `create`. In the even case `angle` starts undefined,
      is set to minAngle on the first pass, pushed, then advanced by the
      spacing AFTER the push, so a single particle gets exactly minAngle. */
  method ComputeAngles(cfg: Config, draws: seq<real>) returns (angles: seq<real>)
    requires cfg.randomSpacing ==> |draws| == Count(cfg.numberOfParticles) && AllDraws(draws)
    ensures angles == EmissionAngles(cfg, draws)
    ensures |angles| == Count(cfg.numberOfParticles)
  {
    var n := cfg.numberOfParticles;
    angles := [];
    var angle := 0.0;
    var defined := false;
    var spacing := if n - 1 == 0 then 0.0 else (cfg.maxAngle - cfg.minAngle) / (n - 1) as real;
    var i := 0;
    while i < n
      invariant 0 <= i <= Count(n)
      invariant |angles| == i
      invariant cfg.randomSpacing ==> angles == RandomAngles(cfg.minAngle, cfg.maxAngle, draws[..i])
      invariant !cfg.randomSpacing ==> (defined <==> 0 < i)
      invariant !cfg.randomSpacing && defined ==> angle == cfg.minAngle + Times(i, spacing)
      invariant !cfg.randomSpacing ==> angles == EvenFrom(cfg.minAngle, spacing, i)
    {
      if cfg.randomSpacing {
        RandomAnglesStep(cfg.minAngle, cfg.maxAngle, draws, i);
        angle := RandomFloat(cfg.minAngle, cfg.maxAngle, draws[i]);
        defined := true;
        angles := angles + [angle];
      } else {
        if !defined {
          angle := cfg.minAngle;
          defined := true;
        }
        EvenStep(cfg.minAngle, spacing, i);
        angles := angles + [angle];
        angle := angle + spacing;
      }
      i := i + 1;
    }
    if cfg.randomSpacing {
      assert draws[..i] == draws;
    } else {
      assert spacing == Spacing(cfg.minAngle, cfg.maxAngle, n);
    }
  }

  /** One more draw adds one more random angle at the end. */
  lemma RandomAnglesStep(minAngle: real, maxAngle: real, draws: seq<real>, i: nat)
    requires i < |draws| && AllDraws(draws)
    ensures RandomAngles(minAngle, maxAngle, draws[..i + 1])
      == RandomAngles(minAngle, maxAngle, draws[..i]) + [RandomFloat(minAngle, maxAngle, draws[i])]
  {
    assert draws[..i + 1][..i] == draws[..i];
  }

  /** One more evenly spaced angle is the last one plus the spacing. */
  lemma EvenStep(start: real, spacing: real, i: nat)
    ensures EvenFrom(start, spacing, i + 1) == EvenFrom(start, spacing, i) + [start + Times(i, spacing)]
    ensures start + Times(i, spacing) + spacing == start + Times(i + 1, spacing)
  {
  }

  /** With even spacing and at least two particles, the angles form an
      arithmetic sequence from minAngle to maxAngle inclusive: angle i is
      minAngle + i * (maxAngle - minAngle) / (N - 1). */
  lemma EvenAnglesSpan(minAngle: real, maxAngle: real, n: int)
    requires 2 <= n
    ensures |EvenAngles(minAngle, maxAngle, n)| == n
    ensures EvenAngles(minAngle, maxAngle, n)[0] == minAngle
    ensures EvenAngles(minAngle, maxAngle, n)[n - 1] == maxAngle
    ensures forall i :: 0 <= i < n ==>
      EvenAngles(minAngle, maxAngle, n)[i] == minAngle + i as real * ((maxAngle - minAngle) / (n - 1) as real)
  {
    var d := Spacing(minAngle, maxAngle, n);
    var m := (n - 1) as real;
    forall i | 0 <= i < n
      ensures EvenAngles(minAngle, maxAngle, n)[i] == minAngle + i as real * d
    {
      TimesIsProduct(i, d);
    }
    QuotientTimesDivisor(maxAngle - minAngle, m);
  }

  /** With even spacing and one particle the only angle is minAngle, whatever
      maxAngle is: the spacing is added only after the push. */
  lemma SingleEvenAngle(cfg: Config)
    requires !cfg.randomSpacing && cfg.numberOfParticles == 1
    ensures EmissionAngles(cfg, []) == [cfg.minAngle]
  {
  }

  /** With every numeric parameter left at its default, `create` makes 20
      particles at random angles in [0, 6.28), each of a size in [4, 16]
      and with its alpha speed exactly 0.02. */
  lemma DefaultEmission(angleDraws: seq<real>, sprite: Sprite, d: Draws,
                        cos: real -> real, sin: real -> real)
    requires |angleDraws| == Count(DEFAULTS.numberOfParticles) && AllDraws(angleDraws) && ValidDraws(d)
    ensures Count(DEFAULTS.numberOfParticles) == 20 && DEFAULTS.randomSpacing
    ensures |EmissionAngles(DEFAULTS, angleDraws)| == 20
    ensures forall i :: 0 <= i < 20 ==> 0.0 <= EmissionAngles(DEFAULTS, angleDraws)[i] < 6.28
    ensures forall angle :: 4 <= Spawn(DEFAULTS, sprite, angle, d, cos, sin).size <= 16
    ensures forall angle :: Spawn(DEFAULTS, sprite, angle, d, cos, sin).rates.alphaSpeed == 0.02
  {
  }

  /** What `spriteFunction()` returns: the fields of the new sprite that
      the particle system reads or keeps. `totalFrames` is 0 for a sprite
      that is not animated. `scaleX` and `scaleY` stand for the sprite's
      scale once `makeParticle` has set its width and height to the drawn
      size (the engine derives the scale from those two assignments); the
      model does not compute that rescaling. */
  datatype Sprite = Sprite(
    totalFrames: int, currentFrame: int,
    scaleX: real, scaleY: real,
    rotation: real, alpha: real)

  /** The `Math.random()` draws `makeParticle` makes for one particle: the
      frame (only used for an animated sprite), the size, the three rates
      and the speed. */
  datatype Draws = Draws(
    frame: real, size: real,
    scaleSpeed: real, alphaSpeed: real, rotationSpeed: real,
    speed: real)

  predicate ValidDraws(d: Draws) {
    IsDraw(d.frame) && IsDraw(d.size) && IsDraw(d.scaleSpeed) &&
    IsDraw(d.alphaSpeed) && IsDraw(d.rotationSpeed) && IsDraw(d.speed)
  }

  /** The initial values of one particle: simulation state, rates, the
      size given to both width and height, and the frame shown. */
  datatype Spawned = Spawned(state: ParticleState, rates: Rates, size: int, frame: int)

  /** What `makeParticle(angle)` gives the sprite. `cos` and `sin` stand for
      `Math.cos` and `Math.sin`. */
  function Spawn(cfg: Config, sprite: Sprite, angle: real, d: Draws,
                 cos: real -> real, sin: real -> real): (p: Spawned)
    requires ValidDraws(d)
    ensures p.state.x == cfg.x && p.state.y == cfg.y
    ensures p.state.scaleX == sprite.scaleX && p.state.scaleY == sprite.scaleY
    ensures p.state.rotation == sprite.rotation && p.state.alpha == sprite.alpha
    ensures cfg.minSize <= cfg.maxSize ==> cfg.minSize <= p.size <= cfg.maxSize
    ensures 0 < sprite.totalFrames ==> 0 <= p.frame <= sprite.totalFrames - 1
    ensures sprite.totalFrames <= 0 ==> p.frame == sprite.currentFrame
    ensures cfg.minScaleSpeed <= cfg.maxScaleSpeed ==>
      cfg.minScaleSpeed <= p.rates.scaleSpeed <= cfg.maxScaleSpeed
    ensures cfg.minAlphaSpeed <= cfg.maxAlphaSpeed ==>
      cfg.minAlphaSpeed <= p.rates.alphaSpeed <= cfg.maxAlphaSpeed
    ensures cfg.minRotationSpeed <= cfg.maxRotationSpeed ==>
      cfg.minRotationSpeed <= p.rates.rotationSpeed <= cfg.maxRotationSpeed
    ensures p.state.vx == RandomFloat(cfg.minSpeed, cfg.maxSpeed, d.speed) * cos(angle)
    ensures p.state.vy == RandomFloat(cfg.minSpeed, cfg.maxSpeed, d.speed) * sin(angle)
  {
    var frame := if sprite.totalFrames > 0 then RandomInt(0, sprite.totalFrames - 1, d.frame)
                 else sprite.currentFrame;
    var size := RandomInt(cfg.minSize, cfg.maxSize, d.size);
    var rates := Rates(
      RandomFloat(cfg.minScaleSpeed, cfg.maxScaleSpeed, d.scaleSpeed),
      RandomFloat(cfg.minAlphaSpeed, cfg.maxAlphaSpeed, d.alphaSpeed),
      RandomFloat(cfg.minRotationSpeed, cfg.maxRotationSpeed, d.rotationSpeed));
    var speed := RandomFloat(cfg.minSpeed, cfg.maxSpeed, d.speed);
    Spawned(
      ParticleState(cfg.x, cfg.y, speed * cos(angle), speed * sin(angle),
                    sprite.scaleX, sprite.scaleY, sprite.rotation, sprite.alpha),
      rates, size, frame)
  }

  /** One particle at angle 0 with even spacing: its velocity is (speed, 0)
      for a speed in [minSpeed, maxSpeed). */
  lemma SingleParticleAtZero(cfg: Config, sprite: Sprite, d: Draws,
                             cos: real -> real, sin: real -> real)
    requires !cfg.randomSpacing && cfg.numberOfParticles == 1
    requires cfg.minAngle == 0.0 && cfg.maxAngle == 0.0
    requires cfg.minSpeed < cfg.maxSpeed
    requires cos(0.0) == 1.0 && sin(0.0) == 0.0
    requires ValidDraws(d)
    ensures EmissionAngles(cfg, []) == [0.0]
    ensures cfg.minSpeed <= Spawn(cfg, sprite, EmissionAngles(cfg, [])[0], d, cos, sin).state.vx < cfg.maxSpeed
    ensures Spawn(cfg, sprite, EmissionAngles(cfg, [])[0], d, cos, sin).state.vy == 0.0
  {
    SingleEvenAngle(cfg);
  }
}
