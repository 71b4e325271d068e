/** The per-frame behaviour that `create` attaches to every particle
    (`particle.updateParticle`), as a pure function on the particle's
    simulation state, with what repeated frames do to that state. */
module Motion {

  import opened Arith

  /** The fields `updateParticle` reads and writes: position, velocity,
      the two scale components, rotation and alpha. */
  datatype ParticleState = ParticleState(
    x: real, y: real,
    vx: real, vy: real,
    scaleX: real, scaleY: real,
    rotation: real,
    alpha: real)

  /** The per-frame rates drawn once when the particle is made. */
  datatype Rates = Rates(scaleSpeed: real, alphaSpeed: real, rotationSpeed: real)

  /** One scale component after a frame: it drops by `speed` only when the
      result stays above zero. A positive scale therefore stays positive,
      and with a non-negative speed it never grows. */
  function Shrink(scale: real, speed: real): (r: real)
    ensures r == scale - speed || r == scale
    ensures 0.0 < scale ==> 0.0 < r
    ensures 0.0 <= speed ==> r <= scale
    ensures r == scale - speed <== scale - speed > 0.0
    ensures scale - speed <= 0.0 ==> r == scale
  {
    if scale - speed > 0.0 then scale - speed else scale
  }

  /** One call of `updateParticle` on the simulation state: gravity is added
      to vy first, so y moves by the UPDATED vy; scale shrinks, rotation and
      alpha change by their rates. */
  function Advance(s: ParticleState, rates: Rates, gravity: real): (r: ParticleState)
    ensures r.vx == s.vx && r.vy - s.vy == gravity
    ensures r.x - s.x == s.vx && r.y - s.y == r.vy
    ensures r.rotation - s.rotation == rates.rotationSpeed && s.alpha - r.alpha == rates.alphaSpeed
    ensures r.scaleX == Shrink(s.scaleX, rates.scaleSpeed) && r.scaleY == Shrink(s.scaleY, rates.scaleSpeed)
  {
    var vy := s.vy + gravity;
    ParticleState(
      s.x + s.vx, s.y + vy,
      s.vx, vy,
      Shrink(s.scaleX, rates.scaleSpeed), Shrink(s.scaleY, rates.scaleSpeed),
      s.rotation + rates.rotationSpeed,
      s.alpha - rates.alphaSpeed)
  }

  /** The removal test that ends `updateParticle`: alpha has reached zero.
      A particle is kept exactly while its alpha is positive; an alpha of
      exactly zero already removes it. */
  predicate Expired(s: ParticleState): (gone: bool)
    ensures gone <==> !(0.0 < s.alpha)
    ensures s.alpha == 0.0 ==> gone
  {
    s.alpha <= 0.0
  }

  /** One step removes a particle exactly when its alpha before the step is
      at most its alpha speed, whatever its position, scale or gravity. */
  lemma ExpiredAfterStep(s: ParticleState, rates: Rates, gravity: real)
    ensures Expired(Advance(s, rates, gravity)) <==> s.alpha <= rates.alphaSpeed
  {
  }

  /** The state after `k` frames. */
  function AdvanceN(s: ParticleState, rates: Rates, gravity: real, k: nat): ParticleState {
    if k == 0 then s else Advance(AdvanceN(s, rates, gravity, k - 1), rates, gravity)
  }

  /** 0 + 1 + ... + k. */
  function Triangle(k: nat): nat {
    if k == 0 then 0 else Triangle(k - 1) + k
  }

  /** After `k` frames: vx is unchanged, vy has gained gravity k times, x has
      moved by vx k times, y has moved by the initial vy k times plus gravity
      1 + 2 + ... + k times (each frame moves y by the updated vy), rotation
      and alpha have changed k times by their rates. */
  lemma {:induction false} AdvanceNClosedForm(s: ParticleState, rates: Rates, gravity: real, k: nat)
    ensures AdvanceN(s, rates, gravity, k).vx == s.vx
    ensures AdvanceN(s, rates, gravity, k).vy == s.vy + Times(k, gravity)
    ensures AdvanceN(s, rates, gravity, k).x == s.x + Times(k, s.vx)
    ensures AdvanceN(s, rates, gravity, k).y == s.y + Times(k, s.vy) + Times(Triangle(k), gravity)
    ensures AdvanceN(s, rates, gravity, k).rotation == s.rotation + Times(k, rates.rotationSpeed)
    ensures AdvanceN(s, rates, gravity, k).alpha == s.alpha - Times(k, rates.alphaSpeed)
  {
    if k > 0 {
      AdvanceNClosedForm(s, rates, gravity, k - 1);
      TimesAdd(Triangle(k - 1), k, gravity);
    }
  }

  /** However many frames pass, a positive scale component stays positive,
      and with a non-negative scale speed it never grows. */
  lemma {:induction false} ScaleStaysPositive(s: ParticleState, rates: Rates, gravity: real, k: nat)
    requires 0.0 < s.scaleX && 0.0 < s.scaleY
    ensures 0.0 < AdvanceN(s, rates, gravity, k).scaleX
    ensures 0.0 < AdvanceN(s, rates, gravity, k).scaleY
    ensures 0.0 <= rates.scaleSpeed ==> AdvanceN(s, rates, gravity, k).scaleX <= s.scaleX
    ensures 0.0 <= rates.scaleSpeed ==> AdvanceN(s, rates, gravity, k).scaleY <= s.scaleY
  {
    if k > 0 {
      ScaleStaysPositive(s, rates, gravity, k - 1);
    }
  }

  /** The smallest integer not below `t`. */
  function Ceil(t: real): int {
    -((-t).Floor)
  }

  /** The number of the frame in which a particle with the given alpha and a
      positive alpha speed is removed. */
  function Lifetime(alpha: real, alphaSpeed: real): (k: nat)
    requires 0.0 < alphaSpeed
    ensures 1 <= k
  {
    if alpha <= 0.0 then 1
    else
      var t := alpha / alphaSpeed;
      assert 0.0 < t;
      Ceil(t)
  }

  /** `Ceil(t)` is the least integer at or above `t`. */
  lemma CeilIsLeast(t: real, j: int)
    ensures j >= Ceil(t) <==> j as real >= t
  {
    var f := (-t).Floor;
    assert f as real <= -t < f as real + 1.0;
  }

  /** With a positive rate `a`, `alpha - n * a` has reached zero exactly
      when `n` has reached `alpha / a`. */
  lemma FallsToZero(alpha: real, a: real, n: real)
    requires 0.0 < a
    ensures alpha - n * a <= 0.0 <==> n >= alpha / a
  {
    var t := alpha / a;
    QuotientTimesDivisor(alpha, a);
    assert alpha - n * a == (t - n) * a;
    if n >= t {
      ProductSign(n - t, a);
      assert (t - n) * a == -((n - t) * a);
    } else {
      ProductSign(t - n, a);
    }
  }

  /** With a positive alpha speed, a particle is expired after frame `j`
      (and so removed in that frame) exactly when `j` has reached its
      lifetime: it is never removed earlier and always removed then. */
  lemma ExpiresAtLifetime(s: ParticleState, rates: Rates, gravity: real, j: nat)
    requires 0.0 < rates.alphaSpeed && 1 <= j
    ensures Expired(AdvanceN(s, rates, gravity, j)) <==> j >= Lifetime(s.alpha, rates.alphaSpeed)
  {
    AdvanceNClosedForm(s, rates, gravity, j);
    var a := rates.alphaSpeed;
    TimesIsProduct(j, a);
    var jr := j as real;
    if s.alpha <= 0.0 {
      ProductSign(jr, a);
    } else {
      FallsToZero(s.alpha, a, jr);
      CeilIsLeast(s.alpha / a, j);
    }
  }
}
