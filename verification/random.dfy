/** `Dust.randomFloat` and `Dust.randomInt`. Each call of `Math.random()`
    is replaced by an explicit draw `r` in [0, 1), so both helpers become
    pure functions of their bounds and the draw. */
module Random {

  import opened Arith

  /** A value `Math.random()` can return. */
  predicate IsDraw(r: real) {
    0.0 <= r < 1.0
  }

  /** `Math.random() * w`: a draw spread over a width `w`; it lies in
      [0, w) when w is positive, in (w, 0] when w is negative, and is 0
      when w is 0. */
  function Spread(r: real, w: real): (p: real)
    requires IsDraw(r)
    ensures 0.0 < w ==> 0.0 <= p < w
    ensures w < 0.0 ==> w < p <= 0.0
    ensures w == 0.0 ==> p == 0.0
  {
    if 0.0 < w then
      ProductSign(r, w);
      ProductSign(1.0 - r, w);
      assert w - r * w == (1.0 - r) * w;
      r * w
    else if w < 0.0 then
      ProductSign(r, -w);
      ProductSign(1.0 - r, -w);
      assert r * w == -(r * -w);
      assert w - r * w == -((1.0 - r) * -w);
      r * w
    else
      r * w
  }

  /** `min + Math.random() * (max - min)`: uniform in [min, max). With the
      bounds swapped the result lies in (max, min]; equal bounds give min. */
  function RandomFloat(min: real, max: real, r: real): (v: real)
    requires IsDraw(r)
    ensures min < max ==> min <= v < max
    ensures min == max ==> v == min
    ensures max < min ==> max < v <= min
  {
    min + Spread(r, max - min)
  }

  /** `Math.floor(Math.random() * (max - min + 1)) + min`: an integer in
      [min, max] inclusive. With the bounds swapped it lies in (max, min]. */
  function RandomInt(min: int, max: int, r: real): (v: int)
    requires IsDraw(r)
    ensures min <= max ==> min <= v <= max
    ensures max < min ==> max < v <= min
  {
    Spread(r, (max - min + 1) as real).Floor + min
  }
}
