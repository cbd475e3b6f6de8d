/**
 * The C library's rand() and the random(min, max) helpers built on it.
 *
 * rand() is global generator state. The model replaces it by an injected
 * stream of results: any function from the call number to a value in
 * [0, RAND_MAX], with a counter of the calls made so far. The helpers are
 * textually identical in four places (Bullet::random, BulletLogic::random,
 * randomInt/randomFloat of the decorator birds, randomIntCrazy and
 * randomFloatCrazy of the strategy birds); they are modelled once here.
 */
module Random {

  /** RAND_MAX of the C library on the Linux and macOS builds. */
  const RAND_MAX: int := 0x7fff_ffff

  /** One result of rand(). */
  type Draw = r: int | 0 <= r <= RAND_MAX

  /** The successive results of rand(), indexed by call number. */
  type Draws = nat -> Draw

  /**
   * What random(int min, int max) makes of one rand() result r:
   * (r % (max - min)) + min. Since r is never negative and max - min is
   * positive, C's truncating % agrees with Dafny's here. The result never
   * reaches max, which is stronger than the helper's own assertion.
   */
  function IntFromDraw(r: int, min: int, max: int): (n: int)
    requires 0 <= r && min < max
    ensures min <= n < max
    ensures r < max - min ==> n == min + r
  {
    r % (max - min) + min
  }

  /**
   * What random(double min, double max) makes of one rand() result r:
   * min + r / RAND_MAX * (max - min). Both ends of [min, max] are reached.
   */
  function RealFromDraw(r: int, min: real, max: real): (x: real)
    requires 0 <= r <= RAND_MAX && min <= max
    ensures min <= x <= max
    ensures r == 0 ==> x == min
    ensures r == RAND_MAX ==> x == max
  {
    var q := r as real / RAND_MAX as real;
    assert 0.0 <= q <= 1.0;
    var w := max - min;
    ScaleWithin(q, w);
    assert min + q * w <= min + w == max;
    min + q * w
  }

  /** A fraction of a non-negative width lies within that width. */
  lemma ScaleWithin(q: real, w: real)
    requires 0.0 <= q <= 1.0 && 0.0 <= w
    ensures 0.0 <= q * w <= w
  {
    assert q * w <= 1.0 * w by {
      assert (1.0 - q) * w >= 0.0;
    }
  }

  /** The generator state: the stream of results and how many have been used. */
  class Rng {
    const draws: Draws
    var calls: nat

    constructor (draws: Draws)
      ensures this.draws == draws && calls == 0
    {
      this.draws := draws;
      calls := 0;
    }

    /** rand(): the next result of the stream. */
    method Rand() returns (r: int)
      modifies this`calls
      ensures r == draws(old(calls)) && calls == old(calls) + 1
      ensures 0 <= r <= RAND_MAX
    {
      r := draws(calls);
      calls := calls + 1;
    }

    /** random(int min, int max): one rand() call, result in [min, max - 1]. */
    method RandomInt(min: int, max: int) returns (n: int)
      requires min < max
      modifies this`calls
      ensures n == IntFromDraw(draws(old(calls)), min, max) && calls == old(calls) + 1
      ensures min <= n < max
    {
      var r := Rand();
      n := r % (max - min) + min;
    }

    /** random(double min, double max): one rand() call, result in [min, max]. */
    method RandomReal(min: real, max: real) returns (x: real)
      requires min <= max
      modifies this`calls
      ensures x == RealFromDraw(draws(old(calls)), min, max) && calls == old(calls) + 1
      ensures min <= x <= max
    {
      var r := Rand();
      x := RealFromDraw(r, min, max);
    }
  }
}
