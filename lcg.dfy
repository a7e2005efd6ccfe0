/**
 * The seeded pseudo-random generator of the constellation script: a linear
 * congruential generator holding one integer state.  Each call advances
 *   state := (state * 1103515245 + 12345) & 0x7fffffff
 * and yields state / 0x7fffffff.
 *
 * The script evaluates the product and the sum in IEEE-754 double
 * precision, so once the product passes 2^53 it is rounded to the nearest
 * double before the mask.  The mask then keeps the low 31 bits of that
 * (integral) double, which is Dafny's Euclidean `% 2^31`.  Both roundings
 * are modelled exactly on integers by RoundInt.
 */
module Lcg {

  const Multiplier: int := 1103515245
  const Increment: int := 12345
  /** 2^31: masking with 0x7fffffff keeps the residue modulo this. */
  const Modulus: int := 0x8000_0000
  /** The divisor of a draw, and the largest value the mask can leave. */
  const MaxState: int := 0x7fff_ffff
  /** 2^53: every integer of smaller magnitude is a double. */
  const ExactLimit: int := 0x20_0000_0000_0000

  /**
   * Rounds the value x + f to a double, where 0 <= f < 1 is known only by
   * its leading bit `half` (f >= 1/2) and whether anything lies below that
   * bit (`sticky`).  Below 2^53 x is the significand and rounds to nearest,
   * ties to even; above it one bit is shifted out into the half bit and the
   * result scaled back up.
   */
  function RoundBits(x: nat, half: bool, sticky: bool): nat
    decreases x
  {
    if x < ExactLimit then
      if half && (sticky || x % 2 == 1) then x + 1 else x
    else
      2 * RoundBits(x / 2, x % 2 == 1, half || sticky)
  }

  /**
   * A significand of at least 2^52 never rounds below 2^52; a value shifted
   * at least once comes back even; with no half bit nothing changes below
   * 2^53.
   */
  lemma {:induction false} RoundBitsFacts(x: nat, half: bool, sticky: bool)
    ensures x >= 0x10_0000_0000_0000 ==> RoundBits(x, half, sticky) >= 0x10_0000_0000_0000
    ensures x >= ExactLimit ==> RoundBits(x, half, sticky) >= ExactLimit
    ensures x >= ExactLimit ==> RoundBits(x, half, sticky) % 2 == 0
    ensures !half ==> x < ExactLimit ==> RoundBits(x, half, sticky) == x
    decreases x
  {
    if x >= ExactLimit {
      RoundBitsFacts(x / 2, x % 2 == 1, half || sticky);
    }
  }

  /** Rounding of any integer to the nearest double, ties to an even significand, symmetric in the sign. */
  function RoundInt(x: int): int
    decreases if x >= 0 then 0 else 1
  {
    if x >= 0 then RoundBits(x, false, false) else -RoundInt(-x)
  }

  /**
   * Below 2^53 in magnitude rounding changes nothing; at or beyond it the
   * result is even and stays at least 2^53 in magnitude.
   */
  lemma RoundIntFacts(x: int)
    ensures -ExactLimit < x < ExactLimit ==> RoundInt(x) == x
    ensures x >= ExactLimit ==> RoundInt(x) % 2 == 0 && RoundInt(x) >= ExactLimit
    ensures x <= -ExactLimit ==> RoundInt(x) % 2 == 0 && RoundInt(x) <= -ExactLimit
  {
    if x >= 0 {
      RoundBitsFacts(x, false, false);
    } else {
      RoundBitsFacts(-x, false, false);
      assert RoundInt(-x) == RoundBits(-x, false, false);
      assert RoundInt(x) == -RoundInt(-x);
    }
  }

  /**
   * The only residue the exact recurrence sends to 0x7fffffff is 230538014
   * (1857678181 is the inverse of the multiplier modulo 2^31).
   */
  lemma ExactPreimage(s: int)
    ensures (s * 1103515245 + 12345) % 0x8000_0000 == 0x7fff_ffff ==> s % 0x8000_0000 == 230538014
  {
    if (s * 1103515245 + 12345) % 0x8000_0000 == 0x7fff_ffff {
      var q := (s * 1103515245 + 12345) / 0x8000_0000;
      assert s * 1103515245 == q * 0x8000_0000 + 0x7fff_ffff - 12345;
      InverseIdentity(s);
      var j := 1857667501 + q * 1857678181 - s * 954594553;
      assert s == 230538014 + j * 0x8000_0000;
    }
  }

  /** 1103515245 * 1857678181 == 1 + 954594553 * 2^31, multiplied through by s. */
  lemma InverseIdentity(s: int)
    ensures s * 1103515245 * 1857678181 == s + s * 954594553 * 0x8000_0000
  {
  }

  lemma EvenResidue(y: int)
    requires y % 2 == 0
    ensures (y % Modulus) % 2 == 0
  {
    assert y == (y / Modulus) * Modulus + y % Modulus;
  }

  /**
   * The double-precision step never lands on 0x7fffffff: with a product of
   * magnitude 2^53 or more the rounded value is even, and with a smaller
   * one the state would have to be 230538014 modulo 2^31, whose product is
   * far above 2^53.
   */
  lemma NeverMaximal(s: int)
    ensures RoundInt(RoundInt(s * 1103515245) + 12345) % 0x8000_0000 != MaxState
  {
    var p := s * 1103515245;
    var y := RoundInt(p) + Increment;
    var d := RoundInt(y);
    RoundIntFacts(p);
    RoundIntFacts(y);
    if y >= ExactLimit || y <= -ExactLimit {
      EvenResidue(d);
    } else if -ExactLimit < p < ExactLimit {
      ExactPreimage(s);
      assert -8162279 < s < 8162279;
    } else {
      // only a product just below -2^53 rounds into this band
      assert d == y && -ExactLimit < y <= -ExactLimit + Increment;
      ResidueShift(y + ExactLimit, -0x40_0000);
      assert y % Modulus == y + ExactLimit;
    }
  }

  lemma ResidueShift(a: int, q: int)
    requires 0 <= a < Modulus
    ensures (a + q * Modulus) % Modulus == a
  {
  }

  /** One advance of the recurrence as the script computes it; the new state is 31-bit and never 0x7fffffff. */
  function Step(s: int): (r: int)
    ensures 0 <= r < MaxState
  {
    NeverMaximal(s);
    RoundInt(RoundInt(s * 1103515245) + 12345) % 0x8000_0000
  }

  /** While the sum s * 1103515245 + 12345 stays below 2^53 the step is the textbook recurrence modulo 2^31. */
  lemma StepExact(s: int)
    requires 0 <= s && s * 1103515245 + 12345 < ExactLimit
    ensures Step(s) == (s * Multiplier + Increment) % Modulus
  {
  }

  /** The state after k advances from the seed; the k-th draw (k >= 1) is Value(Iterate(seed, k)). */
  function Iterate(seed: int, k: nat): (s: int)
    ensures k >= 1 ==> 0 <= s < MaxState
  {
    if k == 0 then seed else Step(Iterate(seed, k - 1))
  }

  /** The number a draw returns: the state scaled down by 0x7fffffff, over exact reals. */
  function Value(s: int): (v: real)
    ensures v * MaxState as real == s as real
  {
    s as real / MaxState as real
  }

  /** Every state after the first advance is a 31-bit value below 0x7fffffff, one step from the state before. */
  lemma IterateBounded(seed: int, k: nat)
    requires k >= 1
    ensures 0 <= Iterate(seed, k) < MaxState
    ensures Iterate(seed, k) == Step(Iterate(seed, k - 1))
  {
  }

  /** Advancing a + b times is advancing a times, then b times. */
  lemma {:induction false} IterateAdd(seed: int, a: nat, b: nat)
    ensures Iterate(seed, a + b) == Iterate(Iterate(seed, a), b)
  {
    if b > 0 {
      IterateAdd(seed, a, b - 1);
      assert Iterate(seed, a + b) == Step(Iterate(seed, a + (b - 1)));
    }
  }

  /** The value of a 31-bit state lies in [0, 1], and below 1 exactly when the state is not 0x7fffffff. */
  lemma ValueInUnit(s: int)
    requires 0 <= s <= MaxState
    ensures 0.0 <= Value(s) <= 1.0
    ensures Value(s) < 1.0 <==> s < MaxState
  {
  }

  /** Every draw the script makes lies in [0, 1). */
  lemma DrawBelowOne(seed: int, k: nat)
    requires k >= 1
    ensures 0.0 <= Value(Iterate(seed, k)) < 1.0
  {
    ValueInUnit(Iterate(seed, k));
  }

  /**
   * The steps behind the fixture.  In the first the product is already above
   * 2^53, but its two roundings cancel out; the other two are traced bit by
   * bit through both roundings.
   */
  lemma StepFrom20240315()
    ensures Step(20240315) == 1927087320
  {
  }

  lemma StepFrom1927087320()
    ensures Step(1927087320) == 1453658112
  {
    assert RoundBits(8306914984633567, true, true) == 8306914984633568;
    assert RoundBits(16613829969267135, true, true) == 16613829969267136;
    assert RoundBits(33227659938534271, true, true) == 33227659938534272;
    assert RoundBits(66455319877068543, true, true) == 66455319877068544;
    assert RoundBits(132910639754137087, true, false) == 132910639754137088;
    assert RoundBits(265821279508274175, false, false) == 265821279508274176;
    assert RoundBits(531642559016548350, false, false) == 531642559016548352;
    assert RoundBits(1063285118033096700, false, false) == 1063285118033096704;
    assert RoundBits(2126570236066193400, false, false) == 2126570236066193408;
    assert RoundBits(8306914984633616, false, true) == 8306914984633616;
    assert RoundBits(16613829969267232, false, true) == 16613829969267232;
    assert RoundBits(33227659938534464, true, true) == 33227659938534464;
    assert RoundBits(66455319877068929, true, true) == 66455319877068928;
    assert RoundBits(132910639754137859, true, true) == 132910639754137856;
    assert RoundBits(265821279508275719, false, true) == 265821279508275712;
    assert RoundBits(531642559016551438, false, true) == 531642559016551424;
    assert RoundBits(1063285118033102876, true, false) == 1063285118033102848;
    assert RoundBits(2126570236066205753, false, false) == 2126570236066205696;
  }

  lemma StepFrom1453658112()
    ensures Step(1453658112) == 254279680
  {
    assert RoundBits(6266147998476240, false, false) == 6266147998476240;
    assert RoundBits(12532295996952480, false, false) == 12532295996952480;
    assert RoundBits(25064591993904960, false, false) == 25064591993904960;
    assert RoundBits(50129183987809920, false, false) == 50129183987809920;
    assert RoundBits(100258367975619840, false, false) == 100258367975619840;
    assert RoundBits(200516735951239680, false, false) == 200516735951239680;
    assert RoundBits(401033471902479360, false, false) == 401033471902479360;
    assert RoundBits(802066943804958720, false, false) == 802066943804958720;
    assert RoundBits(1604133887609917440, false, false) == 1604133887609917440;
    assert RoundBits(6266147998476288, false, true) == 6266147998476288;
    assert RoundBits(12532295996952576, false, true) == 12532295996952576;
    assert RoundBits(25064591993905152, true, true) == 25064591993905152;
    assert RoundBits(50129183987810305, true, true) == 50129183987810304;
    assert RoundBits(100258367975620611, true, true) == 100258367975620608;
    assert RoundBits(200516735951241223, false, true) == 200516735951241216;
    assert RoundBits(401033471902482446, false, true) == 401033471902482432;
    assert RoundBits(802066943804964892, true, false) == 802066943804964864;
    assert RoundBits(1604133887609929785, false, false) == 1604133887609929728;
  }

  /**
   * Exact arithmetic would reach 0x7fffffff from 230538014; the script's
   * rounded product (far above 2^53) does not.
   */
  lemma ExactOnlyReachesMaximal()
    ensures (230538014 * Multiplier + Increment) % Modulus == MaxState
    ensures Step(230538014) != MaxState
  {
  }

  /** The exact recurrence's second draw from the 2024-03-15 seed. */
  lemma ExactSecondDraw()
    ensures (1927087320 * Multiplier + Increment) % Modulus == 1453658161
  {
    var x := 1927087320 * Multiplier + Increment;
    assert x == 990261433 * Modulus + 1453658161;
  }

  /**
   * The first three draws for the seed of 2024-03-15 without data.  The
   * first agrees with the exact recurrence; the second already carries the
   * rounding of a product above 2^53.
   */
  lemma FirstDrawsFixture()
    ensures Iterate(20240315, 1) == 1927087320
    ensures Iterate(20240315, 2) == 1453658112
    ensures Iterate(20240315, 3) == 254279680
    ensures (1927087320 * Multiplier + Increment) % Modulus == 1453658161
  {
    ExactSecondDraw();
    StepFrom20240315();
    IterateBounded(20240315, 1);
    assert Iterate(20240315, 1) == 1927087320;
    StepFrom1927087320();
    IterateBounded(20240315, 2);
    assert Iterate(20240315, 2) == Step(1927087320);
    StepFrom1453658112();
    IterateBounded(20240315, 3);
    assert Iterate(20240315, 3) == Step(1453658112);
  }

  /**
   * The generator object: one mutable integer state, owned by a single
   * generation run.
   */
  class Random {
    var state: int

    constructor (seed: int)
      ensures state == seed
    {
      state := seed;
    }

    /** Advances the state once and returns the new state (the draw is Value of it). */
    method Next() returns (r: int)
      modifies this
      ensures r == Step(old(state)) && state == r
      ensures 0 <= r < MaxState
    {
      state := Step(state);
      r := state;
    }
  }
}
