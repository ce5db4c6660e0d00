/** How long an agent waits before it dials again, in nanoseconds. */
module Reconnect {

  const TWO_32: nat := 0x1_0000_0000
  const TWO_64: nat := 0x1_0000_0000_0000_0000

  /** The longest duration the standard library can hold: u64::MAX seconds and all but one nanosecond. */
  const DURATION_MAX: nat := TWO_64 * 1_000_000_000 - 1

  function Pow2(n: nat): nat { if n == 0 then 1 else 2 * Pow2(n - 1) }

  function Least(a: nat, b: nat): nat { if a < b then a else b }

  /** The delay before jitter: doubled with every attempt up to the sixteenth, and never over the ceiling. */
  function Base(initial: nat, max: nat, attempt: nat): nat {
    var doubled := initial * Pow2(Least(attempt, 16));
    Least(if doubled > DURATION_MAX then max else doubled, max)
  }

  /** One step of the hash: FNV-1a but for the multiplier. */
  function Mix(h: bv64, b: bv8): bv64 { (h ^ (b as bv64)) * 0x1000_0000_01b3 }

  /** One step of FNV-1a as it is published. */
  function FnvStep(h: bv64, b: bv8): bv64 { (h ^ (b as bv64)) * 0x100_0000_01b3 }

  /** The hash of some bytes, from a state. */
  function Hashed(h: bv64, bytes: seq<bv8>): bv64 {
    if bytes == [] then h else Mix(Hashed(h, bytes[..|bytes| - 1]), bytes[|bytes| - 1])
  }

  const FNV_OFFSET: bv64 := 0xcbf2_9ce4_8422_2325

  /** The high word of a product, taken modulo 2^64. */
  function Spread(word: nat, high: nat): nat { (word * high) % TWO_64 / TWO_32 }

  /** Half the base, and up to half again by the high word of a hash. */
  function Jittered(base: nat, hash: nat): nat {
    var half := base / 2;
    var word := if half < TWO_64 then half else TWO_64 - 1;
    half + Spread(word, hash / TWO_32)
  }

  /** `seed` is the boot id, followed by the four bytes of the attempt. */
  method Delay(initial: nat, max: nat, attempt: nat, seed: seq<bv8>) returns (delay: nat)
    ensures delay == Jittered(Base(initial, max, attempt), Hashed(FNV_OFFSET, seed) as nat)
    ensures
      var base := Base(initial, max, attempt);
      base / 2 <= delay <= base <= max
  {
    var base := Base(initial, max, attempt);
    var h := Hash(seed);
    JitterIsBounded(base, h as nat);
    delay := Jittered(base, h as nat);
  }

  method Hash(seed: seq<bv8>) returns (h: bv64)
    ensures h == Hashed(FNV_OFFSET, seed)
  {
    h := FNV_OFFSET;
    var i := 0;
    while i < |seed|
      invariant 0 <= i <= |seed| && h == Hashed(FNV_OFFSET, seed[..i])
    {
      assert seed[..i + 1][..i] == seed[..i];
      h := Mix(h, seed[i]);
      i := i + 1;
    }
    assert seed[..i] == seed;
  }

  /** The multiplier has one zero too many for FNV-1a, whose prime is 2^40 + 0x1b3. The two multiply
   *  a word to the same exactly if it ends in 24 zero bits.
   */
  lemma StepIsFnvExactlyWhen(word: bv64)
    ensures word * 0x1000_0000_01b3 == word * 0x100_0000_01b3 <==> word & 0xff_ffff == 0
  {
  }

  /** So the hash of a single letter is not the published one: that of "a" is 0xaf63dc4c8601ec8c. */
  lemma TheHashIsNotFnv()
    ensures FnvStep(FNV_OFFSET, 0x61) == 0xaf63_dc4c_8601_ec8c
    ensures Hashed(FNV_OFFSET, [0x61]) == 0xaf74_d84c_8601_ec8c
  {
    assert [0x61 as bv8][..0] == [];
  }

  lemma MulMonotone(a: nat, b: nat, c: nat)
    requires a <= b
    ensures a * c <= b * c
  {
  }

  lemma DivMonotone(a: nat, b: nat, d: nat)
    requires a <= b && d > 0
    ensures a / d <= b / d
  {
    var q, r := a / d, b / d;
    assert a == d * q + a % d && b == d * r + b % d;
    assert (r + 1) * d == r * d + d;
    if q > r { MulMonotone(r + 1, q, d); }
  }

  /** Jitter stays between half the base and the base, although the product wraps for a base over about
   *  eight seconds.
   */
  lemma JitterIsBounded(base: nat, hash: nat)
    requires hash < TWO_64
    ensures base / 2 <= Jittered(base, hash) <= base
  {
    var half := base / 2;
    var word := if half < TWO_64 then half else TWO_64 - 1;
    var high := hash / TWO_32;
    DivMonotone(hash, TWO_64 - 1, TWO_32);
    assert high < TWO_32;
    var product := word * high;
    var extra := product % TWO_64 / TWO_32;
    if word < TWO_32 {
      MulMonotone(high, TWO_32, word);
      assert product <= word * TWO_32;
      assert word * TWO_32 < TWO_64;
      DivMonotone(product, word * TWO_32, TWO_32);
      assert (word * TWO_32) / TWO_32 == word;
      assert extra <= word;
    } else {
      DivMonotone(product % TWO_64, TWO_64 - 1, TWO_32);
      assert extra <= TWO_32 - 1;
    }
  }

  /** For every policy, attempt and hash, a delay is at least half its base, at most its base, and never
   *  over the ceiling.
   */
  lemma DelayIsBounded(initial: nat, max: nat, attempt: nat, hash: nat)
    requires hash < TWO_64
    ensures
      var base := Base(initial, max, attempt);
      base / 2 <= Jittered(base, hash) <= base <= max
  {
    JitterIsBounded(Base(initial, max, attempt), hash);
  }

  lemma BaseDoubles(initial: nat, max: nat, attempt: nat)
    requires attempt < 16 && initial * Pow2(attempt + 1) <= Least(max, DURATION_MAX)
    ensures Base(initial, max, attempt + 1) == 2 * Base(initial, max, attempt)
  {
    var p := Pow2(attempt);
    assert Pow2(attempt + 1) == 2 * p;
    TwiceTheProduct(initial, p);
    assert Least(attempt, 16) == attempt && Least(attempt + 1, 16) == attempt + 1;
  }

  lemma TwiceTheProduct(a: nat, p: nat)
    ensures a * (2 * p) == 2 * (a * p)
  {
  }

  /** The whole course of the base: it starts at the first delay, is doubled for each of sixteen attempts, and
   *  stops at the ceiling, although the doublings themselves may overflow.
   */
  lemma BaseFollows(initial: nat, max: nat, attempt: nat)
    requires max <= DURATION_MAX
    ensures Base(initial, max, 0) == Least(initial, max)
    ensures Base(initial, max, attempt + 1) ==
      if attempt < 16 then Least(2 * Base(initial, max, attempt), max) else Base(initial, max, attempt)
  {
    assert Pow2(0) == 1 && initial * 1 == initial;
    if attempt < 16 {
      var p := Pow2(attempt);
      assert Least(attempt, 16) == attempt && Least(attempt + 1, 16) == attempt + 1;
      assert Pow2(attempt + 1) == 2 * p;
      TwiceTheProduct(initial, p);
    }
  }

  /** While the next doubling is neither capped nor past the sixteenth, the next delay is not shorter,
   *  whatever the two hashes are.
   */
  lemma DelaysGrowUntilCapped(initial: nat, max: nat, attempt: nat, hash: nat, nextHash: nat)
    requires hash < TWO_64 && nextHash < TWO_64
    requires attempt < 16 && initial * Pow2(attempt + 1) <= Least(max, DURATION_MAX)
    ensures Jittered(Base(initial, max, attempt), hash) <= Jittered(Base(initial, max, attempt + 1), nextHash)
  {
    JitterIsBounded(Base(initial, max, attempt), hash);
    JitterIsBounded(Base(initial, max, attempt + 1), nextHash);
    BaseDoubles(initial, max, attempt);
  }

  /** A hash that makes the delay of a base longer than a hash of zero does, if there is any. */
  function LongHash(base: nat): (hash: nat)
    ensures hash < TWO_64
  {
    if base / 2 < 2 * TWO_32 then TWO_32 / 2 * TWO_32 else TWO_32
  }

  lemma LongHashIsLonger(base: nat)
    requires base >= 4
    ensures Jittered(base, 0) < Jittered(base, LongHash(base))
  {
    var half := base / 2;
    if half < 2 * TWO_32 {
      var product := half * (TWO_32 / 2);
      assert product == half * 0x8000_0000 && product < TWO_64;
      assert product / TWO_32 == half / 2;
    } else {
      var word := if half < TWO_64 then half else TWO_64 - 1;
      assert word * 1 % TWO_64 == word;
      DivMonotone(TWO_32, word, TWO_32);
    }
  }

  lemma ShortBasesDoNotVary(base: nat, hash: nat)
    requires base < 4 && hash < TWO_64
    ensures Jittered(base, hash) == base / 2
  {
    DivMonotone(hash, TWO_64 - 1, TWO_32);
    var high := hash / TWO_32;
    assert base / 2 * high in {0, high};
  }

  /** Once at its ceiling, or past the sixteenth attempt, the base does not change any more. */
  lemma BaseStaysPut(initial: nat, max: nat, attempt: nat)
    requires attempt >= 16 || Base(initial, max, attempt) == max
    ensures Base(initial, max, attempt + 1) == Base(initial, max, attempt)
  {
    if attempt < 16 {
      assert Least(attempt, 16) == attempt && Least(attempt + 1, 16) == attempt + 1;
      assert Pow2(attempt + 1) == 2 * Pow2(attempt);
      TwiceTheProduct(initial, Pow2(attempt));
    }
  }

  /** With these two hashes the second delay is the shorter one. */
  predicate Shrinks(base: nat, hash: nat, nextBase: nat, next: nat) {
    hash < TWO_64 && next < TWO_64 && Jittered(nextBase, next) < Jittered(base, hash)
  }

  ghost predicate CanShrink(base: nat, nextBase: nat) {
    exists hash, next :: Shrinks(base, hash, nextBase, next)
  }

  /** From then on a later delay can be shorter than an earlier one, and exactly if the base is four
   *  nanoseconds or more: jitter alone decides.
   */
  lemma CappedDelaysShrinkExactlyWhen(initial: nat, max: nat, attempt: nat)
    requires attempt >= 16 || Base(initial, max, attempt) == max
    ensures
      CanShrink(Base(initial, max, attempt), Base(initial, max, attempt + 1)) <==> Base(initial, max, attempt) >= 4
  {
    BaseStaysPut(initial, max, attempt);
    var base := Base(initial, max, attempt);
    if base >= 4 {
      LongHashIsLonger(base);
      assert Shrinks(base, LongHash(base), base, 0);
    } else {
      forall hash: nat | hash < TWO_64 ensures Jittered(base, hash) == base / 2 {
        ShortBasesDoNotVary(base, hash);
      }
    }
  }

  lemma SpreadsGrow(half: nat, low: nat, high: nat)
    requires half <= TWO_32 && low <= high < TWO_32
    ensures Spread(half, low) <= Spread(half, high)
  {
    MulMonotone(low, high, half);
    MulMonotone(half, TWO_32, high);
    DivMonotone(half * low, half * high, TWO_32);
  }

  lemma LargestSpread(half: nat)
    requires 0 < half <= TWO_32
    ensures Spread(half, TWO_32 - 1) == half - 1
  {
    assert half * (TWO_32 - 1) == TWO_32 * (half - 1) + (TWO_32 - half);
  }

  /** A hash of zero gives half the base; the hash of all ones, of a base up to 2^33, all but one of the rest. */
  lemma SmallestAndLargest(base: nat, hash: nat)
    requires hash < TWO_64
    ensures Jittered(base, 0) == base / 2
    ensures 0 < base / 2 <= TWO_32 ==> Jittered(base, hash) <= Jittered(base, TWO_64 - 1) == 2 * (base / 2) - 1
  {
    if 0 < base / 2 <= TWO_32 {
      DivMonotone(hash, TWO_64 - 1, TWO_32);
      SpreadsGrow(base / 2, hash / TWO_32, TWO_32 - 1);
      LargestSpread(base / 2);
    }
  }

  /** No delay shrinks by more than all the spread of its base. */
  lemma ShrinksWithinTheSpread(base: nat, h: nat, next: nat, g: nat)
    requires base / 2 <= TWO_32 && Shrinks(base, h, next, g)
    ensures next / 2 + 1 < 2 * (base / 2)
  {
    JitterIsBounded(next, g);
    JitterIsBounded(base, h);
    SmallestAndLargest(base, h);
  }

  /** If the least next delay is below the largest of these, one may follow the other. */
  lemma FarthestApart(base: nat, next: nat)
    requires base / 2 <= TWO_32 && next / 2 + 1 < 2 * (base / 2)
    ensures CanShrink(base, next)
  {
    SmallestAndLargest(base, 0);
    SmallestAndLargest(next, 0);
    assert Shrinks(base, TWO_64 - 1, next, 0);
  }

  /** At any attempt, the one that meets the ceiling among them, and up to a base of about eight seconds: the
   *  next delay can be shorter, with some pair of hashes, exactly if half the next base is less than all but
   *  one nanosecond of this one.
   */
  lemma DelaysShrinkExactlyWhen(initial: nat, max: nat, attempt: nat)
    requires Base(initial, max, attempt) / 2 <= TWO_32
    ensures
      var base, next := Base(initial, max, attempt), Base(initial, max, attempt + 1);
      CanShrink(base, next) <==> next / 2 + 1 < 2 * (base / 2)
  {
    var base, next := Base(initial, max, attempt), Base(initial, max, attempt + 1);
    if CanShrink(base, next) {
      var h, g :| Shrinks(base, h, next, g);
      ShrinksWithinTheSpread(base, h, next, g);
    }
    if next / 2 + 1 < 2 * (base / 2) { FarthestApart(base, next); }
  }

  /** The largest high word whose product with a word does not wrap. */
  lemma LargestUnwrapped(word: nat) returns (high: nat)
    requires TWO_32 < word < TWO_64
    ensures high < TWO_32 && word * high < TWO_64 <= word * high + word
  {
    high := (TWO_64 - 1) / word;
    assert TWO_64 - 1 == word * high + (TWO_64 - 1) % word;
    if high >= TWO_32 { MulMonotone(TWO_32, high, word); }
  }

  lemma Complement(word: nat)
    requires word < TWO_64
    ensures (TWO_64 - word) / TWO_32 + word / TWO_32 + 1 >= TWO_32
  {
    var q, r := word / TWO_32, word % TWO_32;
    assert word == TWO_32 * q + r;
    assert TWO_64 - word == TWO_32 * (TWO_32 - q - 1) + (TWO_32 - r);
    DivMonotone(TWO_32 * (TWO_32 - q - 1), TWO_64 - word, TWO_32);
    assert TWO_32 * (TWO_32 - q - 1) / TWO_32 == TWO_32 - q - 1;
  }

  lemma UnwrappedJitter(base: nat, word: nat, high: nat)
    requires word == Least(base / 2, TWO_64 - 1) && word * high < TWO_64
    ensures Jittered(base, high * TWO_32) == base / 2 + word * high / TWO_32
  {
    assert high * TWO_32 / TWO_32 == high;
  }

  lemma LargeBasesSpread(base: nat) returns (hash: nat)
    requires base / 2 > TWO_32
    ensures hash < TWO_64
    ensures Jittered(base, hash) + Least(base / 2, TWO_64 - 1) / TWO_32 + 1 >= base / 2 + TWO_32
  {
    var word := Least(base / 2, TWO_64 - 1);
    var high := LargestUnwrapped(word);
    hash := high * TWO_32;
    UnwrappedJitter(base, word, high);
    DivMonotone(TWO_64 - word, word * high, TWO_32);
    Complement(word);
  }

  /** Above that the product wraps, and the spread is a little over four seconds: the next delay cannot be
   *  shorter if half the next base is that much more than half of this one, and can be if it is not, but for
   *  as many nanoseconds as half this base has spreads.
   */
  lemma LargeDelaysShrinkWhen(initial: nat, max: nat, attempt: nat)
    requires Base(initial, max, attempt) / 2 > TWO_32
    ensures
      var base, next := Base(initial, max, attempt), Base(initial, max, attempt + 1);
      && (CanShrink(base, next) ==> next / 2 + 1 < base / 2 + TWO_32)
      && (next / 2 + 1 + Least(base / 2, TWO_64 - 1) / TWO_32 < base / 2 + TWO_32 ==> CanShrink(base, next))
  {
    var base, next := Base(initial, max, attempt), Base(initial, max, attempt + 1);
    if CanShrink(base, next) {
      var h, g :| Shrinks(base, h, next, g);
      JitterIsBounded(next, g);
      SpreadIsBounded(base, h);
    }
    var hash := LargeBasesSpread(base);
    SmallestAndLargest(next, 0);
    if next / 2 + 1 + Least(base / 2, TWO_64 - 1) / TWO_32 < base / 2 + TWO_32 {
      assert Shrinks(base, hash, next, 0);
    }
  }

  lemma SpreadIsBounded(base: nat, hash: nat)
    requires hash < TWO_64
    ensures Jittered(base, hash) <= base / 2 + TWO_32 - 1
  {
    var word := if base / 2 < TWO_64 then base / 2 else TWO_64 - 1;
    DivMonotone((word * (hash / TWO_32)) % TWO_64, TWO_64 - 1, TWO_32);
  }

  const DEFAULT_INITIAL: nat := 1_000_000_000

  const DEFAULT_MAX: nat := 30_000_000_000

  /** With the defaults, one second and thirty, no delay is shorter than the one before it until the ceiling
   *  has been met; from then on it can be.
   */
  lemma DefaultDelaysGrow(attempt: nat)
    ensures
      CanShrink(Base(DEFAULT_INITIAL, DEFAULT_MAX, attempt), Base(DEFAULT_INITIAL, DEFAULT_MAX, attempt + 1))
      <==> attempt >= 5
  {
    var i, m := DEFAULT_INITIAL, DEFAULT_MAX;
    if attempt < 5 {
      assert Pow2(0) == 1 && Pow2(1) == 2 && Pow2(2) == 4 && Pow2(3) == 8 && Pow2(4) == 16 && Pow2(5) == 32;
      if attempt < 4 { DelaysShrinkExactlyWhen(i, m, attempt); } else { LargeDelaysShrinkWhen(i, m, attempt); }
    } else {
      FromTheFifthOn(attempt);
      CappedDelaysShrinkExactlyWhen(i, m, attempt);
    }
  }

  lemma {:induction false} FromTheFifthOn(attempt: nat)
    requires attempt >= 5
    ensures Base(DEFAULT_INITIAL, DEFAULT_MAX, attempt) == DEFAULT_MAX
  {
    if attempt == 5 {
      assert Pow2(0) == 1 && Pow2(1) == 2 && Pow2(2) == 4 && Pow2(3) == 8 && Pow2(4) == 16 && Pow2(5) == 32;
    } else {
      FromTheFifthOn(attempt - 1);
      BaseStaysPut(DEFAULT_INITIAL, DEFAULT_MAX, attempt - 1);
    }
  }

  /** A delay is zero exactly when its base is under two nanoseconds: it never spins on a server that is down. */
  lemma DelayIsZeroExactlyWhen(base: nat, hash: nat)
    requires hash < TWO_64
    ensures Jittered(base, hash) == 0 <==> base < 2
  {
    JitterIsBounded(base, hash);
  }
}
