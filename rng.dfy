/**
 * The piece randomiser of tetrio-replay: the Park–Miller "minimal standard" Lehmer generator
 * (multiplier 16807, modulus 2^31 - 1; Park and Miller, Communications of the ACM 31(10), 1988)
 * driving a Durstenfeld (Fisher–Yates) shuffle in place.
 *
 * `next_float` is modelled as the exact rational (next - 1) / (2^31 - 2); the swap partner
 * floor(next_float * (i + 1)) is then the integer quotient ((next - 1) * (i + 1)) div (2^31 - 2)
 * (lemma SwapIndexIsFloor), which is what the shuffle uses.
 *
 * The shuffle is specified in two layers: `Partners` is the list of swap partners that the
 * generator draws for the visited indices, and `ApplySwaps` performs a list of swaps on a
 * sequence. The permutation facts are about `ApplySwaps` alone, the draw count about `Partners`.
 */
module TetrioRng {

  const MODULUS: nat := 2147483647
  const MULTIPLIER: nat := 16807
  const U64_LIMIT: nat := 0x1_0000_0000_0000_0000

  /** One generator step, `16807 * state % 2147483647`. */
  function Step(state: nat): (r: nat)
    ensures r < MODULUS
  {
    MULTIPLIER * state % MODULUS
  }

  /** The product computed by `next` fits in a `u64`. */
  lemma StepNoOverflow(state: nat)
    requires state < MODULUS
    ensures MULTIPLIER * state < U64_LIMIT
  {
  }

  /** A nonzero state stays nonzero: 16807 is invertible modulo the prime 2^31 - 1. */
  lemma StepNonZero(state: nat)
    requires 0 < state < MODULUS
    ensures Step(state) != 0
  {
  }

  /** The state after n draws. */
  function Iterate(state: nat, n: nat): (r: nat)
    decreases n
  {
    if n == 0 then state else Iterate(Step(state), n - 1)
  }

  /** Drawing n times and then once more is drawing n + 1 times. */
  lemma {:induction false} IterateStep(state: nat, n: nat)
    ensures Iterate(state, n + 1) == Step(Iterate(state, n))
    decreases n
  {
    if n > 0 {
      IterateStep(Step(state), n - 1);
    }
  }

  /** A nonzero state is never drawn to zero, however many draws are made. */
  lemma {:induction false} IterateNonZero(state: nat, n: nat)
    requires 0 < state < MODULUS
    ensures 0 < Iterate(state, n) < MODULUS
    decreases n
  {
    if n > 0 {
      StepNonZero(state);
      IterateNonZero(Step(state), n - 1);
    }
  }

  /**
   * A zero state is a fixed point: a seed divisible by 2^31 - 1 makes every draw zero, and
   * `next() - 1` then underflows in `next_float`.
   */
  lemma {:induction false} IterateZero(n: nat)
    ensures Iterate(0, n) == 0
    decreases n
  {
    if n > 0 {
      assert Step(0) == 0;
      IterateZero(n - 1);
    }
  }

  /** `next_float`: the draw minus one, over 2^31 - 2. For a nonzero draw it lies in [0, 1). */
  function Fraction(draw: nat): (r: real)
    requires 1 <= draw < MODULUS
    ensures 0.0 <= r < 1.0
  {
    (draw - 1) as real / (MODULUS - 1) as real
  }

  /** The swap partner that a draw gives index i: at most i, since the fraction is below 1. */
  function SwapIndex(draw: nat, i: nat): (j: nat)
    requires 1 <= draw < MODULUS
    ensures j <= i
  {
    SwapIndexBound(draw, i);
    (draw - 1) * (i + 1) / (MODULUS - 1)
  }

  lemma SwapIndexBound(draw: nat, i: nat)
    requires 1 <= draw < MODULUS
    ensures (draw - 1) * (i + 1) / (MODULUS - 1) <= i
  {
    var d := MODULUS - 1;
    var p := (draw - 1) * (i + 1);
    MulLess(draw - 1, d, i + 1);
    DivBelow(p, d, i + 1);
  }

  lemma MulLess(a: nat, b: nat, c: nat)
    requires a < b && c > 0
    ensures a * c < b * c
  {
  }

  lemma DivBelow(p: nat, d: nat, n: nat)
    requires d > 0 && p < d * n
    ensures p / d < n
  {
  }

  lemma FloorOfQuotient(p: nat, d: nat)
    requires d > 0
    ensures (p as real / d as real).Floor == p / d
  {
    var q := p / d;
    var m := p % d;
    assert p == q * d + m;
    assert p as real == q as real * d as real + m as real;
    assert p as real / d as real == q as real + m as real / d as real;
  }

  /** The integer swap index is exactly `(next_float() * (i + 1) as f64).floor()` over the reals. */
  lemma SwapIndexIsFloor(draw: nat, i: nat)
    requires 1 <= draw < MODULUS
    ensures SwapIndex(draw, i) == (Fraction(draw) * (i + 1) as real).Floor
  {
    var p := (draw - 1) * (i + 1);
    assert Fraction(draw) * (i + 1) as real == p as real / (MODULUS - 1) as real;
    FloorOfQuotient(p, MODULUS - 1);
  }

  /** `slice.swap(i, j)` on a value. */
  function Swap<T>(s: seq<T>, i: nat, j: nat): (r: seq<T>)
    requires i < |s| && j < |s|
    ensures |r| == |s|
  {
    s[i := s[j]][j := s[i]]
  }

  /** What a swap does: the two entries trade places and every other entry stays. */
  lemma SwapExchanges<T>(s: seq<T>, i: nat, j: nat)
    requires i < |s| && j < |s|
    ensures Swap(s, i, j)[i] == s[j] && Swap(s, i, j)[j] == s[i]
    ensures forall k :: 0 <= k < |s| && k != i && k != j ==> Swap(s, i, j)[k] == s[k]
  {
  }

  /** A swap keeps the elements with their multiplicities. */
  lemma SwapPermutes<T>(s: seq<T>, i: nat, j: nat)
    requires i < |s| && j < |s|
    ensures multiset(Swap(s, i, j)) == multiset(s)
  {
  }

  /**
   * The swap partners drawn for indices hi - 1 down to lo, one draw each, starting from
   * `state`. The k-th partner belongs to index hi - 1 - k and never exceeds it.
   */
  function Partners(state: nat, hi: nat, lo: nat): (r: seq<nat>)
    requires lo <= hi && state < MODULUS && (hi == lo || state != 0)
    ensures |r| == hi - lo
    ensures forall k :: 0 <= k < |r| ==> r[k] <= hi - 1 - k
    decreases hi - lo
  {
    if hi == lo then []
    else
      StepNonZero(state);
      var draw := Step(state);
      [SwapIndex(draw, hi - 1)] + Partners(draw, hi - 1, lo)
  }

  /** Partner k may be swapped with index hi - 1 - k: it is in range below that index. */
  ghost predicate PartnersFit(js: seq<nat>, hi: nat)
  {
    |js| <= hi && forall k :: 0 <= k < |js| ==> js[k] <= hi - 1 - k
  }

  /** Swap index hi - 1 with js[0], then hi - 2 with js[1], and so on. */
  function ApplySwaps<T>(s: seq<T>, hi: nat, js: seq<nat>): (r: seq<T>)
    requires hi <= |s| && PartnersFit(js, hi)
    ensures |r| == |s|
    decreases js
  {
    if js == [] then s
    else ApplySwaps(Swap(s, hi - 1, js[0]), hi - 1, js[1..])
  }

  lemma PartnersFitTail(js: seq<nat>, hi: nat)
    requires PartnersFit(js, hi) && js != []
    ensures 0 < hi && js[0] < hi && PartnersFit(js[1..], hi - 1)
  {
    assert forall k :: 0 <= k < |js| - 1 ==> js[1..][k] == js[k + 1];
  }

  /** One unfolding of `ApplySwaps`. */
  lemma ApplySwapsCons<T>(s: seq<T>, hi: nat, j: nat, rest: seq<nat>)
    requires hi <= |s| && PartnersFit([j] + rest, hi)
    ensures 0 < hi && j < hi && PartnersFit(rest, hi - 1)
    ensures ApplySwaps(s, hi, [j] + rest) == ApplySwaps(Swap(s, hi - 1, j), hi - 1, rest)
  {
    PartnersFitTail([j] + rest, hi);
    assert ([j] + rest)[1..] == rest;
  }

  /** One unfolding of `Partners`: a draw, its partner for index hi - 1, then the rest. */
  lemma PartnersCons(state: nat, hi: nat, lo: nat)
    requires lo < hi && 0 < state < MODULUS
    ensures Step(state) != 0
    ensures Partners(state, hi, lo)
      == [SwapIndex(Step(state), hi - 1)] + Partners(Step(state), hi - 1, lo)
  {
    StepNonZero(state);
  }

  /** One turn of the shuffle loop, on values: draw, swap index i - 1, continue below. */
  lemma ShuffleTurn<T>(s: seq<T>, state: nat, i: nat, lo: nat, next: nat, j: nat)
    requires lo < i <= |s| && 0 < state < MODULUS
    requires next == Step(state) && 0 < next && j == SwapIndex(next, i - 1)
    ensures j < i
    ensures ApplySwaps(s, i, Partners(state, i, lo)) == ApplySwaps(Swap(s, i - 1, j), i - 1, Partners(next, i - 1, lo))
  {
    PartnersCons(state, i, lo);
    ApplySwapsCons(s, i, j, Partners(next, i - 1, lo));
  }

  /** Swapping only permutes: the same elements with the same multiplicities. */
  lemma {:induction false} ApplySwapsPermutes<T>(s: seq<T>, hi: nat, js: seq<nat>)
    requires hi <= |s| && PartnersFit(js, hi)
    ensures multiset(ApplySwaps(s, hi, js)) == multiset(s)
    decreases js
  {
    if js != [] {
      SwapPermutes(s, hi - 1, js[0]);
      ApplySwapsPermutes(Swap(s, hi - 1, js[0]), hi - 1, js[1..]);
    }
  }

  /** Indices at or above hi are never touched. */
  lemma {:induction false} ApplySwapsKeepsAbove<T>(s: seq<T>, hi: nat, js: seq<nat>, k: nat)
    requires hi <= k < |s| && PartnersFit(js, hi)
    ensures ApplySwaps(s, hi, js)[k] == s[k]
    decreases js
  {
    if js != [] {
      SwapExchanges(s, hi - 1, js[0]);
      ApplySwapsKeepsAbove(Swap(s, hi - 1, js[0]), hi - 1, js[1..], k);
    }
  }

  /**
   * Visiting index 0 as well changes nothing in the sequence: the draw for index 0 can only
   * give partner 0, and swapping 0 with itself is the identity.
   */
  lemma {:induction false} DrawAtZeroIsIdle<T>(s: seq<T>, state: nat, hi: nat)
    requires 0 < hi <= |s| && 0 < state < MODULUS
    ensures ApplySwaps(s, hi, Partners(state, hi, 0)) == ApplySwaps(s, hi, Partners(state, hi, 1))
    decreases hi
  {
    PartnersCons(state, hi, 0);
    var draw := Step(state);
    var j := SwapIndex(draw, hi - 1);
    ApplySwapsCons(s, hi, j, Partners(draw, hi - 1, 0));
    if hi == 1 {
      assert Swap(s, 0, 0) == s;
    } else {
      PartnersCons(state, hi, 1);
      ApplySwapsCons(s, hi, j, Partners(draw, hi - 1, 1));
      DrawAtZeroIsIdle(Swap(s, hi - 1, j), draw, hi - 1);
    }
  }

  /**
   * `shuffle_slice` as written: `(0..len).rev()` visits every index down to and including 0,
   * drawing once for each.
   */
  function Shuffled<T>(s: seq<T>, state: nat): (r: seq<T>)
    requires state < MODULUS && (|s| == 0 || state != 0)
  {
    ApplySwaps(s, |s|, Partners(state, |s|, 0))
  }

  /** The shuffle the crate's `based` test expects: indices len - 1 down to 1 only. */
  function ShuffledIntended<T>(s: seq<T>, state: nat): (r: seq<T>)
    requires state < MODULUS && (|s| <= 1 || state != 0)
  {
    ApplySwaps(s, |s|, Partners(state, |s|, if |s| == 0 then 0 else 1))
  }

  /** Draws made by each shuffle: len as written, len - 1 (none for an empty slice) intended. */
  function DrawsAsWritten(n: nat): nat { n }
  function DrawsIntended(n: nat): nat { if n == 0 then 0 else n - 1 }

  /** Both shuffles are permutations of their input. */
  lemma ShufflesPermute<T>(s: seq<T>, state: nat)
    requires state < MODULUS && (|s| <= 1 || state != 0)
    ensures multiset(ShuffledIntended(s, state)) == multiset(s)
    ensures |s| == 0 || state != 0 ==> multiset(Shuffled(s, state)) == multiset(s)
  {
    ApplySwapsPermutes(s, |s|, Partners(state, |s|, if |s| == 0 then 0 else 1));
    if |s| == 0 || state != 0 {
      ApplySwapsPermutes(s, |s|, Partners(state, |s|, 0));
    }
  }

  /**
   * The as-written shuffle permutes exactly like the intended one; its extra draw at index 0
   * only swaps that element with itself, but it advances the generator once more.
   */
  lemma AsWrittenIsIntendedPlusOneDraw<T>(s: seq<T>, state: nat)
    requires 0 < state < MODULUS && |s| > 0
    ensures Shuffled(s, state) == ShuffledIntended(s, state)
    ensures Iterate(state, DrawsAsWritten(|s|)) == Step(Iterate(state, DrawsIntended(|s|)))
  {
    DrawAtZeroIsIdle(s, state, |s|);
    IterateStep(state, |s| - 1);
  }

  const BASE: seq<char> := ['z', 'l', 'o', 's', 'i', 'j', 't']
  const FIXTURE_SEED: nat := 1742887628

  /** `next` is drawn from `prev` and gives index i the partner j. */
  ghost predicate Drawn(prev: nat, next: nat, i: nat, j: nat)
  {
    next == Step(prev) && 0 < next < MODULUS && j == SwapIndex(next, i)
  }

  /** The draws of the fixture: seven from the seed, seven more as written, six intended. */
  lemma FixtureStates()
    ensures Step(1742887628) == 1035418716 && Step(1035418716) == 1222368171
    ensures Step(1222368171) == 1513282795 && Step(1513282795) == 1095104144
    ensures Step(1095104144) == 1480493418 && Step(1480493418) == 1907342184
    ensures Step(1907342184) == 1211687719 && Step(1211687719) == 248068732
    ensures Step(248068732) == 1025419897 && Step(1025419897) == 675941704
    ensures Step(675941704) == 363726498 && Step(363726498) == 1412792524
    ensures Step(1412792524) == 77265989 && Step(77265989) == 1529354335
  {
  }

  /** The seven draws from the fixture seed and the partners they give. */
  lemma FixtureFirstDraws()
    ensures Drawn(1742887628, 1035418716, 6, 3)
    ensures Drawn(1035418716, 1222368171, 5, 3)
    ensures Drawn(1222368171, 1513282795, 4, 3)
    ensures Drawn(1513282795, 1095104144, 3, 2)
    ensures Drawn(1095104144, 1480493418, 2, 2)
    ensures Drawn(1480493418, 1907342184, 1, 1)
    ensures Drawn(1907342184, 1211687719, 0, 0)
  {
    FixtureStates();
  }

  /** The draws of the second shuffle as written, continuing after seven draws. */
  lemma FixtureSecondDrawsAsWritten()
    ensures Drawn(1211687719, 248068732, 6, 0)
    ensures Drawn(248068732, 1025419897, 5, 2)
    ensures Drawn(1025419897, 675941704, 4, 1)
    ensures Drawn(675941704, 363726498, 3, 0)
    ensures Drawn(363726498, 1412792524, 2, 1)
    ensures Drawn(1412792524, 77265989, 1, 0)
    ensures Drawn(77265989, 1529354335, 0, 0)
  {
    FixtureStates();
  }

  /** The draws of the second intended shuffle, continuing after six draws. */
  lemma FixtureSecondDrawsIntended()
    ensures Drawn(1907342184, 1211687719, 6, 3)
    ensures Drawn(1211687719, 248068732, 5, 0)
    ensures Drawn(248068732, 1025419897, 4, 2)
    ensures Drawn(1025419897, 675941704, 3, 1)
    ensures Drawn(675941704, 363726498, 2, 0)
    ensures Drawn(363726498, 1412792524, 1, 1)
  {
    FixtureStates();
  }

  /** Partners of the first shuffle as written. */
  lemma FirstPartnersAsWritten()
    ensures Partners(1742887628, 7, 0) == [3, 3, 3, 2, 2, 1, 0]
    ensures Iterate(1742887628, 7) == 1211687719
  {
    FixtureFirstDraws();
    PartnersCons(1742887628, 7, 0);
    PartnersCons(1035418716, 6, 0);
    PartnersCons(1222368171, 5, 0);
    PartnersCons(1513282795, 4, 0);
    PartnersCons(1095104144, 3, 0);
    PartnersCons(1480493418, 2, 0);
    PartnersCons(1907342184, 1, 0);
    assert Iterate(1742887628, 7) == Iterate(1035418716, 6);
    assert Iterate(1035418716, 6) == Iterate(1222368171, 5);
    assert Iterate(1222368171, 5) == Iterate(1513282795, 4);
    assert Iterate(1513282795, 4) == Iterate(1095104144, 3);
    assert Iterate(1095104144, 3) == Iterate(1480493418, 2);
    assert Iterate(1480493418, 2) == Iterate(1907342184, 1);
    assert Iterate(1907342184, 1) == Iterate(1211687719, 0);
  }

  /** Partners of the first intended shuffle: the same, without the draw for index 0. */
  lemma FirstPartnersIntended()
    ensures Partners(1742887628, 7, 1) == [3, 3, 3, 2, 2, 1]
    ensures Iterate(1742887628, 6) == 1907342184
  {
    FixtureFirstDraws();
    PartnersCons(1742887628, 7, 1);
    PartnersCons(1035418716, 6, 1);
    PartnersCons(1222368171, 5, 1);
    PartnersCons(1513282795, 4, 1);
    PartnersCons(1095104144, 3, 1);
    PartnersCons(1480493418, 2, 1);
    assert Iterate(1742887628, 6) == Iterate(1035418716, 5);
    assert Iterate(1035418716, 5) == Iterate(1222368171, 4);
    assert Iterate(1222368171, 4) == Iterate(1513282795, 3);
    assert Iterate(1513282795, 3) == Iterate(1095104144, 2);
    assert Iterate(1095104144, 2) == Iterate(1480493418, 1);
    assert Iterate(1480493418, 1) == Iterate(1907342184, 0);
  }

  /** Partners of the second shuffle as written. */
  lemma SecondPartnersAsWritten()
    ensures Partners(1211687719, 7, 0) == [0, 2, 1, 0, 1, 0, 0]
    ensures Iterate(1211687719, 7) == 1529354335
  {
    FixtureSecondDrawsAsWritten();
    PartnersCons(1211687719, 7, 0);
    PartnersCons(248068732, 6, 0);
    PartnersCons(1025419897, 5, 0);
    PartnersCons(675941704, 4, 0);
    PartnersCons(363726498, 3, 0);
    PartnersCons(1412792524, 2, 0);
    PartnersCons(77265989, 1, 0);
    assert Iterate(1211687719, 7) == Iterate(248068732, 6);
    assert Iterate(248068732, 6) == Iterate(1025419897, 5);
    assert Iterate(1025419897, 5) == Iterate(675941704, 4);
    assert Iterate(675941704, 4) == Iterate(363726498, 3);
    assert Iterate(363726498, 3) == Iterate(1412792524, 2);
    assert Iterate(1412792524, 2) == Iterate(77265989, 1);
    assert Iterate(77265989, 1) == Iterate(1529354335, 0);
  }

  /** Partners of the second intended shuffle. */
  lemma SecondPartnersIntended()
    ensures Partners(1907342184, 7, 1) == [3, 0, 2, 1, 0, 1]
    ensures Iterate(1907342184, 6) == 1412792524
  {
    FixtureSecondDrawsIntended();
    PartnersCons(1907342184, 7, 1);
    PartnersCons(1211687719, 6, 1);
    PartnersCons(248068732, 5, 1);
    PartnersCons(1025419897, 4, 1);
    PartnersCons(675941704, 3, 1);
    PartnersCons(363726498, 2, 1);
    assert Iterate(1907342184, 6) == Iterate(1211687719, 5);
    assert Iterate(1211687719, 5) == Iterate(248068732, 4);
    assert Iterate(248068732, 4) == Iterate(1025419897, 3);
    assert Iterate(1025419897, 3) == Iterate(675941704, 2);
    assert Iterate(675941704, 2) == Iterate(363726498, 1);
    assert Iterate(363726498, 1) == Iterate(1412792524, 0);
  }

  /** The first shuffle as written, swap by swap. */
  lemma FirstShuffleAsWritten()
    ensures ApplySwaps(BASE, 7, [3, 3, 3, 2, 2, 1, 0]) == ['z', 'l', 'i', 'o', 'j', 't', 's']
  {
  }

  /** The first intended shuffle, swap by swap. */
  lemma FirstShuffleIntended()
    ensures ApplySwaps(BASE, 7, [3, 3, 3, 2, 2, 1]) == ['z', 'l', 'i', 'o', 'j', 't', 's']
  {
  }

  /** The second shuffle as written, swap by swap. */
  lemma SecondShuffleAsWritten()
    ensures ApplySwaps(BASE, 7, [0, 2, 1, 0, 1, 0, 0]) == ['j', 's', 'i', 't', 'l', 'o', 'z']
  {
  }

  /** The second intended shuffle, swap by swap. */
  lemma SecondShuffleIntended()
    ensures ApplySwaps(BASE, 7, [3, 0, 2, 1, 0, 1]) == ['i', 't', 'j', 'l', 'o', 'z', 's']
  {
  }
  /**
   * The test `based` run against the code as written: the first shuffle matches, the second
   * one does not, because the first call made seven draws instead of six.
   */
  lemma BasedAsWritten()
    ensures FIXTURE_SEED % MODULUS != 0
    ensures Shuffled(BASE, FIXTURE_SEED % MODULUS) == ['z', 'l', 'i', 'o', 'j', 't', 's']
    ensures Iterate(FIXTURE_SEED % MODULUS, DrawsAsWritten(|BASE|)) == 1211687719
    ensures Shuffled(BASE, 1211687719) == ['j', 's', 'i', 't', 'l', 'o', 'z']
    ensures Shuffled(BASE, 1211687719) != ['i', 't', 'j', 'l', 'o', 'z', 's']
  {
    FirstPartnersAsWritten();
    SecondPartnersAsWritten();
    FirstShuffleAsWritten();
    SecondShuffleAsWritten();
  }

  /** The test `based` holds of the intended shuffle, the generator continuing between calls. */
  lemma Based()
    ensures FIXTURE_SEED % MODULUS != 0
    ensures ShuffledIntended(BASE, FIXTURE_SEED % MODULUS) == ['z', 'l', 'i', 'o', 'j', 't', 's']
    ensures Iterate(FIXTURE_SEED % MODULUS, DrawsIntended(|BASE|)) == 1907342184
    ensures ShuffledIntended(BASE, 1907342184) == ['i', 't', 'j', 'l', 'o', 'z', 's']
  {
    FirstPartnersIntended();
    SecondPartnersIntended();
    FirstShuffleIntended();
    SecondShuffleIntended();
  }

  /** The generator; `state` is overwritten by every draw. */
  class Rng {
    var state: nat

    ghost predicate Valid()
      reads this
    {
      state < MODULUS
    }

    /** `Rng::seeded`; the seed is a `u64`. */
    constructor Seeded(seed: nat)
      requires seed < U64_LIMIT
      ensures Valid() && state == seed % MODULUS
    {
      state := seed % MODULUS;
    }

    /** `next`: one step, returning the new state. */
    method Next() returns (r: nat)
      requires Valid()
      modifies this
      ensures Valid() && state == Step(old(state)) && r == state
      ensures MULTIPLIER * old(state) < U64_LIMIT
      ensures old(state) != 0 ==> r != 0
    {
      StepNoOverflow(state);
      if state != 0 {
        StepNonZero(state);
      }
      state := MULTIPLIER * state % MODULUS;
      r := state;
    }

    /**
     * `next_float`. `next() - 1` is computed in `u64`, so a zero draw (a zero state) would
     * underflow; the precondition excludes it.
     */
    method NextFloat() returns (f: real)
      requires Valid() && state != 0
      modifies this
      ensures Valid() && state == Step(old(state)) && state != 0
      ensures f == Fraction(state) && 0.0 <= f < 1.0
    {
      var draw := Next();
      f := (draw - 1) as real / (MODULUS - 1) as real;
    }

    /** The swap partner `(self.next_float() * (i + 1) as f64).floor() as usize`. */
    method NextIndex(i: nat) returns (j: nat)
      requires Valid() && state != 0
      modifies this
      ensures Valid() && state == Step(old(state)) && state != 0
      ensures j == SwapIndex(state, i) && j <= i
    {
      var f := NextFloat();
      SwapIndexIsFloor(state, i);
      j := (f * (i + 1) as real).Floor;
    }

    /** One turn of the loop of `shuffle_slice`: draw the partner of index i and swap the two. */
    method SwapWithDrawn<T>(a: array<T>, i: nat)
      requires Valid() && state != 0 && i < a.Length
      modifies this, a
      ensures Valid() && state == Step(old(state)) && state != 0
      ensures a[..] == Swap(old(a[..]), i, SwapIndex(state, i))
    {
      var j := NextIndex(i);
      var t := a[i];
      a[i] := a[j];
      a[j] := t;
      assert a[..] == Swap(old(a[..]), i, j);
    }

    /** The loop of `shuffle_slice`, for indices a.Length - 1 down to lo. */
    method ShuffleDownTo<T>(a: array<T>, lo: nat)
      requires Valid() && lo <= a.Length && (a.Length == lo || state != 0)
      modifies this, a
      ensures Valid()
      ensures a[..] == ApplySwaps(old(a[..]), a.Length, Partners(old(state), a.Length, lo))
      ensures state == Iterate(old(state), a.Length - lo)
    {
      // The loop only needs the lemmas about the arithmetic, not its definitions.
      hide Step, SwapIndex;
      ghost var goal := ApplySwaps(a[..], a.Length, Partners(state, a.Length, lo));
      ghost var start := state;
      var i := a.Length;
      while i > lo
        invariant lo <= i <= a.Length && Valid()
        invariant i == lo || state != 0
        invariant state == Iterate(start, a.Length - i)
        invariant ApplySwaps(a[..], i, Partners(state, i, lo)) == goal
      {
        ghost var before := a[..];
        ghost var drawnFrom := state;
        IterateStep(start, a.Length - i);
        SwapWithDrawn(a, i - 1);
        ShuffleTurn(before, drawnFrom, i, lo, state, SwapIndex(state, i - 1));
        i := i - 1;
      }
    }

    /** `shuffle_slice` as written: one draw per index, i = len - 1 down to 0. */
    method ShuffleSlice<T>(a: array<T>)
      requires Valid() && (a.Length == 0 || state != 0)
      modifies this, a
      ensures Valid()
      ensures a[..] == Shuffled(old(a[..]), old(state))
      ensures state == Iterate(old(state), DrawsAsWritten(a.Length))
      ensures multiset(a[..]) == multiset(old(a[..]))
    {
      ShuffleDownTo(a, 0);
      ApplySwapsPermutes(old(a[..]), a.Length, Partners(old(state), a.Length, 0));
    }

    /** The loop the crate's `based` test expects: i = len - 1 down to 1. */
    method ShuffleSliceIntended<T>(a: array<T>)
      requires Valid() && (a.Length <= 1 || state != 0)
      modifies this, a
      ensures Valid()
      ensures a[..] == ShuffledIntended(old(a[..]), old(state))
      ensures state == Iterate(old(state), DrawsIntended(a.Length))
      ensures multiset(a[..]) == multiset(old(a[..]))
    {
      var lo := if a.Length == 0 then 0 else 1;
      ShuffleDownTo(a, lo);
      ApplySwapsPermutes(old(a[..]), a.Length, Partners(old(state), a.Length, lo));
    }

    /** `shuffle_array`: the array is taken by value, shuffled and returned. */
    method ShuffleArray<T>(arr: seq<T>) returns (r: seq<T>)
      requires Valid() && (|arr| == 0 || state != 0)
      modifies this
      ensures Valid()
      ensures r == Shuffled(arr, old(state))
      ensures state == Iterate(old(state), DrawsAsWritten(|arr|))
      ensures multiset(r) == multiset(arr)
    {
      var a := new T[|arr|](k requires 0 <= k < |arr| => arr[k]);
      assert a[..] == arr;
      ShuffleSlice(a);
      r := a[..];
    }

    /** `shuffle_array` over the intended shuffle. */
    method ShuffleArrayIntended<T>(arr: seq<T>) returns (r: seq<T>)
      requires Valid() && (|arr| <= 1 || state != 0)
      modifies this
      ensures Valid()
      ensures r == ShuffledIntended(arr, old(state))
      ensures state == Iterate(old(state), DrawsIntended(|arr|))
      ensures multiset(r) == multiset(arr)
    {
      var a := new T[|arr|](k requires 0 <= k < |arr| => arr[k]);
      assert a[..] == arr;
      ShuffleSliceIntended(a);
      r := a[..];
    }
  }

  /** The test `based` on the generator object, with the intended shuffle. */
  method BasedOnObjects() returns (first: seq<char>, second: seq<char>)
    ensures first == ['z', 'l', 'i', 'o', 'j', 't', 's']
    ensures second == ['i', 't', 'j', 'l', 'o', 'z', 's']
  {
    var rng := new Rng.Seeded(FIXTURE_SEED);
    Based();
    first := rng.ShuffleArrayIntended(BASE);
    second := rng.ShuffleArrayIntended(BASE);
  }
}
