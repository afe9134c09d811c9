// The high half of a 64 x 64 bit product from four 32-bit products, and the ranges drawn with it.

module Random {
  const W32: int := 0x1_0000_0000
  const W64: int := 0x1_0000_0000_0000_0000

  type U32 = x: int | 0 <= x < 0x1_0000_0000
  type U64 = x: int | 0 <= x < 0x1_0000_0000_0000_0000

  // ---------------------------------------------------------------------------------
  // mulhi64_soft
  // ---------------------------------------------------------------------------------

  /** The product of two 32-bit halves fits 64 bits with room for two 32-bit carries. */
  lemma HalvesFit(a: int, b: int)
    requires 0 <= a < W32 && 0 <= b < W32
    ensures 0 <= a * b <= W64 - 2 * W32 + 1
  {
    MulBound(a, b, W32 - 1);
  }

  lemma MulBound(a: int, b: int, m: int)
    requires 0 <= a <= m && 0 <= b
    ensures 0 <= a * b <= m * b
  {
    assert 0 <= a * b;
    assert 0 <= (m - a) * b;
  }

  /** Long multiplication on halves. */
  lemma ProductOfHalves(a: int, b: int, ah: int, al: int, bh: int, bl: int)
    requires a == ah * W32 + al && b == bh * W32 + bl
    ensures a * b == ah * bh * W64 + (ah * bl + al * bh) * W32 + al * bl
  {
    calc {
      a * b;
      (ah * W32 + al) * (bh * W32 + bl);
      (ah * W32) * (bh * W32) + (ah * W32) * bl + al * (bh * W32) + al * bl;
      { assert (ah * W32) * (bh * W32) == ah * bh * (W32 * W32); }
      ah * bh * W64 + (ah * W32) * bl + al * (bh * W32) + al * bl;
      { assert (ah * W32) * bl == ah * bl * W32; assert al * (bh * W32) == al * bh * W32; }
      ah * bh * W64 + ah * bl * W32 + al * bh * W32 + al * bl;
    }
  }

  /** The carries out of the low half: the high word is what the four partial products and the carry add up to. */
  lemma HighWord(hi: int, mid1: int, mid2: int, lo: int, product: int)
    requires 0 <= mid1 && 0 <= mid2 && 0 <= lo
    requires product == hi * W64 + (mid1 + mid2) * W32 + lo
    ensures var carry := (mid1 % W32 + mid2 % W32 + lo / W32) / W32;
      product / W64 == hi + mid1 / W32 + mid2 / W32 + carry
  {
    var m1, m2 := mid1 / W32, mid2 / W32;
    var t := mid1 % W32 + mid2 % W32 + lo / W32;
    var carry := t / W32;
    assert product == (hi + m1 + m2 + carry) * W64 + (t % W32) * W32 + lo % W32;
    assert 0 <= (t % W32) * W32 + lo % W32 < W64;
  }

  /** mulhi64_soft: every intermediate value fits 64 bits, and the result is the exact high word of the product. */
  function MulHi64Soft(a: U64, b: U64): (r: U64)
    ensures r == a * b / W64
  {
    var aLo: U64 := a % W32;
    var aHi: U64 := a / W32;
    var bLo: U64 := b % W32;
    var bHi: U64 := b / W32;
    HalvesFit(aHi, bHi);
    HalvesFit(aHi, bLo);
    HalvesFit(aLo, bHi);
    HalvesFit(aLo, bLo);
    var hi: U64 := aHi * bHi;
    var mid1: U64 := aHi * bLo;
    var mid2: U64 := aLo * bHi;
    var lo: U64 := aLo * bLo;
    var carried: U64 := mid1 % W32 + mid2 % W32 + lo / W32;
    var carry: U64 := carried / W32;
    ProductOfHalves(a, b, aHi, aLo, bHi, bLo);
    HighWord(hi, mid1, mid2, lo, a * b);
    hi + mid1 / W32 + mid2 / W32 + carry
  }

  // ---------------------------------------------------------------------------------
  // Mapping [0, 2^64) to [0, n)
  // ---------------------------------------------------------------------------------

  lemma BelowBound(x: U64, n: U64)
    requires n > 0
    ensures MulHi64Soft(x, n) < n
  {
    assert x * n < W64 * n;
  }

  function CeilDiv(a: int, n: int): int
    requires n > 0
  {
    (a + n - 1) / n
  }

  lemma MulMono(x: int, y: int, n: int)
    requires n > 0 && x <= y
    ensures x * n <= y * n
  {
    assert (y - x) * n >= 0;
  }

  lemma CeilDivMeans(a: int, n: int, x: int)
    requires n > 0
    ensures CeilDiv(a, n) <= x <==> a <= x * n
  {
    var q := CeilDiv(a, n);
    CeilDivBounds(a, n);
    hide CeilDiv;
    if q <= x {
      MulMono(q, x, n);
    } else {
      MulMono(x + 1, q, n);
      assert (x + 1) * n == x * n + n;
    }
  }

  lemma CeilDivBounds(a: int, n: int)
    requires n > 0
    ensures a <= CeilDiv(a, n) * n <= a + n - 1
  {
  }

  lemma QuotientIs(p: int, k: int)
    ensures p / W64 == k <==> k * W64 <= p < (k + 1) * W64
  {
  }

  /** The inputs mapped to bucket k are an interval. */
  lemma BucketIsInterval(n: U64, k: U64, x: U64)
    requires k < n
    ensures MulHi64Soft(x, n) == k <==> CeilDiv(k * W64, n) <= x < CeilDiv((k + 1) * W64, n)
  {
    QuotientIs(x * n, k);
    CeilDivMeans(k * W64, n, x);
    CeilDivMeans((k + 1) * W64, n, x);
  }

  /** The inputs that are mapped to bucket k. */
  ghost function Bucket(n: U64, k: U64): set<int> {
    set x: int | 0 <= x < 0x1_0000_0000_0000_0000 && MulHi64Soft(x, n) == k
  }

  /** The integers from lo up to hi. */
  ghost function Interval(lo: int, hi: int): (r: set<int>)
    ensures forall x :: x in r <==> lo <= x < hi
    ensures lo <= hi ==> |r| == hi - lo
    decreases hi - lo
  {
    if lo >= hi then {} else Interval(lo, hi - 1) + {hi - 1}
  }

  lemma MulLess(x: int, y: int, n: int)
    requires n > 0
    ensures x * n < y * n ==> x < y
  {
    if y <= x {
      assert (x - y) * n >= 0;
    }
  }

  /** Adding W64 to the numerator adds the quotient W64 / n, rounded one way or the other. */
  lemma CeilDivStep(a: int, n: int)
    requires n > 0
    ensures W64 / n <= CeilDiv(a + W64, n) - CeilDiv(a, n) <= W64 / n + 1
  {
    var c, d := CeilDiv(a, n), CeilDiv(a + W64, n);
    hide CeilDiv;
    CeilDivMeans(a, n, c);
    CeilDivMeans(a, n, c - 1);
    CeilDivMeans(a + W64, n, d);
    CeilDivMeans(a + W64, n, d - 1);
    QuotientGap(a, n, W64 / n, W64 % n, c, d);
  }

  lemma QuotientGap(a: int, n: int, q: int, r: int, c: int, d: int)
    requires n > 0 && 0 <= r < n
    requires (c - 1) * n < a <= c * n && (d - 1) * n < a + q * n + r <= d * n
    ensures q <= d - c <= q + 1
  {
    assert (c - 1 + q) * n == (c - 1) * n + q * n;
    assert (c + q + 1) * n == c * n + q * n + n;
    MulLess(c - 1 + q, d, n);
    MulLess(d - 1, c + q + 1, n);
  }

  lemma BucketEnds(n: U64, k: U64)
    requires k < n
    ensures var lo, hi := CeilDiv(k * W64, n), CeilDiv((k + 1) * W64, n);
      0 <= lo <= hi <= W64 && W64 / n <= hi - lo <= W64 / n + 1
  {
    CeilDivMeans(k * W64, n, -1);
    CeilDivMeans((k + 1) * W64, n, W64);
    assert (k + 1) * W64 == k * W64 + W64;
    CeilDivStep(k * W64, n);
    assert W64 / n >= 0;
  }

  lemma BucketSize(n: U64, k: U64)
    requires k < n
    ensures W64 / n <= |Bucket(n, k)| <= W64 / n + 1
  {
    var lo, hi := CeilDiv(k * W64, n), CeilDiv((k + 1) * W64, n);
    BucketEnds(n, k);
    hide CeilDiv;
    hide MulHi64Soft;
    forall x: int | 0 <= x < 0x1_0000_0000_0000_0000
      ensures x in Bucket(n, k) <==> lo <= x < hi
    {
      BucketIsInterval(n, k, x);
    }
    assert Bucket(n, k) == Interval(lo, hi);
  }

  /** Any two buckets receive numbers of inputs that differ by at most one, and every input is in exactly one. */
  lemma BucketsAreEven(n: U64, j: U64, k: U64)
    requires j < n && k < n
    ensures -1 <= |Bucket(n, j)| - |Bucket(n, k)| <= 1
    ensures j != k ==> Bucket(n, j) !! Bucket(n, k)
    ensures forall x: U64 :: MulHi64Soft(x, n) < n && x in Bucket(n, MulHi64Soft(x, n))
  {
    BucketSize(n, j);
    BucketSize(n, k);
    forall x: U64
      ensures MulHi64Soft(x, n) < n && x in Bucket(n, MulHi64Soft(x, n))
    {
      BelowBound(x, n);
    }
  }

  // ---------------------------------------------------------------------------------
  // The generator
  // ---------------------------------------------------------------------------------

  // z ^ (z >> k), and back
  function Shift30(x: bv64): bv64 { x ^ (x >> 30) }
  function Shift27(x: bv64): bv64 { x ^ (x >> 27) }
  function Shift31(x: bv64): bv64 { x ^ (x >> 31) }
  function Back30(x: bv64): bv64 { x ^ (x >> 30) ^ (x >> 60) }
  function Back27(x: bv64): bv64 { x ^ (x >> 27) ^ (x >> 54) }
  function Back31(x: bv64): bv64 { x ^ (x >> 31) ^ (x >> 62) }

  // Products with an odd constant, modulo 2 to the 64, and with its inverse
  function Times1(x: bv64): bv64 { x * 0xBF58476D1CE4E5B9 }
  function Times2(x: bv64): bv64 { x * 0x94D049BB133111EB }
  function Over1(x: bv64): bv64 { x * 0x96DE1B173F119089 }
  function Over2(x: bv64): bv64 { x * 0x319642B2D24D8EC3 }
  function Steps(n: bv64): bv64 { n * 0x9E3779B97F4A7C15 }
  function StepsOf(d: bv64): bv64 { d * 0xF1DE83E19937733D }

  /** The mixing of the generator's state into its output. */
  function Mix(state: bv64): bv64 { Shift31(Times2(Shift27(Times1(Shift30(state))))) }

  /** From the output back to the state. */
  function Unmix(z: bv64): bv64 { Back30(Over1(Back27(Over2(Back31(z))))) }

  lemma Shift30Is(x: bv64)
    ensures Shift30(x) == x ^ (x >> 30)
  {
  }

  lemma Back30Is(x: bv64)
    ensures Back30(x) == x ^ (x >> 30) ^ (x >> 60)
  {
  }

  lemma Back30OfShift30(x: bv64)
    ensures Back30(x ^ (x >> 30)) == x
  {
  }

  lemma Shift30OfBack30(x: bv64)
    ensures Shift30(x ^ (x >> 30) ^ (x >> 60)) == x
  {
  }

  lemma Shift30Back(x: bv64)
    ensures Back30(Shift30(x)) == x && Shift30(Back30(x)) == x
  {
    hide *;
    Shift30Is(x);
    Back30Is(x);
    Back30OfShift30(x);
    Shift30OfBack30(x);
  }

  lemma Shift27Is(x: bv64)
    ensures Shift27(x) == x ^ (x >> 27)
  {
  }

  lemma Back27Is(x: bv64)
    ensures Back27(x) == x ^ (x >> 27) ^ (x >> 54)
  {
  }

  lemma Back27OfShift27(x: bv64)
    ensures Back27(x ^ (x >> 27)) == x
  {
  }

  lemma Shift27OfBack27(x: bv64)
    ensures Shift27(x ^ (x >> 27) ^ (x >> 54)) == x
  {
  }

  lemma Shift27Back(x: bv64)
    ensures Back27(Shift27(x)) == x && Shift27(Back27(x)) == x
  {
    hide *;
    Shift27Is(x);
    Back27Is(x);
    Back27OfShift27(x);
    Shift27OfBack27(x);
  }

  lemma Shift31Is(x: bv64)
    ensures Shift31(x) == x ^ (x >> 31)
  {
  }

  lemma Back31Is(x: bv64)
    ensures Back31(x) == x ^ (x >> 31) ^ (x >> 62)
  {
  }

  lemma Back31OfShift31(x: bv64)
    ensures Back31(x ^ (x >> 31)) == x
  {
  }

  lemma Shift31OfBack31(x: bv64)
    ensures Shift31(x ^ (x >> 31) ^ (x >> 62)) == x
  {
  }

  lemma Shift31Back(x: bv64)
    ensures Back31(Shift31(x)) == x && Shift31(Back31(x)) == x
  {
    hide *;
    Shift31Is(x);
    Back31Is(x);
    Back31OfShift31(x);
    Shift31OfBack31(x);
  }

  lemma Times1Is(x: bv64)
    ensures Times1(x) == x * 0xBF58476D1CE4E5B9
  {
  }

  lemma Over1Is(x: bv64)
    ensures Over1(x) == x * 0x96DE1B173F119089
  {
  }

  lemma Over1OfTimes1(x: bv64)
    ensures Over1(x * 0xBF58476D1CE4E5B9) == x
  {
  }

  lemma Times1OfOver1(x: bv64)
    ensures Times1(x * 0x96DE1B173F119089) == x
  {
  }

  lemma Times1Back(x: bv64)
    ensures Over1(Times1(x)) == x && Times1(Over1(x)) == x
  {
    hide *;
    Times1Is(x);
    Over1Is(x);
    Over1OfTimes1(x);
    Times1OfOver1(x);
  }

  lemma Times2Is(x: bv64)
    ensures Times2(x) == x * 0x94D049BB133111EB
  {
  }

  lemma Over2Is(x: bv64)
    ensures Over2(x) == x * 0x319642B2D24D8EC3
  {
  }

  lemma Over2OfTimes2(x: bv64)
    ensures Over2(x * 0x94D049BB133111EB) == x
  {
  }

  lemma Times2OfOver2(x: bv64)
    ensures Times2(x * 0x319642B2D24D8EC3) == x
  {
  }

  lemma Times2Back(x: bv64)
    ensures Over2(Times2(x)) == x && Times2(Over2(x)) == x
  {
    hide *;
    Times2Is(x);
    Over2Is(x);
    Over2OfTimes2(x);
    Times2OfOver2(x);
  }

  lemma StepsIs(x: bv64)
    ensures Steps(x) == x * 0x9E3779B97F4A7C15
  {
  }

  lemma StepsOfIs(x: bv64)
    ensures StepsOf(x) == x * 0xF1DE83E19937733D
  {
  }

  lemma StepsOfOfSteps(x: bv64)
    ensures StepsOf(x * 0x9E3779B97F4A7C15) == x
  {
  }

  lemma StepsOfStepsOf(x: bv64)
    ensures Steps(x * 0xF1DE83E19937733D) == x
  {
  }

  lemma StepsBack(x: bv64)
    ensures StepsOf(Steps(x)) == x && Steps(StepsOf(x)) == x
  {
    hide *;
    StepsIs(x);
    StepsOfIs(x);
    StepsOfOfSteps(x);
    StepsOfStepsOf(x);
  }

  /** Mixing is a bijection: no output is lost and none is favoured. */
  lemma MixIsBijective(x: bv64)
    ensures Unmix(Mix(x)) == x && Mix(Unmix(x)) == x
  {
    hide *;
    var a := Shift30(x);
    var b := Shift27(Times1(a));
    MixIs(x);
    UnmixIs(Mix(x));
    Shift30Back(x);
    Times1Back(a);
    Shift27Back(Times1(a));
    Times2Back(b);
    Shift31Back(Times2(b));
    var c := Back31(x);
    var d := Back27(Over2(c));
    UnmixIs(x);
    MixIs(Unmix(x));
    Shift31Back(x);
    Times2Back(c);
    Shift27Back(Over2(c));
    Times1Back(d);
    Shift30Back(Over1(d));
  }

  lemma MixIs(x: bv64)
    ensures Mix(x) == Shift31(Times2(Shift27(Times1(Shift30(x)))))
  {
    hide Shift30;
    hide Shift27;
    hide Shift31;
    hide Times1;
    hide Times2;
  }

  lemma UnmixIs(z: bv64)
    ensures Unmix(z) == Back30(Over1(Back27(Over2(Back31(z)))))
  {
    hide Back30;
    hide Back27;
    hide Back31;
    hide Over1;
    hide Over2;
  }

  /** The state of the generator after n steps from s; steps are counted modulo 2 to the 64. */
  function StateAfter(s: bv64, n: bv64): bv64 { Plus(s, Steps(n)) }

  function Plus(s: bv64, d: bv64): bv64 { s + d }

  function Minus(u: bv64, s: bv64): bv64 { u - s }

  lemma PlusMinus(s: bv64, d: bv64)
    ensures Minus(s + d, s) == d
  {
  }

  lemma MinusPlus(s: bv64, u: bv64)
    ensures Plus(s, u - s) == u
  {
  }

  lemma PlusIs(s: bv64, d: bv64)
    ensures Plus(s, d) == s + d
  {
  }

  lemma MinusIs(u: bv64, s: bv64)
    ensures Minus(u, s) == u - s
  {
  }

  lemma OneMore(s: bv64, n: bv64)
    ensures Plus(s, Steps(n + 1)) == Plus(Plus(s, n * 0x9E3779B97F4A7C15), 0x9E3779B97F4A7C15)
    ensures Plus(s, Steps(0)) == s
  {
  }

  /** Each step adds the constant. */
  lemma OneStep(s: bv64, n: bv64)
    ensures StateAfter(s, 0) == s
    ensures StateAfter(s, n + 1) == StateAfter(s, n) + 0x9E3779B97F4A7C15
  {
    hide *;
    StateIs(s, 0);
    StateIs(s, n);
    StateIs(s, n + 1);
    OneMore(s, n);
    StepsIs(n);
    PlusIs(StateAfter(s, n), 0x9E3779B97F4A7C15);
  }

  lemma StateIs(s: bv64, n: bv64)
    ensures StateAfter(s, n) == Plus(s, Steps(n))
  {
    hide Plus;
    hide Steps;
  }

  /** Known outputs of the generator from state 0. */
  lemma KnownOutputs()
    ensures Mix(StateAfter(0, 1)) == 0xE220A8397B1DCDAF && Mix(StateAfter(0, 2)) == 0x6E789E6AA1B965F4
  {
  }

  /** The period is full: in 2 to the 64 steps, from any seed, every 64-bit output is drawn exactly once. */
  lemma EveryOutputOnce(s: bv64, z: bv64, n: bv64)
    ensures Mix(StateAfter(s, n)) == z <==> n == StepsOf(Minus(Unmix(z), s))
  {
    hide *;
    MixIsBijective(z);
    MixIsBijective(StateAfter(s, n));
    StateIs(s, n);
    StepsBack(n);
    StepsBack(Minus(Unmix(z), s));
    PlusIs(s, Steps(n));
    PlusMinus(s, Steps(n));
    MinusIs(Unmix(z), s);
    MinusPlus(s, Unmix(z));
  }

  class SplitMix64 {
    var state: bv64
    var bound: U32

    constructor ()
      ensures state == 0x8D0B73B52EA17D89 && bound == 1
    {
      state := 0x8D0B73B52EA17D89;
      bound := 1;
    }

    method Seed(s: bv64, bound: U32)
      modifies this
      ensures state == s && this.bound == bound
    {
      state := s;
      this.bound := bound;
    }

    method Next() returns (z: U64)
      modifies this`state
      ensures state == old(state) + 0x9E3779B97F4A7C15 && z == Mix(state) as int
    {
      state := state + 0x9E3779B97F4A7C15;
      z := Mix(state) as int;
    }

    /** operator(): below the bound given before. */
    method Draw() returns (r: U32)
      requires bound > 0
      modifies this`state
      ensures r < bound && r == (Mix(state) as int) * bound / W64
    {
      var z := Next();
      BelowBound(z, bound);
      r := MulHi64Soft(z, bound);
    }

    /** operator()(n): below a bound for this call. */
    method DrawBelow(n: U32) returns (r: U32)
      requires n > 0
      modifies this`state
      ensures r < n && r == (Mix(state) as int) * n / W64
    {
      var z := Next();
      BelowBound(z, n);
      r := MulHi64Soft(z, n);
    }

    /** operator()(lo, hi): the closed range; the full 32-bit range, whose size wraps to 0, is drawn by truncation. */
    method DrawBetween(lo: U32, hi: U32) returns (r: U32)
      requires lo <= hi
      modifies this`state
      ensures lo <= r <= hi
      ensures hi - lo + 1 == W32 ==> r == (Mix(state) as int) % W32
      ensures hi - lo + 1 < W32 ==> r == lo + MulHi64Soft(Mix(state) as int, hi - lo + 1)
    {
      hide MulHi64Soft;
      hide Mix;
      var range: U32 := (hi - lo + 1) % W32;
      var z := Next();
      if range == 0 {
        r := z % W32;
      } else {
        assert range == hi - lo + 1;
        BelowBound(z, range);
        var offset := MulHi64Soft(z, range);
        r := lo + offset;
      }
    }
  }
}
