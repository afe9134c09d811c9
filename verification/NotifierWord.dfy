// The 64-bit word of the event count: [ epoch 32 | prewaiters 16 | stack top 16 ].
//
// Each expression of notifier.hpp over masks, shifts and increments is written with / and %, and
// additions and subtractions wrap at 2^64. The lemmas say which independent update of
// (epoch, prewaiters, top) each of them is, and exactly when comparing packed words or signed
// differences agrees with comparing the unbounded fields.

module NotifierWord {
  import opened Common
  import opened NotifierProtocol

  const FIELD: nat := 0x1_0000           // k_prewaiter_inc: one past the stack field
  const HALF: nat := 0x1_0000_0000       // k_epoch_inc: one past the prewaiter field
  const FULL: nat := 0x1_0000_0000_0000_0000
  const EMPTY: nat := 0xFFFF             // k_stack_mask, also the empty-stack sentinel

  type Word64 = x: nat | x < FULL

  function Wrap(x: int): Word64 { x % FULL }

  function StackField(x: Word64): nat { x % FIELD }

  function PreField(x: Word64): nat { x / FIELD % FIELD }

  function EpochField(x: Word64): nat { x / HALF }

  /** state & k_epoch_mask */
  function EpochPart(x: Word64): Word64 { x / HALF * HALF }

  /** std::int64_t(x) */
  function Signed(x: Word64): int { if x < FULL / 2 then x else x - FULL }

  /** What an index or the null pointer looks like in the stack field. */
  function Top(t: Option<nat>): nat { if t.Some? then t.value else EMPTY }

  predicate Fits(x: Word) { x.pre < FIELD && (x.top.Some? ==> x.top.value < EMPTY) }

  function Pack(x: Word): Word64
    requires Fits(x)
  {
    x.epoch % HALF * HALF + x.pre * FIELD + Top(x.top)
  }

  lemma PackFields(x: Word)
    requires Fits(x)
    ensures EpochField(Pack(x)) == x.epoch % HALF
    ensures PreField(Pack(x)) == x.pre
    ensures StackField(Pack(x)) == Top(x.top)
    ensures StackField(Pack(x)) == EMPTY <==> x.top == None
  {
    SplitFields(x.epoch % HALF, x.pre, Top(x.top));
  }

  lemma SplitFields(e: nat, pre: nat, top: nat)
    requires pre < FIELD && top < FIELD
    ensures var w := e * HALF + pre * FIELD + top; w / HALF == e && w / FIELD % FIELD == pre && w % FIELD == top
  {
    var w := e * HALF + pre * FIELD + top;
    assert w == (e * FIELD + pre) * FIELD + top;
    assert w / FIELD == e * FIELD + pre;
  }

  /** Two words look the same exactly if stack and prewaiters agree and the epochs agree modulo 2^32. */
  lemma SameWordIff(x: Word, y: Word)
    requires Fits(x) && Fits(y)
    ensures Pack(x) == Pack(y) <==> x.pre == y.pre && x.top == y.top && x.epoch % HALF == y.epoch % HALF
  {
    PackFields(x);
    PackFields(y);
  }

  lemma CongruentAndClose(a: nat, b: nat)
    requires a <= b
    ensures a % HALF == b % HALF && b - a < HALF ==> a == b
  {
  }

  /** Within one window of fewer than 2^32 epochs the packed comparison is the comparison of the fields. */
  lemma SameWordInWindow(x: Word, y: Word)
    requires Fits(x) && Fits(y) && x.epoch <= y.epoch < x.epoch + HALF
    ensures Pack(x) == Pack(y) <==> x == y
  {
    SameWordIff(x, y);
    CongruentAndClose(x.epoch, y.epoch);
  }

  /** One epoch further, and a compare-exchange can no longer tell the two words apart. */
  lemma WindowIsTight(x: Word)
    requires Fits(x)
    ensures Pack(x.(epoch := x.epoch + HALF)) == Pack(x)
  {
  }

  // ---------------------------------------------------------------------------------
  // The updates
  // ---------------------------------------------------------------------------------

  /** prepare_wait: fetch_add(k_prewaiter_inc) touches the prewaiter count only. */
  lemma AddPrewaiter(x: Word)
    requires Fits(x) && x.pre + 1 < FIELD
    ensures Wrap(Pack(x) + FIELD) == Pack(x.(pre := x.pre + 1))
  {
    var e := x.epoch % HALF;
    assert e * HALF + (x.pre + 1) * FIELD + Top(x.top) < FULL;
  }

  lemma EpochWrap(e: nat, n: nat)
    ensures (e + n) % HALF == (e % HALF + n) % HALF
  {
  }

  /** state + k_epoch_inc * n - k_prewaiter_inc * n consumes n prewaiters and nothing else. */
  lemma ConsumeWord(x: Word, n: nat)
    requires Fits(x) && n <= x.pre
    ensures Wrap(Pack(x) + HALF * n - FIELD * n) == Pack(Word(x.epoch + n, x.pre - n, x.top))
  {
    var e := x.epoch % HALF;
    EpochWrap(x.epoch, n);
    var low := (x.pre - n) * FIELD + Top(x.top);
    assert Pack(x) + HALF * n - FIELD * n == (e + n) * HALF + low;
    assert low < HALF;
    WrapHigh(e + n, low);
  }

  lemma WrapHigh(e: nat, low: nat)
    requires low < HALF
    ensures Wrap(e * HALF + low) == e % HALF * HALF + low
  {
    var q := e / HALF;
    assert e == q * HALF + e % HALF;
    assert e * HALF + low == q * FULL + (e % HALF * HALF + low);
  }

  /** The settling word of commit_wait: (new & ~k_stack_mask) | wid. */
  lemma PushWord(x: Word, w: nat)
    requires Fits(x) && x.pre > 0 && w < EMPTY
    ensures var y := Wrap(Pack(x) - FIELD + HALF);
            y / FIELD * FIELD + w == Pack(Settle(x).(top := Some(w)))
  {
    ConsumeWord(x, 1);
    PackFields(Settle(x));
  }

  /** (state & k_epoch_mask) | next replaces the top when no prewaiter is counted. */
  lemma PopWord(x: Word, t: Option<nat>)
    requires Fits(x) && x.pre == 0 && (t.Some? ==> t.value < EMPTY)
    ensures EpochPart(Pack(x)) + Top(t) == Pack(Word(x.epoch, 0, t))
  {
    PackFields(x);
  }

  /** ((state & k_epoch_mask) + k_epoch_inc * num_pre) | k_stack_mask consumes every prewaiter and empties the stack. */
  lemma AllWord(x: Word)
    requires Fits(x)
    ensures var y := Wrap(EpochPart(Pack(x)) + HALF * PreField(Pack(x)));
            y % FIELD == 0 && y + EMPTY == Pack(Word(x.epoch + x.pre, 0, None))
  {
    PackFields(x);
    EpochWrap(x.epoch, x.pre);
    WrapHigh(x.epoch % HALF + x.pre, 0);
  }

  // ---------------------------------------------------------------------------------
  // Tickets in serial-number arithmetic (section 3.2 of RFC 1982 with 32 bits)
  // ---------------------------------------------------------------------------------

  /** (epoch & k_epoch_mask) + (((epoch & k_prewaiter_mask) >> k_prewaiter_shift) << k_epoch_shift) */
  function Target(x: Word64): Word64 { Wrap(EpochPart(x) + PreField(x) * HALF) }

  lemma TargetIsTicket(x: Word)
    requires Fits(x)
    ensures Target(Pack(x)) == (x.epoch + x.pre) % HALF * HALF
  {
    PackFields(x);
    EpochWrap(x.epoch, x.pre);
    WrapHigh(x.epoch % HALF + x.pre, 0);
  }

  /** std::int64_t((state & k_epoch_mask) - epoch) */
  function Ahead(state: Word64, target: Word64): int { Signed(Wrap(EpochPart(state) - target)) }

  /** The signed difference is the 32-bit serial-number difference, scaled. */
  lemma AheadIsSerialDifference(x: Word, t: nat)
    requires Fits(x)
    ensures var d := (x.epoch - t) % HALF;
            Ahead(Pack(x), t % HALF * HALF) == (if d < HALF / 2 then d else d - HALF) * HALF
  {
    PackFields(x);
    var a, b := x.epoch % HALF, t % HALF;
    var d := (x.epoch - t) % HALF;
    assert d == (a - b) % HALF;
    if a >= b { assert d == a - b; assert EpochPart(Pack(x)) - b * HALF == d * HALF; }
    else { assert d == a - b + HALF; assert Wrap(EpochPart(Pack(x)) - b * HALF) == d * HALF; }
  }

  predicate SameSign(a: int, b: int) { (a < 0 <==> b < 0) && (a > 0 <==> b > 0) }

  /** The lag at which the test still speaks the truth, for every epoch and every ticket. */
  predicate InSerialRange(lag: int) {
    if lag == 0 then true
    else if lag > 0 then 0 < lag % HALF < HALF / 2
    else lag % HALF >= HALF / 2
  }

  lemma TestAgreesIff(x: Word, t: nat)
    requires Fits(x)
    ensures SameSign(Ahead(Pack(x), t % HALF * HALF), x.epoch - t) <==> InSerialRange(x.epoch - t)
  {
    AheadIsSerialDifference(x, t);
    var d := (x.epoch - t) % HALF;
    var v := if d < HALF / 2 then d else d - HALF;
    assert SameSign(v * HALF, v);
  }

  /** In particular it does so while the lag is below 2^31 either way. */
  lemma SmallLagInRange(lag: int)
    requires -0x8000_0000 <= lag < 0x8000_0000
    ensures InSerialRange(lag)
  {
  }

  /** 2^31 epochs late, an overtaken waiter is told that its turn has yet to come. */
  lemma LateWaiterMisjudged(x: Word, t: nat)
    requires Fits(x) && x.epoch == t + 0x8000_0000
    ensures Ahead(Pack(x), t % HALF * HALF) < 0
  {
    AheadIsSerialDifference(x, t);
  }
}
