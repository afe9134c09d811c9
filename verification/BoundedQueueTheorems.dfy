// Safety of the bounded deque for any number of thieves, and its refinement of a sequential deque.

module BoundedQueueTheorems {
  import opened Common
  import opened BoundedQueueProtocol

  /** Two indices that share a ring slot are equal or at least cap apart. */
  lemma SharedSlot(i: int, j: int, cap: nat)
    requires 0 < cap && i <= j && Slot(i, cap) == Slot(j, cap)
    ensures i == j || j - i >= cap
  {
    var laps := j / cap - i / cap;
    assert j - i == laps * cap;
    if laps >= 1 { assert laps * cap >= cap; }
  }

  lemma SplitLast<T>(d: seq<T>)
    requires d != []
    ensures multiset(d) == multiset(d[..|d| - 1]) + multiset{Last(d)}
  {
    assert d == d[..|d| - 1] + [Last(d)];
  }

  lemma SplitFirst<T>(d: seq<T>)
    requires d != []
    ensures multiset(d) == multiset{d[0]} + multiset(d[1..])
  {
    assert d == [d[0]] + d[1..];
  }

  /** Every pop reads a pointer, and every element taken is there to be taken. */
  lemma AlwaysDefined<T>(s: State<T>, a: Action<T>)
    requires Inv(s) && Enabled(s, a)
    ensures Defined(s, a)
  {
    if a.StealCas? { assert ThiefOk(s, a.k); }
  }

  /** The ring keeps showing the deque when a slot outside its index range is stored. */
  lemma StoreOutside<T>(s: State<T>, i: int, v: Option<T>)
    requires Inv(s) && s.top + |s.deq| <= i < s.top + s.cap
    ensures forall j :: 0 <= j < |s.deq| ==> s.buf[Slot(i, s.cap) := v][Slot(s.top + j, s.cap)] == Some(s.deq[j])
  {
    hide Slot;
    forall j | 0 <= j < |s.deq|
      ensures s.buf[Slot(i, s.cap) := v][Slot(s.top + j, s.cap)] == Some(s.deq[j])
    {
      if Slot(s.top + j, s.cap) == Slot(i, s.cap) { SharedSlot(s.top + j, i, s.cap); }
    }
  }

  lemma PushSlotInv<T>(s: State<T>)
    requires Inv(s) && Enabled(s, PushSlot)
    ensures Inv(Apply(s, PushSlot))
  {
    hide Slot;
    var c := s.owner;
    var s' := Apply(s, PushSlot);
    var i := s.bottom + c.done;
    StoreOutside(s, i, Some(c.vals[c.done]));
    forall j | 0 <= j < c.done + 1 ensures s'.buf[Slot(s.bottom + j, s.cap)] == Some(c.vals[j]) {
      if j < c.done && Slot(s.bottom + j, s.cap) == Slot(i, s.cap) { SharedSlot(s.bottom + j, i, s.cap); }
    }
    forall k | 0 <= k < |s'.thieves| ensures ThiefOk(s', k) { assert ThiefOk(s, k); }
  }

  lemma PushPublishInv<T>(s: State<T>)
    requires Inv(s) && Enabled(s, PushPublish)
    ensures Inv(Apply(s, PushPublish))
  {
    hide Slot;
    var c := s.owner;
    var s' := Apply(s, PushPublish);
    forall i | 0 <= i < |s'.deq| ensures s'.buf[Slot(s'.top + i, s.cap)] == Some(s'.deq[i]) {
      if i >= |s.deq| {
        var j := i - |s.deq|;
        assert s.top + i == s.bottom + j;
      }
    }
    forall k | 0 <= k < |s'.thieves| ensures ThiefOk(s', k) { assert ThiefOk(s, k); }
  }

  /** The reserved index shows the back of the deque. */
  lemma BackShown<T>(s: State<T>)
    requires Inv(s) && s.owner.PopLoading? && s.top <= s.owner.b
    ensures s.deq != [] && s.buf[Slot(s.owner.b, s.cap)] == Some(Last(s.deq))
    ensures multiset(s.deq) == multiset(s.deq[..|s.deq| - 1]) + multiset{Last(s.deq)}
  {
    hide Slot;
    assert s.top + (|s.deq| - 1) == s.owner.b;
    SplitLast(s.deq);
  }

  lemma ThievesAfterPopLoad<T>(s: State<T>)
    requires Inv(s) && Enabled(s, PopLoad) && Defined(s, PopLoad)
    ensures forall k :: 0 <= k < |s.thieves| ==> ThiefOk(DoPopLoad(s), k)
  {
    hide Slot;
    forall k | 0 <= k < |s.thieves| ensures ThiefOk(DoPopLoad(s), k) { assert ThiefOk(s, k); }
  }

  lemma PopLoadInv<T>(s: State<T>)
    requires Inv(s) && Enabled(s, PopLoad)
    ensures Defined(s, PopLoad) && Inv(DoPopLoad(s))
  {
    if s.top <= s.owner.b { BackShown(s); }
    PopLoadRing(s);
    PopLoadOwner(s);
    PopLoadConserves(s);
    ThievesAfterPopLoad(s);
    hide Slot;
    hide ThiefOk;
    hide RingOk;
    hide OwnerOk;
    hide Conserved;
  }

  lemma PopLoadRing<T>(s: State<T>)
    requires Inv(s) && Enabled(s, PopLoad) && Defined(s, PopLoad)
    ensures var s' := DoPopLoad(s); s'.cap > 0 && |s'.buf| == s'.cap && RingOk(s')
  {
    hide Slot;
    assert RingOk(s) && s.owner.b == s.bottom;
    hide Inv;
    var s' := DoPopLoad(s);
    assert High(s) == s.bottom + 1 && |s'.deq| == High(s') - s'.top;
    forall i | 0 <= i < |s'.deq| ensures s'.buf[Slot(s'.top + i, s'.cap)] == Some(s'.deq[i]) {
      assert s'.deq[i] == s.deq[i];
    }
  }

  lemma PopLoadOwner<T>(s: State<T>)
    requires Inv(s) && Enabled(s, PopLoad) && Defined(s, PopLoad)
    ensures var s' := DoPopLoad(s); s'.cap > 0 && |s'.buf| == s'.cap && OwnerOk(s')
  {
    hide Slot;
    if s.top <= s.owner.b { BackShown(s); }
    assert s.cap > 0 && |s.buf| == s.cap && s.owner.b == s.bottom && s.top <= s.bottom + 1;
    hide Inv;
    hide RingOk;
  }

  lemma PopLoadConserves<T>(s: State<T>)
    requires Inv(s) && Enabled(s, PopLoad) && Defined(s, PopLoad)
    ensures Conserved(DoPopLoad(s))
  {
    hide Slot;
    hide RingOk;
    hide OwnerOk;
    hide ThiefOk;
    if s.top <= s.owner.b { BackShown(s); }
    assert Conserved(s);
  }

  lemma PopRestInv<T>(s: State<T>, a: Action<T>)
    requires Inv(s) && Enabled(s, a) && (a.PushLoad? || a.PopStore? || a.PopRead? || a.PopRestore?)
    ensures Defined(s, a) && Inv(Apply(s, a))
  {
    hide Slot;
    var s' := Apply(s, a);
    if a.PopRead? && s.owner.top == s.owner.b && s.top == s.owner.b {
      assert s.buf[Slot(s.top + 0, s.cap)] == Some(s.deq[0]);
      assert s.deq == [s.deq[0]];
    }
    forall k | 0 <= k < |s'.thieves| ensures ThiefOk(s', k) { assert ThiefOk(s, k); }
  }

  lemma PopCasInv<T>(s: State<T>)
    requires Inv(s) && Enabled(s, PopCas)
    ensures Defined(s, PopCas) && Inv(Apply(s, PopCas))
  {
    hide Slot;
    var s' := Apply(s, PopCas);
    if s.top == s.owner.b { SplitFirst(s.deq); }
    forall k | 0 <= k < |s'.thieves| ensures ThiefOk(s', k) { assert ThiefOk(s, k); }
  }

  lemma StealInv<T>(s: State<T>, a: Action<T>)
    requires Inv(s) && Enabled(s, a) && (a.StealLoad? || a.StealCheck? || a.StealRead?)
    ensures Defined(s, a) && Inv(Apply(s, a))
  {
    hide Slot;
    assert ThiefOk(s, a.k);
    assert s.deq != [] ==> s.buf[Slot(s.top + 0, s.cap)] == Some(s.deq[0]);
    hide OwnerOk;
    hide Conserved;
    ThiefMoves(s, a.k, Apply(s, a).thieves[a.k]);
  }

  lemma ThiefMoves<T>(s: State<T>, k: nat, c: Thief<T>)
    requires Inv(s) && k < |s.thieves| && ThiefOk(s.(thieves := s.thieves[k := c]), k)
    ensures Inv(s.(thieves := s.thieves[k := c]))
  {
    hide Slot;
    var s' := s.(thieves := s.thieves[k := c]);
    forall j | 0 <= j < |s'.thieves| ensures ThiefOk(s', j) { assert ThiefOk(s, j); }
  }

  /** Taking the front: index top + 1 now shows what was second. */
  lemma FrontTaken<T>(s: State<T>)
    requires Inv(s) && s.deq != []
    ensures forall i :: 0 <= i < |s.deq| - 1 ==> s.buf[Slot(s.top + 1 + i, s.cap)] == Some(s.deq[1..][i])
    ensures multiset(s.deq) == multiset{s.deq[0]} + multiset(s.deq[1..])
  {
    hide Slot;
    SplitFirst(s.deq);
    forall i | 0 <= i < |s.deq| - 1 ensures s.buf[Slot(s.top + 1 + i, s.cap)] == Some(s.deq[1..][i]) {
      assert s.top + 1 + i == s.top + (i + 1);
    }
  }

  lemma StealCasInv<T>(s: State<T>, k: nat)
    requires Inv(s) && Enabled(s, StealCas(k))
    ensures Defined(s, StealCas(k)) && Inv(DoStealCas(s, k))
  {
    hide Slot;
    assert ThiefOk(s, k);
    var s' := DoStealCas(s, k);
    if s.top == s.thieves[k].top {
      StealRing(s, k);
      StealOwner(s, k);
      SplitFirst(s.deq);
      forall j | 0 <= j < |s'.thieves| ensures ThiefOk(s', j) { ThiefAfterSteal(s, k, j); }
      hide ThiefOk;
      hide RingOk;
      hide OwnerOk;
    } else {
      ThiefMoves(s, k, Resting);
    }
  }

  lemma StealRing<T>(s: State<T>, k: nat)
    requires Inv(s) && Enabled(s, StealCas(k)) && Defined(s, StealCas(k)) && s.top == s.thieves[k].top
    ensures var s' := DoStealCas(s, k); s'.cap > 0 && |s'.buf| == s'.cap && RingOk(s')
  {
    hide Slot;
    assert ThiefOk(s, k) && RingOk(s);
    FrontTaken(s);
    hide Inv;
    var s' := DoStealCas(s, k);
    forall i | 0 <= i < |s'.deq| ensures s'.buf[Slot(s'.top + i, s'.cap)] == Some(s'.deq[i]) {
      assert s'.deq[i] == s.deq[1..][i];
    }
  }

  lemma StealOwner<T>(s: State<T>, k: nat)
    requires Inv(s) && Enabled(s, StealCas(k)) && Defined(s, StealCas(k)) && s.top == s.thieves[k].top
    ensures var s' := DoStealCas(s, k); s'.cap > 0 && |s'.buf| == s'.cap && OwnerOk(s')
  {
    hide Slot;
    assert ThiefOk(s, k) && OwnerOk(s) && s.cap > 0 && |s.buf| == s.cap && s.top < High(s);
    hide Inv;
    hide RingOk;
  }

  lemma ThiefAfterSteal<T>(s: State<T>, k: nat, j: nat)
    requires Inv(s) && Enabled(s, StealCas(k)) && Defined(s, StealCas(k)) && j < |s.thieves|
    ensures ThiefOk(DoStealCas(s, k), j)
  {
    assert ThiefOk(s, j) && ThiefOk(s, k);
    hide Inv;
    hide Slot;
  }

  lemma StepInv<T>(s: State<T>, a: Action<T>)
    requires Inv(s) && Enabled(s, a)
    ensures Defined(s, a) && Inv(Apply(s, a))
  {
    hide Slot;
    match a {
      case PushSlot => PushSlotInv(s);
      case PushPublish => PushPublishInv(s);
      case PopLoad => PopLoadInv(s);
      case PopCas => PopCasInv(s);
      case StealCas(k) => StealCasInv(s, k);
      case StealLoad(_) => StealInv(s, a);
      case StealCheck(_) => StealInv(s, a);
      case StealRead(_) => StealInv(s, a);
      case _ => PopRestInv(s, a);
    }
  }

  ghost predicate Step<T>(s: State<T>, a: Action<T>, s': State<T>) {
    Enabled(s, a) && Defined(s, a) && s' == Apply(s, a)
  }

  ghost predicate IsRun<T>(run: seq<State<T>>, acts: seq<Action<T>>, cap: nat, thieves: nat) {
    && |run| == |acts| + 1
    && run[0] == InitState(cap, thieves)
    && forall i :: 0 <= i < |acts| ==> Step(run[i], acts[i], run[i + 1])
  }

  lemma {:induction false} RunInv<T>(run: seq<State<T>>, acts: seq<Action<T>>, cap: nat, thieves: nat, i: nat)
    requires cap > 0 && IsRun(run, acts, cap, thieves) && i < |run|
    ensures Inv(run[i])
  {
    if i > 0 {
      RunInv(run, acts, cap, thieves, i - 1);
      assert Step(run[i - 1], acts[i - 1], run[i]);
      StepInv(run[i - 1], acts[i - 1]);
    }
  }

  // ---------------------------------------------------------------------------------
  // Refinement of a sequential double-ended queue
  // ---------------------------------------------------------------------------------

  /** The operations of the sequential deque: a batch enters at the back, pops are LIFO, steals FIFO. */
  datatype Op<T> = Nothing | PushBack(vals: seq<T>) | PopBack(val: T) | PopFront(val: T)

  ghost predicate SequentialStep<T>(d: seq<T>, op: Op<T>, d': seq<T>) {
    match op
    case Nothing => d' == d
    case PushBack(vals) => d' == d + vals
    case PopBack(val) => d == d' + [val]
    case PopFront(val) => d == [val] + d'
  }

  /** The sequential operation that an action carries out. */
  function Linearized<T>(s: State<T>, a: Action<T>): Op<T>
    requires Enabled(s, a) && Defined(s, a)
  {
    match a
    case PushPublish => PushBack(s.owner.vals[..s.owner.count])
    case PopLoad => if s.top < s.owner.b then PopBack(Last(s.deq)) else Nothing
    case PopCas => if s.top == s.owner.b then PopBack(s.owner.val) else Nothing
    case StealCas(k) => if s.top == s.thieves[k].top then PopFront(s.thieves[k].val.value) else Nothing
    case _ => Nothing
  }

  /** Every action is one sequential operation on the abstract deque, or none. */
  lemma RefinesSequentialDeque<T>(s: State<T>, a: Action<T>)
    requires Inv(s) && Enabled(s, a) && Defined(s, a)
    ensures SequentialStep(s.deq, Linearized(s, a), Apply(s, a).deq)
  {
    hide Slot;
    match a {
      case PopLoad | PopCas => PopIsPopBack(s, a);
      case StealCas(k) => StealIsPopFront(s, k);
      case _ =>
    }
  }

  lemma PopIsPopBack<T>(s: State<T>, a: Action<T>)
    requires Inv(s) && Enabled(s, a) && Defined(s, a) && (a.PopLoad? || a.PopCas?)
    ensures SequentialStep(s.deq, Linearized(s, a), Apply(s, a).deq)
  {
    hide Slot;
    if a.PopLoad? && s.top < s.owner.b { assert s.deq == s.deq[..|s.deq| - 1] + [Last(s.deq)]; }
    if a.PopCas? && s.top == s.owner.b { assert s.deq == s.deq[1..] + [s.owner.val]; }
  }

  lemma StealIsPopFront<T>(s: State<T>, k: nat)
    requires Inv(s) && Enabled(s, StealCas(k)) && Defined(s, StealCas(k))
    ensures SequentialStep(s.deq, Linearized(s, StealCas(k)), DoStealCas(s, k).deq)
  {
    hide Slot;
    assert ThiefOk(s, k);
    if s.top == s.thieves[k].top { assert s.deq == [s.deq[0]] + s.deq[1..]; }
  }

  /** What pop hands to its caller at the action that ends it: None while it goes on. */
  function PopReturns<T>(s: State<T>, a: Action<T>): Option<Option<T>>
    requires Enabled(s, a) && Defined(s, a)
  {
    match a
    case PopRead => if s.owner.top < s.owner.b then Some(s.buf[Slot(s.owner.b, s.cap)]) else None
    case PopRestore => Some(s.owner.got)
    case _ => None
  }

  /** A pop returns exactly the element it removed from the back of the deque. */
  lemma PopReturnsWhatItRemoved<T>(s: State<T>, a: Action<T>)
    requires Inv(s) && Enabled(s, a) && Defined(s, a)
    requires PopReturns(s, a).Some? && PopReturns(s, a).value.Some?
    ensures s.popped != [] && PopReturns(s, a).value.value == Last(s.popped)
  {
  }

  /** A pop decides to return null only at a moment when the deque is empty. */
  lemma NullPopMeansEmpty<T>(s: State<T>, a: Action<T>)
    requires Inv(s) && Enabled(s, a) && Defined(s, a)
    requires !s.owner.PopRestoring? && Apply(s, a).owner.PopRestoring? && Apply(s, a).owner.got.None?
    ensures s.deq == [] && Apply(s, a).deq == []
  {
  }

  /** A successful steal returns the front element, whatever became of the ring slot in the meantime. */
  lemma StealReturnsFront<T>(s: State<T>, k: nat)
    requires Inv(s) && Enabled(s, StealCas(k)) && s.top == s.thieves[k].top
    ensures s.deq != [] && s.thieves[k].val == Some(s.deq[0])
  {
    assert ThiefOk(s, k);
  }

  /**
   * A push that found the deque with d elements will enqueue exactly the first min(n, cap - d)
   * values; what it hands to the overflow callback is the rest.
   */
  lemma PushTakesWhatFits<T>(s: State<T>, vals: seq<T>)
    requires Inv(s) && Enabled(s, PushLoad(vals))
    ensures var c := Apply(s, PushLoad(vals)).owner;
            && c.vals == vals && c.count <= |vals|
            && |s.deq| + c.count <= s.cap
            && (c.count < |vals| <==> |s.deq| + |vals| > s.cap)
            && (c.count < |vals| ==> |s.deq| + c.count == s.cap)
  {
  }

  /** No value leaves the deque more often than it entered. */
  lemma NothingReturnedTwice<T>(run: seq<State<T>>, acts: seq<Action<T>>, cap: nat, thieves: nat, i: nat, v: T)
    requires cap > 0 && IsRun(run, acts, cap, thieves) && i < |run|
    ensures multiset(run[i].popped)[v] + multiset(run[i].stolen)[v] + multiset(run[i].deq)[v] == multiset(run[i].pushed)[v]
  {
    RunInv(run, acts, cap, thieves, i);
  }

  // ---------------------------------------------------------------------------------
  // When a steal comes back without an element
  // ---------------------------------------------------------------------------------

  /**
   * A thief whose top is still current gives up at its load of bottom exactly if the deque is empty, or holds one
   * element, which the owner's undecided pop has reserved.
   */
  lemma StealGivesUpIff<T>(s: State<T>, k: nat)
    requires Inv(s) && Enabled(s, StealCheck(k)) && s.thieves[k].top == s.top
    ensures Apply(s, StealCheck(k)).thieves[k].Resting? <==> s.deq == [] || (|s.deq| == 1 && Undecided(s.owner))
  {
    hide Slot;
  }

  /** A steal's exchange fails exactly if somebody else has taken the front element since its load of top. */
  lemma StealFailsIff<T>(s: State<T>, k: nat)
    requires Inv(s) && Enabled(s, StealCas(k)) && Defined(s, StealCas(k))
    ensures Apply(s, StealCas(k)).stolen == s.stolen <==> s.thieves[k].top < s.top
  {
    hide Slot;
    assert ThiefOk(s, k);
  }

  /** The top moves only when an element leaves the front: by a steal, or by a pop that wins the race for the last one. */
  lemma TopMoves<T>(s: State<T>, a: Action<T>)
    requires Inv(s) && Enabled(s, a) && Defined(s, a)
    ensures var s' := Apply(s, a);
      && (s'.top == s.top || (s'.top == s.top + 1 && s.deq != [] && s'.deq == s.deq[1..]
                              && (s'.stolen == s.stolen + [s.deq[0]] || s'.popped == s.popped + [s.deq[0]])))
  {
    hide Slot;
    if a.StealCas? { assert ThiefOk(s, a.k); }
  }

  /**
   * In every run: between the moment a top was current and a moment at which it is not, the element that was then in
   * front has been taken by somebody.
   */
  lemma {:induction false} FrontWasTaken<T>(run: seq<State<T>>, acts: seq<Action<T>>, cap: nat, thieves: nat, j: nat, i: nat)
    returns (m: nat)
    requires cap > 0 && IsRun(run, acts, cap, thieves) && j <= i < |run| && run[j].top < run[i].top
    ensures j <= m < i && run[m].deq != [] && run[m + 1].deq == run[m].deq[1..]
    ensures run[m + 1].stolen == run[m].stolen + [run[m].deq[0]] || run[m + 1].popped == run[m].popped + [run[m].deq[0]]
    decreases i
  {
    hide Apply;
    hide Enabled;
    hide Defined;
    RunInv(run, acts, cap, thieves, i - 1);
    hide Inv;
    if run[j].top < run[i - 1].top {
      m := FrontWasTaken(run, acts, cap, thieves, j, i - 1);
    } else {
      m := i - 1;
      assert Step(run[m], acts[m], run[m + 1]);
      TopMoves(run[m], acts[m]);
    }
  }

  // ---------------------------------------------------------------------------------
  // Nobody waits
  // ---------------------------------------------------------------------------------

  predicate ByOwner<T>(a: Action<T>) {
    a.PushLoad? || a.PushSlot? || a.PushPublish? || a.PopStore? || a.PopLoad? || a.PopRead? || a.PopCas? || a.PopRestore?
  }

  /** How many actions the owner is away from the end of its operation, at most. */
  function OwnerLeft<T>(c: Owner<T>): int {
    match c
    case Idle => 0
    case Pushing(_, _, count, done) => 1 + count - done
    case PopLoading(_) => 4
    case PopReading(_, _, _) => 3
    case PopRacing(_, _) => 2
    case PopRestoring(_, _) => 1
  }

  function ThiefLeft<T>(c: Thief<T>): nat {
    match c
    case Resting => 0
    case Loaded(_) => 3
    case Checked(_) => 2
    case Ready(_, _) => 1
  }

  /** A push takes n + 2 actions for n values that fit, a pop at most five: each brings the end nearer, nobody retries. */
  lemma OwnerGoesOn<T>(s: State<T>, a: Action<T>)
    requires Inv(s) && Enabled(s, a) && Defined(s, a) && ByOwner(a)
    ensures var c, d := s.owner, Apply(s, a).owner;
      if c.Idle? then if a.PushLoad? then d.Pushing? && d.vals == a.vals && d.done == 0 else a.PopStore? && d.PopLoading?
      else 0 <= OwnerLeft(d) < OwnerLeft(c) && (c.Pushing? && !d.Idle? ==> d == c.(done := c.done + 1))
  {
    hide RingOk;
    hide ThiefOk;
    hide Slot;
  }

  /** A steal takes at most four actions. */
  lemma ThiefGoesOn<T>(s: State<T>, a: Action<T>, k: nat)
    requires Enabled(s, a) && Defined(s, a) && k < |s.thieves|
    requires a == StealLoad(k) || a == StealCheck(k) || a == StealRead(k) || a == StealCas(k)
    ensures k < |Apply(s, a).thieves|
    ensures var c, d := s.thieves[k], Apply(s, a).thieves[k];
      if c.Resting? then a.StealLoad? && d.Loaded? else ThiefLeft(d) < ThiefLeft(c) && (!d.Resting? ==> d.top == c.top)
  {
    hide Slot;
  }

  lemma OwnerCanGoOn<T>(s: State<T>)
    requires Inv(s) && !s.owner.Idle?
    ensures exists a: Action<T> :: ByOwner(a) && Enabled(s, a) && Defined(s, a)
  {
    var a: Action<T> := match s.owner
      case Idle => PopStore
      case Pushing(_, _, count, done) => if done < count then PushSlot else PushPublish
      case PopLoading(_) => PopLoad
      case PopReading(_, _, _) => PopRead
      case PopRacing(_, _) => PopCas
      case PopRestoring(_, _) => PopRestore;
    assert OwnerOk(s);
    AlwaysDefined(s, a);
    assert ByOwner(a);
  }

  lemma ThiefCanGoOn<T>(s: State<T>, k: nat)
    requires Inv(s) && k < |s.thieves|
    ensures var a: Action<T> := match s.thieves[k]
      case Resting => StealLoad(k)
      case Loaded(_) => StealCheck(k)
      case Checked(_) => StealRead(k)
      case Ready(_, _) => StealCas(k);
      Enabled(s, a) && Defined(s, a)
  {
    var a: Action<T> := match s.thieves[k]
      case Resting => StealLoad(k)
      case Loaded(_) => StealCheck(k)
      case Checked(_) => StealRead(k)
      case Ready(_, _) => StealCas(k);
    AlwaysDefined(s, a);
  }
}
