// What `empty()` of the deque tells a thread that is neither owner nor thief: it loads bottom, then top, and
// answers top >= bottom. Owner and thieves may act between the two loads, and a pop under way has lowered bottom
// although its element is still in the deque, so the answer is not exact; proved here is what it does mean.

module BoundedQueueObserver {
  import opened Common
  import opened BoundedQueueProtocol
  import opened BoundedQueueTheorems

  /**
   * An observer between its two loads. `first` is the deque at the first load, `left` what no operation has removed
   * of it since; `pops` and `steals` count the removals before that load.
   */
  datatype Look<T> =
    | Away
    | Seen(bottom: int, first: seq<T>, left: seq<T>, pops: nat, steals: nat)

  datatype Watched<T> = Watched(q: State<T>, looks: seq<Look<T>>)

  datatype Event<T> =
    | Act(a: Action<T>)
    | LoadBottom(k: nat)
    | LoadTop(k: nat)

  function InitWatched<T>(cap: nat, thieves: nat, observers: nat): Watched<T> {
    Watched(InitState(cap, thieves), seq(observers, _ => Away))
  }

  predicate Possible<T>(w: Watched<T>, e: Event<T>) {
    match e
    case Act(a) => Enabled(w.q, a) && Defined(w.q, a)
    case LoadBottom(k) => k < |w.looks| && w.looks[k].Away?
    case LoadTop(k) => k < |w.looks| && w.looks[k].Seen?
  }

  /** What an operation on a deque of `size` elements leaves of its first |left| ones. */
  function Survivors<T>(left: seq<T>, size: nat, op: Op<T>): seq<T> {
    match op
    case PopBack(_) => if |left| == size && left != [] then left[..|left| - 1] else left
    case PopFront(_) => if left == [] then [] else left[1..]
    case _ => left
  }

  function After<T>(look: Look<T>, size: nat, op: Op<T>): Look<T> {
    if look.Seen? then look.(left := Survivors(look.left, size, op)) else look
  }

  function Happen<T>(w: Watched<T>, e: Event<T>): Watched<T>
    requires Possible(w, e)
  {
    match e
    case Act(a) =>
      Watched(Apply(w.q, a), seq(|w.looks|, k requires 0 <= k < |w.looks| => After(w.looks[k], |w.q.deq|, Linearized(w.q, a))))
    case LoadBottom(k) =>
      w.(looks := w.looks[k := Seen(w.q.bottom, w.q.deq, w.q.deq, |w.q.popped|, |w.q.stolen|)])
    case LoadTop(k) => w.(looks := w.looks[k := Away])
  }

  /** The answer of the second load. */
  predicate ReportsEmpty<T>(w: Watched<T>, k: nat)
    requires Possible(w, LoadTop(k))
  {
    w.q.top >= w.looks[k].bottom
  }

  /** The element that the owner's pop has reserved and not decided yet. */
  function Reserved<T>(s: State<T>): Option<T> {
    if Undecided(s.owner) && s.deq != [] then Some(Last(s.deq)) else None
  }

  // ---------------------------------------------------------------------------------
  // Invariant
  // ---------------------------------------------------------------------------------

  /** What is left of the first load's elements is in front; of the others each has been popped or stolen since. */
  ghost predicate Accounted<T>(s: State<T>, look: Look<T>)
    requires look.Seen?
  {
    && look.left <= s.deq
    && look.pops <= |s.popped| && look.steals <= |s.stolen|
    && multiset(look.first) <= multiset(look.left) + multiset(s.popped[look.pops..]) + multiset(s.stolen[look.steals..])
  }

  /** What is left lies below the bottom that was loaded, but for an element that is still reserved. */
  ghost predicate Below<T>(s: State<T>, look: Look<T>)
    requires look.Seen?
  {
    && look.bottom - s.top <= |look.first|
    && (|| look.left == []
        || s.top + |look.left| <= look.bottom
        || (s.top + |look.left| == look.bottom + 1 && Undecided(s.owner) && s.owner.b == look.bottom && look.left == s.deq))
  }

  ghost predicate LookOk<T>(s: State<T>, look: Look<T>) {
    look.Seen? ==> Accounted(s, look) && Below(s, look)
  }

  ghost predicate WatchInv<T>(w: Watched<T>) {
    && Inv(w.q)
    && forall k :: 0 <= k < |w.looks| ==> LookOk(w.q, w.looks[k])
  }

  lemma FirstLookOk<T>(s: State<T>)
    requires Inv(s)
    ensures LookOk(s, Seen(s.bottom, s.deq, s.deq, |s.popped|, |s.stolen|))
  {
    hide Slot;
  }

  /** A removed element moves from what is left to what has been removed. */
  lemma AccountedAfter<T>(s: State<T>, a: Action<T>, look: Look<T>)
    requires Inv(s) && Enabled(s, a) && Defined(s, a) && look.Seen? && Accounted(s, look)
    ensures Accounted(Apply(s, a), After(look, |s.deq|, Linearized(s, a)))
  {
    hide Inv;
    hide Apply;
    hide Enabled;
    hide Defined;
    hide Linearized;
    var s' := Apply(s, a);
    if Linearized(s, a).PopBack? {
      PopBackIs(s, a);
      BackRemoved(s, s', look);
    } else if Linearized(s, a).PopFront? {
      StealFrontIs(s, a);
      FrontRemoved(s, s', look);
    } else {
      NothingRemoved(s, a);
    }
  }

  lemma PopBackIs<T>(s: State<T>, a: Action<T>)
    requires Inv(s) && Enabled(s, a) && Defined(s, a) && Linearized(s, a).PopBack?
    ensures var s' := Apply(s, a);
      && s.deq != [] && s'.deq == s.deq[..|s.deq| - 1]
      && s'.popped == s.popped + [Last(s.deq)] && s'.stolen == s.stolen
  {
    hide Slot;
  }

  lemma StealFrontIs<T>(s: State<T>, a: Action<T>)
    requires Inv(s) && Enabled(s, a) && Defined(s, a) && Linearized(s, a).PopFront?
    ensures var s' := Apply(s, a);
      && s.deq != [] && s'.deq == s.deq[1..]
      && s'.popped == s.popped && s'.stolen == s.stolen + [s.deq[0]]
  {
    hide Slot;
    assert ThiefOk(s, a.k);
  }

  lemma NothingRemoved<T>(s: State<T>, a: Action<T>)
    requires Inv(s) && Enabled(s, a) && Defined(s, a) && !Linearized(s, a).PopBack? && !Linearized(s, a).PopFront?
    ensures var s' := Apply(s, a);
      s.deq <= s'.deq && s'.popped == s.popped && s'.stolen == s.stolen
  {
    hide Slot;
  }

  lemma BackRemoved<T>(s: State<T>, s': State<T>, look: Look<T>)
    requires look.Seen? && Accounted(s, look) && s.deq != [] && s'.deq == s.deq[..|s.deq| - 1]
    requires s'.popped == s.popped + [Last(s.deq)] && s'.stolen == s.stolen
    ensures Accounted(s', look.(left := if |look.left| == |s.deq| then look.left[..|look.left| - 1] else look.left))
  {
    assert s'.popped[look.pops..] == s.popped[look.pops..] + [Last(s.deq)];
    if |look.left| == |s.deq| {
      assert look.left == s.deq;
      SplitLast(s.deq);
    }
  }

  lemma FrontRemoved<T>(s: State<T>, s': State<T>, look: Look<T>)
    requires look.Seen? && Accounted(s, look) && s.deq != [] && s'.deq == s.deq[1..]
    requires s'.popped == s.popped && s'.stolen == s.stolen + [s.deq[0]]
    ensures Accounted(s', look.(left := if look.left == [] then [] else look.left[1..]))
  {
    assert s'.stolen[look.steals..] == s.stolen[look.steals..] + [s.deq[0]];
    if look.left != [] {
      SplitFirst(look.left);
      assert look.left[1..] <= s.deq[1..];
    }
  }

  /** What the actions do to the indices: top never falls, and a pop stays undecided while it is on an element. */
  lemma IndicesAfter<T>(s: State<T>, a: Action<T>)
    requires Inv(s) && Enabled(s, a) && Defined(s, a)
    ensures var s', op := Apply(s, a), Linearized(s, a);
      && s'.top == s.top + (if op.PopFront? || (a.PopCas? && op.PopBack?) then 1 else 0)
      && (a.PopCas? && op.PopBack? ==> |s.deq| == 1)
      && (Undecided(s.owner) && s'.deq != [] && !op.PopBack? ==> Undecided(s'.owner) && s'.owner.b == s.owner.b)
      && (Undecided(s.owner) ==> !op.PushBack?)
  {
    hide Slot;
    if a.StealCas? { assert ThiefOk(s, a.k); }
  }

  lemma BelowAfter<T>(s: State<T>, a: Action<T>, look: Look<T>)
    requires Inv(s) && Enabled(s, a) && Defined(s, a) && look.Seen? && Accounted(s, look) && Below(s, look)
    ensures Below(Apply(s, a), After(look, |s.deq|, Linearized(s, a)))
  {
    AccountedAfter(s, a, look);
    IndicesAfter(s, a);
    hide Inv;
    hide Apply;
    hide Enabled;
    hide Defined;
    hide Linearized;
    hide Undecided;
    var s' := Apply(s, a);
    if Linearized(s, a).PopBack? {
      PopBackIs(s, a);
    } else if Linearized(s, a).PopFront? {
      StealFrontIs(s, a);
    } else {
      NothingRemoved(s, a);
    }
  }

  lemma WatchStep<T>(w: Watched<T>, e: Event<T>)
    requires WatchInv(w) && Possible(w, e)
    ensures WatchInv(Happen(w, e))
  {
    hide Inv;
    hide LookOk;
    hide Apply;
    hide Linearized;
    hide Enabled;
    hide Defined;
    var w' := Happen(w, e);
    match e {
      case Act(a) =>
        StepInv(w.q, a);
        forall k | 0 <= k < |w'.looks| ensures LookOk(w'.q, w'.looks[k]) { LookAfter(w.q, a, w.looks[k]); }
      case LoadBottom(k) => FirstLookOk(w.q);
      case LoadTop(k) => AwayOk(w.q);
    }
  }

  lemma AwayOk<T>(s: State<T>)
    ensures LookOk(s, Away)
  {
  }

  lemma LookAfter<T>(s: State<T>, a: Action<T>, look: Look<T>)
    requires Inv(s) && Enabled(s, a) && Defined(s, a) && LookOk(s, look)
    ensures LookOk(Apply(s, a), After(look, |s.deq|, Linearized(s, a)))
  {
    if look.Seen? {
      AccountedAfter(s, a, look);
      BelowAfter(s, a, look);
    }
    hide Inv;
    hide Accounted;
    hide Below;
    hide Linearized;
    hide Apply;
  }

  ghost predicate IsWatchRun<T>(run: seq<Watched<T>>, events: seq<Event<T>>, cap: nat, thieves: nat, observers: nat) {
    && |run| == |events| + 1
    && run[0] == InitWatched(cap, thieves, observers)
    && forall i :: 0 <= i < |events| ==> Possible(run[i], events[i]) && run[i + 1] == Happen(run[i], events[i])
  }

  lemma {:induction false} WatchRun<T>(run: seq<Watched<T>>, events: seq<Event<T>>, cap: nat, thieves: nat, observers: nat, i: nat)
    requires cap > 0 && IsWatchRun(run, events, cap, thieves, observers) && i < |run|
    ensures WatchInv(run[i])
  {
    if i == 0 {
      var start := InitWatched<T>(cap, thieves, observers);
      assert Inv(start.q);
    } else {
      WatchRun(run, events, cap, thieves, observers, i - 1);
      hide WatchInv;
      WatchStep(run[i - 1], events[i - 1]);
    }
  }

  // ---------------------------------------------------------------------------------
  // What the answer means
  // ---------------------------------------------------------------------------------

  /**
   * An answer "empty": every element that was there at the first load has been popped or stolen since, but for at
   * most one, which is then the whole deque and reserved by a pop that is still undecided.
   */
  lemma EmptyMeansGoneOrReserved<T>(run: seq<Watched<T>>, events: seq<Event<T>>, cap: nat, thieves: nat, observers: nat,
                                    i: nat, k: nat)
    requires cap > 0 && IsWatchRun(run, events, cap, thieves, observers) && i < |run|
    requires Possible(run[i], LoadTop(k)) && ReportsEmpty(run[i], k)
    ensures var s, look := run[i].q, run[i].looks[k];
      && look.pops <= |s.popped| && look.steals <= |s.stolen|
      && multiset(look.first) <= multiset(look.left) + multiset(s.popped[look.pops..]) + multiset(s.stolen[look.steals..])
      && (look.left == [] || (|look.left| == 1 && s.deq == look.left && Reserved(s) == Some(look.left[0])))
  {
    WatchRun(run, events, cap, thieves, observers, i);
    assert LookOk(run[i].q, run[i].looks[k]);
  }

  /** An answer "not empty": there was an element at the first load. */
  lemma NotEmptyMeansThereWasOne<T>(run: seq<Watched<T>>, events: seq<Event<T>>, cap: nat, thieves: nat, observers: nat,
                                    i: nat, k: nat)
    requires cap > 0 && IsWatchRun(run, events, cap, thieves, observers) && i < |run|
    requires Possible(run[i], LoadTop(k)) && !ReportsEmpty(run[i], k)
    ensures run[i].looks[k].first != []
  {
    WatchRun(run, events, cap, thieves, observers, i);
    assert LookOk(run[i].q, run[i].looks[k]);
  }

  /**
   * For a deque into which no value is pushed twice: after an answer "empty" the only value that was there at the
   * first load and is there now is the reserved one. This is the condition under which the scheduler's rescan passes.
   */
  lemma EmptyLetsPass<T>(run: seq<Watched<T>>, events: seq<Event<T>>, cap: nat, thieves: nat, observers: nat,
                         i: nat, k: nat, v: T)
    requires cap > 0 && IsWatchRun(run, events, cap, thieves, observers) && i < |run|
    requires Possible(run[i], LoadTop(k)) && ReportsEmpty(run[i], k) && Distinct(run[i].q.pushed)
    requires v in run[i].looks[k].first && v in run[i].q.deq
    ensures Reserved(run[i].q) == Some(v)
  {
    EmptyMeansGoneOrReserved(run, events, cap, thieves, observers, i, k);
    WatchRun(run, events, cap, thieves, observers, i);
    var s, look := run[i].q, run[i].looks[k];
    assert LookOk(s, look) && Conserved(s);
    hide Inv;
    StillThere(s, look, v);
  }

  /** If no value is pushed twice, what was removed does not come back. */
  lemma StillThere<T>(s: State<T>, look: Look<T>, v: T)
    requires Conserved(s) && look.Seen? && Accounted(s, look) && Distinct(s.pushed) && v in look.first && v in s.deq
    ensures v in look.left
  {
    DistinctOnce(s.pushed, v);
    var pops, steals := s.popped[look.pops..], s.stolen[look.steals..];
    assert s.popped == s.popped[..look.pops] + pops && s.stolen == s.stolen[..look.steals] + steals;
    assert multiset(s.deq)[v] >= 1 && multiset(look.first)[v] >= 1;
    assert multiset(pops)[v] == multiset(steals)[v] == 0;
  }

  lemma {:induction false} DistinctOnce<T>(c: seq<T>, v: T)
    requires Distinct(c)
    ensures multiset(c)[v] <= 1
  {
    if c != [] {
      DistinctOnce(c[1..], v);
      SplitFirst(c);
      if v == c[0] { assert v !in c[1..]; }
    }
  }

  /** A reserved element stays reserved until it leaves the deque, to the owner or to a thief. */
  lemma ReservedUntilTaken<T>(s: State<T>, a: Action<T>)
    requires Inv(s) && Enabled(s, a) && Defined(s, a) && Reserved(s).Some?
    ensures var s' := Apply(s, a);
      || Reserved(s') == Reserved(s)
      || s'.popped == s.popped + [Reserved(s).value]
      || (s'.stolen == s.stolen + [Reserved(s).value] && s'.deq == [])
  {
    hide Slot;
    if a.StealCas? { assert ThiefOk(s, a.k); }
  }

  // ---------------------------------------------------------------------------------
  // The answer is not exact
  // ---------------------------------------------------------------------------------

  /** One more event at the end of a run. */
  lemma Extend<T>(run: seq<Watched<T>>, events: seq<Event<T>>, cap: nat, thieves: nat, observers: nat, e: Event<T>)
    requires IsWatchRun(run, events, cap, thieves, observers) && Possible(run[|run| - 1], e)
    ensures IsWatchRun(run + [Happen(run[|run| - 1], e)], events + [e], cap, thieves, observers)
  {
    hide Possible;
    hide Happen;
    var r, f := run + [Happen(run[|run| - 1], e)], events + [e];
    forall i | 0 <= i < |f| ensures Possible(r[i], f[i]) && r[i + 1] == Happen(r[i], f[i]) {
      if i < |events| { assert r[i] == run[i] && r[i + 1] == run[i + 1] && f[i] == events[i]; }
    }
  }

  lemma Go<T>(run: seq<Watched<T>>, events: seq<Event<T>>, thieves: nat, e: Event<T>)
    returns (r: seq<Watched<T>>, f: seq<Event<T>>)
    requires IsWatchRun(run, events, 2, thieves, 1) && Possible(run[|run| - 1], e)
    ensures IsWatchRun(r, f, 2, thieves, 1) && r == run + [Happen(run[|run| - 1], e)]
  {
    Extend(run, events, 2, thieves, 1, e);
    r, f := run + [Happen(run[|run| - 1], e)], events + [e];
  }

  /** A deque of two slots that holds x and nothing is under way. */
  function Holding<T>(x: T, thieves: nat): State<T> {
    InitState(2, thieves).(bottom := 1, buf := [Some(x), None], deq := [x], pushed := [x])
  }

  lemma PushRun<T>(x: T, thieves: nat) returns (run: seq<Watched<T>>, events: seq<Event<T>>)
    ensures IsWatchRun(run, events, 2, thieves, 1) && run[|run| - 1] == Watched(Holding(x, thieves), [Away])
  {
    run, events := [InitWatched<T>(2, thieves, 1)], [];
    run, events := Go(run, events, thieves, Act(PushLoad([x])));
    assert run[1] == Watched(InitState(2, thieves).(owner := Pushing(0, [x], 1, 0)), [Away]);
    run, events := Go(run, events, thieves, Act(PushSlot));
    assert run[2] == Watched(InitState(2, thieves).(buf := [Some(x), None], owner := Pushing(0, [x], 1, 1)), [Away]);
    run, events := Go(run, events, thieves, Act(PushPublish));
  }

  /** The owner's pop has lowered bottom; a look that begins and ends now does not see the element it has reserved. */
  lemma PopHides<T>(x: T) returns (run: seq<Watched<T>>, events: seq<Event<T>>)
    ensures IsWatchRun(run, events, 2, 0, 1)
    ensures var w := run[|run| - 1];
      && Possible(w, LoadTop(0)) && ReportsEmpty(w, 0)
      && w.looks[0].first == w.looks[0].left == w.q.deq == [x] && Reserved(w.q) == Some(x)
  {
    run, events := PushRun(x, 0);
    run, events := Go(run, events, 0, Act(PopStore));
    run, events := Go(run, events, 0, LoadBottom(0));
  }

  /** A look begins at a deque that holds x; then y is pushed behind it. */
  lemma LookThenPush<T>(x: T, y: T) returns (run: seq<Watched<T>>, events: seq<Event<T>>, n: nat)
    ensures IsWatchRun(run, events, 2, 1, 1) && |run| == n + 4
    ensures forall i :: n <= i < |run| ==> run[i].q.deq != [] && run[i].looks == [Seen(1, [x], [x], 0, 0)]
    ensures run[|run| - 1].q == Holding(x, 1).(buf := [Some(x), Some(y)], bottom := 2, deq := [x, y], pushed := [x, y])
  {
    run, events := PushRun(x, 1);
    hide IsWatchRun;
    n := |run|;
    var s, look := Holding(x, 1), Seen(1, [x], [x], 0, 0);
    run, events := Go(run, events, 1, LoadBottom(0));
    assert run[n] == Watched(s, [look]);
    run, events := Go(run, events, 1, Act(PushLoad([y])));
    assert run[n + 1] == Watched(s.(owner := Pushing(0, [y], 1, 0)), [look]);
    run, events := Go(run, events, 1, Act(PushSlot));
    assert run[n + 2] == Watched(s.(buf := [Some(x), Some(y)], owner := Pushing(0, [y], 1, 1)), [look]);
    run, events := Go(run, events, 1, Act(PushPublish));
  }

  /** The thief's four actions, one by one. */
  lemma StealOne<T>(s: State<T>, look: Look<T>, e: Event<T>, c: Thief<T>, d: Thief<T>)
    requires s.cap == 2 && |s.buf| == 2 && |s.deq| == 2 && s.top == 0 && s.bottom == 2 && s.thieves == [c]
    requires look.Seen? && s.buf[0] == Some(s.deq[0])
    requires match e
      case Act(a) =>
        || (a == StealLoad(0) && c == Resting && d == Loaded(0)) || (a == StealCheck(0) && c == Loaded(0) && d == Checked(0))
        || (a == StealRead(0) && c == Checked(0) && d == Ready(0, Some(s.deq[0])))
      case _ => false
    ensures Possible(Watched(s, [look]), e) && Happen(Watched(s, [look]), e) == Watched(s.(thieves := [d]), [look])
  {
    assert After(look, 2, Nothing) == look;
  }

  lemma StealLast<T>(s: State<T>, look: Look<T>)
    requires s.cap == 2 && |s.buf| == 2 && |s.deq| == 2 && s.top == 0 && s.thieves == [Ready(0, Some(s.deq[0]))]
    requires look.Seen? && |look.left| == 1
    ensures var w, e := Watched(s, [look]), Act(StealCas(0));
      && Possible(w, e)
      && Happen(w, e) == Watched(s.(top := 1, deq := [s.deq[1]], stolen := s.stolen + [s.deq[0]], thieves := [Resting]),
                                 [look.(left := [])])
  {
    assert s.deq[1..] == [s.deq[1]] && look.left[1..] == [];
  }

  /** Three actions towards a steal. */
  lemma StealRun<T>(run: seq<Watched<T>>, events: seq<Event<T>>, s: State<T>, look: Look<T>)
    returns (r: seq<Watched<T>>, f: seq<Event<T>>)
    requires IsWatchRun(run, events, 2, 1, 1) && run[|run| - 1] == Watched(s, [look]) && look.Seen?
    requires s.cap == 2 && |s.buf| == 2 && |s.deq| == 2 && s.top == 0 && s.bottom == 2 && s.thieves == [Resting]
    requires s.buf[0] == Some(s.deq[0])
    ensures IsWatchRun(r, f, 2, 1, 1) && |r| == |run| + 3 && r[..|run|] == run
    ensures forall i :: |run| <= i < |r| ==> r[i].q.deq == s.deq && r[i].looks == [look]
    ensures r[|r| - 1].q == s.(thieves := [Ready(0, Some(s.deq[0]))])
  {
    var x := s.deq[0];
    StealOne(s, look, Act(StealLoad(0)), Resting, Loaded(0));
    StealOne(s.(thieves := [Loaded(0)]), look, Act(StealCheck(0)), Loaded(0), Checked(0));
    StealOne(s.(thieves := [Checked(0)]), look, Act(StealRead(0)), Checked(0), Ready(0, Some(x)));
    hide *;
    r, f := Go(run, events, 1, Act(StealLoad(0)));
    r, f := Go(r, f, 1, Act(StealCheck(0)));
    r, f := Go(r, f, 1, Act(StealRead(0)));
  }

  /**
   * With no pop at all: between the two loads y is pushed behind x and x is stolen, so the answer is "empty" although
   * the deque has held an element at every moment since the first load.
   */
  lemma PushAndStealHide<T>(x: T, y: T) returns (run: seq<Watched<T>>, events: seq<Event<T>>, n: nat)
    ensures IsWatchRun(run, events, 2, 1, 1) && n < |run|
    ensures forall i :: n <= i < |run| ==> run[i].q.deq != [] && |run[i].looks| == 1 && run[i].looks[0].Seen?
    ensures var w := run[|run| - 1];
      && Possible(w, LoadTop(0)) && ReportsEmpty(w, 0)
      && w.looks[0].first == [x] && w.q.deq == [y] && Reserved(w.q).None?
  {
    run, events, n := LookThenPush(x, y);
    var s, look := run[|run| - 1].q, Seen(1, [x], [x], 0, 0);
    assert run[n + 3] == Watched(s, [look]);
    ghost var before := run;
    run, events := StealRun(run, events, s, look);
    assert forall i :: n <= i < |before| ==> run[i] == before[i];
    StealLast(s.(thieves := [Ready(0, Some(x))]), look);
    hide IsWatchRun;
    hide Happen;
    run, events := Go(run, events, 1, Act(StealCas(0)));
  }
}
