// What the invariant of the event count gives over whole runs.

module NotifierTheorems {
  import opened Common
  import opened NotifierProtocol
  import opened NotifierInvariant

  /** A run: any number of threads, any interleaving, from the constructed notifier. */
  ghost predicate IsRun(run: seq<State>, acts: seq<Action>, waiters: nat, notifiers: nat) {
    && |run| == |acts| + 1
    && run[0] == InitState(waiters, notifiers)
    && forall i :: 0 <= i < |acts| ==> Step(run[i], acts[i], run[i + 1])
  }

  lemma {:induction false} RunInv(run: seq<State>, acts: seq<Action>, waiters: nat, notifiers: nat, i: nat)
    requires IsRun(run, acts, waiters, notifiers) && i < |run|
    ensures Inv(run[i])
  {
    if i == 0 {
      InitInv(waiters, notifiers);
    } else {
      RunInv(run, acts, waiters, notifiers, i - 1);
      assert Step(run[i - 1], acts[i - 1], run[i]);
      StepInv(run[i - 1], acts[i - 1]);
    }
  }

  // ---------------------------------------------------------------------------------
  // Tickets
  // ---------------------------------------------------------------------------------

  ghost predicate Holds(s: State, w: nat, t: nat) {
    IsWaiter(s, w) && InProtocol(s.pc[w]) && s.pc[w].ticket == t
  }

  ghost predicate IsHeld(s: State, t: nat) { exists w: nat :: Holds(s, w, t) }

  /**
   * The tickets in [epoch, epoch + prewaiters) are held one-to-one by waiting threads, and every
   * other ticket still held was consumed by a notify.
   */
  lemma TicketsHeldOneToOne(s: State)
    requires Inv(s)
    ensures forall t: nat :: s.word.epoch <= t < s.word.epoch + s.word.pre ==> IsHeld(s, t)
    ensures forall v: nat, w: nat, t: nat :: Holds(s, v, t) && Holds(s, w, t) && s.word.epoch <= t ==> v == w
    ensures forall w: nat, t: nat :: Holds(s, w, t) && s.word.epoch <= t ==> t < s.word.epoch + s.word.pre
    ensures forall w: nat, t: nat :: Holds(s, w, t) && t < s.word.epoch ==> t < |s.settled| && s.settled[t] == ByNotify
  {
    forall t: nat | s.word.epoch <= t < s.word.epoch + s.word.pre ensures IsHeld(s, t) {
      assert Holds(s, s.queue[t - s.word.epoch], t);
    }
    forall w: nat, t: nat | Holds(s, w, t)
      ensures t < s.word.epoch ==> t < |s.settled| && s.settled[t] == ByNotify
      ensures s.word.epoch <= t ==> t < s.word.epoch + s.word.pre && s.queue[t - s.word.epoch] == w
    {
      assert WaiterOk(s, w);
    }
  }

  function CountPrepares(acts: seq<Action>): nat {
    if acts == [] then 0
    else CountPrepares(acts[..|acts| - 1]) + (if acts[|acts| - 1].Prepare? then 1 else 0)
  }

  lemma PrepareStep(s: State, a: Action, s': State)
    requires Inv(s) && Step(s, a, s')
    ensures s'.word.epoch + s'.word.pre == s.word.epoch + s.word.pre + (if a.Prepare? then 1 else 0)
  {
    if a.NotifyPop? { assert NotifierOk(s, a.k); }
  }

  /** epoch + prewaiters is the number of prepare_wait calls made so far. */
  lemma {:induction false} PreparesAreCounted(run: seq<State>, acts: seq<Action>, waiters: nat, notifiers: nat, i: nat)
    requires IsRun(run, acts, waiters, notifiers) && i < |run|
    ensures run[i].word.epoch + run[i].word.pre == CountPrepares(acts[..i])
  {
    if i > 0 {
      PreparesAreCounted(run, acts, waiters, notifiers, i - 1);
      RunInv(run, acts, waiters, notifiers, i - 1);
      assert acts[..i][..i - 1] == acts[..i - 1];
      assert Step(run[i - 1], acts[i - 1], run[i]);
      PrepareStep(run[i - 1], acts[i - 1], run[i]);
    }
  }

  /** A consumed ticket stays consumed, by the same party. */
  lemma SettledAppendOnly(s: State, a: Action, s': State)
    requires Inv(s) && Step(s, a, s')
    ensures s.settled <= s'.settled
  {
  }

  /** Leaving by the overtaken branch happens only if a notify consumed the caller's ticket. */
  lemma OvertakenMeansNotified(s: State, a: Action)
    requires Inv(s) && Enabled(s, a) && (a.CommitOvertaken? || a.CancelOvertaken?)
    ensures s.pc[a.w].ticket < |s.settled| && s.settled[s.pc[a.w].ticket] == ByNotify
  {
    assert WaiterOk(s, a.w);
  }

  // ---------------------------------------------------------------------------------
  // The ticket queue cannot jam
  // ---------------------------------------------------------------------------------

  function Actor(a: Action): nat
    requires !a.NotifyLoad? && !a.NotifyNone? && !a.NotifyFast? && !a.NotifyReadNext? && !a.NotifyPop?
          && !a.NotifyUnlink? && !a.NotifyAllCas? && !a.UnparkRead? && !a.UnparkSignal?
  {
    a.w
  }

  predicate ByWaiter(a: Action, w: nat) {
    && !a.NotifyLoad? && !a.NotifyNone? && !a.NotifyFast? && !a.NotifyReadNext? && !a.NotifyPop?
    && !a.NotifyUnlink? && !a.NotifyAllCas? && !a.UnparkRead? && !a.UnparkSignal?
    && Actor(a) == w
  }

  /** From s the thread w alone can bring the epoch forward, in at most n of its own actions. */
  ghost predicate CanSettleAlone(s: State, w: nat, n: nat)
    decreases n
  {
    n > 0 && exists a, s' :: ByWaiter(a, w) && Step(s, a, s')
                          && (s'.word.epoch == s.word.epoch + 1
                              || (s'.word == s.word && s'.queue == s.queue && CanSettleAlone(s', w, n - 1)))
  }

  lemma SettleNext(s: State, a: Action, w: nat, n: nat)
    requires Inv(s) && Enabled(s, a) && Defined(s, a) && ByWaiter(a, w) && n > 0
    requires Apply(s, a).word.epoch == s.word.epoch + 1
          || (Apply(s, a).word == s.word && Apply(s, a).queue == s.queue && CanSettleAlone(Apply(s, a), w, n - 1))
    ensures CanSettleAlone(s, w, n)
  {
    assert Step(s, a, Apply(s, a));
  }

  lemma SettleFromLinking(s: State, w: nat, n: nat)
    requires Inv(s) && IsWaiter(s, w) && s.pc[w].Linking? && s.pc[w].snap.word == s.word && n >= 1
    ensures CanSettleAlone(s, w, n)
  {
    AlwaysDefined(s, CommitCas(w, false));
    SettleNext(s, CommitCas(w, false), w, n);
  }

  lemma SettleFromFreshCommit(s: State, w: nat, n: nat)
    requires Inv(s) && IsWaiter(s, w) && s.pc[w].Committing? && s.pc[w].snap.word == s.word
    requires s.pc[w].ticket == s.word.epoch && n >= 2
    ensures CanSettleAlone(s, w, n)
  {
    StepInv(s, CommitLink(w));
    SettleFromLinking(Apply(s, CommitLink(w)), w, n - 1);
    SettleNext(s, CommitLink(w), w, n);
  }

  lemma SettleFromFreshCancel(s: State, w: nat, n: nat)
    requires Inv(s) && IsWaiter(s, w) && s.pc[w].Cancelling? && s.pc[w].snap.word == s.word
    requires s.pc[w].ticket == s.word.epoch && n >= 1
    ensures CanSettleAlone(s, w, n)
  {
    AlwaysDefined(s, CancelCas(w, false));
    SettleNext(s, CancelCas(w, false), w, n);
  }

  lemma SettleAfterReload(s: State, a: Action, w: nat, n: nat)
    requires Inv(s) && IsWaiter(s, w) && Enabled(s, a) && ByWaiter(a, w) && n >= 3
    requires InProtocol(s.pc[w]) && s.pc[w].ticket == s.word.epoch
    requires a.CommitLoad? || a.CommitSpin? || a.CancelSpin?
          || (a == CommitCas(w, false) && s.pc[w].snap.word != s.word)
          || (a == CancelCas(w, false) && s.pc[w].snap.word != s.word)
    ensures CanSettleAlone(s, w, n)
  {
    hide CanSettleAlone;
    StepInv(s, a);
    var s' := Apply(s, a);
    if a.CancelSpin? || a.CancelCas? { SettleFromFreshCancel(s', w, n - 1); } else { SettleFromFreshCommit(s', w, n - 1); }
    SettleNext(s, a, w, n);
  }

  lemma SettleFromLinkingAny(s: State, w: nat, n: nat)
    requires Inv(s) && IsWaiter(s, w) && s.pc[w].Linking? && s.pc[w].ticket == s.word.epoch && n >= 3
    ensures CanSettleAlone(s, w, n)
  {
    hide CanSettleAlone;
    if s.pc[w].snap.word == s.word { SettleFromLinking(s, w, n); } else { SettleAfterReload(s, CommitCas(w, false), w, n); }
  }

  lemma SettleThroughLink(s: State, w: nat)
    requires Inv(s) && IsWaiter(s, w) && s.pc[w].Committing? && s.pc[w].ticket == s.word.epoch
    requires s.pc[w].snap.word.epoch == s.word.epoch
    ensures CanSettleAlone(s, w, 4)
  {
    hide CanSettleAlone;
    hide Inv;
    StepInv(s, CommitLink(w));
    SettleFromLinkingAny(Apply(s, CommitLink(w)), w, 3);
    SettleNext(s, CommitLink(w), w, 4);
  }

  lemma SettleFromCommitting(s: State, w: nat)
    requires Inv(s) && IsWaiter(s, w) && s.pc[w].Committing? && s.pc[w].ticket == s.word.epoch
    ensures CanSettleAlone(s, w, 4)
  {
    hide CanSettleAlone;
    assert WaiterOk(s, w);
    if s.pc[w].snap.word.epoch < s.word.epoch { SettleAfterReload(s, CommitSpin(w), w, 4); } else { SettleThroughLink(s, w); }
  }

  lemma SettleFromCancelling(s: State, w: nat)
    requires Inv(s) && IsWaiter(s, w) && s.pc[w].Cancelling? && s.pc[w].ticket == s.word.epoch
    ensures CanSettleAlone(s, w, 4)
  {
    hide CanSettleAlone;
    assert WaiterOk(s, w);
    if s.pc[w].snap.word.epoch < s.word.epoch { SettleAfterReload(s, CancelSpin(w), w, 4); }
    else if s.pc[w].snap.word == s.word { SettleFromFreshCancel(s, w, 4); }
    else { SettleAfterReload(s, CancelCas(w, false), w, 4); }
  }

  lemma SettleFromPrepared(s: State, w: nat)
    requires Inv(s) && IsWaiter(s, w) && s.pc[w].Prepared? && s.pc[w].ticket == s.word.epoch
    ensures CanSettleAlone(s, w, 4)
  {
    hide CanSettleAlone;
    hide Inv;
    StepInv(s, CancelLoad(w));
    SettleFromFreshCancel(Apply(s, CancelLoad(w)), w, 3);
    SettleNext(s, CancelLoad(w), w, 4);
  }

  /**
   * Whenever somebody is counted as a prewaiter, the holder of the current ticket settles it
   * within four actions of its own, wherever it stands and whatever the others do not do.
   */
  lemma TurnHolderCanAlwaysSettle(s: State)
    requires Inv(s) && s.word.pre > 0
    ensures Holds(s, s.queue[0], s.word.epoch) && CanSettleAlone(s, s.queue[0], 4)
  {
    hide CanSettleAlone;
    var w := s.queue[0];
    match s.pc[w] {
      case Prepared(_) => SettleFromPrepared(s, w);
      case Reset(_) => SettleAfterReload(s, CommitLoad(w), w, 4);
      case Committing(_, _) => SettleFromCommitting(s, w);
      case Linking(_, _) => SettleFromLinkingAny(s, w, 4);
      case Cancelling(_, _) => SettleFromCancelling(s, w);
    }
  }

  // ---------------------------------------------------------------------------------
  // The stack of sleepers
  // ---------------------------------------------------------------------------------

  /**
   * No ABA: the compare-exchange of a pop succeeds only if the link read earlier is, now, the true
   * successor of the top, so that the new top again starts the chain of the remaining sleepers.
   */
  lemma PopInstallsTrueSuccessor(s: State, k: nat)
    requires Inv(s) && IsNotifier(s, k) && s.nc[k].Popping? && s.word == s.nc[k].snap.word
    ensures s.stack != [] && s.word.top == Some(s.stack[0]) && s.stack[0] < |s.next| && s.next[s.stack[0]] == s.nc[k].link
    ensures s.nc[k].link == Head(s.stack[1..]) && Linked(s.next, s.stack[1..])
  {
    assert NotifierOk(s, k);
    SameWordSameStack(s, s.nc[k].snap);
    LinkedTail(s.next, s.stack);
  }

  /** The chain from the top is acyclic and holds exactly the waiters that were pushed and not yet popped. */
  lemma StackHoldsTheCommitted(s: State)
    requires Inv(s)
    ensures s.word.top == Head(s.stack) && Linked(s.next, s.stack) && Distinct(s.stack)
    ensures forall w :: 0 <= w < |s.pc| ==>
      (w in s.stack <==> s.pushes[w] > s.signals[w] && forall k :: 0 <= k < |s.nc| ==> w !in Hand(s.nc[k]))
  {
    LinkedDistinct(s.next, s.stack);
    forall w | 0 <= w < |s.pc|
      ensures w in s.stack <==> s.pushes[w] > s.signals[w] && forall k :: 0 <= k < |s.nc| ==> w !in Hand(s.nc[k])
    {
      assert WaiterOk(s, w);
      forall k | 0 <= k < |s.nc| && w in Hand(s.nc[k]) ensures s.loc[w] == InHand(k) { assert NotifierOk(s, k); }
    }
  }

  /** No two notifiers ever hold the same waiter. */
  lemma HandsAreDisjoint(s: State, j: nat, k: nat, w: nat)
    requires Inv(s) && j < |s.nc| && k < |s.nc| && w in Hand(s.nc[j]) && w in Hand(s.nc[k])
    ensures j == k && w !in s.stack
  {
    assert NotifierOk(s, j) && NotifierOk(s, k);
  }

  /**
   * Each push is answered by exactly one signal, and _park lets the waiter go only after it: if s
   * is just after a push of w and s' just after the matching return from _park, then w was
   * signalled exactly once in between.
   */
  lemma SignalledExactlyOnce(s: State, s': State, w: nat)
    requires Inv(s) && Inv(s') && IsWaiter(s, w) && IsWaiter(s', w)
    requires s.pc[w].Pushed? && s.loc[w] == InStack
    requires s'.pc[w].Out? && s'.releases[w] == s.releases[w] + 1
    ensures s'.signals[w] == s.signals[w] + 1 && s'.pushes[w] == s.pushes[w]
  {
    assert WaiterOk(s, w) && WaiterOk(s', w);
  }

  /** _park blocks exactly the waiters that have not been signalled since their push. */
  lemma ParkedUntilSignalled(s: State, w: nat)
    requires Inv(s) && IsWaiter(s, w) && s.pc[w].Asleep?
    ensures Enabled(s, ParkReturn(w)) <==> s.signals[w] == s.pushes[w]
    ensures s.signals[w] < s.pushes[w] ==> w in s.stack || exists k :: 0 <= k < |s.nc| && w in Hand(s.nc[k])
  {
    assert WaiterOk(s, w);
    if s.loc[w].InHand? { assert w in Hand(s.nc[s.loc[w].k]); }
  }

  lemma HeadOfQueue(s: State)
    requires Inv(s)
    ensures s.queue != [] ==> s.queue[0] < |s.pc| && InProtocol(s.pc[s.queue[0]])
  {
  }

  lemma HeadOfStack(s: State)
    requires Inv(s)
    ensures s.stack != [] ==> s.stack[0] < |s.pc| && s.loc[s.stack[0]] == InStack
  {
  }

  /** Once every thread has left the protocol the word is clean, as the destructor asserts. */
  lemma QuiescentWordIsClean(s: State)
    requires Inv(s) && forall w :: 0 <= w < |s.pc| ==> s.pc[w].Out?
    ensures s.word.pre == 0 && s.word.top == None
    ensures forall w :: 0 <= w < |s.pc| ==> s.pushes[w] == s.signals[w] == s.releases[w]
  {
    forall w | 0 <= w < |s.pc| ensures s.pushes[w] == s.signals[w] == s.releases[w] && s.loc[w] == Nowhere {
      assert WaiterOk(s, w);
    }
    assert s.queue == [] by { HeadOfQueue(s); }
    assert s.stack == [] by { HeadOfStack(s); }
  }

  // ---------------------------------------------------------------------------------
  // Who is blocked: the view the scheduler takes of the protocol
  // ---------------------------------------------------------------------------------

  /** Waiter w is counted as waiting: nobody has consumed its ticket or popped its node. */
  predicate Blocked(s: State, w: nat) { w in s.queue || w in s.stack }

  function BlockedSet(s: State): set<nat> {
    set w | 0 <= w < |s.pc| && Blocked(s, w)
  }

  lemma SamePeople(s: State, a: Action)
    requires Enabled(s, a) && Defined(s, a)
    ensures |Apply(s, a).pc| == |s.pc|
  {
  }

  /** Only the waiter's own prepare_wait makes it blocked. */
  lemma BlockedOnlyByPrepare(s: State, a: Action, s': State, w: nat)
    requires Inv(s) && Step(s, a, s') && IsWaiter(s, w) && a != Prepare(w)
    ensures Blocked(s', w) ==> Blocked(s, w)
  {
    AlwaysDefined(s, a);
    match a {
      case CommitCas(v, b) => WaiterCasDefined(s, v);
      case CancelCas(v, b) => WaiterCasDefined(s, v);
      case _ =>
    }
  }

  /** The word shows no waiters exactly if nobody is blocked. */
  lemma NoWaitersIffNobodyBlocked(s: State)
    requires Inv(s)
    ensures NoWaiters(s.word) <==> forall w :: 0 <= w < |s.pc| ==> !Blocked(s, w)
  {
    if s.queue != [] { assert Blocked(s, s.queue[0]); assert s.queue[0] < |s.pc|; }
    if s.stack != [] { assert Blocked(s, s.stack[0]); assert s.stack[0] < |s.pc|; }
  }

  /** The action by which a notify call takes effect: it consumes somebody. */
  predicate Consumes(s: State, a: Action) {
    || (a.NotifyFast? && IsNotifier(s, a.k) && s.nc[a.k].Testing? && !a.spurious && s.word == s.nc[a.k].snap.word)
    || (a.NotifyAllCas? && IsNotifier(s, a.k) && s.nc[a.k].Testing? && !a.spurious && s.word == s.nc[a.k].snap.word)
    || (a.NotifyPop? && IsNotifier(s, a.k) && s.nc[a.k].Popping? && !a.spurious && s.word == s.nc[a.k].snap.word)
  }

  /** The oldest prewaiter is queued once and on no stack; the top of the stack is on it once. */
  lemma HeadsOnce(s: State)
    requires Inv(s)
    ensures s.queue != [] ==> s.queue[0] < |s.pc| && s.queue[0] !in s.queue[1..] && s.queue[0] !in s.stack
    ensures s.stack != [] ==> s.stack[0] < |s.pc| && s.stack[0] !in s.stack[1..]
  {
    LinkedDistinct(s.next, s.stack);
    if s.queue != [] {
      assert WaiterOk(s, s.queue[0]);
    }
    hide NotifierOk;
    hide Linked;
    hide WaiterOk;
  }

  /** What the invariant says at a consuming action. */
  lemma ConsumingCall(s: State, a: Action)
    requires Inv(s) && Consumes(s, a)
    ensures |s.queue| == s.word.pre && s.nc[a.k].req != Quota(0) && (s.word.top.Some? ==> s.stack != [])
    ensures a.NotifyPop? ==> s.queue == [] && s.stack != [] && s.nc[a.k].snap.word.pre == 0
  {
    assert NotifierOk(s, a.k);
    hide Linked;
    hide WaiterOk;
    hide PcOk;
    if a.NotifyPop? {
      SameWordSameStack(s, s.nc[a.k].snap);
    }
  }

  /** What a consuming action leaves of queue and stack. */
  lemma ConsumeLeaves(s: State, a: Action, s': State)
    requires Inv(s) && Step(s, a, s') && Consumes(s, a)
    ensures |s'.pc| == |s.pc| && (s.queue != [] || s.stack != [])
    ensures s.queue != [] ==> 0 < |s.queue| - |s'.queue| && s'.queue == s.queue[|s.queue| - |s'.queue|..]
    ensures s.queue == [] ==> s'.queue == [] && s'.stack <= s.stack[1..]
    ensures s'.stack == [] || s'.stack == s.stack || s'.stack == s.stack[1..]
  {
    hide Inv;
    ConsumingCall(s, a);
  }

  /** A notify that takes effect unblocks at least one waiter that was blocked. */
  lemma ConsumeUnblocks(s: State, a: Action, s': State) returns (w: nat)
    requires Inv(s) && Step(s, a, s') && Consumes(s, a)
    ensures IsWaiter(s, w) && Blocked(s, w) && !Blocked(s', w)
  {
    hide Step;
    hide Consumes;
    hide WaiterOk;
    hide NotifierOk;
    hide QueueOk;
    hide StackOk;
    HeadsOnce(s);
    ConsumeLeaves(s, a, s');
    w := if s.queue != [] then s.queue[0] else s.stack[0];
    if s.queue != [] {
      var n := |s.queue| - |s'.queue|;
      assert s'.queue == s.queue[1..][n - 1..];
      assert forall v :: v in s'.queue ==> v in s.queue[1..];
      assert forall v :: v in s'.stack ==> v in s.stack;
    } else {
      assert forall v :: v in s'.stack ==> v in s.stack[1..];
    }
  }

  /** notify_all leaves nobody blocked. */
  lemma NotifyAllUnblocksAll(s: State, a: Action, s': State, w: nat)
    requires Inv(s) && Step(s, a, s') && a.NotifyAllCas? && Consumes(s, a)
    ensures !Blocked(s', w)
  {
  }

  /**
   * A notify call ends only after it has taken effect, or after it loaded a word that showed no
   * waiters at all.
   */
  lemma NotifyEndsEffective(s: State, a: Action, s': State, k: nat)
    requires Inv(s) && Step(s, a, s') && IsNotifier(s, k) && !s.nc[k].Idle? && s'.nc[k].Idle?
    ensures a == NotifyNone(k) || (Consumes(s, a) && a.k == k) || a == UnparkSignal(k)
  {
  }
}
