// How many waiters a notify call serves: in every run, a call for n waiters unblocks n of them, unless at some moment
// since it began nobody was blocked.

module NotifierQuota {
  import opened Common
  import opened NotifierProtocol
  import opened NotifierInvariant
  import opened NotifierTheorems

  // ---------------------------------------------------------------------------------
  // Counting the blocked
  // ---------------------------------------------------------------------------------

  ghost function Members(c: seq<nat>): set<nat> { set v | v in c }

  lemma {:induction false} DistinctCount(c: seq<nat>)
    requires Distinct(c)
    ensures |Members(c)| == |c|
  {
    if c != [] {
      DistinctCount(c[1..]);
      assert Members(c) == {c[0]} + Members(c[1..]);
    }
  }

  /** No waiter is counted twice: not in the queue, not on the stack, and not in both. */
  lemma BlockedCount(s: State)
    requires Inv(s)
    ensures |BlockedSet(s)| == s.word.pre + |s.stack|
  {
    QueueDistinct(s);
    LinkedDistinct(s.next, s.stack);
    DistinctCount(s.queue);
    DistinctCount(s.stack);
    forall i | 0 <= i < |s.queue| ensures s.loc[s.queue[i]] == Nowhere { assert WaiterOk(s, s.queue[i]); }
    assert Members(s.queue) !! Members(s.stack);
    assert BlockedSet(s) == Members(s.queue) + Members(s.stack);
  }

  lemma QueueDistinct(s: State)
    requires Inv(s)
    ensures Distinct(s.queue)
  {
    forall i, j | 0 <= i < j < |s.queue| ensures s.queue[i] != s.queue[j] {
      assert s.pc[s.queue[i]].ticket == s.word.epoch + i;
      assert s.pc[s.queue[j]].ticket == s.word.epoch + j;
    }
  }

  predicate ByNotifier(a: Action, k: nat) {
    && (a.NotifyLoad? || a.NotifyNone? || a.NotifyFast? || a.NotifyReadNext? || a.NotifyPop? || a.NotifyUnlink?
        || a.NotifyAllCas? || a.UnparkRead? || a.UnparkSignal?)
    && a.k == k
  }

  /** Those whom an action unblocks. */
  function Unblocked(s: State, s': State): set<nat> { BlockedSet(s) - BlockedSet(s') }

  /** A notifier's action blocks nobody, so it unblocks as many as there are fewer. */
  lemma UnblockedCount(s: State, a: Action, s': State, k: nat)
    requires Inv(s) && Step(s, a, s') && ByNotifier(a, k)
    ensures |Unblocked(s, s')| == s.word.pre + |s.stack| - s'.word.pre - |s'.stack|
    ensures BlockedSet(s') <= BlockedSet(s)
  {
    StepInv(s, a);
    BlockedCount(s);
    BlockedCount(s');
    SamePeople(s, a);
    hide Apply;
    forall w | w in BlockedSet(s') ensures w in BlockedSet(s) { BlockedOnlyByPrepare(s, a, s', w); }
  }

  // ---------------------------------------------------------------------------------
  // The account of a call
  // ---------------------------------------------------------------------------------

  /** What notifier k's latest call was asked for, how many it has unblocked, and whether nobody was blocked meanwhile. */
  datatype Call = Call(req: Request, served: nat, clear: bool)

  function Account(before: Call, s: State, a: Action, s': State, k: nat): Call {
    if a.NotifyLoad? && a.k == k then Call(a.req, 0, BlockedSet(s') == {})
    else
      Call(before.req, before.served + (if ByNotifier(a, k) then |Unblocked(s, s')| else 0),
           before.clear || BlockedSet(s') == {})
  }

  function Latest(run: seq<State>, acts: seq<Action>, k: nat, i: nat): Call
    requires |run| == |acts| + 1 && i < |run|
  {
    if i == 0 then Call(Quota(0), 0, false)
    else Account(Latest(run, acts, k, i - 1), run[i - 1], acts[i - 1], run[i], k)
  }

  ghost predicate AccountOk(s: State, k: nat, call: Call)
    requires IsNotifier(s, k)
  {
    var c := s.nc[k];
    && (call.req.Quota? ==> call.served <= call.req.left)
    && (c.Idle? ==> call.clear || (call.req.Quota? && call.served == call.req.left))
    && (!c.Idle? ==>
          && (call.req.Quota? ==> c.req.Quota? && c.req.left + call.served == call.req.left)
          && (call.req.All? ==> c.req.All? || (c.req == Quota(0) && call.clear))
          && (NoWaiters(c.snap.word) ==> call.clear))
  }

  /** A word that shows no waiters was loaded when nobody was blocked. */
  lemma LoadedClear(s: State)
    requires Inv(s) && NoWaiters(s.word)
    ensures BlockedSet(s) == {}
  {
    BlockedCount(s);
  }

  lemma OthersKeepNotifier(s: State, a: Action, s': State, k: nat)
    requires Inv(s) && Step(s, a, s') && IsNotifier(s, k) && !ByNotifier(a, k)
    ensures IsNotifier(s', k) && s'.nc[k] == s.nc[k]
  {
    hide Inv;
  }

  /** What a call hands out is taken off what it has left, one for one. */
  lemma SpendsWhatItServes(s: State, a: Action, s': State, k: nat)
    requires Inv(s) && Step(s, a, s') && IsNotifier(s, k) && ByNotifier(a, k) && !a.NotifyLoad? && !a.NotifyNone?
    requires !s.nc[k].Idle? && s.nc[k].req.Quota?
    ensures IsNotifier(s', k)
    ensures if s'.nc[k].Idle? then |Unblocked(s, s')| == s.nc[k].req.left
            else s'.nc[k].req.Quota? && s'.nc[k].req.left + |Unblocked(s, s')| == s.nc[k].req.left
  {
    hide Unblocked;
    hide BlockedSet;
    hide Distinct;
    hide Linked;
    hide Suffix;
    hide HandOk;
    hide WaiterOk;
    hide QueueOk;
    hide StackOk;
    UnblockedCount(s, a, s', k);
    assert NotifierOk(s, k);
  }

  lemma ClearedByAll(s: State, a: Action, s': State, k: nat)
    requires Inv(s) && Step(s, a, s') && IsNotifier(s, k) && ByNotifier(a, k) && !a.NotifyLoad? && !a.NotifyNone?
    requires !s.nc[k].Idle? && s.nc[k].req.All?
    ensures IsNotifier(s', k)
    ensures (!s'.nc[k].Idle? && s'.nc[k].req.All?) || (BlockedSet(s') == {} && (s'.nc[k].Idle? || s'.nc[k].req == Quota(0)))
  {
    StepInv(s, a);
    BlockedCount(s');
    assert NotifierOk(s, k);
    hide WaiterOk;
  }

  /** Whatever word a call has just loaded, an empty one was loaded when nobody was blocked. */
  lemma SnapIsClear(s: State, a: Action, s': State, k: nat)
    requires Inv(s) && Step(s, a, s') && IsNotifier(s, k) && ByNotifier(a, k) && IsNotifier(s', k) && !s'.nc[k].Idle?
    ensures NoWaiters(s'.nc[k].snap.word) ==>
      BlockedSet(s') == {} || (!s.nc[k].Idle? && NoWaiters(s.nc[k].snap.word))
  {
    StepInv(s, a);
    BlockedCount(s');
    hide Inv;
    hide BlockedSet;
  }

  lemma AccountStep(s: State, a: Action, s': State, k: nat, call: Call)
    requires Inv(s) && Step(s, a, s') && IsNotifier(s, k) && AccountOk(s, k, call)
    ensures IsNotifier(s', k) && AccountOk(s', k, Account(call, s, a, s', k))
  {
    hide BlockedSet;
    hide Unblocked;
    if !ByNotifier(a, k) {
      OthersKeepNotifier(s, a, s', k);
    } else {
      if a.NotifyLoad? || a.NotifyNone? {
        LoadStep(s, a, s', k, call);
      } else {
        OwnStep(s, a, s', k, call);
      }
    }
  }

  lemma LoadStep(s: State, a: Action, s': State, k: nat, call: Call)
    requires Inv(s) && Step(s, a, s') && IsNotifier(s, k) && AccountOk(s, k, call) && ByNotifier(a, k)
    requires a.NotifyLoad? || a.NotifyNone?
    ensures IsNotifier(s', k) && AccountOk(s', k, Account(call, s, a, s', k))
  {
    UnblockedCount(s, a, s', k);
    if a.NotifyLoad? { SnapIsClear(s, a, s', k); }
    hide Inv;
    hide BlockedSet;
    hide Unblocked;
  }

  lemma OwnStep(s: State, a: Action, s': State, k: nat, call: Call)
    requires Inv(s) && Step(s, a, s') && IsNotifier(s, k) && AccountOk(s, k, call) && ByNotifier(a, k)
    requires !a.NotifyLoad? && !a.NotifyNone?
    ensures IsNotifier(s', k) && AccountOk(s', k, Account(call, s, a, s', k))
  {
    hide Inv;
    hide Step;
    hide BlockedSet;
    hide Unblocked;
    hide NoWaiters;
    Working(s, a, s', k);
    if s.nc[k].req.Quota? { SpendsWhatItServes(s, a, s', k); } else { ClearedByAll(s, a, s', k); }
    if !s'.nc[k].Idle? { SnapIsClear(s, a, s', k); }
  }

  lemma Working(s: State, a: Action, s': State, k: nat)
    requires Step(s, a, s') && ByNotifier(a, k) && !a.NotifyLoad?
    ensures IsNotifier(s, k) && !s.nc[k].Idle?
  {
  }

  lemma {:induction false} AccountHolds(run: seq<State>, acts: seq<Action>, waiters: nat, notifiers: nat, i: nat, k: nat)
    requires IsRun(run, acts, waiters, notifiers) && i < |run| && k < notifiers
    ensures IsNotifier(run[i], k) && AccountOk(run[i], k, Latest(run, acts, k, i))
  {
    hide Inv;
    hide BlockedSet;
    hide AccountOk;
    hide Step;
    if i == 0 {
      FirstAccount(run[0], waiters, notifiers, k);
    } else {
      AccountHolds(run, acts, waiters, notifiers, i - 1, k);
      RunInv(run, acts, waiters, notifiers, i - 1);
      assert Step(run[i - 1], acts[i - 1], run[i]);
      AccountStep(run[i - 1], acts[i - 1], run[i], k, Latest(run, acts, k, i - 1));
      LatestNext(run, acts, k, i);
    }
  }

  lemma FirstAccount(s: State, waiters: nat, notifiers: nat, k: nat)
    requires s == InitState(waiters, notifiers) && k < notifiers
    ensures IsNotifier(s, k) && AccountOk(s, k, Call(Quota(0), 0, false))
  {
  }

  lemma LatestNext(run: seq<State>, acts: seq<Action>, k: nat, i: nat)
    requires |run| == |acts| + 1 && 0 < i < |run|
    ensures Latest(run, acts, k, i) == Account(Latest(run, acts, k, i - 1), run[i - 1], acts[i - 1], run[i], k)
  {
    hide Account;
  }

  /** notify_one asks for one; notify_n for n, or, if there are no more than n waiters in all, for everybody. */
  function RequestOf(n: nat, waiters: nat): Request { if n >= waiters then All else Quota(n) }

  /**
   * Never too many: at any moment a call for n waiters has unblocked at most n, and while it goes on what it has left
   * and what it has unblocked are n together.
   */
  lemma NeverServesMore(run: seq<State>, acts: seq<Action>, waiters: nat, notifiers: nat, i: nat, k: nat, n: nat)
    requires IsRun(run, acts, waiters, notifiers) && i < |run| && k < notifiers
    requires Latest(run, acts, k, i).req == Quota(n)
    ensures Latest(run, acts, k, i).served <= n && IsNotifier(run[i], k)
    ensures !run[i].nc[k].Idle? ==> run[i].nc[k].req == Quota(n - Latest(run, acts, k, i).served)
  {
    AccountHolds(run, acts, waiters, notifiers, i, k);
    hide Latest;
  }

  /**
   * Never too few: when a call for n waiters, or for all, has returned, it has unblocked n, or at some moment since it
   * began nobody was blocked at all.
   */
  lemma NotifyDelivers(run: seq<State>, acts: seq<Action>, waiters: nat, notifiers: nat, i: nat, k: nat, n: nat)
    requires IsRun(run, acts, waiters, notifiers) && i < |run| && k < notifiers
    requires Latest(run, acts, k, i).req == RequestOf(n, waiters)
    requires IsNotifier(run[i], k) ==> run[i].nc[k].Idle?
    ensures Latest(run, acts, k, i).served == n || Latest(run, acts, k, i).clear
  {
    AccountHolds(run, acts, waiters, notifiers, i, k);
    hide Latest;
  }
}
