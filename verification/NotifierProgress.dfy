// No call of the event count loops on its own: whatever a thread does inside one brings the call nearer to its end,
// unless an exchange failed, or a waiter's turn has not come yet.

module NotifierProgress {
  import opened Common
  import opened NotifierProtocol
  import opened NotifierInvariant
  import opened NotifierTheorems
  import opened NotifierQuota

  // ---------------------------------------------------------------------------------
  // Waiters
  // ---------------------------------------------------------------------------------

  /** How many actions a waiter is away from the end of its call, at most, if it is its turn and nobody interferes. */
  function WaiterLeft(p: WaiterPc): nat {
    match p
    case Out => 0
    case Prepared(_) => 6
    case Reset(_) => 5
    case Committing(_, _) => 4
    case Linking(_, _) => 3
    case Cancelling(_, _) => 4
    case Pushed => 2
    case Asleep => 1
  }

  /** A round that has to be repeated: the turn had not come when the word was loaded, or the exchange failed. */
  predicate Repeats(s: State, a: Action, w: nat)
    requires IsWaiter(s, w)
  {
    var p := s.pc[w];
    || ((a.CommitSpin? || a.CancelSpin?) && (p.Committing? || p.Cancelling?) && p.snap.word.epoch < p.ticket)
    || ((a.CommitCas? || a.CancelCas?) && (p.Linking? || p.Cancelling?) && (a.spurious || s.word != p.snap.word))
  }

  /**
   * A waiter's own action brings it nearer to leaving, except that a round is repeated, with a fresh copy of the word,
   * while its turn has not come or when its exchange failed.
   */
  lemma WaiterNearer(s: State, a: Action, s': State, w: nat)
    requires Inv(s) && Step(s, a, s') && ByWaiter(a, w) && !a.Prepare?
    ensures IsWaiter(s, w) && IsWaiter(s', w) && !s.pc[w].Out?
    ensures if Repeats(s, a, w) then (s'.pc[w].Committing? || s'.pc[w].Cancelling?) && s'.pc[w].snap == Load(s) && s'.pc[w].ticket == s.pc[w].ticket
            else WaiterLeft(s'.pc[w]) < WaiterLeft(s.pc[w])
  {
    hide Inv;
  }

  /** A waiter inside a call can always act, but for one that is blocked and has not been signalled. */
  lemma WaiterCanMove(s: State, w: nat) returns (a: Action)
    requires Inv(s) && IsWaiter(s, w) && !s.pc[w].Out? && (s.pc[w].Asleep? ==> s.signals[w] == s.pushes[w])
    ensures ByWaiter(a, w) && !a.Prepare? && Enabled(s, a) && Defined(s, a)
  {
    match s.pc[w] {
      case Prepared(_) => a := CommitReset(w);
      case Reset(_) => a := CommitLoad(w);
      case Committing(t, snap) =>
        a := if snap.word.epoch < t then CommitSpin(w) else if snap.word.epoch > t then CommitOvertaken(w) else CommitLink(w);
      case Linking(_, _) => a := CommitCas(w, false);
      case Cancelling(t, snap) =>
        a := if snap.word.epoch < t then CancelSpin(w) else if snap.word.epoch > t then CancelOvertaken(w) else CancelCas(w, false);
      case Pushed => a := ParkCas(w);
      case Asleep =>
        ParkedUntilSignalled(s, w);
        a := ParkReturn(w);
    }
    AlwaysDefined(s, a);
  }

  /** An overtaken waiter leaves with its next action once it has loaded the word. */
  lemma OvertakenLeaves(s: State, a: Action, s': State, w: nat)
    requires Inv(s) && Step(s, a, s') && ByWaiter(a, w) && IsWaiter(s, w) && (s.pc[w].Committing? || s.pc[w].Cancelling?)
    requires s.pc[w].snap.word.epoch > s.pc[w].ticket
    ensures IsWaiter(s', w) && s'.pc[w].Out? && s'.word == s.word && s'.stack == s.stack
  {
    hide Inv;
  }

  // ---------------------------------------------------------------------------------
  // Notifiers
  // ---------------------------------------------------------------------------------

  /** How many actions a notifier is away from the end of its call, at most, if no exchange fails. */
  function NotifierLeft(c: NotifierPc, waiters: nat): int {
    match c
    case Idle => 0
    case Testing(req, _) => if req.All? then 2 * waiters + 1 else 5 * req.left
    case Popping(req, _, _) => if req.All? then 0 else 5 * req.left - 1
    case Unlinking(req, _, _, _) => if req.All? then 0 else 5 * req.left + 3
    case Waking(req, _, hand, _) => if req.All? then 0 else 5 * req.left + 2 * |hand|
    case Signalling(req, _, hand, _, _) => if req.All? then 0 else 5 * req.left + 2 * |hand| - 1
  }

  /** An exchange that fails: spuriously, or because the word has changed since it was loaded. */
  predicate Fails(s: State, a: Action, k: nat)
    requires IsNotifier(s, k)
  {
    var c := s.nc[k];
    && ((a.NotifyFast? && c.Testing?) || (a.NotifyPop? && c.Popping?) || (a.NotifyAllCas? && c.Testing?))
    && (a.spurious || s.word != c.snap.word)
  }

  lemma StackNoLongerThanWaiters(s: State)
    requires Inv(s)
    ensures |s.stack| <= |s.pc|
  {
    LinkedDistinct(s.next, s.stack);
    DistinctBelow(s.stack, |s.pc|);
  }

  /** No call works on a request for everybody once it has detached the stack. */
  ghost predicate RequestOk(c: NotifierPc) { c.Popping? || c.Unlinking? || c.Waking? || c.Signalling? ==> c.req.Quota? }

  /** What an action of notifier k does to its call. */
  ghost predicate Progress(s: State, a: Action, s': State, k: nat) {
    && IsNotifier(s, k) && IsNotifier(s', k) && RequestOk(s'.nc[k]) && !s.nc[k].Idle?
    && (if Fails(s, a, k) then s'.nc[k] == Testing(s.nc[k].req, Load(s))
        else 0 <= NotifierLeft(s'.nc[k], |s.pc|) < NotifierLeft(s.nc[k], |s.pc|))
    && (a.NotifyNone? ==> s'.nc[k].Idle?)
  }

  /**
   * A notifier's own action brings its call nearer to the end, except that a failed exchange starts the round again with
   * a fresh copy of the word and the same request. A call that sees no waiters ends at once.
   */
  lemma NotifierNearer(s: State, a: Action, s': State, k: nat)
    requires Inv(s) && Step(s, a, s') && ByNotifier(a, k) && !a.NotifyLoad? && IsNotifier(s, k) && RequestOk(s.nc[k])
    ensures Progress(s, a, s', k)
  {
    hide Inv;
    hide Step;
    hide Progress;
    if a.NotifyUnlink? || a.UnparkRead? || a.UnparkSignal? {
      NearerWaking(s, a, s', k);
    } else {
      NearerTesting(s, a, s', k);
    }
  }

  lemma NearerWaking(s: State, a: Action, s': State, k: nat)
    requires Inv(s) && Step(s, a, s') && ByNotifier(a, k) && IsNotifier(s, k) && RequestOk(s.nc[k])
    requires a.NotifyUnlink? || a.UnparkRead? || a.UnparkSignal?
    ensures Progress(s, a, s', k)
  {
    hide WaiterOk;
    hide QueueOk;
    hide StackOk;
    hide Distinct;
    hide Linked;
    hide Suffix;
    assert NotifierOk(s, k);
  }

  lemma NearerTesting(s: State, a: Action, s': State, k: nat)
    requires Inv(s) && Step(s, a, s') && ByNotifier(a, k) && !a.NotifyLoad? && IsNotifier(s, k) && RequestOk(s.nc[k])
    requires !a.NotifyUnlink? && !a.UnparkRead? && !a.UnparkSignal?
    ensures Progress(s, a, s', k)
  {
    hide WaiterOk;
    hide QueueOk;
    hide Distinct;
    hide Linked;
    hide Suffix;
    StackNoLongerThanWaiters(s);
    assert NotifierOk(s, k);
  }

  /** A notifier inside a call can always act, and a call that sees no waiters has nothing else to do but to end. */
  lemma NotifierCanMove(s: State, k: nat) returns (a: Action)
    requires Inv(s) && IsNotifier(s, k) && !s.nc[k].Idle? && RequestOk(s.nc[k])
    ensures ByNotifier(a, k) && !a.NotifyLoad? && Enabled(s, a) && Defined(s, a)
    ensures s.nc[k].Testing? && NoWaiters(s.nc[k].snap.word) ==> a == NotifyNone(k)
  {
    assert NotifierOk(s, k);
    match s.nc[k] {
      case Testing(req, snap) =>
        a := if NoWaiters(snap.word) then NotifyNone(k)
             else if req.All? then NotifyAllCas(k, false)
             else if snap.word.pre > 0 then NotifyFast(k, false) else NotifyReadNext(k);
      case Popping(_, _, _) => a := NotifyPop(k, false);
      case Unlinking(_, _, _, _) => a := NotifyUnlink(k);
      case Waking(_, _, _, _) => a := UnparkRead(k);
      case Signalling(_, _, _, _, _) => a := UnparkSignal(k);
    }
    AlwaysDefined(s, a);
  }

  lemma {:induction false} RequestsHold(run: seq<State>, acts: seq<Action>, waiters: nat, notifiers: nat, i: nat, k: nat)
    requires IsRun(run, acts, waiters, notifiers) && i < |run| && k < notifiers
    ensures IsNotifier(run[i], k) && RequestOk(run[i].nc[k])
  {
    if i > 0 {
      RequestsHold(run, acts, waiters, notifiers, i - 1, k);
      RunInv(run, acts, waiters, notifiers, i - 1);
      assert Step(run[i - 1], acts[i - 1], run[i]);
      hide *;
      RequestStep(run[i - 1], acts[i - 1], run[i], k);
    }
  }

  lemma RequestStep(s: State, a: Action, s': State, k: nat)
    requires Inv(s) && Step(s, a, s') && IsNotifier(s, k) && RequestOk(s.nc[k])
    ensures IsNotifier(s', k) && RequestOk(s'.nc[k])
  {
    hide Inv;
    if ByNotifier(a, k) {
      if !a.NotifyLoad? { NotifierNearer(s, a, s', k); }
    } else {
      OthersKeepNotifier(s, a, s', k);
    }
  }
}
