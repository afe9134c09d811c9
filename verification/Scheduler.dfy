// The sleep/recheck loop of executor.hpp on top of the event count: workers claim work, explore,
// prepare, rescan every other queue and only then commit; publishers enqueue and then notify.
//
// Queues are kept as sets of item identities. A queue's `empty()` is not an exact test. A look at a queue has a
// beginning and an end, and others may act in between; it may pass the queue whenever each item that was there at
// its beginning is gone or reserved by the owner's pop, and it may always report work, found or not. That the deque
// gives no other answers is proved in module BoundedQueueObserver (EmptyLetsPass); a shared stack's count is
// zero only if nothing at all is published (SharedWorkStackTheorems.EmptyMeansNothingPublished), and may be positive
// for an item that is only announced. The notifier part of the state is the full machine of NotifierProtocol.

module Scheduler {
  import opened Common
  import N = NotifierProtocol
  import NT = NotifierTheorems

  /** Where a worker stands in _spawn's loop and _wait_for_work. */
  datatype WorkerPc =
    | Running               // executing, may push to its own queue
    | Exploring             // own queue drained, stealing
    | Rescanning(i: nat)    // after prepare_wait, next queue to look at
    | Looking(i: nat, first: set<nat>)   // inside empty() of queue i, whose items at the first load were these
    | Cancelling            // rescan found work: cancel_wait, then explore
    | Stopping              // rescan saw the terminate flag: cancel_wait, then leave
    | Committing            // rescan found nothing: commit_wait
    | Stopped

  /**
   * Queues 0..shards-1 are the shared stacks, queue shards+v is worker v's own; reserved[v] is the item of its own
   * queue that worker v's pop is about to take, unless a thief takes it first.
   * `owed[k]` are the items publisher k has enqueued and whose notify has not taken effect yet;
   * `asleep[x]`, for an item whose notify has taken effect, are the workers that were blocked at
   * that moment and have been blocked ever since.
   */
  datatype State = State(
    n: N.State,
    shards: nat,
    pc: seq<WorkerPc>,
    queues: seq<set<nat>>,
    reserved: seq<Option<nat>>,
    terminate: bool,
    // history
    seen: set<nat>,
    owed: seq<set<nat>>,
    asleep: map<nat, set<nat>>,
    stopper: Option<nat>,
    drained: bool)

  datatype Action =
    | Publish(k: nat, q: nat, x: nat)
    | Reserve(v: nat, x: nat)
    | Claim(v: nat, q: nat, x: nat)
    | Drained(v: nat)
    | Prepare(v: nat)
    | Rescan(v: nat)
    | EndLook(v: nat, found: bool)
    | Waiter(v: nat, a: N.Action)
    | Notify(k: nat, a: N.Action)
    | Leave(v: nat)
    | Shutdown(k: nat)

  predicate Shape(s: State) {
    && |s.pc| == |s.n.pc|
    && |s.queues| == s.shards + |s.pc| && |s.reserved| == |s.pc|
    && |s.owed| == |s.n.nc|
    && N.Shape(s.n)
  }

  function Own(s: State, v: nat): nat { s.shards + v }

  /** Item x of queue q is reserved by a pop of the queue's owner. */
  predicate IsReserved(s: State, q: nat, x: nat)
    requires Shape(s) && q < |s.queues|
  {
    q >= s.shards && s.reserved[q - s.shards] == Some(x)
  }

  /** What empty() may report as "empty": of the items that were there when it began only a reserved one is left. */
  predicate MayPass(s: State, q: nat, first: set<nat>)
    requires Shape(s) && q < |s.queues|
  {
    forall x :: x in first && x in s.queues[q] ==> IsReserved(s, q, x)
  }

  /** The notify call of k takes effect: it consumes a waiter, or loads a word that shows none. */
  predicate TakesEffect(n: N.State, a: N.Action, n': N.State, k: nat)
    requires k < |n'.nc|
  {
    NT.Consumes(n, a) || (n'.nc[k].Testing? && N.NoWaiters(n'.nc[k].snap.word) && n'.nc[k].snap == N.Load(n))
  }

  predicate IsCommit(a: N.Action) {
    a.CommitReset? || a.CommitLoad? || a.CommitSpin? || a.CommitOvertaken? || a.CommitLink? || a.CommitCas?
    || a.ParkCas? || a.ParkReturn?
  }

  predicate IsCancel(a: N.Action) { a.CancelLoad? || a.CancelSpin? || a.CancelOvertaken? || a.CancelCas? }

  predicate IsNotify(a: N.Action) {
    a.NotifyLoad? || a.NotifyNone? || a.NotifyFast? || a.NotifyReadNext? || a.NotifyPop? || a.NotifyUnlink?
    || a.NotifyAllCas? || a.UnparkRead? || a.UnparkSignal?
  }

  /** Which worker may touch which queue: only the running owner pushes to its own queue, and not while it pops. */
  predicate MayPush(s: State, q: nat)
    requires Shape(s)
  {
    q < |s.queues| && (q >= s.shards ==> s.pc[q - s.shards].Running? && s.reserved[q - s.shards].None?)
  }

  predicate Enabled(s: State, a: Action) {
    && Shape(s)
    && match a
       case Publish(k, q, x) => k < |s.owed| && s.n.nc[k].Idle? && MayPush(s, q) && x !in s.seen && s.stopper != Some(k)
       case Reserve(v, x) => v < |s.pc| && s.pc[v].Running? && s.reserved[v].None? && x in s.queues[Own(s, v)]
       case Claim(v, q, x) =>
         v < |s.pc| && q < |s.queues| && x in s.queues[q] && (s.pc[v].Running? || s.pc[v].Exploring?)
       case Drained(v) => v < |s.pc| && s.pc[v].Running? && s.queues[Own(s, v)] == {}
       case Prepare(v) => v < |s.pc| && s.pc[v].Exploring? && N.Enabled(s.n, N.Prepare(v))
       case Rescan(v) => v < |s.pc| && s.pc[v].Rescanning?
       case EndLook(v, found) =>
         && v < |s.pc| && s.pc[v].Looking? && s.pc[v].i < |s.queues|
         && (found || MayPass(s, s.pc[v].i, s.pc[v].first))
       case Waiter(v, na) =>
         && v < |s.pc| && N.Enabled(s.n, na) && N.Defined(s.n, na)
         && ((s.pc[v].Committing? && IsCommit(na) && na.w == v)
             || ((s.pc[v].Cancelling? || s.pc[v].Stopping?) && IsCancel(na) && na.w == v))
       case Notify(k, na) =>
         && k < |s.owed| && N.Enabled(s.n, na) && N.Defined(s.n, na) && IsNotify(na) && na.k == k
         && (s.stopper == Some(k) && na.NotifyLoad? ==> na.req.All?)
       case Leave(v) => v < |s.pc| && s.pc[v].Exploring? && s.terminate
       case Shutdown(k) => k < |s.owed| && s.n.nc[k].Idle? && s.stopper.None? && s.owed[k] == {}
  }

  /** A look at one queue begins; after the last the terminate flag is read. */
  function DoRescan(s: State, v: nat): State
    requires Shape(s) && v < |s.pc| && s.pc[v].Rescanning?
  {
    var i := s.pc[v].i;
    if i >= |s.queues| then s.(pc := s.pc[v := if s.terminate then Stopping else Committing])
    else if i == Own(s, v) then s.(pc := s.pc[v := Rescanning(i + 1)])
    else s.(pc := s.pc[v := Looking(i, s.queues[i])])
  }

  function DoEndLook(s: State, v: nat, found: bool): State
    requires Shape(s) && v < |s.pc| && s.pc[v].Looking?
  {
    s.(pc := s.pc[v := if found then Cancelling else Rescanning(s.pc[v].i + 1)])
  }

  /** The item leaves its queue; if its owner had reserved it, the reservation is over. */
  function DoClaim(s: State, v: nat, q: nat, x: nat): State
    requires Shape(s) && v < |s.pc| && q < |s.queues|
  {
    s.(queues := s.queues[q := s.queues[q] - {x}], pc := s.pc[v := Running],
       reserved := if IsReserved(s, q, x) then s.reserved[q - s.shards := None] else s.reserved)
  }

  /** Every sleeper that the new notifier state no longer counts as blocked has been woken. */
  function Keep(asleep: map<nat, set<nat>>, n: N.State): map<nat, set<nat>> {
    map x | x in asleep :: asleep[x] * NT.BlockedSet(n)
  }

  function AfterWait(p: WorkerPc): WorkerPc { if p.Stopping? then Stopped else Exploring }

  function DoWaiter(s: State, v: nat, na: N.Action): State
    requires Shape(s) && v < |s.pc| && N.Enabled(s.n, na) && N.Defined(s.n, na)
  {
    var n' := N.Apply(s.n, na);
    s.(n := n', asleep := Keep(s.asleep, n'),
       pc := if v < |n'.pc| && n'.pc[v].Out? then s.pc[v := AfterWait(s.pc[v])] else s.pc)
  }

  function DoNotify(s: State, k: nat, na: N.Action): State
    requires Shape(s) && k < |s.owed| && N.Enabled(s.n, na) && N.Defined(s.n, na)
  {
    var n' := N.Apply(s.n, na);
    if k < |n'.nc| && TakesEffect(s.n, na, n', k) then
      s.(n := n',
         asleep := Keep(s.asleep, n') + (map x | x in s.owed[k] :: NT.BlockedSet(n')),
         owed := s.owed[k := {}],
         drained := s.drained || s.stopper == Some(k))
    else s.(n := n', asleep := Keep(s.asleep, n'))
  }

  function Apply(s: State, a: Action): State
    requires Enabled(s, a)
  {
    match a
    case Publish(k, q, x) =>
      s.(queues := s.queues[q := s.queues[q] + {x}], owed := s.owed[k := s.owed[k] + {x}], seen := s.seen + {x})
    case Reserve(v, x) => s.(reserved := s.reserved[v := Some(x)])
    case Claim(v, q, x) => DoClaim(s, v, q, x)
    case Drained(v) => s.(pc := s.pc[v := Exploring])
    case Prepare(v) =>
      s.(n := N.Apply(s.n, N.Prepare(v)), pc := s.pc[v := Rescanning(0)])
    case Rescan(v) => DoRescan(s, v)
    case EndLook(v, found) => DoEndLook(s, v, found)
    case Waiter(v, na) => DoWaiter(s, v, na)
    case Notify(k, na) => DoNotify(s, k, na)
    case Leave(v) => s.(pc := s.pc[v := Stopped])
    case Shutdown(k) => s.(terminate := true, stopper := Some(k))
  }

  function InitState(workers: nat, shards: nat, publishers: nat): State {
    State(N.InitState(workers, publishers), shards, seq(workers, _ => Exploring), seq(shards + workers, _ => {}),
          seq(workers, _ => None), false, {}, seq(publishers, _ => {}), map[], None, false)
  }

  // ---------------------------------------------------------------------------------
  // Invariant
  // ---------------------------------------------------------------------------------

  /** The worker's place in the loop agrees with its place in the two-phase protocol. */
  ghost predicate PcMatches(s: State, v: nat)
    requires Shape(s) && v < |s.pc|
  {
    match s.pc[v]
    case Running => s.n.pc[v].Out?
    case Exploring => s.n.pc[v].Out? && s.queues[Own(s, v)] == {}
    case Rescanning(_) => s.n.pc[v].Prepared? && s.queues[Own(s, v)] == {}
    case Looking(i, _) => s.n.pc[v].Prepared? && s.queues[Own(s, v)] == {} && i < |s.queues|
    case Cancelling => (s.n.pc[v].Prepared? || s.n.pc[v].Cancelling?) && s.queues[Own(s, v)] == {}
    case Stopping => (s.n.pc[v].Prepared? || s.n.pc[v].Cancelling?) && s.terminate && s.queues[Own(s, v)] == {}
    case Committing => !s.n.pc[v].Out? && !s.n.pc[v].Cancelling? && s.queues[Own(s, v)] == {}
    case Stopped => s.n.pc[v].Out? && s.terminate && s.queues[Own(s, v)] == {}
  }

  /** A publisher still owes a notify only at points from which the call cannot end unheard. */
  ghost predicate OwedOk(s: State, k: nat)
    requires Shape(s) && k < |s.owed|
  {
    && s.owed[k] <= s.seen
    && (s.owed[k] != {} ==>
          s.n.nc[k].Idle? || s.n.nc[k].Popping? || (s.n.nc[k].Testing? && !N.NoWaiters(s.n.nc[k].snap.word)))
  }

  predicate Owes(s: State, x: nat) { exists k :: 0 <= k < |s.owed| && x in s.owed[k] }

  /** An unclaimed item is either owed a notify or has had one, and the one that was due woke somebody. */
  ghost predicate ItemOk(s: State, q: nat, x: nat)
    requires Shape(s) && q < |s.queues|
  {
    x in s.queues[q] ==>
      && x in s.seen
      && (Owes(s, x) || x in s.asleep)
      && (x in s.asleep ==> exists v :: 0 <= v < |s.pc| && v !in s.asleep[x])
  }

  /** A worker on its way to look into queue q, or whose look at it has already seen x, or that has given up sleeping. */
  predicate WillMeet(c: WorkerPc, q: nat, x: nat) {
    || (c.Rescanning? && c.i <= q)
    || (c.Looking? && (c.i < q || (c.i == q && x in c.first)))
    || c.Cancelling?
  }

  /** A reserved item is in the queue of a worker that runs. */
  ghost predicate ReserveOk(s: State, v: nat)
    requires Shape(s) && v < |s.pc|
  {
    s.reserved[v].Some? ==> s.pc[v].Running? && s.reserved[v].value in s.queues[Own(s, v)]
  }

  /**
   * A blocked worker that was not asleep before the notify has not yet looked past the item's queue, or the item is
   * reserved. A look that has begun has seen the item.
   */
  ghost predicate SightOk(s: State, q: nat, x: nat, v: nat)
    requires Shape(s) && q < |s.queues| && v < |s.pc|
  {
    x in s.queues[q] && x in s.asleep && v !in s.asleep[x] && NT.Blocked(s.n, v) ==>
      || WillMeet(s.pc[v], q, x) || s.pc[v].Stopping? || IsReserved(s, q, x)
  }

  /** A notifier that is idle or inside notify_all. */
  predicate InNotifyAll(c: N.NotifierPc) {
    c.Idle? || (c.Testing? && c.req.All?) || ((c.Waking? || c.Signalling?) && c.req == N.Quota(0))
  }

  /** The shutdown only ever calls notify_all. */
  ghost predicate StopOk(s: State) {
    && (s.stopper.Some? ==>
          && s.terminate && s.stopper.value < |s.n.nc|
          && InNotifyAll(s.n.nc[s.stopper.value]))
    && (s.drained ==> s.stopper.Some?)
  }

  /** After the shutdown's notify_all nobody is, or will be, blocked for good. */
  ghost predicate DrainOk(s: State, v: nat)
    requires Shape(s) && v < |s.pc|
  {
    s.drained && NT.Blocked(s.n, v) ==> s.pc[v].Rescanning? || s.pc[v].Looking? || s.pc[v].Cancelling? || s.pc[v].Stopping?
  }

  ghost predicate Inv(s: State) {
    && Shape(s)
    && |s.pc| > 0
    && N.Inv(s.n)
    && (forall v :: 0 <= v < |s.pc| ==> PcMatches(s, v))
    && (forall v :: 0 <= v < |s.pc| ==> DrainOk(s, v))
    && (forall v :: 0 <= v < |s.pc| ==> ReserveOk(s, v))
    && (forall k :: 0 <= k < |s.owed| ==> OwedOk(s, k))
    && (forall q, x :: 0 <= q < |s.queues| && x in s.queues[q] ==> ItemOk(s, q, x))
    && (forall q, x, v :: 0 <= q < |s.queues| && x in s.queues[q] && 0 <= v < |s.pc| ==> SightOk(s, q, x, v))
    && (forall x :: x in s.asleep ==> x in s.seen)
    && StopOk(s)
  }
}
