// The event count of notifier.hpp as a state machine over its single atomic actions.
//
// Waiters run prepare_wait and then commit_wait or cancel_wait; notifiers run notify_one,
// notify_n or notify_all. Every load, store, exchange and compare-exchange on shared memory is
// one action, a compare-exchange may fail spuriously, and threads interleave freely.
//
// In this module the epoch is an unbounded number; module NotifierWord packs the three fields
// into 64 bits and says how far the two agree.

module NotifierProtocol {
  import opened Common

  /** The fields of m_state: epoch, number of prewaiters, index of the top sleeper. */
  datatype Word = Word(epoch: nat, pre: nat, top: Option<nat>)

  /** A thread's private copy of m_state, with the sleepers' stack at the moment of the load. */
  datatype Snap = Snap(word: Word, stack: seq<nat>)

  datatype Park = NotSignaled | Waiting | Signaled

  /** Program counters of a waiter thread. `ticket` is the epoch at which its turn comes. */
  datatype WaiterPc =
    | Out                                    // outside the two-phase protocol
    | Prepared(ticket: nat)                  // prepare_wait has returned, predicate is rechecked
    | Reset(ticket: nat)                     // commit_wait stored NotSignaled, will load m_state
    | Committing(ticket: nat, snap: Snap)    // commit_wait at the head of its loop
    | Linking(ticket: nat, snap: Snap)       // commit_wait stored next, will compare-exchange
    | Cancelling(ticket: nat, snap: Snap)    // cancel_wait at the head of its loop
    | Pushed                                 // on the stack, about to enter _park
    | Asleep                                 // blocked in _park until state is no longer Waiting

  /** What a notify call still has to hand out. */
  datatype Request = All | Quota(left: nat)

  /** Program counters of a notifier thread. `hand` is the chain it has detached, front first. */
  datatype NotifierPc =
    | Idle
    | Testing(req: Request, snap: Snap)                                  // head of the notify loop
    | Popping(req: Request, snap: Snap, link: Option<nat>)               // read the top's next, will compare-exchange
    | Unlinking(req: Request, snap: Snap, hand: seq<nat>, cur: nat)      // popped cur, will clear its next
    | Waking(req: Request, snap: Snap, hand: seq<nat>, cur: nat)         // _unpark, will read cur's next
    | Signalling(req: Request, snap: Snap, hand: seq<nat>, cur: nat, link: Option<nat>) // will exchange cur's state

  /** Who advanced the epoch past a ticket. */
  datatype By = BySelf | ByNotify

  /** Where a waiter node currently is. */
  datatype Loc = Nowhere | InStack | InHand(k: nat)

  datatype State = State(
    // shared memory
    word: Word,
    next: Links,
    park: seq<Park>,
    // threads
    pc: seq<WaiterPc>,
    nc: seq<NotifierPc>,
    // history
    queue: seq<nat>,       // pending waiters in ticket order
    stack: seq<nat>,       // committed sleepers, top first
    settled: seq<By>,      // settled[t] says who consumed ticket t
    loc: seq<Loc>,
    pushes: seq<nat>,      // how often each waiter was pushed by commit_wait,
    signals: seq<nat>,     // signalled by _unpark,
    releases: seq<nat>)     // and let go by _park

  predicate InProtocol(p: WaiterPc) { !p.Out? && !p.Pushed? && !p.Asleep? }

  function InitState(waiters: nat, notifiers: nat): State {
    State(Word(0, 0, None), seq(waiters, _ => None), seq(waiters, _ => NotSignaled),
          seq(waiters, _ => Out), seq(notifiers, _ => Idle), [], [], [],
          seq(waiters, _ => Nowhere), seq(waiters, _ => 0), seq(waiters, _ => 0), seq(waiters, _ => 0))
  }

  // ---------------------------------------------------------------------------------
  // Shape: every table covers every thread.
  // ---------------------------------------------------------------------------------

  predicate Shape(s: State) {
    && |s.next| == |s.park| == |s.loc| == |s.pushes| == |s.signals| == |s.releases| == |s.pc|
  }

  predicate IsWaiter(s: State, w: nat) { Shape(s) && w < |s.pc| }

  predicate IsNotifier(s: State, k: nat) { k < |s.nc| }

  function Load(s: State): Snap { Snap(s.word, s.stack) }

  // ---------------------------------------------------------------------------------
  // Waiter actions
  // ---------------------------------------------------------------------------------

  datatype Action =
    | Prepare(w: nat)
    | CommitReset(w: nat)
    | CommitLoad(w: nat)
    | CommitSpin(w: nat)
    | CommitOvertaken(w: nat)
    | CommitLink(w: nat)
    | CommitCas(w: nat, spurious: bool)
    | ParkCas(w: nat)
    | ParkReturn(w: nat)
    | CancelLoad(w: nat)
    | CancelSpin(w: nat)
    | CancelOvertaken(w: nat)
    | CancelCas(w: nat, spurious: bool)
    | NotifyLoad(k: nat, req: Request)
    | NotifyNone(k: nat)
    | NotifyFast(k: nat, spurious: bool)
    | NotifyReadNext(k: nat)
    | NotifyPop(k: nat, spurious: bool)
    | NotifyUnlink(k: nat)
    | NotifyAllCas(k: nat, spurious: bool)
    | UnparkRead(k: nat)
    | UnparkSignal(k: nat)

  /** prepare_wait: one fetch_add registers the prewaiter and releases the ticket. */
  function DoPrepare(s: State, w: nat): State
    requires IsWaiter(s, w)
  {
    s.(word := s.word.(pre := s.word.pre + 1),
       pc := s.pc[w := Prepared(s.word.epoch + s.word.pre)],
       queue := s.queue + [w])
  }

  function DoCommitReset(s: State, w: nat): State
    requires IsWaiter(s, w) && s.pc[w].Prepared?
  {
    s.(park := s.park[w := NotSignaled], pc := s.pc[w := Reset(s.pc[w].ticket)])
  }

  function DoCommitLoad(s: State, w: nat): State
    requires IsWaiter(s, w) && InProtocol(s.pc[w])
  {
    s.(pc := s.pc[w := Committing(s.pc[w].ticket, Load(s))])
  }

  function DoLeave(s: State, w: nat): State
    requires IsWaiter(s, w)
  {
    s.(pc := s.pc[w := Out])
  }

  function DoCommitLink(s: State, w: nat): State
    requires IsWaiter(s, w) && s.pc[w].Committing?
  {
    s.(next := s.next[w := s.pc[w].snap.word.top], pc := s.pc[w := Linking(s.pc[w].ticket, s.pc[w].snap)])
  }

  /** The word a settling thread installs: one prewaiter less, one epoch more. */
  function Settle(x: Word): Word
    requires x.pre > 0
  {
    Word(x.epoch + 1, x.pre - 1, x.top)
  }

  function DoPush(s: State, w: nat): State
    requires IsWaiter(s, w) && s.word.pre > 0 && s.queue != []
  {
    s.(word := Settle(s.word).(top := Some(w)),
       pc := s.pc[w := Pushed],
       queue := s.queue[1..],
       stack := [w] + s.stack,
       settled := s.settled + [BySelf],
       loc := s.loc[w := InStack],
       pushes := s.pushes[w := s.pushes[w] + 1])
  }

  function DoCommitCas(s: State, w: nat, spurious: bool): State
    requires IsWaiter(s, w) && s.pc[w].Linking?
    requires s.word == s.pc[w].snap.word ==> s.word.pre > 0 && s.queue != []
  {
    if !spurious && s.word == s.pc[w].snap.word then DoPush(s, w)
    else DoCommitLoad(s, w)
  }

  function DoParkCas(s: State, w: nat): State
    requires IsWaiter(s, w)
  {
    if s.park[w] == NotSignaled then s.(park := s.park[w := Waiting], pc := s.pc[w := Asleep])
    else DoParkReturn(s, w)
  }

  function DoParkReturn(s: State, w: nat): State
    requires IsWaiter(s, w)
  {
    s.(pc := s.pc[w := Out], releases := s.releases[w := s.releases[w] + 1])
  }

  function DoCancelLoad(s: State, w: nat): State
    requires IsWaiter(s, w) && InProtocol(s.pc[w])
  {
    s.(pc := s.pc[w := Cancelling(s.pc[w].ticket, Load(s))])
  }

  function DoCancelCas(s: State, w: nat, spurious: bool): State
    requires IsWaiter(s, w) && s.pc[w].Cancelling?
    requires s.word == s.pc[w].snap.word ==> s.word.pre > 0 && s.queue != []
  {
    if !spurious && s.word == s.pc[w].snap.word then
      s.(word := Settle(s.word), pc := s.pc[w := Out], queue := s.queue[1..], settled := s.settled + [BySelf])
    else DoCancelLoad(s, w)
  }

  // ---------------------------------------------------------------------------------
  // Notifier actions
  // ---------------------------------------------------------------------------------

  predicate NoWaiters(x: Word) { x.top.None? && x.pre == 0 }

  function Min(a: nat, b: nat): nat { if a < b then a else b }

  /** What is left of a request after `n` waiters were consumed. */
  function Spend(req: Request, n: nat): Request {
    match req
    case All => Quota(0)
    case Quota(q) => Quota(if n < q then q - n else 0)
  }

  /** Where a notify call continues once its detached chain is empty. */
  function Continue(req: Request, snap: Snap): NotifierPc {
    if req == Quota(0) then Idle else Testing(req, snap)
  }

  function Reload(s: State, k: nat, req: Request): State
    requires IsNotifier(s, k)
  {
    s.(nc := s.nc[k := Testing(req, Load(s))])
  }

  /** Consumes the `n` oldest prewaiters: their tickets fall behind the epoch. */
  function ConsumePre(s: State, n: nat): State
    requires n <= s.word.pre && n <= |s.queue|
  {
    s.(word := Word(s.word.epoch + n, s.word.pre - n, s.word.top),
       queue := s.queue[n..],
       settled := s.settled + seq(n, _ => ByNotify))
  }

  function FastCount(c: NotifierPc): nat
    requires c.Testing? && c.req.Quota?
  {
    Min(c.req.left, c.snap.word.pre)
  }

  function DoNotifyFast(s: State, k: nat, spurious: bool): State
    requires IsNotifier(s, k) && s.nc[k].Testing? && s.nc[k].req.Quota?
    requires s.word.pre <= |s.queue|
  {
    var c := s.nc[k];
    if !spurious && s.word == c.snap.word then
      ConsumePre(s, FastCount(c)).(nc := s.nc[k := Continue(Spend(c.req, FastCount(c)), c.snap)])
    else Reload(s, k, c.req)
  }

  function DoNotifyReadNext(s: State, k: nat): State
    requires IsNotifier(s, k) && s.nc[k].Testing? && s.nc[k].snap.word.top.Some?
    requires s.nc[k].snap.word.top.value < |s.next|
  {
    var c := s.nc[k];
    s.(nc := s.nc[k := Popping(c.req, c.snap, s.next[c.snap.word.top.value])])
  }

  /** The chain locations once notifier k has taken the nodes of `hand`. */
  function Taken(loc: seq<Loc>, hand: seq<nat>, k: nat): (r: seq<Loc>)
    ensures |r| == |loc|
    ensures forall w :: 0 <= w < |loc| ==> r[w] == if w in hand then InHand(k) else loc[w]
  {
    seq(|loc|, w requires 0 <= w < |loc| => if w in hand then InHand(k) else loc[w])
  }

  function DoNotifyPop(s: State, k: nat, spurious: bool): State
    requires IsNotifier(s, k) && s.nc[k].Popping?
    requires s.word == s.nc[k].snap.word ==> s.word.top.Some? && s.stack != []
  {
    var c := s.nc[k];
    if !spurious && s.word == c.snap.word then
      // Only the top changes, to the link read earlier; the epoch stays.
      var w := s.word.top.value;
      s.(word := Word(s.word.epoch, 0, c.link),
         stack := s.stack[1..],
         loc := Taken(s.loc, [w], k),
         nc := s.nc[k := Unlinking(Spend(c.req, 1), c.snap, [w], w)])
    else Reload(s, k, c.req)
  }

  function DoNotifyUnlink(s: State, k: nat): State
    requires IsNotifier(s, k) && s.nc[k].Unlinking? && s.nc[k].cur < |s.next|
  {
    var c := s.nc[k];
    s.(next := s.next[c.cur := None], nc := s.nc[k := Waking(c.req, c.snap, c.hand, c.cur)])
  }

  function DoNotifyAllCas(s: State, k: nat, spurious: bool): State
    requires IsNotifier(s, k) && s.nc[k].Testing?
    requires s.word.pre <= |s.queue|
  {
    var c := s.nc[k];
    if !spurious && s.word == c.snap.word then
      var u := ConsumePre(s, s.word.pre);
      u.(word := Word(u.word.epoch, 0, None),
         stack := [],
         loc := Taken(s.loc, s.stack, k),
         nc := s.nc[k := match s.word.top
                         case None => Idle
                         case Some(w) => Waking(Quota(0), c.snap, s.stack, w)])
    else Reload(s, k, c.req)
  }

  function DoUnparkRead(s: State, k: nat): State
    requires IsNotifier(s, k) && s.nc[k].Waking? && s.nc[k].cur < |s.next|
  {
    var c := s.nc[k];
    s.(nc := s.nc[k := Signalling(c.req, c.snap, c.hand, c.cur, s.next[c.cur])])
  }

  function DoUnparkSignal(s: State, k: nat): State
    requires Shape(s) && IsNotifier(s, k) && s.nc[k].Signalling? && s.nc[k].cur < |s.pc| && s.nc[k].hand != []
  {
    var c := s.nc[k];
    s.(park := s.park[c.cur := Signaled],
       loc := s.loc[c.cur := Nowhere],
       signals := s.signals[c.cur := s.signals[c.cur] + 1],
       nc := s.nc[k := match c.link
                       case None => Continue(c.req, c.snap)
                       case Some(v) => Waking(c.req, c.snap, c.hand[1..], v)])
  }

  // ---------------------------------------------------------------------------------
  // The transition relation
  // ---------------------------------------------------------------------------------

  /** The thread named by the action is at the action's program point. */
  predicate Enabled(s: State, a: Action) {
    match a
    case Prepare(w) => IsWaiter(s, w) && s.pc[w].Out?
    case CommitReset(w) => IsWaiter(s, w) && s.pc[w].Prepared?
    case CommitLoad(w) => IsWaiter(s, w) && s.pc[w].Reset?
    case CommitSpin(w) => IsWaiter(s, w) && s.pc[w].Committing? && s.pc[w].snap.word.epoch < s.pc[w].ticket
    case CommitOvertaken(w) => IsWaiter(s, w) && s.pc[w].Committing? && s.pc[w].snap.word.epoch > s.pc[w].ticket
    case CommitLink(w) => IsWaiter(s, w) && s.pc[w].Committing? && s.pc[w].snap.word.epoch == s.pc[w].ticket
    case CommitCas(w, _) => IsWaiter(s, w) && s.pc[w].Linking?
    case ParkCas(w) => IsWaiter(s, w) && s.pc[w].Pushed?
    case ParkReturn(w) => IsWaiter(s, w) && s.pc[w].Asleep? && s.park[w] != Waiting
    case CancelLoad(w) => IsWaiter(s, w) && s.pc[w].Prepared?
    case CancelSpin(w) => IsWaiter(s, w) && s.pc[w].Cancelling? && s.pc[w].snap.word.epoch < s.pc[w].ticket
    case CancelOvertaken(w) => IsWaiter(s, w) && s.pc[w].Cancelling? && s.pc[w].snap.word.epoch > s.pc[w].ticket
    case CancelCas(w, _) => IsWaiter(s, w) && s.pc[w].Cancelling? && s.pc[w].snap.word.epoch == s.pc[w].ticket
    case NotifyLoad(k, req) => IsNotifier(s, k) && s.nc[k].Idle? && req != Quota(0)
    case NotifyNone(k) => IsNotifier(s, k) && s.nc[k].Testing? && NoWaiters(s.nc[k].snap.word)
    case NotifyFast(k, _) => IsNotifier(s, k) && s.nc[k].Testing? && s.nc[k].req.Quota? && s.nc[k].snap.word.pre > 0
    case NotifyReadNext(k) =>
      && IsNotifier(s, k) && s.nc[k].Testing? && s.nc[k].req.Quota?
      && s.nc[k].snap.word.pre == 0 && s.nc[k].snap.word.top.Some?
    case NotifyPop(k, _) => IsNotifier(s, k) && s.nc[k].Popping?
    case NotifyUnlink(k) => IsNotifier(s, k) && s.nc[k].Unlinking?
    case NotifyAllCas(k, _) =>
      IsNotifier(s, k) && s.nc[k].Testing? && s.nc[k].req.All? && !NoWaiters(s.nc[k].snap.word)
    case UnparkRead(k) => IsNotifier(s, k) && s.nc[k].Waking?
    case UnparkSignal(k) => IsNotifier(s, k) && s.nc[k].Signalling?
  }

  /**
   * What the source takes for granted at the action: its assertion that somebody is counted, and
   * node indices that are in range. Module NotifierInvariant proves it of every reachable state.
   */
  predicate Defined(s: State, a: Action)
    requires Enabled(s, a)
  {
    match a
    case CommitCas(w, _) => s.word == s.pc[w].snap.word ==> s.word.pre > 0 && s.queue != []
    case CancelCas(w, _) => s.word == s.pc[w].snap.word ==> s.word.pre > 0 && s.queue != []
    case NotifyFast(k, _) => s.word.pre <= |s.queue|
    case NotifyReadNext(k) => s.nc[k].snap.word.top.value < |s.next|
    case NotifyPop(k, _) => s.word == s.nc[k].snap.word ==> s.word.top.Some? && s.stack != []
    case NotifyUnlink(k) => s.nc[k].cur < |s.next|
    case NotifyAllCas(k, _) => s.word.pre <= |s.queue|
    case UnparkRead(k) => s.nc[k].cur < |s.next|
    case UnparkSignal(k) => Shape(s) && s.nc[k].cur < |s.pc| && s.nc[k].hand != []
    case _ => true
  }

  /** The state after an action. */
  function Apply(s: State, a: Action): State
    requires Enabled(s, a) && Defined(s, a)
  {
    match a
    case Prepare(w) => DoPrepare(s, w)
    case CommitReset(w) => DoCommitReset(s, w)
    case CommitLoad(w) => DoCommitLoad(s, w)
    case CommitSpin(w) => DoCommitLoad(s, w)
    case CommitOvertaken(w) => DoLeave(s, w)
    case CommitLink(w) => DoCommitLink(s, w)
    case CommitCas(w, spurious) => DoCommitCas(s, w, spurious)
    case ParkCas(w) => DoParkCas(s, w)
    case ParkReturn(w) => DoParkReturn(s, w)
    case CancelLoad(w) => DoCancelLoad(s, w)
    case CancelSpin(w) => DoCancelLoad(s, w)
    case CancelOvertaken(w) => DoLeave(s, w)
    case CancelCas(w, spurious) => DoCancelCas(s, w, spurious)
    case NotifyLoad(k, req) => Reload(s, k, req)
    case NotifyNone(k) => s.(nc := s.nc[k := Idle])
    case NotifyFast(k, spurious) => DoNotifyFast(s, k, spurious)
    case NotifyReadNext(k) => DoNotifyReadNext(s, k)
    case NotifyPop(k, spurious) => DoNotifyPop(s, k, spurious)
    case NotifyUnlink(k) => DoNotifyUnlink(s, k)
    case NotifyAllCas(k, spurious) => DoNotifyAllCas(s, k, spurious)
    case UnparkRead(k) => DoUnparkRead(s, k)
    case UnparkSignal(k) => DoUnparkSignal(s, k)
  }

  ghost predicate Step(s: State, a: Action, s': State) {
    Enabled(s, a) && Defined(s, a) && s' == Apply(s, a)
  }

  // ---------------------------------------------------------------------------------
  // The invariant
  // ---------------------------------------------------------------------------------

  /** A ticket ahead of the epoch is held in the queue at its place; one behind it was consumed by a notify. */
  ghost predicate TicketOk(s: State, w: nat, t: nat) {
    if t < s.word.epoch then t < |s.settled| && s.settled[t] == ByNotify
    else t - s.word.epoch < |s.queue| && s.queue[t - s.word.epoch] == w
  }

  /** A waiter's snapshot is from the past, and counts the ticket among its prewaiters if it was taken before the turn was over. */
  ghost predicate WaiterSnapOk(s: State, t: nat, snap: Snap) {
    && snap.word.epoch <= s.word.epoch
    && (snap.word.epoch <= t ==> t < snap.word.epoch + snap.word.pre)
  }

  ghost predicate PcOk(s: State, w: nat)
    requires IsWaiter(s, w)
  {
    match s.pc[w]
    case Out => s.loc[w] == Nowhere
    case Prepared(t) => s.loc[w] == Nowhere && TicketOk(s, w, t)
    case Reset(t) => s.loc[w] == Nowhere && TicketOk(s, w, t) && s.park[w] == NotSignaled
    case Committing(t, snap) =>
      s.loc[w] == Nowhere && TicketOk(s, w, t) && s.park[w] == NotSignaled && WaiterSnapOk(s, t, snap)
    case Linking(t, snap) =>
      && s.loc[w] == Nowhere && TicketOk(s, w, t) && s.park[w] == NotSignaled && WaiterSnapOk(s, t, snap)
      && snap.word.epoch == t && s.next[w] == snap.word.top
    case Cancelling(t, snap) => s.loc[w] == Nowhere && TicketOk(s, w, t) && WaiterSnapOk(s, t, snap)
    case Pushed => s.park[w] == if s.loc[w] == Nowhere then Signaled else NotSignaled
    case Asleep => s.park[w] == if s.loc[w] == Nowhere then Signaled else Waiting
  }

  /** Every push is answered by one signal, and every release from _park by one earlier signal. */
  ghost predicate CountOk(s: State, w: nat)
    requires IsWaiter(s, w)
  {
    && s.pushes[w] == s.signals[w] + (if s.loc[w] == Nowhere then 0 else 1)
    && s.pushes[w] == s.releases[w] + (if s.pc[w].Pushed? || s.pc[w].Asleep? then 1 else 0)
  }

  function Hand(c: NotifierPc): seq<nat> {
    if c.Unlinking? || c.Waking? || c.Signalling? then c.hand else []
  }

  ghost predicate LocOk(s: State, w: nat)
    requires IsWaiter(s, w)
  {
    match s.loc[w]
    case Nowhere => true
    case InStack => w in s.stack
    case InHand(k) => k < |s.nc| && w in Hand(s.nc[k])
  }

  ghost predicate WaiterOk(s: State, w: nat)
    requires IsWaiter(s, w)
  {
    PcOk(s, w) && CountOk(s, w) && LocOk(s, w)
  }

  ghost predicate QueueOk(s: State)
    requires Shape(s)
  {
    && |s.queue| == s.word.pre
    && |s.settled| == s.word.epoch
    && forall i :: 0 <= i < |s.queue| ==>
         s.queue[i] < |s.pc| && InProtocol(s.pc[s.queue[i]]) && s.pc[s.queue[i]].ticket == s.word.epoch + i
  }

  ghost predicate StackOk(s: State)
    requires Shape(s)
  {
    && s.word.top == Head(s.stack)
    && Linked(s.next, s.stack)
    && forall i :: 0 <= i < |s.stack| ==> s.stack[i] < |s.pc| && s.loc[s.stack[i]] == InStack
  }

  /** While the epoch has not moved since the load, the stack has only been popped. */
  ghost predicate SnapOk(s: State, snap: Snap) {
    && snap.word.top == Head(snap.stack)
    && Distinct(snap.stack)
    && (forall i :: 0 <= i < |snap.stack| ==> snap.stack[i] < |s.pc|)
    && snap.word.epoch <= s.word.epoch
    && (snap.word.epoch == s.word.epoch ==> Suffix(s.stack, snap.stack))
  }

  ghost predicate HandOk(s: State, k: nat, hand: seq<nat>, cur: nat)
    requires Shape(s)
  {
    && hand != [] && cur == hand[0]
    && Distinct(hand)
    && forall i :: 0 <= i < |hand| ==> hand[i] < |s.pc| && s.loc[hand[i]] == InHand(k)
  }

  ghost predicate NotifierOk(s: State, k: nat)
    requires Shape(s) && IsNotifier(s, k)
  {
    match s.nc[k]
    case Idle => true
    case Testing(req, snap) => SnapOk(s, snap) && req != Quota(0)
    case Popping(req, snap, link) =>
      && SnapOk(s, snap) && req.Quota? && req != Quota(0) && snap.stack != [] && snap.word.pre == 0
      // The link read earlier is still the true successor as long as a pop could succeed.
      && (snap.word.epoch == s.word.epoch && s.stack == snap.stack ==> link == Head(s.stack[1..]))
    case Unlinking(req, snap, hand, cur) => SnapOk(s, snap) && HandOk(s, k, hand, cur) && |hand| == 1
    case Waking(req, snap, hand, cur) => SnapOk(s, snap) && HandOk(s, k, hand, cur) && Linked(s.next, hand)
    case Signalling(req, snap, hand, cur, link) =>
      SnapOk(s, snap) && HandOk(s, k, hand, cur) && Linked(s.next, hand) && link == Head(hand[1..])
  }

  ghost predicate Inv(s: State) {
    && Shape(s)
    && QueueOk(s)
    && StackOk(s)
    && (forall w :: 0 <= w < |s.pc| ==> WaiterOk(s, w))
    && (forall k :: 0 <= k < |s.nc| ==> NotifierOk(s, k))
  }
}
