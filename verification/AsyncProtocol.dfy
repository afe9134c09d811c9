// Dynamic dependencies between asynchronous tasks: AsyncTask::start (and the launch functions that
// start a task nobody else knows yet), _link_predecessors and _tear_down_async_task.
//
// A task's control word holds its status, the lock of its edge table and its use count; its edge
// table is split into successors and stored predecessors; its join counter says how many arrivals
// it still awaits. Threads interleave at every atomic access. A compare-exchange on the control
// word may fail at any time, which covers stale copies of the other fields of the word.

module AsyncProtocol {
  import opened Common

  datatype Status = Idle | Running | Finished

  /** Progress of the task's own execution. */
  datatype Exec =
    | NotReady
    | Ready                  // handed to a queue
    | Executing
    | Finishing              // body done, will publish Finished
    | Signalling(i: nat)     // will decrement successor i
    | Done

  datatype Task = Task(
    status: Status,
    locked: bool,
    uses: nat,
    join: int,
    succ: seq<nat>,          // m_edges[0 .. m_num_successors)
    preds: seq<nat>,         // m_edges[m_num_successors ..)
    alive: bool,
    exec: Exec,
    // history
    handles: nat,            // AsyncFuture / AsyncTask objects naming the task
    execRef: bool,           // the execution's own reference is outstanding
    owner: Option<nat>,      // the start call holding the lock
    starter: Option<nat>,    // the start call that published it and has not let go yet
    rank: Option<nat>,       // when it was published
    deps: seq<nat>,          // the dependencies of the winning start
    waiting: multiset<nat>,  // registered, predecessor has not signalled yet
    done: multiset<nat>,     // dependencies accounted for
    storedBy: multiset<nat>, // live dependents that store a reference to it
    starts: nat,
    dispatched: nat)

  /** Program counters of a thread inside start(); `many` says that the call names dependencies. */
  datatype Starter =
    | Resting
    | Validating(t: nat, args: seq<Option<nat>>, deps: seq<nat>, many: bool)
    | Acquiring(t: nat, deps: seq<nat>, many: bool)
    | Storing(t: nat, deps: seq<nat>, many: bool, i: nat)
    | TakingRef(t: nat, deps: seq<nat>, many: bool)
    | Publishing(t: nat, deps: seq<nat>, many: bool)
    | Unlocking(t: nat, deps: seq<nat>, many: bool)
    | Linking(t: nat, deps: seq<nat>, i: nat)
    | Registering(t: nat, deps: seq<nat>, i: nat)
    | Unregistering(t: nat, deps: seq<nat>, i: nat)
    | Guarding(t: nat, deps: seq<nat>)
    | Dispatching(t: nat, deps: seq<nat>)

  datatype State = State(
    tasks: seq<Task>,
    starters: seq<Starter>,
    // history
    dropping: multiset<nat>, // references of destroyed tasks still to be released
    clock: nat)

  datatype Action =
    | BeginStart(k: nat, t: nat, args: seq<Option<nat>>)
    | Validate(k: nat)
    | Acquire(k: nat, weak: bool)
    | StoreDep(k: nat)
    | StoreJoin(k: nat)
    | TakeRef(k: nat)
    | Publish(k: nat)
    | Unlock(k: nat)
    | Link(k: nat, weak: bool)
    | Register(k: nat)
    | Unregister(k: nat)
    | ReleaseGuard(k: nat)
    | DispatchDirect(k: nat)
    | Execute(t: nat)
    | EndBody(t: nat)
    | Finish(t: nat, weak: bool)
    | Signal(t: nat)
    | DropExec(t: nat)
    | CopyHandle(t: nat)
    | DropHandle(t: nat)
    | DropStored(t: nat)

  predicate IsTask(s: State, t: nat) { t < |s.tasks| }

  predicate IsStarter(s: State, k: nat) { k < |s.starters| }

  /** The start call relies on its caller's handle of task x. */
  predicate Pins(c: Starter, x: nat) {
    !c.Resting? && (c.t == x || x in c.deps || (c.Validating? && Some(x) in c.args))
  }

  predicate Enabled(s: State, a: Action) {
    match a
    case BeginStart(k, t, args) =>
      && IsStarter(s, k) && s.starters[k].Resting? && IsTask(s, t) && s.tasks[t].handles > 0
      && forall i :: 0 <= i < |args| && args[i].Some? ==> IsTask(s, args[i].value) && s.tasks[args[i].value].handles > 0
    case Validate(k) => IsStarter(s, k) && s.starters[k].Validating?
    case Acquire(k, _) => IsStarter(s, k) && s.starters[k].Acquiring?
    case StoreDep(k) => IsStarter(s, k) && s.starters[k].Storing? && s.starters[k].i < |s.starters[k].deps|
    case StoreJoin(k) => IsStarter(s, k) && s.starters[k].Storing? && s.starters[k].i >= |s.starters[k].deps|
    case TakeRef(k) => IsStarter(s, k) && s.starters[k].TakingRef?
    case Publish(k) => IsStarter(s, k) && s.starters[k].Publishing?
    case Unlock(k) => IsStarter(s, k) && s.starters[k].Unlocking?
    case Link(k, _) => IsStarter(s, k) && s.starters[k].Linking?
    case Register(k) => IsStarter(s, k) && s.starters[k].Registering?
    case Unregister(k) => IsStarter(s, k) && s.starters[k].Unregistering?
    case ReleaseGuard(k) => IsStarter(s, k) && s.starters[k].Guarding?
    case DispatchDirect(k) => IsStarter(s, k) && s.starters[k].Dispatching?
    case Execute(t) => IsTask(s, t) && s.tasks[t].exec.Ready?
    case EndBody(t) => IsTask(s, t) && s.tasks[t].exec.Executing?
    case Finish(t, _) => IsTask(s, t) && s.tasks[t].exec.Finishing?
    case Signal(t) => IsTask(s, t) && s.tasks[t].exec.Signalling? && s.tasks[t].exec.i < |s.tasks[t].succ|
    case DropExec(t) => IsTask(s, t) && s.tasks[t].exec.Signalling? && s.tasks[t].exec.i >= |s.tasks[t].succ|
    case CopyHandle(t) => IsTask(s, t) && s.tasks[t].handles > 0
    case DropHandle(t) =>
      && IsTask(s, t) && s.tasks[t].handles > 0
      && (s.tasks[t].handles > 1 || forall k :: 0 <= k < |s.starters| ==> !Pins(s.starters[k], t))
    case DropStored(t) => IsTask(s, t) && t in s.dropping
  }

  /** The task exists and has not been destroyed. */
  predicate Live(s: State, t: nat) { IsTask(s, t) && s.tasks[t].alive }

  /** Every task the action reads or writes is live, no counter underflows, and the source's assertions hold. */
  predicate Defined(s: State, a: Action)
    requires Enabled(s, a)
  {
    match a
    case BeginStart(_, t, _) => Live(s, t)
    case Validate(k) =>
      (match s.starters[k] case Validating(_, args, _, _) => args != [] && args[0].Some? ==> Live(s, args[0].value))
    case Acquire(k, _) =>
      (match s.starters[k] case Acquiring(t, _, _) =>
        Live(s, t) && (s.tasks[t].status.Idle? && !s.tasks[t].locked ==> s.tasks[t].preds == [] && s.tasks[t].succ == []))
    case StoreDep(k) => (match s.starters[k] case Storing(t, deps, _, i) => Live(s, t) && Live(s, deps[i]))
    case StoreJoin(k) => (match s.starters[k] case Storing(t, _, _, _) => Live(s, t))
    case TakeRef(k) => (match s.starters[k] case TakingRef(t, _, _) => Live(s, t))
    case Publish(k) => (match s.starters[k] case Publishing(t, _, _) => Live(s, t))
    case Unlock(k) => (match s.starters[k] case Unlocking(t, _, _) => Live(s, t))
    case Link(k, _) =>
      (match s.starters[k] case Linking(t, deps, i) => Live(s, t) && (i < |deps| ==> Live(s, deps[i])))
    case Register(k) =>
      (match s.starters[k] case Registering(t, deps, i) => Live(s, t) && i < |deps| && Live(s, deps[i]))
    case Unregister(k) => (match s.starters[k] case Unregistering(_, deps, i) => i < |deps| && Live(s, deps[i]))
    case ReleaseGuard(k) => (match s.starters[k] case Guarding(t, _) => Live(s, t))
    case DispatchDirect(k) => (match s.starters[k] case Dispatching(t, _) => Live(s, t))
    case Execute(t) => Live(s, t)
    case EndBody(t) => Live(s, t)
    case Finish(t, _) => Live(s, t) && s.tasks[t].status.Running?
    case Signal(t) =>
      (match s.tasks[t].exec case Signalling(i) => Live(s, t) && Live(s, s.tasks[t].succ[i]) && s.tasks[t].succ[i] != t)
    case DropExec(t) => Live(s, t) && s.tasks[t].uses > 0
    case CopyHandle(t) => Live(s, t)
    case DropHandle(t) => Live(s, t) && s.tasks[t].uses > 0
    case DropStored(t) => Live(s, t) && s.tasks[t].uses > 0
  }

  // ---------------------------------------------------------------------------------
  // Actions
  // ---------------------------------------------------------------------------------

  function Goto(s: State, k: nat, c: Starter): State
    requires IsStarter(s, k)
  {
    s.(starters := s.starters[k := c])
  }

  function SetTask(s: State, t: nat, x: Task): State
    requires IsTask(s, t)
  {
    s.(tasks := s.tasks[t := x])
  }

  /** Loading the control word: a task that is not Idle is refused. */
  function DoBeginStart(s: State, k: nat, t: nat, args: seq<Option<nat>>): State
    requires IsStarter(s, k) && IsTask(s, t)
  {
    if s.tasks[t].status.Idle? then Goto(s, k, Validating(t, args, [], args != [])) else s
  }

  /** The next argument is checked: null is skipped; the task itself and an Idle dependency are refused. */
  function DoValidate(s: State, k: nat): State
    requires IsStarter(s, k) && s.starters[k].Validating?
    requires s.starters[k].args != [] && s.starters[k].args[0].Some? ==> IsTask(s, s.starters[k].args[0].value)
  {
    var Validating(t, args, deps, many) := s.starters[k];
    if args == [] then Goto(s, k, Acquiring(t, deps, many))
    else match args[0]
      case None => Goto(s, k, Validating(t, args[1..], deps, many))
      case Some(p) =>
        if p == t || s.tasks[p].status.Idle? then Goto(s, k, Resting)
        else Goto(s, k, Validating(t, args[1..], deps + [p], many))
  }

  /** The lock is taken only from the unlocked Idle state; once the task is not Idle the call is refused. */
  function DoAcquire(s: State, k: nat, weak: bool): State
    requires IsStarter(s, k) && s.starters[k].Acquiring? && IsTask(s, s.starters[k].t)
  {
    var Acquiring(t, deps, many) := s.starters[k];
    var x := s.tasks[t];
    if !x.status.Idle? then Goto(s, k, Resting)
    else if weak || x.locked then s
    else Goto(SetTask(s, t, x.(locked := true, owner := Some(k))), k, Storing(t, deps, many, 0))
  }

  function DoStoreDep(s: State, k: nat): State
    requires IsStarter(s, k) && s.starters[k].Storing? && s.starters[k].i < |s.starters[k].deps|
    requires IsTask(s, s.starters[k].t) && IsTask(s, s.starters[k].deps[s.starters[k].i])
  {
    var Storing(t, deps, many, i) := s.starters[k];
    var p := deps[i];
    var u := SetTask(s, t, s.tasks[t].(preds := s.tasks[t].preds + [p]));
    var y := u.tasks[p];
    Goto(SetTask(u, p, y.(uses := y.uses + 1, storedBy := y.storedBy + multiset{t})), k, Storing(t, deps, many, i + 1))
  }

  function DoStoreJoin(s: State, k: nat): State
    requires IsStarter(s, k) && s.starters[k].Storing? && IsTask(s, s.starters[k].t)
  {
    var Storing(t, deps, many, _) := s.starters[k];
    Goto(SetTask(s, t, s.tasks[t].(join := if many then |deps| + 1 else 0)), k, TakingRef(t, deps, many))
  }

  function DoTakeRef(s: State, k: nat): State
    requires IsStarter(s, k) && s.starters[k].TakingRef? && IsTask(s, s.starters[k].t)
  {
    var TakingRef(t, deps, many) := s.starters[k];
    var x := s.tasks[t];
    Goto(SetTask(s, t, x.(uses := x.uses + 1, execRef := true)), k, Publishing(t, deps, many))
  }

  function DoPublish(s: State, k: nat): State
    requires IsStarter(s, k) && s.starters[k].Publishing? && IsTask(s, s.starters[k].t)
  {
    var c := s.starters[k];
    var x := s.tasks[c.t];
    Goto(SetTask(s, c.t, x.(status := Running, rank := Some(s.clock), deps := c.deps, starter := Some(k),
                            starts := x.starts + 1)),
         k, Unlocking(c.t, c.deps, c.many)).(clock := s.clock + 1)
  }

  function DoUnlock(s: State, k: nat): State
    requires IsStarter(s, k) && s.starters[k].Unlocking? && IsTask(s, s.starters[k].t)
  {
    var c := s.starters[k];
    Goto(SetTask(s, c.t, s.tasks[c.t].(locked := false, owner := None)),
         k, if c.many then Linking(c.t, c.deps, 0) else Dispatching(c.t, c.deps))
  }

  /** A Finished predecessor counts at once; otherwise its edge table is locked. */
  function DoLink(s: State, k: nat, weak: bool): State
    requires IsStarter(s, k) && s.starters[k].Linking? && IsTask(s, s.starters[k].t)
    requires s.starters[k].i < |s.starters[k].deps| ==> IsTask(s, s.starters[k].deps[s.starters[k].i])
  {
    var Linking(t, deps, i) := s.starters[k];
    if i >= |deps| then Goto(s, k, Guarding(t, deps))
    else
      var p := deps[i];
      if s.tasks[p].status.Finished? then
        var x := s.tasks[t];
        Goto(SetTask(s, t, x.(join := x.join - 1, done := x.done + multiset{p})), k, Linking(t, deps, i + 1))
      else if weak || s.tasks[p].locked then s
      else Goto(SetTask(s, p, s.tasks[p].(locked := true, owner := Some(k))), k, Registering(t, deps, i))
  }

  /** push_back, then swap with the first stored predecessor: successors stay in front. */
  function Rotate(preds: seq<nat>): seq<nat> {
    if preds == [] then [] else preds[1..] + [preds[0]]
  }

  function DoRegister(s: State, k: nat): State
    requires IsStarter(s, k) && s.starters[k].Registering? && s.starters[k].i < |s.starters[k].deps|
    requires IsTask(s, s.starters[k].t) && IsTask(s, s.starters[k].deps[s.starters[k].i])
  {
    var c := s.starters[k];
    var p := c.deps[c.i];
    var y := s.tasks[p];
    var u := SetTask(s, p, y.(succ := y.succ + [c.t], preds := Rotate(y.preds)));
    Goto(SetTask(u, c.t, u.tasks[c.t].(waiting := u.tasks[c.t].waiting + multiset{p})), k, Unregistering(c.t, c.deps, c.i))
  }

  function DoUnregister(s: State, k: nat): State
    requires IsStarter(s, k) && s.starters[k].Unregistering? && s.starters[k].i < |s.starters[k].deps|
    requires IsTask(s, s.starters[k].deps[s.starters[k].i])
  {
    var c := s.starters[k];
    var p := c.deps[c.i];
    Goto(SetTask(s, p, s.tasks[p].(locked := false, owner := None)), k, Linking(c.t, c.deps, c.i + 1))
  }

  /** One arrival: the one that takes the counter from 1 to 0 dispatches the task. */
  function Arrive(x: Task): Task {
    if x.join == 1 then x.(join := 0, exec := Ready, dispatched := x.dispatched + 1) else x.(join := x.join - 1)
  }

  function DoReleaseGuard(s: State, k: nat): State
    requires IsStarter(s, k) && s.starters[k].Guarding? && IsTask(s, s.starters[k].t)
  {
    var t := s.starters[k].t;
    Goto(SetTask(s, t, Arrive(s.tasks[t]).(starter := None)), k, Resting)
  }

  function DoDispatchDirect(s: State, k: nat): State
    requires IsStarter(s, k) && s.starters[k].Dispatching? && IsTask(s, s.starters[k].t)
  {
    var t := s.starters[k].t;
    var x := s.tasks[t];
    Goto(SetTask(s, t, x.(exec := Ready, dispatched := x.dispatched + 1, starter := None)), k, Resting)
  }

  /** Finished is published only from the unlocked Running state. */
  function DoFinish(s: State, t: nat, weak: bool): State
    requires IsTask(s, t)
  {
    var x := s.tasks[t];
    if weak || x.locked then s else SetTask(s, t, x.(status := Finished, exec := Signalling(0)))
  }

  function DoSignal(s: State, t: nat): State
    requires IsTask(s, t) && s.tasks[t].exec.Signalling? && s.tasks[t].exec.i < |s.tasks[t].succ|
    requires IsTask(s, s.tasks[t].succ[s.tasks[t].exec.i])
  {
    var x := s.tasks[t];
    var v := x.succ[x.exec.i];
    var u := SetTask(s, t, x.(exec := Signalling(x.exec.i + 1)));
    var y := u.tasks[v];
    SetTask(u, v, Arrive(y).(waiting := y.waiting - multiset{t}, done := y.done + multiset{t}))
  }

  /** Dropping a reference; the last one destroys the task and sets free the references it stored. */
  function Release(s: State, t: nat, x: Task): State
    requires IsTask(s, t) && x.uses > 0
  {
    if x.uses == 1 then
      var u := SetTask(s, t, x.(uses := 0, alive := false));
      u.(tasks := Forget(u.tasks, t), dropping := u.dropping + multiset(x.preds))
    else SetTask(s, t, x.(uses := x.uses - 1))
  }

  /** Task t no longer stores references: they have become references to be dropped. */
  function Forget(tasks: seq<Task>, t: nat): (r: seq<Task>)
    ensures |r| == |tasks|
    ensures forall p :: 0 <= p < |tasks| ==> r[p] == tasks[p].(storedBy := tasks[p].storedBy[t := 0])
  {
    seq(|tasks|, p requires 0 <= p < |tasks| => tasks[p].(storedBy := tasks[p].storedBy[t := 0]))
  }

  function Apply(s: State, a: Action): State
    requires Enabled(s, a) && Defined(s, a)
  {
    match a
    case BeginStart(k, t, args) => DoBeginStart(s, k, t, args)
    case Validate(k) => DoValidate(s, k)
    case Acquire(k, weak) => DoAcquire(s, k, weak)
    case StoreDep(k) => DoStoreDep(s, k)
    case StoreJoin(k) => DoStoreJoin(s, k)
    case TakeRef(k) => DoTakeRef(s, k)
    case Publish(k) => DoPublish(s, k)
    case Unlock(k) => DoUnlock(s, k)
    case Link(k, weak) => DoLink(s, k, weak)
    case Register(k) => DoRegister(s, k)
    case Unregister(k) => DoUnregister(s, k)
    case ReleaseGuard(k) => DoReleaseGuard(s, k)
    case DispatchDirect(k) => DoDispatchDirect(s, k)
    case Execute(t) => SetTask(s, t, s.tasks[t].(exec := Executing))
    case EndBody(t) => SetTask(s, t, s.tasks[t].(exec := Finishing))
    case Finish(t, weak) => DoFinish(s, t, weak)
    case Signal(t) => DoSignal(s, t)
    case DropExec(t) => Release(s, t, s.tasks[t].(exec := Done, execRef := false))
    case CopyHandle(t) =>
      var x := s.tasks[t];
      SetTask(s, t, x.(uses := x.uses + 1, handles := x.handles + 1))
    case DropHandle(t) => Release(s, t, s.tasks[t].(handles := s.tasks[t].handles - 1))
    case DropStored(t) => Release(s.(dropping := s.dropping - multiset{t}), t, s.tasks[t])
  }

  ghost predicate Step(s: State, a: Action, s': State) {
    Enabled(s, a) && Defined(s, a) && s' == Apply(s, a)
  }

  /** A created, unstarted task: one handle. */
  function NewTask(): Task {
    Task(Idle, false, 1, 0, [], [], true, NotReady, 1, false, None, None, None, [],
         multiset{}, multiset{}, multiset{}, 0, 0)
  }

  function InitState(tasks: nat, starters: nat): State {
    State(seq(tasks, _ => NewTask()), seq(starters, _ => Resting), multiset{}, 0)
  }

  // ---------------------------------------------------------------------------------
  // Invariant
  // ---------------------------------------------------------------------------------

  /** The task whose lock the start call holds. */
  function LockOf(c: Starter): Option<nat> {
    if c.Storing? || c.TakingRef? || c.Publishing? || c.Unlocking? then Some(c.t)
    else if (c.Registering? || c.Unregistering?) && c.i < |c.deps| then Some(c.deps[c.i])
    else None
  }

  /** The task the start call has published and not let go. */
  function OwnedBy(c: Starter): Option<nat> {
    if c.Unlocking? || c.Linking? || c.Registering? || c.Unregistering? || c.Guarding? || c.Dispatching? then Some(c.t)
    else None
  }

  /** Dependency entries the start call has yet to link. */
  function Unlinked(c: Starter): seq<nat> {
    if c.Unlocking? then c.deps
    else if (c.Linking? || c.Registering?) && c.i <= |c.deps| then c.deps[c.i..]
    else if c.Unregistering? && c.i < |c.deps| then c.deps[c.i + 1..]
    else []
  }

  /** The submit guard: one arrival that the start call itself still owes. */
  function Guard(c: Starter): nat {
    if (c.Unlocking? && c.many) || c.Linking? || c.Registering? || c.Unregistering? || c.Guarding? then 1 else 0
  }

  function UnlinkedOf(s: State, t: nat): seq<nat>
    requires IsTask(s, t)
  {
    match s.tasks[t].starter
    case None => []
    case Some(k) => if IsStarter(s, k) then Unlinked(s.starters[k]) else []
  }

  function GuardOf(s: State, t: nat): nat
    requires IsTask(s, t)
  {
    match s.tasks[t].starter
    case None => 0
    case Some(k) => if IsStarter(s, k) then Guard(s.starters[k]) else 0
  }

  /** The successors that task x has yet to signal. */
  function Unsignalled(x: Task): seq<nat> {
    match x.exec
    case Signalling(i) => if i <= |x.succ| then x.succ[i..] else []
    case Done => []
    case _ => x.succ
  }

  ghost predicate Started(s: State, p: nat) { IsTask(s, p) && !s.tasks[p].status.Idle? }

  /** A running task that is not ready awaits exactly its guard, its unlinked and its unsignalled dependencies. */
  ghost predicate JoinOk(s: State, t: nat)
    requires IsTask(s, t)
  {
    var x := s.tasks[t];
    && multiset(x.deps) == multiset(UnlinkedOf(s, t)) + x.waiting + x.done
    && (x.exec.NotReady? ==>
          && x.dispatched == 0
          && x.join == GuardOf(s, t) + |UnlinkedOf(s, t)| + |x.waiting|
          && (x.starter.None? ==> x.join > 0))
    && (!x.exec.NotReady? ==> x.dispatched == 1 && x.starter.None? && x.waiting == multiset{})
  }

  ghost predicate StatusOk(s: State, t: nat)
    requires IsTask(s, t)
  {
    var x := s.tasks[t];
    match x.status
    case Idle =>
      && x.exec.NotReady? && x.succ == [] && x.deps == [] && x.waiting == multiset{} && x.done == multiset{}
      && x.starter.None? && x.rank.None? && x.starts == 0 && x.dispatched == 0
      && (x.owner.None? ==> x.preds == [] && !x.execRef)
    case Running =>
      && (x.exec.NotReady? || x.exec.Ready? || x.exec.Executing? || x.exec.Finishing?)
      && x.execRef && x.starts == 1 && x.rank.Some? && x.rank.value < s.clock
      && multiset(x.preds) == multiset(x.deps)
      && JoinOk(s, t)
    case Finished =>
      && (x.exec.Done? || (x.exec.Signalling? && x.exec.i <= |x.succ|))
      && (x.execRef <==> x.exec.Signalling?) && x.starts == 1 && x.rank.Some? && x.rank.value < s.clock
      && x.owner.None?
      && multiset(x.preds) == multiset(x.deps)
      && JoinOk(s, t)
  }

  /** use count = handles + execution reference + live dependents storing it + references still to be dropped. */
  ghost predicate LifeOk(s: State, t: nat)
    requires IsTask(s, t)
  {
    var x := s.tasks[t];
    && x.uses == x.handles + (if x.execRef then 1 else 0) + |x.storedBy| + s.dropping[t]
    && (x.alive <==> x.uses > 0)
  }

  /** Dependencies were published earlier; those accounted for are Finished; successors are tasks. */
  ghost predicate OrderOk(s: State, t: nat)
    requires IsTask(s, t)
  {
    var x := s.tasks[t];
    && (forall p :: p in x.deps ==> Started(s, p) && s.tasks[p].rank.Some? && x.rank.Some? && s.tasks[p].rank.value < x.rank.value)
    && (forall p :: p in x.done ==> IsTask(s, p) && s.tasks[p].status.Finished?)
    && (forall v :: v in x.succ ==> IsTask(s, v))
  }

  ghost predicate OwnerOk(s: State, t: nat)
    requires IsTask(s, t)
  {
    var x := s.tasks[t];
    && (x.locked <==> x.owner.Some?)
    && (x.owner.Some? ==> IsStarter(s, x.owner.value) && LockOf(s.starters[x.owner.value]) == Some(t))
    && (x.starter.Some? ==> IsStarter(s, x.starter.value) && OwnedBy(s.starters[x.starter.value]) == Some(t))
  }

  ghost predicate TaskOk(s: State, t: nat)
    requires IsTask(s, t)
  {
    StatusOk(s, t) && LifeOk(s, t) && OrderOk(s, t) && OwnerOk(s, t)
  }

  /** Both sides of the edge tables agree, with multiplicity. */
  ghost predicate PairOk(s: State, p: nat, t: nat)
    requires IsTask(s, p) && IsTask(s, t)
  {
    && s.tasks[t].waiting[p] == multiset(Unsignalled(s.tasks[p]))[t]
    && s.tasks[p].storedBy[t] == if s.tasks[t].alive then multiset(s.tasks[t].preds)[p] else 0
  }

  ghost predicate PinsOk(s: State, k: nat)
    requires IsStarter(s, k)
  {
    var c := s.starters[k];
    && (forall x: nat :: Pins(c, x) ==> IsTask(s, x) && s.tasks[x].handles > 0)
    && (!c.Resting? ==> forall p :: p in c.deps ==> Started(s, p) && p != c.t)
    && ((c.Validating? || c.Acquiring? || c.Storing? || c.TakingRef? || c.Publishing? || c.Unlocking?) && !c.many ==> c.deps == [])
    && (c.Validating? && !c.many ==> c.args == [])
  }

  ghost predicate StarterOk(s: State, k: nat)
    requires IsStarter(s, k)
  {
    var c := s.starters[k];
    && PinsOk(s, k)
    && (LockOf(c).Some? ==> IsTask(s, LockOf(c).value) && s.tasks[LockOf(c).value].owner == Some(k))
    && (OwnedBy(c).Some? ==>
          && IsTask(s, c.t) && s.tasks[c.t].starter == Some(k) && s.tasks[c.t].status.Running?
          && s.tasks[c.t].exec.NotReady? && s.tasks[c.t].deps == c.deps)
    && match c
       case Storing(t, deps, many, i) =>
         s.tasks[t].status.Idle? && i <= |deps| && s.tasks[t].preds == deps[..i] && !s.tasks[t].execRef
       case TakingRef(t, deps, many) =>
         && s.tasks[t].status.Idle? && s.tasks[t].preds == deps && !s.tasks[t].execRef
         && s.tasks[t].join == if many then |deps| + 1 else 0
       case Publishing(t, deps, many) =>
         && s.tasks[t].status.Idle? && s.tasks[t].preds == deps && s.tasks[t].execRef
         && s.tasks[t].join == if many then |deps| + 1 else 0
       case Linking(_, deps, i) => i <= |deps|
       case Registering(_, deps, i) => i < |deps| && s.tasks[deps[i]].status.Running?
       case Unregistering(_, deps, i) => i < |deps| && s.tasks[deps[i]].status.Running?
       case Dispatching(_, deps) => deps == []
       case _ => true
  }

  ghost predicate StoredOk(s: State, p: nat)
    requires IsTask(s, p)
  {
    forall u :: u in s.tasks[p].storedBy ==> IsTask(s, u)
  }

  ghost predicate Inv(s: State) {
    && (forall t :: 0 <= t < |s.tasks| ==> TaskOk(s, t))
    && (forall k :: 0 <= k < |s.starters| ==> StarterOk(s, k))
    && (forall p, t :: 0 <= p < |s.tasks| && 0 <= t < |s.tasks| ==> PairOk(s, p, t))
    && (forall p :: 0 <= p < |s.tasks| ==> StoredOk(s, p))
    && (forall p :: p in s.dropping ==> IsTask(s, p))
  }
}
