// What becomes of a start call: which dependencies it gathers, exactly when it is refused, and that it never waits for
// anything but another call's lock.

module AsyncStarts {
  import opened Common
  import opened AsyncProtocol
  import opened AsyncInvariant
  import opened AsyncTheorems

  /** The arguments that are not null, in order. */
  function Named(args: seq<Option<nat>>): seq<nat> {
    if args == [] then []
    else Named(args[..|args| - 1]) + match args[|args| - 1] case None => [] case Some(p) => [p]
  }

  datatype Call = Call(t: nat, args: seq<Option<nat>>)

  /** The latest call of starter k. */
  function Latest(acts: seq<Action>, k: nat, i: nat): Option<Call>
    requires i <= |acts|
  {
    if i == 0 then None
    else if acts[i - 1].BeginStart? && acts[i - 1].k == k then Some(Call(acts[i - 1].t, acts[i - 1].args))
    else Latest(acts, k, i - 1)
  }

  /** How many arguments have been checked so far. */
  function Checked(c: Starter, args: seq<Option<nat>>): int
    requires c.Validating?
  {
    |args| - |c.args|
  }

  ghost predicate CallOk(c: Starter, call: Option<Call>) {
    !c.Resting? ==>
      && call.Some? && c.t == call.value.t
      && var args := call.value.args;
         && (c.Validating? || c.Acquiring? || c.Storing? || c.TakingRef? || c.Publishing? || c.Unlocking? ==> c.many == (args != []))
         && (c.Validating? ==>
               && 0 <= Checked(c, args)
               && c.args == args[Checked(c, args)..] && c.deps == Named(args[..Checked(c, args)]))
         && (!c.Validating? ==> c.deps == Named(args))
  }

  predicate ByStarter(a: Action, k: nat) {
    && (a.BeginStart? || a.Validate? || a.Acquire? || a.StoreDep? || a.StoreJoin? || a.TakeRef? || a.Publish? || a.Unlock?
        || a.Link? || a.Register? || a.Unregister? || a.ReleaseGuard? || a.DispatchDirect?)
    && a.k == k
  }

  lemma OthersLeaveStarter(s: State, a: Action, k: nat)
    requires Enabled(s, a) && Defined(s, a) && IsStarter(s, k) && !ByStarter(a, k)
    ensures IsStarter(Apply(s, a), k) && Apply(s, a).starters[k] == s.starters[k]
  {
  }

  /** Checking one argument appends it to the dependencies if it is not null. */
  lemma NamedNext(args: seq<Option<nat>>, n: nat)
    requires n < |args|
    ensures Named(args[..n + 1]) == Named(args[..n]) + match args[n] case None => [] case Some(p) => [p]
    ensures args[n..][0] == args[n] && args[n..][1..] == args[n + 1..]
  {
    assert args[..n + 1][..n] == args[..n];
  }

  lemma CallBegins(s: State, a: Action, k: nat)
    requires Enabled(s, a) && Defined(s, a) && a.BeginStart? && a.k == k && IsStarter(s, k)
    ensures CallOk(Apply(s, a).starters[k], Some(Call(a.t, a.args)))
  {
    assert a.args[..0] == [];
  }

  lemma CallValidates(s: State, k: nat, call: Option<Call>)
    requires Enabled(s, Validate(k)) && Defined(s, Validate(k)) && CallOk(s.starters[k], call)
    ensures CallOk(Apply(s, Validate(k)).starters[k], call)
  {
    var c, args := s.starters[k], call.value.args;
    var n := Checked(c, args);
    if c.args == [] { assert args[..n] == args; } else { NamedNext(args, n); }
    hide Named;
  }

  lemma CallGoesOn(s: State, a: Action, k: nat, call: Option<Call>)
    requires Enabled(s, a) && Defined(s, a) && ByStarter(a, k) && !a.BeginStart? && !a.Validate? && CallOk(s.starters[k], call)
    ensures IsStarter(Apply(s, a), k) && CallOk(Apply(s, a).starters[k], call)
  {
    hide Named;
  }

  lemma CallStep(s: State, a: Action, k: nat, call: Option<Call>)
    requires Enabled(s, a) && Defined(s, a) && IsStarter(s, k) && CallOk(s.starters[k], call)
    ensures IsStarter(Apply(s, a), k)
    ensures CallOk(Apply(s, a).starters[k], if a.BeginStart? && a.k == k then Some(Call(a.t, a.args)) else call)
  {
    hide CallOk;
    hide Apply;
    hide Enabled;
    hide Defined;
    if !ByStarter(a, k) {
      OthersLeaveStarter(s, a, k);
    } else {
      StarterStays(s, a, k);
      if a.BeginStart? { CallBegins(s, a, k); }
      else if a.Validate? { CallValidates(s, k, call); }
      else { CallGoesOn(s, a, k, call); }
    }
  }

  lemma StarterStays(s: State, a: Action, k: nat)
    requires Enabled(s, a) && Defined(s, a) && ByStarter(a, k)
    ensures IsStarter(s, k) && IsStarter(Apply(s, a), k)
  {
  }

  lemma {:induction false} CallHolds(run: seq<State>, acts: seq<Action>, i: nat, k: nat)
    requires IsRun(run, acts) && i < |run| && IsStarter(run[0], k)
    ensures IsStarter(run[i], k) && CallOk(run[i].starters[k], Latest(acts, k, i))
  {
    hide Apply;
    hide Defined;
    hide Enabled;
    hide CallOk;
    if i == 0 {
      Rested(run[0], k);
    } else {
      CallHolds(run, acts, i - 1, k);
      assert Step(run[i - 1], acts[i - 1], run[i]);
      CallStep(run[i - 1], acts[i - 1], k, Latest(acts, k, i - 1));
    }
  }

  lemma Rested(s: State, k: nat)
    requires IsStarter(s, k) && s == InitState(|s.tasks|, |s.starters|)
    ensures CallOk(s.starters[k], None)
  {
  }

  // ---------------------------------------------------------------------------------
  // The outcome of a call
  // ---------------------------------------------------------------------------------

  /** Why a call may be refused: the task is started already, or is named as its own dependency, or one named is Idle. */
  ghost predicate MayRefuse(s: State, call: Call) {
    || (IsTask(s, call.t) && !s.tasks[call.t].status.Idle?)
    || Some(call.t) in call.args
    || exists p: nat :: Some(p) in call.args && IsTask(s, p) && s.tasks[p].status.Idle?
  }

  /** The call has won: its task is started, by it, with the dependencies it named. */
  predicate Won(s: State, call: Call) {
    IsTask(s, call.t) && !s.tasks[call.t].status.Idle? && s.tasks[call.t].deps == Named(call.args)
  }

  /** Loading the status: the call goes on exactly if the task is Idle. */
  lemma BeginsIffIdle(s: State, k: nat, t: nat, args: seq<Option<nat>>)
    requires Enabled(s, BeginStart(k, t, args)) && Defined(s, BeginStart(k, t, args))
    ensures !Apply(s, BeginStart(k, t, args)).starters[k].Resting? <==> s.tasks[t].status.Idle?
  {
  }

  lemma EndsAtEnd(s: State, a: Action, k: nat, call: Call)
    requires Inv(s) && Enabled(s, a) && Defined(s, a) && ByStarter(a, k) && CallOk(s.starters[k], Some(call))
    requires !s.starters[k].Resting? && Apply(s, a).starters[k].Resting? && (a.ReleaseGuard? || a.DispatchDirect?)
    ensures Won(Apply(s, a), call)
  {
    assert StarterOk(s, k);
    hide Named;
  }

  lemma EndsBefore(s: State, a: Action, k: nat, call: Call)
    requires Inv(s) && Enabled(s, a) && Defined(s, a) && ByStarter(a, k) && CallOk(s.starters[k], Some(call))
    requires !s.starters[k].Resting? && Apply(s, a).starters[k].Resting? && !a.ReleaseGuard? && !a.DispatchDirect?
    ensures MayRefuse(s, call)
  {
    hide Inv;
    hide Named;
    var c := s.starters[k];
    if a.Validate? {
      assert c.args[0] in c.args;
      assert c.args[0] in call.args;
    }
  }

  /**
   * In every run, when a start call comes to its end: it has won, or at that moment there was a reason to refuse it.
   * So a call that names no Idle task and not its own, on a task nobody else starts, is never refused.
   */
  lemma StartOutcome(run: seq<State>, acts: seq<Action>, i: nat, k: nat)
    requires IsRun(run, acts) && i < |acts| && IsStarter(run[0], k)
    requires IsStarter(run[i], k) && !run[i].starters[k].Resting?
    requires IsStarter(run[i + 1], k) && run[i + 1].starters[k].Resting?
    ensures Latest(acts, k, i).Some?
    ensures Won(run[i + 1], Latest(acts, k, i).value) || MayRefuse(run[i], Latest(acts, k, i).value)
  {
    CallHolds(run, acts, i, k);
    RunInv(run, acts, i);
    assert Step(run[i], acts[i], run[i + 1]);
    var s, a := run[i], acts[i];
    hide Inv;
    hide Won;
    hide MayRefuse;
    if !ByStarter(a, k) { OthersLeaveStarter(s, a, k); }
    else if a.ReleaseGuard? || a.DispatchDirect? { EndsAtEnd(s, a, k, Latest(acts, k, i).value); }
    else { EndsBefore(s, a, k, Latest(acts, k, i).value); }
  }

  // ---------------------------------------------------------------------------------
  // Progress
  // ---------------------------------------------------------------------------------

  /** An upper bound of the actions a start call is away from its end, not counting tries for a lock that fail. */
  function Remaining(c: Starter): int {
    match c
    case Resting => 0
    case Validating(_, args, deps, _) => 8 + 4 * |deps| + 5 * |args|
    case Acquiring(_, deps, _) => 7 + 4 * |deps|
    case Storing(_, deps, _, i) => 6 + 4 * |deps| - i
    case TakingRef(_, deps, _) => 5 + 3 * |deps|
    case Publishing(_, deps, _) => 4 + 3 * |deps|
    case Unlocking(_, deps, _) => 3 + 3 * |deps|
    case Linking(_, deps, i) => 2 + 3 * (|deps| - i)
    case Registering(_, deps, i) => 1 + 3 * (|deps| - i)
    case Unregistering(_, deps, i) => 3 * (|deps| - i)
    case Guarding(_, _) => 1
    case Dispatching(_, _) => 1
  }

  /** What a start call does next. */
  function NextAction(c: Starter, k: nat): Action
    requires !c.Resting?
  {
    match c
    case Validating(_, _, _, _) => Validate(k)
    case Acquiring(_, _, _) => Acquire(k, false)
    case Storing(_, deps, _, i) => if i < |deps| then StoreDep(k) else StoreJoin(k)
    case TakingRef(_, _, _) => TakeRef(k)
    case Publishing(_, _, _) => Publish(k)
    case Unlocking(_, _, _) => Unlock(k)
    case Linking(_, _, _) => Link(k, false)
    case Registering(_, _, _) => Register(k)
    case Unregistering(_, _, _) => Unregister(k)
    case Guarding(_, _) => ReleaseGuard(k)
    case Dispatching(_, _) => DispatchDirect(k)
  }

  /** The task whose lock the call is trying for, if it tries for one. */
  function Wanted(s: State, c: Starter): Option<nat> {
    match c
    case Acquiring(t, _, _) => if IsTask(s, t) && s.tasks[t].status.Idle? then Some(t) else None
    case Linking(_, deps, i) =>
      if i < |deps| && IsTask(s, deps[i]) && !s.tasks[deps[i]].status.Finished? then Some(deps[i]) else None
    case _ => None
  }

  /** The action brings the call nearer to its end, or was a try for a lock that failed. */
  predicate Nearer(s: State, a: Action, s': State, k: nat) {
    && IsStarter(s, k) && IsStarter(s', k) && !s.starters[k].Resting? && Remaining(s.starters[k]) > 0
    && (|| Remaining(s'.starters[k]) < Remaining(s.starters[k])
        || (s' == s && TriesLock(s, a, k)))
  }

  /** A try for a lock that fails: spuriously, or because the lock is taken. */
  predicate TriesLock(s: State, a: Action, k: nat)
    requires IsStarter(s, k)
  {
    var w := Wanted(s, s.starters[k]);
    w.Some? && IsTask(s, w.value) && ((a.Acquire? || a.Link?) && (a.weak || s.tasks[w.value].locked))
  }

  /**
   * A start call's own action always brings it nearer to its end, unless it is a try for a lock that fails: spuriously,
   * or because another start call holds it, which never waits for a lock itself (LockHolderNeverSpins).
   */
  lemma StarterNearer(s: State, a: Action, k: nat)
    requires Inv(s) && Enabled(s, a) && Defined(s, a) && ByStarter(a, k) && !a.BeginStart?
    ensures Nearer(s, a, Apply(s, a), k)
  {
    hide Nearer;
    hide Inv;
    hide Enabled;
    hide Defined;
    hide Apply;
    if a.Link? {
      NearerByLink(s, a, k);
    } else if a.Register? || a.Unregister? {
      NearerLinking(s, a, k);
    } else if a.ReleaseGuard? || a.DispatchDirect? {
      NearerEnding(s, a, k);
    } else {
      NearerStarting(s, a, k);
    }
  }

  lemma NearerStarting(s: State, a: Action, k: nat)
    requires Inv(s) && Enabled(s, a) && Defined(s, a) && ByStarter(a, k) && !a.BeginStart?
    requires !a.Link? && !a.Register? && !a.Unregister? && !a.ReleaseGuard? && !a.DispatchDirect?
    ensures Nearer(s, a, Apply(s, a), k)
  {
    hide PinsOk;
    hide TaskOk;
    hide PairOk;
    hide StoredOk;
    hide Pins;
    assert StarterOk(s, k);
  }

  lemma NearerByLink(s: State, a: Action, k: nat)
    requires Inv(s) && Enabled(s, a) && Defined(s, a) && ByStarter(a, k) && a.Link?
    ensures Nearer(s, a, Apply(s, a), k)
  {
    hide PinsOk;
    hide TaskOk;
    hide PairOk;
    hide StoredOk;
    hide Pins;
    assert StarterOk(s, k);
  }

  lemma NearerLinking(s: State, a: Action, k: nat)
    requires Enabled(s, a) && Defined(s, a) && ByStarter(a, k) && (a.Register? || a.Unregister?)
    ensures Nearer(s, a, Apply(s, a), k)
  {
    hide Pins;
    hide Rotate;
  }

  lemma NearerEnding(s: State, a: Action, k: nat)
    requires Enabled(s, a) && Defined(s, a) && ByStarter(a, k) && (a.ReleaseGuard? || a.DispatchDirect?)
    ensures Nearer(s, a, Apply(s, a), k)
  {
  }

  lemma StarterCanMove(s: State, k: nat)
    requires Inv(s) && IsStarter(s, k) && !s.starters[k].Resting?
    ensures Enabled(s, NextAction(s.starters[k], k)) && Defined(s, NextAction(s.starters[k], k))
    ensures ByStarter(NextAction(s.starters[k], k), k)
  {
    hide Inv;
    hide Defined;
    AlwaysDefined(s, NextAction(s.starters[k], k));
  }

  /** A started task's execution goes on one action at a time; only the last, Finished, may have to wait for a lock. */
  function Stage(x: Task): int {
    match x.exec
    case NotReady => 5
    case Ready => 4
    case Executing => 3
    case Finishing => 2
    case Signalling(_) => 1
    case Done => 0
  }

  lemma ExecutionNearer(s: State, a: Action)
    requires Enabled(s, a) && Defined(s, a) && (a.Execute? || a.EndBody? || a.Finish? || a.Signal? || a.DropExec?)
    ensures IsTask(s, a.t) && IsTask(Apply(s, a), a.t)
    ensures var s' := Apply(s, a); var x, y := s.tasks[a.t], s'.tasks[a.t];
      || Stage(y) == Stage(x) - 1
      || (x.exec.Signalling? && y.exec == Signalling(x.exec.i + 1) && x.exec.i < |x.succ| && y.succ == x.succ)
      || (s' == s && a.Finish? && (a.weak || x.locked))
  {
  }
}
