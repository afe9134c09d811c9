// What the dependency protocol guarantees in every state of every run.

module AsyncTheorems {
  import opened Common
  import opened AsyncProtocol
  import opened AsyncInvariant

  // ---------------------------------------------------------------------------------
  // Runs
  // ---------------------------------------------------------------------------------

  lemma InitInv(tasks: nat, starters: nat)
    ensures Inv(InitState(tasks, starters))
  {
    var s := InitState(tasks, starters);
    forall t | 0 <= t < |s.tasks|
      ensures TaskOk(s, t)
    {
      assert s.tasks[t] == NewTask();
    }
    forall p, t | 0 <= p < |s.tasks| && 0 <= t < |s.tasks|
      ensures PairOk(s, p, t)
    {
      assert s.tasks[t] == NewTask() && s.tasks[p] == NewTask();
    }
  }

  lemma StarterStepInv(s: State, a: Action)
    requires Inv(s) && Enabled(s, a) && Defined(s, a)
    requires !a.Execute? && !a.EndBody? && !a.Finish? && !a.Signal?
    requires !a.DropExec? && !a.CopyHandle? && !a.DropHandle? && !a.DropStored?
    ensures Inv(Apply(s, a))
  {
    hide Inv;
    match a
    case BeginStart(k, t, args) => BeginStartKeeps(s, k, t, args);
    case Validate(k) => ValidateKeeps(s, k);
    case Acquire(k, weak) => AcquireKeeps(s, k, weak);
    case StoreDep(k) => StoreDepKeeps(s, k);
    case StoreJoin(k) => StoreJoinKeeps(s, k);
    case TakeRef(k) => TakeRefKeeps(s, k);
    case Publish(k) => PublishKeeps(s, k);
    case Unlock(k) => UnlockKeeps(s, k);
    case Link(k, weak) => LinkKeeps(s, k, weak);
    case Register(k) => RegisterKeeps(s, k);
    case Unregister(k) => UnregisterKeeps(s, k);
    case ReleaseGuard(k) => ReleaseGuardKeeps(s, k);
    case DispatchDirect(k) => DispatchDirectKeeps(s, k);
  }

  lemma TaskStepInv(s: State, a: Action)
    requires Inv(s) && Enabled(s, a) && Defined(s, a)
    requires a.Execute? || a.EndBody? || a.Finish? || a.Signal?
    ensures Inv(Apply(s, a))
  {
    match a
    case Execute(t) => hide Inv; ProgressKeeps(s, t, s.tasks[t].(exec := Executing));
    case EndBody(t) => hide Inv; ProgressKeeps(s, t, s.tasks[t].(exec := Finishing));
    case Finish(t, weak) =>
      hide Inv;
      if !weak && !s.tasks[t].locked {
        ProgressKeeps(s, t, s.tasks[t].(status := Finished, exec := Signalling(0)));
      }
    case Signal(t) =>
      SignalIsSafe(s, t);
      hide Inv;
      SignalKeeps(s, t, s.tasks[t].succ[s.tasks[t].exec.i]);
  }

  lemma CopyHandleStepInv(s: State, a: Action)
    requires Inv(s) && Enabled(s, a) && Defined(s, a) && a.CopyHandle?
    ensures Inv(Apply(s, a))
  {
    hide Inv;
    CopyHandleKeeps(s, a.t);
  }

  lemma DropExecStepInv(s: State, a: Action)
    requires Inv(s) && Enabled(s, a) && Defined(s, a) && a.DropExec?
    ensures Inv(Apply(s, a))
  {
    var t := a.t;
    assert TaskOk(s, t);
    assert s.tasks[t].execRef;
    hide Inv;
    hide TaskOk;
    ReleaseKeeps(s, s, t, s.tasks[t].(exec := Done, execRef := false));
  }

  lemma DropHandleStepInv(s: State, a: Action)
    requires Inv(s) && Enabled(s, a) && Defined(s, a) && (a.DropHandle? || a.DropStored?)
    ensures Inv(Apply(s, a))
  {
    hide Inv;
    var t := a.t;
    if a.DropHandle? {
      ReleaseKeeps(s, s, t, s.tasks[t].(handles := s.tasks[t].handles - 1));
    } else {
      ReleaseKeeps(s, s.(dropping := s.dropping - multiset{t}), t, s.tasks[t]);
    }
  }

  lemma StepInv(s: State, a: Action)
    requires Inv(s) && Enabled(s, a)
    ensures Defined(s, a) && Inv(Apply(s, a))
  {
    AlwaysDefined(s, a);
    hide Inv;
    hide Enabled;
    hide Defined;
    hide Apply;
    if a.Execute? || a.EndBody? || a.Finish? || a.Signal? {
      TaskStepInv(s, a);
    } else if a.CopyHandle? {
      CopyHandleStepInv(s, a);
    } else if a.DropExec? {
      DropExecStepInv(s, a);
    } else if a.DropHandle? || a.DropStored? {
      DropHandleStepInv(s, a);
    } else {
      StarterStepInv(s, a);
    }
  }

  /** A run: any number of created tasks and starting threads, then any interleaving. */
  ghost predicate IsRun(run: seq<State>, acts: seq<Action>) {
    && |run| == |acts| + 1
    && run[0] == InitState(|run[0].tasks|, |run[0].starters|)
    && forall i :: 0 <= i < |acts| ==> Step(run[i], acts[i], run[i + 1])
  }

  lemma {:induction false} RunInv(run: seq<State>, acts: seq<Action>, i: nat)
    requires IsRun(run, acts) && i < |run|
    ensures Inv(run[i])
  {
    hide Inv;
    hide Apply;
    hide Defined;
    if i == 0 {
      InitInv(|run[0].tasks|, |run[0].starters|);
    } else {
      RunInv(run, acts, i - 1);
      assert Step(run[i - 1], acts[i - 1], run[i]);
      StepInv(run[i - 1], acts[i - 1]);
    }
  }

  // ---------------------------------------------------------------------------------
  // Arrivals and dispatch
  // ---------------------------------------------------------------------------------

  /**
   * The join counter of a task that is not ready is the submit guard plus the dependency entries not yet
   * linked plus the registered entries whose predecessor has not signalled yet, each with multiplicity.
   */
  lemma JoinCountsArrivals(run: seq<State>, acts: seq<Action>, i: nat, t: nat)
    requires IsRun(run, acts) && i < |run| && Started(run[i], t) && run[i].tasks[t].exec.NotReady?
    ensures var s := run[i]; var x := s.tasks[t];
      && x.join == GuardOf(s, t) + |UnlinkedOf(s, t)| + |x.waiting|
      && multiset(x.deps) == multiset(UnlinkedOf(s, t)) + x.waiting + x.done
      && (forall p: nat :: IsTask(s, p) ==> x.waiting[p] == multiset(Unsignalled(s.tasks[p]))[t])
      && (forall p :: p in x.done ==> IsTask(s, p) && s.tasks[p].status.Finished?)
      && (x.join == 0 ==> x.starter.Some? && x.deps == [])
  {
    var s := run[i];
    RunInv(run, acts, i);
    assert TaskOk(s, t);
    forall p: nat | IsTask(s, p)
      ensures s.tasks[t].waiting[p] == multiset(Unsignalled(s.tasks[p]))[t]
    {
      assert PairOk(s, p, t);
    }
    if s.tasks[t].starter.Some? {
      assert StarterOk(s, s.tasks[t].starter.value);
    }
  }

  /** A task is dispatched at most once, and only when every dependency entry is accounted for by a Finished task. */
  lemma DispatchedOnceAndLast(run: seq<State>, acts: seq<Action>, i: nat, t: nat)
    requires IsRun(run, acts) && i < |run| && IsTask(run[i], t)
    ensures var s := run[i]; var x := s.tasks[t];
      && x.dispatched <= 1
      && (x.dispatched == 1 <==> !x.exec.NotReady?)
      && (x.dispatched == 1 ==> x.done == multiset(x.deps)
                                && forall p :: p in x.deps ==> IsTask(s, p) && s.tasks[p].status.Finished?)
  {
    var s := run[i];
    RunInv(run, acts, i);
    var x := s.tasks[t];
    assert TaskOk(s, t);
    if x.dispatched == 1 {
      assert x.done == multiset(x.deps);
      forall p | p in x.deps
        ensures IsTask(s, p) && s.tasks[p].status.Finished?
      {
        assert p in multiset(x.deps);
      }
    }
  }

  /** Of racing start calls on one task at most one wins, and the winner's dependencies are the task's. */
  lemma StartedAtMostOnce(run: seq<State>, acts: seq<Action>, i: nat, j: nat, k: nat)
    requires IsRun(run, acts) && i < |run| && IsStarter(run[i], j) && IsStarter(run[i], k)
    ensures var s := run[i]; var c, d := s.starters[j], s.starters[k];
      && (OwnedBy(c).Some? && OwnedBy(d) == OwnedBy(c) ==> j == k)
      && (LockOf(c).Some? && LockOf(d) == LockOf(c) ==> j == k)
      && (OwnedBy(c).Some? ==> IsTask(s, c.t) && s.tasks[c.t].deps == c.deps && s.tasks[c.t].starts == 1)
      && (forall t: nat :: IsTask(s, t) ==> s.tasks[t].starts == if s.tasks[t].status.Idle? then 0 else 1)
  {
    var s := run[i];
    RunInv(run, acts, i);
    assert StarterOk(s, j) && StarterOk(s, k);
    forall t: nat | IsTask(s, t)
      ensures s.tasks[t].starts == if s.tasks[t].status.Idle? then 0 else 1
    {
      assert TaskOk(s, t);
    }
  }

  /** A locked edge table belongs to a start call whose next action is enabled and never waits for another lock. */
  lemma LockHolderNeverSpins(run: seq<State>, acts: seq<Action>, i: nat, t: nat)
    requires IsRun(run, acts) && i < |run| && IsTask(run[i], t) && run[i].tasks[t].locked
    ensures var s := run[i];
      && s.tasks[t].owner.Some? && IsStarter(s, s.tasks[t].owner.value)
      && var c := s.starters[s.tasks[t].owner.value];
         && LockOf(c) == Some(t)
         && (c.Storing? || c.TakingRef? || c.Publishing? || c.Unlocking? || c.Registering? || c.Unregistering?)
  {
    RunInv(run, acts, i);
    assert TaskOk(run[i], t);
  }

  // ---------------------------------------------------------------------------------
  // The dependencies are acyclic, so everything started finishes
  // ---------------------------------------------------------------------------------

  /** path[0] depends on path[1], which depends on path[2], and so on. */
  ghost predicate IsPath(s: State, path: seq<nat>) {
    && |path| > 0
    && (forall j :: 0 <= j < |path| ==> Started(s, path[j]))
    && (forall j :: 0 <= j < |path| - 1 ==> path[j + 1] in s.tasks[path[j]].deps)
  }

  lemma {:induction false} RankFalls(s: State, path: seq<nat>)
    requires Inv(s) && IsPath(s, path)
    ensures forall t :: t in path ==> s.tasks[t].rank.Some?
    ensures |path| > 1 ==> s.tasks[path[|path| - 1]].rank.value < s.tasks[path[0]].rank.value
  {
    forall j | 0 <= j < |path|
      ensures s.tasks[path[j]].rank.Some?
    {
      assert TaskOk(s, path[j]);
    }
    if |path| > 1 {
      var n := |path| - 1;
      assert TaskOk(s, path[n - 1]);
      assert path[n] in s.tasks[path[n - 1]].deps;
      assert IsPath(s, path[..n]);
      RankFalls(s, path[..n]);
    }
  }

  /** No task depends on itself, directly or through others, however starts race. */
  lemma DependenciesAreAcyclic(run: seq<State>, acts: seq<Action>, i: nat, path: seq<nat>)
    requires IsRun(run, acts) && i < |run| && IsPath(run[i], path) && |path| > 1
    ensures path[0] != path[|path| - 1]
  {
    RunInv(run, acts, i);
    RankFalls(run[i], path);
    assert path[0] in path && path[|path| - 1] in path;
  }

  /** Nothing is being started and nothing is ready, executing or finishing. */
  ghost predicate Quiet(s: State) {
    && (forall k :: 0 <= k < |s.starters| ==> s.starters[k].Resting?)
    && (forall t :: 0 <= t < |s.tasks| ==> s.tasks[t].exec.NotReady? || s.tasks[t].exec.Done?)
  }

  lemma OwnerRests(s: State, t: nat)
    requires Inv(s) && Quiet(s) && IsTask(s, t)
    ensures s.tasks[t].owner.None? && s.tasks[t].starter.None?
  {
    assert TaskOk(s, t);
    assert OwnerOk(s, t);
    hide TaskOk;
    hide StarterOk;
    hide PairOk;
    hide StoredOk;
    assert forall k :: 0 <= k < |s.starters| ==> LockOf(s.starters[k]).None? && OwnedBy(s.starters[k]).None?;
  }

  function RankOf(s: State, t: nat): nat
    requires IsTask(s, t)
  {
    if s.tasks[t].rank.Some? then s.tasks[t].rank.value else 0
  }

  lemma {:induction false} QuietFinished(s: State, t: nat)
    requires Inv(s) && Quiet(s) && Started(s, t)
    ensures s.tasks[t].status.Finished?
    decreases RankOf(s, t)
  {
    assert TaskOk(s, t);
    var x := s.tasks[t];
    if x.exec.NotReady? {
      OwnerRests(s, t);
      assert x.starter.None? && |x.waiting| > 0;
      var p :| p in x.waiting;
      assert p in multiset(x.deps);
      assert p in x.deps;
      assert TaskOk(s, p) && PairOk(s, p, t);
      QuietFinished(s, p);
    }
  }

  /** When nothing is starting, ready or executing, every started task is Finished. */
  lemma QuietMeansFinished(run: seq<State>, acts: seq<Action>, i: nat)
    requires IsRun(run, acts) && i < |run| && Quiet(run[i])
    ensures forall t: nat :: Started(run[i], t) ==> run[i].tasks[t].status.Finished? && run[i].tasks[t].dispatched == 1
  {
    RunInv(run, acts, i);
    forall t: nat | Started(run[i], t)
      ensures run[i].tasks[t].status.Finished? && run[i].tasks[t].dispatched == 1
    {
      QuietFinished(run[i], t);
      assert TaskOk(run[i], t);
    }
  }

  // ---------------------------------------------------------------------------------
  // Lifetime
  // ---------------------------------------------------------------------------------

  /** The use count is exactly the references there are, and a task is destroyed exactly when there are none. */
  lemma UseCountIsExact(run: seq<State>, acts: seq<Action>, i: nat, t: nat)
    requires IsRun(run, acts) && i < |run| && IsTask(run[i], t)
    ensures var s := run[i]; var x := s.tasks[t];
      && x.uses == x.handles + (if x.execRef then 1 else 0) + |x.storedBy| + s.dropping[t]
      && (x.alive <==> x.uses > 0)
      && (x.status.Running? || x.exec.Signalling? ==> x.execRef)
      && forall u: nat :: IsTask(s, u) ==> x.storedBy[u] == if s.tasks[u].alive then multiset(s.tasks[u].preds)[t] else 0
  {
    var s := run[i];
    RunInv(run, acts, i);
    assert TaskOk(s, t);
    forall u: nat | IsTask(s, u)
      ensures s.tasks[t].storedBy[u] == if s.tasks[u].alive then multiset(s.tasks[u].preds)[t] else 0
    {
      assert PairOk(s, t, u);
    }
  }

  /** Nobody refers to a destroyed task: no start call, no live dependent, no predecessor still to signal. */
  lemma DestroyedIsUnreferenced(run: seq<State>, acts: seq<Action>, i: nat, t: nat)
    requires IsRun(run, acts) && i < |run| && IsTask(run[i], t) && !run[i].tasks[t].alive
    ensures var s := run[i]; var x := s.tasks[t];
      && (x.status.Idle? || (x.status.Finished? && x.exec.Done?)) && !x.locked
      && (forall k: nat :: IsStarter(s, k) ==> !Pins(s.starters[k], t))
      && (forall u: nat :: IsTask(s, u) && s.tasks[u].alive ==> t !in s.tasks[u].preds)
      && (forall p: nat :: IsTask(s, p) ==> t !in Unsignalled(s.tasks[p]))
  {
    var s := run[i];
    RunInv(run, acts, i);
    assert TaskOk(s, t);
    forall k: nat | IsStarter(s, k)
      ensures !Pins(s.starters[k], t)
    {
      assert StarterOk(s, k);
    }
    OwnerHasHandle(s, t);
    forall u: nat | IsTask(s, u) && s.tasks[u].alive
      ensures t !in s.tasks[u].preds
    {
      assert PairOk(s, t, u);
      assert s.tasks[t].storedBy[u] == 0;
      assert t !in multiset(s.tasks[u].preds);
    }
    forall p: nat | IsTask(s, p)
      ensures t !in Unsignalled(s.tasks[p])
    {
      assert PairOk(s, p, t);
      assert s.tasks[t].waiting == multiset{};
      assert t !in multiset(Unsignalled(s.tasks[p]));
    }
  }

  /** No action revives task t; by kind of action. */
  ghost predicate StaysDead(s: State, s': State, t: nat) {
    IsTask(s, t) && !s.tasks[t].alive ==> IsTask(s', t) && !s'.tasks[t].alive
  }

  lemma DeadThroughStart(s: State, a: Action, t: nat)
    requires Enabled(s, a) && Defined(s, a)
    requires a.BeginStart? || a.Validate? || a.Acquire? || a.StoreDep? || a.StoreJoin? || a.TakeRef? || a.Publish? || a.Unlock?
    ensures StaysDead(s, Apply(s, a), t)
  {
  }

  lemma DeadThroughLink(s: State, a: Action, t: nat)
    requires Enabled(s, a) && Defined(s, a)
    requires a.Link? || a.Register? || a.Unregister? || a.ReleaseGuard? || a.DispatchDirect?
    ensures StaysDead(s, Apply(s, a), t)
  {
  }

  lemma DeadThroughRun(s: State, a: Action, t: nat)
    requires Enabled(s, a) && Defined(s, a) && (a.Execute? || a.EndBody? || a.Finish? || a.Signal?)
    ensures StaysDead(s, Apply(s, a), t)
  {
  }

  lemma DeadThroughRelease(s: State, a: Action, t: nat)
    requires Enabled(s, a) && Defined(s, a) && (a.DropExec? || a.CopyHandle? || a.DropHandle? || a.DropStored?)
    ensures StaysDead(s, Apply(s, a), t)
  {
    hide Pins;
  }

  lemma DeadStaysDead(s: State, a: Action, t: nat)
    requires Enabled(s, a) && Defined(s, a) && IsTask(s, t) && !s.tasks[t].alive
    ensures IsTask(Apply(s, a), t) && !Apply(s, a).tasks[t].alive
  {
    hide Enabled;
    hide Defined;
    hide Apply;
    if a.Execute? || a.EndBody? || a.Finish? || a.Signal? {
      DeadThroughRun(s, a, t);
    } else if a.DropExec? || a.CopyHandle? || a.DropHandle? || a.DropStored? {
      DeadThroughRelease(s, a, t);
    } else if a.Link? || a.Register? || a.Unregister? || a.ReleaseGuard? || a.DispatchDirect? {
      DeadThroughLink(s, a, t);
    } else {
      DeadThroughStart(s, a, t);
    }
  }

  /** A destroyed task is never brought back, so it is destroyed at most once. */
  lemma {:induction false} DestroyedOnce(run: seq<State>, acts: seq<Action>, i: nat, j: nat, t: nat)
    requires IsRun(run, acts) && i <= j < |run| && IsTask(run[i], t) && !run[i].tasks[t].alive
    ensures IsTask(run[j], t) && !run[j].tasks[t].alive
  {
    hide Apply;
    hide Defined;
    hide Enabled;
    if i < j {
      DestroyedOnce(run, acts, i, j - 1, t);
      assert Step(run[j - 1], acts[j - 1], run[j]);
      DeadStaysDead(run[j - 1], acts[j - 1], t);
    }
  }

  /** A live task without handles is stored by a live dependent, which was published later. */
  lemma {:induction false} NotLeaked(s: State, t: nat)
    requires Inv(s) && Quiet(s) && IsTask(s, t) && s.dropping == multiset{}
    requires forall u: nat :: IsTask(s, u) ==> s.tasks[u].handles == 0
    ensures !s.tasks[t].alive
    decreases s.clock - (if s.tasks[t].status.Idle? then 0 else RankOf(s, t))
  {
    var x := s.tasks[t];
    assert TaskOk(s, t);
    if x.alive {
      if !x.status.Idle? {
        QuietFinished(s, t);
      }
      OwnerRests(s, t);
      assert !x.execRef;
      var u :| u in x.storedBy;
      assert StoredOk(s, t);
      assert PairOk(s, t, u) && TaskOk(s, u);
      OwnerRests(s, u);
      assert t in multiset(s.tasks[u].preds);
      assert t in multiset(s.tasks[u].deps);
      assert t in s.tasks[u].deps;
      NotLeaked(s, u);
    }
  }

  /** With every handle gone and nothing under way, every task has been destroyed. */
  lemma NothingLeaks(run: seq<State>, acts: seq<Action>, i: nat)
    requires IsRun(run, acts) && i < |run| && Quiet(run[i]) && run[i].dropping == multiset{}
    requires forall t: nat :: IsTask(run[i], t) ==> run[i].tasks[t].handles == 0
    ensures forall t: nat :: IsTask(run[i], t) ==> !run[i].tasks[t].alive
  {
    var s := run[i];
    RunInv(run, acts, i);
    forall t: nat | IsTask(s, t)
      ensures !s.tasks[t].alive
    {
      NotLeaked(s, t);
    }
  }
}
