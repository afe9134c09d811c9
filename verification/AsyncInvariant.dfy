// Every action of AsyncProtocol is defined in every state satisfying the invariant, and keeps it.

module AsyncInvariant {
  import opened Common
  import opened AsyncProtocol

  // ---------------------------------------------------------------------------------
  // Facts about one state
  // ---------------------------------------------------------------------------------

  lemma PinnedIsLive(s: State, k: nat, x: nat)
    requires Inv(s) && IsStarter(s, k) && Pins(s.starters[k], x)
    ensures Live(s, x) && s.tasks[x].handles > 0
  {
    assert StarterOk(s, k);
    assert TaskOk(s, x);
  }

  lemma UnsignalledIsWaiting(s: State, p: nat, i: nat)
    requires Inv(s) && IsTask(s, p) && i < |Unsignalled(s.tasks[p])|
    requires IsTask(s, Unsignalled(s.tasks[p])[i])
    ensures var t := Unsignalled(s.tasks[p])[i];
      && p in s.tasks[t].waiting && t != p && Live(s, t)
      && s.tasks[t].status.Running? && s.tasks[t].exec.NotReady?
  {
    var t := Unsignalled(s.tasks[p])[i];
    assert t in multiset(Unsignalled(s.tasks[p]));
    assert PairOk(s, p, t) && TaskOk(s, t);
    assert p in multiset(s.tasks[t].deps);
  }

  /** In no reachable state does an action touch a destroyed task or break an assertion of the source. */
  lemma AlwaysDefined(s: State, a: Action)
    requires Inv(s) && Enabled(s, a)
    ensures Defined(s, a)
  {
    match a
    case BeginStart(_, t, _) => assert TaskOk(s, t);
    case Validate(k) =>
      var Validating(_, args, _, _) := s.starters[k];
      if args != [] && args[0].Some? {
        PinnedIsLive(s, k, args[0].value);
      }
    case Acquire(k, _) =>
      var Acquiring(t, _, _) := s.starters[k];
      PinnedIsLive(s, k, t);
      assert TaskOk(s, t);
    case StoreDep(k) =>
      var Storing(t, deps, _, i) := s.starters[k];
      PinnedIsLive(s, k, t);
      PinnedIsLive(s, k, deps[i]);
    case StoreJoin(k) => PinnedIsLive(s, k, s.starters[k].t);
    case TakeRef(k) => PinnedIsLive(s, k, s.starters[k].t);
    case Publish(k) => PinnedIsLive(s, k, s.starters[k].t);
    case Unlock(k) => PinnedIsLive(s, k, s.starters[k].t);
    case Link(k, _) =>
      var Linking(t, deps, i) := s.starters[k];
      PinnedIsLive(s, k, t);
      if i < |deps| {
        PinnedIsLive(s, k, deps[i]);
      }
    case Register(k) =>
      var Registering(t, deps, i) := s.starters[k];
      assert StarterOk(s, k);
      PinnedIsLive(s, k, t);
      PinnedIsLive(s, k, deps[i]);
    case Unregister(k) =>
      var Unregistering(_, deps, i) := s.starters[k];
      assert StarterOk(s, k);
      PinnedIsLive(s, k, deps[i]);
    case ReleaseGuard(k) => PinnedIsLive(s, k, s.starters[k].t);
    case DispatchDirect(k) => PinnedIsLive(s, k, s.starters[k].t);
    case Execute(t) => assert TaskOk(s, t);
    case EndBody(t) => assert TaskOk(s, t);
    case Finish(t, _) => assert TaskOk(s, t);
    case Signal(t) => SignalIsSafe(s, t);
    case DropExec(t) => assert TaskOk(s, t);
    case CopyHandle(t) => assert TaskOk(s, t);
    case DropHandle(t) => assert TaskOk(s, t);
    case DropStored(t) => assert TaskOk(s, t);
  }

  lemma SignalIsSafe(s: State, t: nat)
    requires Inv(s) && Enabled(s, Signal(t))
    ensures Defined(s, Signal(t))
    ensures var v := s.tasks[t].succ[s.tasks[t].exec.i];
      && v != t && t in s.tasks[v].waiting && s.tasks[v].status.Running? && s.tasks[v].exec.NotReady?
  {
    assert TaskOk(s, t);
    var Signalling(i) := s.tasks[t].exec;
    assert Unsignalled(s.tasks[t]) == s.tasks[t].succ[i..];
    assert Unsignalled(s.tasks[t])[0] == s.tasks[t].succ[i];
    UnsignalledIsWaiting(s, t, 0);
  }

  // ---------------------------------------------------------------------------------
  // Frames: what an action of somebody else leaves alone
  // ---------------------------------------------------------------------------------

  /** Starting and finishing are never taken back. */
  ghost predicate Later(x: Task, y: Task) {
    && (!x.status.Idle? ==> !y.status.Idle? && y.rank == x.rank)
    && (x.status.Finished? ==> y.status.Finished?)
  }

  ghost predicate Grows(s: State, s': State) {
    && |s'.tasks| == |s.tasks| && |s'.starters| == |s.starters| && s.clock <= s'.clock
    && forall p: nat :: IsTask(s, p) ==> Later(s.tasks[p], s'.tasks[p])
  }

  /** Equal but for the lifetime bookkeeping. */
  ghost predicate SameWork(x: Task, y: Task) {
    y == x.(uses := y.uses, handles := y.handles, storedBy := y.storedBy, alive := y.alive)
  }

  /** The published task the start call holds, and the arrivals it owes, are the same. */
  ghost predicate SameDebt(c: Starter, d: Starter) {
    OwnedBy(d) == OwnedBy(c) && Unlinked(d) == Unlinked(c) && Guard(d) == Guard(c)
  }

  lemma FrameOrder(s: State, s': State, t: nat)
    requires IsTask(s, t) && OrderOk(s, t) && Grows(s, s')
    requires var x, y := s.tasks[t], s'.tasks[t];
      y.deps == x.deps && y.rank == x.rank && y.done == x.done && y.succ == x.succ
    ensures OrderOk(s', t)
  {
  }

  lemma FrameWork(s: State, s': State, t: nat)
    requires IsTask(s, t) && TaskOk(s, t) && Grows(s, s') && SameWork(s.tasks[t], s'.tasks[t])
    requires s.tasks[t].owner.Some? ==> var k := s.tasks[t].owner.value;
      IsStarter(s, k) ==> LockOf(s'.starters[k]) == LockOf(s.starters[k])
    requires s.tasks[t].starter.Some? ==> var k := s.tasks[t].starter.value;
      IsStarter(s, k) ==> SameDebt(s.starters[k], s'.starters[k])
    ensures StatusOk(s', t) && OrderOk(s', t) && OwnerOk(s', t)
  {
    assert UnlinkedOf(s', t) == UnlinkedOf(s, t) && GuardOf(s', t) == GuardOf(s, t);
  }

  lemma FrameTask(s: State, s': State, t: nat)
    requires IsTask(s, t) && TaskOk(s, t) && Grows(s, s') && s.tasks[t] == s'.tasks[t]
    requires s.dropping[t] == s'.dropping[t]
    requires s.tasks[t].owner.Some? ==> var k := s.tasks[t].owner.value;
      IsStarter(s, k) ==> LockOf(s'.starters[k]) == LockOf(s.starters[k])
    requires s.tasks[t].starter.Some? ==> var k := s.tasks[t].starter.value;
      IsStarter(s, k) ==> SameDebt(s.starters[k], s'.starters[k])
    ensures TaskOk(s', t)
  {
    FrameWork(s, s', t);
  }

  /** What a start call at c relies on in task u, before (x) and after (y). */
  ghost predicate Keeps(c: Starter, u: nat, x: Task, y: Task) {
    && (Pins(c, u) && x.handles > 0 ==> y.handles > 0)
    && (LockOf(c) == Some(u) ==> y.owner == x.owner && y.status == x.status)
    && (OwnedBy(c) == Some(u) ==> y.starter == x.starter && y.status == x.status && y.exec.NotReady? && y.deps == x.deps)
    && ((c.Storing? || c.TakingRef? || c.Publishing?) && c.t == u ==>
          y.preds == x.preds && y.execRef == x.execRef && y.join == x.join)
  }

  lemma FrameStarter(s: State, s': State, k: nat)
    requires IsStarter(s, k) && StarterOk(s, k) && Grows(s, s') && s'.starters[k] == s.starters[k]
    requires forall u: nat :: IsTask(s, u) ==> Keeps(s.starters[k], u, s.tasks[u], s'.tasks[u])
    ensures StarterOk(s', k)
  {
    var c := s.starters[k];
    assert forall u: nat :: Pins(c, u) ==> IsTask(s, u) && Keeps(c, u, s.tasks[u], s'.tasks[u]);
    if !c.Resting? {
      assert Pins(c, c.t);
      assert Keeps(c, c.t, s.tasks[c.t], s'.tasks[c.t]);
      if LockOf(c).Some? {
        assert Keeps(c, LockOf(c).value, s.tasks[LockOf(c).value], s'.tasks[LockOf(c).value]);
      }
    }
  }

  /** A change of the tasks in ts and of at most one start call; k is |s.starters| when no start call moves. */
  ghost predicate Local(s: State, s': State, k: nat, ts: set<nat>) {
    && k <= |s.starters| && Grows(s, s')
    && (forall j :: 0 <= j < |s.starters| && j != k ==> s'.starters[j] == s.starters[j])
    && (forall u :: 0 <= u < |s.tasks| && u !in ts ==> s'.tasks[u] == s.tasks[u] && s'.dropping[u] == s.dropping[u])
    && (forall u :: u in ts ==>
          && IsTask(s, u) && Private(k, s.tasks[u], s'.tasks[u])
          && HandlesKept(s, u, s'.tasks[u].handles))
    && (IsStarter(s, k) ==> HoldsOnly(ts, s.starters[k], s'.starters[k]))
  }

  predicate Unpinned(s: State, u: nat) {
    forall j :: 0 <= j < |s.starters| ==> !Pins(s.starters[j], u)
  }

  /** A handle that some start call relies on is not the last one to go. */
  predicate HandlesKept(s: State, u: nat, handles: nat)
    requires IsTask(s, u)
  {
    handles == s.tasks[u].handles || handles > 0 || Unpinned(s, u)
  }

  /** Holds and debts of a start call concern only the tasks in ts, or are unchanged. */
  ghost predicate HoldsOnly(ts: set<nat>, c: Starter, d: Starter) {
    && (LockOf(c).None? || LockOf(c).value in ts || LockOf(d) == LockOf(c))
    && (OwnedBy(c).None? || OwnedBy(c).value in ts || SameDebt(c, d))
  }

  /** The change from x to y is one that start calls other than k do not notice: what they rely on is theirs. */
  ghost predicate Private(k: nat, x: Task, y: Task) {
    && (x.owner == Some(k) || x.owner.None?
        || (y.owner == x.owner && y.status == x.status && y.preds == x.preds && y.execRef == x.execRef && y.join == x.join)
        || (y.owner == x.owner && y.status == x.status && !x.status.Idle?))
    && (x.starter == Some(k) || x.starter.None?
        || (y.starter == x.starter && y.status == x.status && y.exec == x.exec && y.deps == x.deps))
  }

  lemma PrivateKeeps(s: State, k: nat, t: nat, j: nat, y: Task)
    requires Inv(s) && IsStarter(s, j) && j != k && IsTask(s, t) && Private(k, s.tasks[t], y)
    requires HandlesKept(s, t, y.handles)
    ensures Keeps(s.starters[j], t, s.tasks[t], y)
  {
    hide TaskOk;
    hide PairOk;
    assert StarterOk(s, j);
  }

  /** Everything outside a local change survives it. */
  lemma FrameOthers(s: State, s': State, k: nat, ts: set<nat>)
    requires Inv(s) && Local(s, s', k, ts)
    ensures forall u :: 0 <= u < |s.tasks| && u !in ts ==> TaskOk(s', u)
    ensures forall j :: 0 <= j < |s.starters| && j != k ==> StarterOk(s', j)
  {
    forall u | 0 <= u < |s.tasks| && u !in ts
      ensures TaskOk(s', u)
    {
      FrameOtherTask(s, s', k, ts, u);
    }
    forall j | 0 <= j < |s.starters| && j != k
      ensures StarterOk(s', j)
    {
      FrameOtherStarter(s, s', k, ts, j);
    }
  }

  lemma FrameOtherTask(s: State, s': State, k: nat, ts: set<nat>, u: nat)
    requires Inv(s) && Local(s, s', k, ts) && IsTask(s, u) && u !in ts
    ensures TaskOk(s', u)
  {
    hide PairOk;
    hide StarterOk;
    assert TaskOk(s, u);
    assert OwnerOk(s, u);
    hide StatusOk;
    hide OrderOk;
    hide LifeOk;
    FrameTask(s, s', u);
  }

  lemma FrameOtherStarter(s: State, s': State, k: nat, ts: set<nat>, j: nat)
    requires Inv(s) && Local(s, s', k, ts) && IsStarter(s, j) && j != k
    ensures StarterOk(s', j)
  {
    hide PairOk;
    hide TaskOk;
    assert StarterOk(s, j);
    hide StarterOk;
    forall u: nat | IsTask(s, u)
      ensures Keeps(s.starters[j], u, s.tasks[u], s'.tasks[u])
    {
      assert u !in ts ==> s'.tasks[u] == s.tasks[u];
      PrivateKeeps(s, k, u, j, s'.tasks[u]);
    }
    FrameStarter(s, s', j);
  }

  // ---------------------------------------------------------------------------------
  // Actions of a start call
  // ---------------------------------------------------------------------------------

  /** The entries of the edge tables and the waiting sets are the same. */
  ghost predicate SameEdges(x: Task, y: Task) {
    && y.waiting == x.waiting && y.storedBy == x.storedBy && y.alive == x.alive && y.preds == x.preds
    && Unsignalled(y) == Unsignalled(x)
  }

  lemma FramePairs(s: State, s': State)
    requires Inv(s) && |s'.tasks| == |s.tasks|
    requires forall u :: 0 <= u < |s.tasks| ==> SameEdges(s.tasks[u], s'.tasks[u])
    ensures forall p, t :: 0 <= p < |s'.tasks| && 0 <= t < |s'.tasks| ==> PairOk(s', p, t)
    ensures forall p :: 0 <= p < |s'.tasks| ==> StoredOk(s', p)
  {
    hide TaskOk;
    hide StarterOk;
    forall p, t | 0 <= p < |s'.tasks| && 0 <= t < |s'.tasks|
      ensures PairOk(s', p, t)
    {
      assert PairOk(s, p, t);
      assert SameEdges(s.tasks[p], s'.tasks[p]) && SameEdges(s.tasks[t], s'.tasks[t]);
    }
    forall p | 0 <= p < |s'.tasks|
      ensures StoredOk(s', p)
    {
      assert StoredOk(s, p) && SameEdges(s.tasks[p], s'.tasks[p]);
    }
  }

  /** A local change that leaves the edge tables alone keeps the invariant if it does so for its task and start call. */
  lemma LocalKeeps(s: State, s': State, k: nat, t: nat)
    requires Inv(s) && Local(s, s', k, {t}) && s'.dropping == s.dropping && SameEdges(s.tasks[t], s'.tasks[t]) && TaskOk(s', t)
    requires IsStarter(s, k) ==> StarterOk(s', k)
    ensures Inv(s')
  {
    hide TaskOk;
    hide StarterOk;
    hide PairOk;
    FrameOthers(s, s', k, {t});
    FramePairs(s, s');
  }

  /** A start call that changes nothing but its own place is noticed by nobody. */
  lemma MoveKeeps(s: State, s': State, k: nat)
    requires Inv(s) && Local(s, s', k, {}) && IsStarter(s, k) && s'.tasks == s.tasks && s'.dropping == s.dropping && StarterOk(s', k)
    ensures Inv(s')
  {
    hide TaskOk;
    hide StarterOk;
    hide PairOk;
    FrameOthers(s, s', k, {});
    FramePairs(s, s');
  }

  /** LocalKeeps for a step that gives task t the value y and moves start call k to c. */
  lemma StepKeeps(s: State, k: nat, t: nat, y: Task, c: Starter)
    requires Inv(s) && IsStarter(s, k) && IsTask(s, t)
    requires Later(s.tasks[t], y) && Private(k, s.tasks[t], y) && SameEdges(s.tasks[t], y) && y.handles == s.tasks[t].handles
    requires HoldsOnly({t}, s.starters[k], c)
    requires var s' := Goto(SetTask(s, t, y), k, c); TaskOk(s', t) && StarterOk(s', k)
    ensures Inv(Goto(SetTask(s, t, y), k, c))
  {
    hide Inv;
    hide TaskOk;
    hide StarterOk;
    hide Later;
    hide Private;
    hide SameEdges;
    hide HoldsOnly;
    var s' := Goto(SetTask(s, t, y), k, c);
    assert Later(s.tasks[t], y);
    forall p: nat | IsTask(s, p)
      ensures Later(s.tasks[p], s'.tasks[p])
    {
      LaterRefl(s.tasks[p]);
    }
    LocalKeeps(s, s', k, t);
  }

  lemma LaterRefl(x: Task)
    ensures Later(x, x)
  {
  }

  /** LocalKeeps for a step that gives task t the value y. */
  lemma TaskKeeps(s: State, t: nat, y: Task)
    requires Inv(s) && IsTask(s, t)
    requires Later(s.tasks[t], y) && Private(|s.starters|, s.tasks[t], y) && SameEdges(s.tasks[t], y)
    requires HandlesKept(s, t, y.handles) && TaskOk(SetTask(s, t, y), t)
    ensures Inv(SetTask(s, t, y))
  {
    hide Inv;
    hide TaskOk;
    hide StarterOk;
    hide Later;
    hide Private;
    hide SameEdges;
    hide HoldsOnly;
    var s' := SetTask(s, t, y);
    forall p: nat | IsTask(s, p)
      ensures Later(s.tasks[p], s'.tasks[p])
    {
      LaterRefl(s.tasks[p]);
    }
    LocalKeeps(s, s', |s.starters|, t);
  }

  /** FrameOthers for a step that changes two tasks. */
  lemma TwoFrame(s: State, s': State, k: nat, t: nat, p: nat)
    requires Inv(s) && k <= |s.starters| && IsTask(s, t) && IsTask(s, p) && |s'.tasks| == |s.tasks|
    requires s'.tasks == s.tasks[t := s'.tasks[t]][p := s'.tasks[p]]
    requires |s'.starters| == |s.starters| && s'.dropping == s.dropping && s'.clock == s.clock
    requires forall j :: 0 <= j < |s.starters| && j != k ==> s'.starters[j] == s.starters[j]
    requires forall u :: u == t || u == p ==>
      && Later(s.tasks[u], s'.tasks[u]) && Private(k, s.tasks[u], s'.tasks[u])
      && s'.tasks[u].handles == s.tasks[u].handles
    requires IsStarter(s, k) ==> HoldsOnly({t, p}, s.starters[k], s'.starters[k])
    ensures forall u :: 0 <= u < |s.tasks| && u != t && u != p ==> TaskOk(s', u)
    ensures forall j :: 0 <= j < |s.starters| && j != k ==> StarterOk(s', j)
  {
    hide Inv;
    hide TaskOk;
    hide StarterOk;
    hide Later;
    hide Private;
    hide HoldsOnly;
    forall u: nat | IsTask(s, u)
      ensures Later(s.tasks[u], s'.tasks[u])
    {
      LaterRefl(s.tasks[u]);
    }
    FrameOthers(s, s', k, {t, p});
  }

  lemma BeginStartKeeps(s: State, k: nat, t: nat, args: seq<Option<nat>>)
    requires Inv(s) && IsStarter(s, k) && s.starters[k].Resting? && IsTask(s, t) && s.tasks[t].handles > 0
    requires forall i :: 0 <= i < |args| && args[i].Some? ==> IsTask(s, args[i].value) && s.tasks[args[i].value].handles > 0
    ensures Inv(DoBeginStart(s, k, t, args))
  {
    hide PairOk;
    hide TaskOk;
    var s' := DoBeginStart(s, k, t, args);
    if s.tasks[t].status.Idle? {
      forall x: nat | Pins(s'.starters[k], x)
        ensures IsTask(s, x) && s.tasks[x].handles > 0
      {
        if x != t {
          var i :| 0 <= i < |args| && args[i] == Some(x);
        }
      }
      assert StarterOk(s', k);
      MoveKeeps(s, s', k);
    }
  }

  /** A start call that holds nothing yet: only its pins matter. */
  lemma StarterMoves(s: State, s': State, k: nat)
    requires IsStarter(s, k) && StarterOk(s, k) && IsStarter(s', k) && s'.tasks == s.tasks
    requires s.starters[k].Validating? || s.starters[k].Acquiring?
    requires var c, d := s.starters[k], s'.starters[k];
      d.Resting? || ((d.Validating? || d.Acquiring?) && d.t == c.t && d.many == c.many
                     && (!d.many ==> d.deps == c.deps && (d.Validating? ==> d.args == []))
                     && (forall x: nat :: Pins(d, x) ==> Pins(c, x))
                     && (forall p: nat :: p in d.deps && p !in c.deps ==> Started(s, p) && p != c.t))
    ensures StarterOk(s', k)
  {
    var c, d := s.starters[k], s'.starters[k];
    if !d.Resting? {
      assert forall p :: p in c.deps ==> Started(s, p) && p != c.t;
    }
  }

  lemma ValidateKeeps(s: State, k: nat)
    requires Inv(s) && IsStarter(s, k) && s.starters[k].Validating?
    requires s.starters[k].args != [] && s.starters[k].args[0].Some? ==> IsTask(s, s.starters[k].args[0].value)
    ensures Inv(DoValidate(s, k))
  {
    hide PairOk;
    hide TaskOk;
    var s' := DoValidate(s, k);
    var Validating(t, args, deps, many) := s.starters[k];
    assert StarterOk(s, k);
    assert PinsOk(s, k);
    hide StarterOk;
    StarterMoves(s, s', k);
    assert Pins(s.starters[k], t);
    MoveKeeps(s, s', k);
  }

  lemma AcquireKeeps(s: State, k: nat, weak: bool)
    requires Inv(s) && IsStarter(s, k) && s.starters[k].Acquiring? && IsTask(s, s.starters[k].t)
    ensures Inv(DoAcquire(s, k, weak))
  {
    hide PairOk;
    hide TaskOk;
    hide StarterOk;
    var s' := DoAcquire(s, k, weak);
    var Acquiring(t, deps, many) := s.starters[k];
    assert StarterOk(s, k);
    if s.tasks[t].status.Idle? && !weak && !s.tasks[t].locked {
      AcquireLocks(s, k);
      LocalKeeps(s, s', k, t);
    } else if !s.tasks[t].status.Idle? {
      StarterMoves(s, s', k);
      MoveKeeps(s, s', k);
    }
  }

  lemma AcquireLocks(s: State, k: nat)
    requires Inv(s) && IsStarter(s, k) && s.starters[k].Acquiring? && IsTask(s, s.starters[k].t)
    requires var x := s.tasks[s.starters[k].t]; x.status.Idle? && !x.locked
    ensures var s', t := DoAcquire(s, k, false), s.starters[k].t;
      && TaskOk(s', t) && StarterOk(s', k) && s.tasks[t].owner.None? && s.tasks[t].starter.None?
  {
    hide PairOk;
    var s' := DoAcquire(s, k, false);
    var Acquiring(t, deps, many) := s.starters[k];
    assert StarterOk(s, k) && TaskOk(s, t);
    assert forall x: nat :: Pins(s'.starters[k], x) ==> Pins(s.starters[k], x);
  }

  /** Past validation a start call names the same tasks to its end. */
  lemma PinsMove(s: State, s': State, k: nat)
    requires IsStarter(s, k) && IsStarter(s', k) && Grows(s, s') && PinsOk(s, k)
    requires forall u: nat :: IsTask(s, u) && s.tasks[u].handles > 0 ==> s'.tasks[u].handles > 0
    requires var c, d := s.starters[k], s'.starters[k];
      && !c.Resting? && !c.Validating? && !d.Resting? && !d.Validating? && d.t == c.t && d.deps == c.deps
      && ((d.Acquiring? || d.Storing? || d.TakingRef? || d.Publishing? || d.Unlocking?) && !d.many ==> d.deps == [])
    ensures PinsOk(s', k)
  {
    var c, d := s.starters[k], s'.starters[k];
    assert forall x: nat :: Pins(d, x) ==> Pins(c, x);
  }

  lemma StoreJoinKeeps(s: State, k: nat)
    requires Inv(s) && IsStarter(s, k) && s.starters[k].Storing? && IsTask(s, s.starters[k].t)
    requires s.starters[k].i >= |s.starters[k].deps|
    ensures Inv(DoStoreJoin(s, k))
  {
    hide PairOk;
    hide TaskOk;
    hide StarterOk;
    StoreJoinOk(s, k);
    LocalKeeps(s, DoStoreJoin(s, k), k, s.starters[k].t);
  }

  lemma StoreJoinOk(s: State, k: nat)
    requires Inv(s) && IsStarter(s, k) && s.starters[k].Storing? && IsTask(s, s.starters[k].t)
    requires s.starters[k].i >= |s.starters[k].deps|
    ensures var s', t := DoStoreJoin(s, k), s.starters[k].t;
      && TaskOk(s', t) && StarterOk(s', k) && s.tasks[t].owner == Some(k) && s.tasks[t].starter.None?
      && s.tasks[t].exec.NotReady?
  {
    hide PairOk;
    var s' := DoStoreJoin(s, k);
    var Storing(t, deps, many, i) := s.starters[k];
    assert StarterOk(s, k) && TaskOk(s, t);
    assert deps[..i] == deps;
    assert many || deps == [] by { assert PinsOk(s, k); }
    hide PinsOk;
    PinsMove(s, s', k);
  }

  lemma TakeRefKeeps(s: State, k: nat)
    requires Inv(s) && IsStarter(s, k) && s.starters[k].TakingRef? && IsTask(s, s.starters[k].t)
    ensures Inv(DoTakeRef(s, k))
  {
    hide PairOk;
    hide TaskOk;
    hide StarterOk;
    TakeRefOk(s, k);
    LocalKeeps(s, DoTakeRef(s, k), k, s.starters[k].t);
  }

  lemma TakeRefOk(s: State, k: nat)
    requires Inv(s) && IsStarter(s, k) && s.starters[k].TakingRef? && IsTask(s, s.starters[k].t)
    ensures var s', t := DoTakeRef(s, k), s.starters[k].t;
      && TaskOk(s', t) && StarterOk(s', k) && s.tasks[t].owner == Some(k) && s.tasks[t].starter.None?
      && s.tasks[t].exec.NotReady? && s.tasks[t].alive
  {
    hide PairOk;
    var s' := DoTakeRef(s, k);
    var TakingRef(t, deps, many) := s.starters[k];
    assert StarterOk(s, k) && TaskOk(s, t);
    assert many || deps == [] by { assert PinsOk(s, k); }
    assert Pins(s.starters[k], t);
    assert s.tasks[t].handles > 0;
    hide PinsOk;
    PinsMove(s, s', k);
  }

  lemma PublishKeeps(s: State, k: nat)
    requires Inv(s) && IsStarter(s, k) && s.starters[k].Publishing? && IsTask(s, s.starters[k].t)
    ensures Inv(DoPublish(s, k))
  {
    hide PairOk;
    hide TaskOk;
    hide StarterOk;
    PublishOk(s, k);
    LocalKeeps(s, DoPublish(s, k), k, s.starters[k].t);
  }

  lemma PublishOk(s: State, k: nat)
    requires Inv(s) && IsStarter(s, k) && s.starters[k].Publishing? && IsTask(s, s.starters[k].t)
    ensures var s', t := DoPublish(s, k), s.starters[k].t;
      TaskOk(s', t) && StarterOk(s', k) && s.tasks[t].owner == Some(k) && s.tasks[t].starter.None? && s.tasks[t].status.Idle?
  {
    hide PairOk;
    var s' := DoPublish(s, k);
    var Publishing(t, deps, many) := s.starters[k];
    assert StarterOk(s, k) && TaskOk(s, t);
    forall p | p in deps
      ensures Started(s, p) && p != t && s.tasks[p].rank.Some? && s.tasks[p].rank.value < s.clock
    {
      assert TaskOk(s, p);
    }
    assert Unlinked(s'.starters[k]) == deps;
  }

  lemma UnlockKeeps(s: State, k: nat)
    requires Inv(s) && IsStarter(s, k) && s.starters[k].Unlocking? && IsTask(s, s.starters[k].t)
    ensures Inv(DoUnlock(s, k))
  {
    hide PairOk;
    hide TaskOk;
    hide StarterOk;
    UnlockOk(s, k);
    LocalKeeps(s, DoUnlock(s, k), k, s.starters[k].t);
  }

  /** A started, unfinished task whose lock changes hands stays as it was unless its start call pays a debt. */
  lemma FrameDebt(s: State, s': State, t: nat)
    requires IsTask(s, t) && TaskOk(s, t) && Grows(s, s') && s.tasks[t].status.Running?
    requires s.tasks[t].starter.Some? ==> var k := s.tasks[t].starter.value;
      IsStarter(s, k) && SameDebt(s.starters[k], s'.starters[k])
    requires var x, y := s.tasks[t], s'.tasks[t];
      y == x.(locked := y.locked, owner := y.owner) && s'.dropping[t] == s.dropping[t] && OwnerOk(s', t)
    ensures TaskOk(s', t)
  {
    assert UnlinkedOf(s', t) == UnlinkedOf(s, t) && GuardOf(s', t) == GuardOf(s, t);
  }

  lemma UnlockStarter(s: State, k: nat)
    requires IsStarter(s, k) && s.starters[k].Unlocking? && IsTask(s, s.starters[k].t) && StarterOk(s, k)
    ensures StarterOk(DoUnlock(s, k), k)
    ensures var x := s.tasks[s.starters[k].t]; x.starter == Some(k) && x.owner == Some(k) && x.status.Running?
  {
    assert s.starters[k].many || s.starters[k].deps == [];
    hide PinsOk;
    PinsMove(s, DoUnlock(s, k), k);
  }

  lemma UnlockOk(s: State, k: nat)
    requires Inv(s) && IsStarter(s, k) && s.starters[k].Unlocking? && IsTask(s, s.starters[k].t)
    ensures var s', t := DoUnlock(s, k), s.starters[k].t;
      TaskOk(s', t) && StarterOk(s', k) && s.tasks[t].owner == Some(k) && s.tasks[t].starter == Some(k)
  {
    hide PairOk;
    var s' := DoUnlock(s, k);
    var Unlocking(t, deps, many) := s.starters[k];
    assert StarterOk(s, k) && TaskOk(s, t);
    UnlockStarter(s, k);
    assert deps[0..] == deps;
    assert OwnerOk(s', t);
    hide TaskOk;
    hide StarterOk;
    FrameDebt(s, s', t);
  }

  lemma LinkKeeps(s: State, k: nat, weak: bool)
    requires Inv(s) && IsStarter(s, k) && s.starters[k].Linking? && IsTask(s, s.starters[k].t)
    requires s.starters[k].i < |s.starters[k].deps| ==> IsTask(s, s.starters[k].deps[s.starters[k].i])
    ensures Inv(DoLink(s, k, weak))
  {
    hide PairOk;
    hide TaskOk;
    hide StarterOk;
    var Linking(t, deps, i) := s.starters[k];
    if i >= |deps| {
      LinkEnds(s, k);
      hide Inv;
      MoveKeeps(s, DoLink(s, k, weak), k);
    } else if s.tasks[deps[i]].status.Finished? {
      LinkCountKeeps(s, k);
    } else if !weak && !s.tasks[deps[i]].locked {
      LinkLockKeeps(s, k);
    }
  }

  lemma LinkCountKeeps(s: State, k: nat)
    requires Inv(s) && IsStarter(s, k) && s.starters[k].Linking? && IsTask(s, s.starters[k].t)
    requires s.starters[k].i < |s.starters[k].deps|
    requires IsTask(s, s.starters[k].deps[s.starters[k].i]) && s.tasks[s.starters[k].deps[s.starters[k].i]].status.Finished?
    ensures Inv(DoLink(s, k, false))
  {
    hide Inv;
    hide TaskOk;
    hide StarterOk;
    LinkCounts(s, k);
    var Linking(t, deps, i) := s.starters[k];
    var x := s.tasks[t];
    StepKeeps(s, k, t, x.(join := x.join - 1, done := x.done + multiset{deps[i]}), Linking(t, deps, i + 1));
  }

  lemma LinkLockKeeps(s: State, k: nat)
    requires Inv(s) && IsStarter(s, k) && s.starters[k].Linking? && IsTask(s, s.starters[k].t)
    requires s.starters[k].i < |s.starters[k].deps|
    requires var p := s.starters[k].deps[s.starters[k].i];
      IsTask(s, p) && !s.tasks[p].status.Finished? && !s.tasks[p].locked
    ensures Inv(DoLink(s, k, false))
  {
    hide Inv;
    hide TaskOk;
    hide StarterOk;
    LinkLocks(s, k);
    var Linking(t, deps, i) := s.starters[k];
    StepKeeps(s, k, deps[i], s.tasks[deps[i]].(locked := true, owner := Some(k)), Registering(t, deps, i));
  }

  lemma LinkEnds(s: State, k: nat)
    requires Inv(s) && IsStarter(s, k) && s.starters[k].Linking? && IsTask(s, s.starters[k].t)
    requires s.starters[k].i >= |s.starters[k].deps|
    ensures StarterOk(DoLink(s, k, false), k)
    ensures SameDebt(s.starters[k], DoLink(s, k, false).starters[k])
  {
    hide PairOk;
    hide TaskOk;
    assert StarterOk(s, k);
  }

  lemma LinkCountsJoin(s: State, k: nat)
    requires IsStarter(s, k) && s.starters[k].Linking? && IsTask(s, s.starters[k].t)
    requires s.tasks[s.starters[k].t].starter == Some(k) && s.tasks[s.starters[k].t].exec.NotReady?
    requires JoinOk(s, s.starters[k].t)
    requires s.starters[k].i < |s.starters[k].deps|
    requires IsTask(s, s.starters[k].deps[s.starters[k].i]) && s.tasks[s.starters[k].deps[s.starters[k].i]].status.Finished?
    ensures JoinOk(DoLink(s, k, false), s.starters[k].t)
  {
    var Linking(t, deps, i) := s.starters[k];
    assert deps[i..] == [deps[i]] + deps[i + 1..];
    assert UnlinkedOf(s, t) == deps[i..] && UnlinkedOf(DoLink(s, k, false), t) == deps[i + 1..];
    hide UnlinkedOf;
    hide Unlinked;
  }

  lemma LinkCountsTask(s: State, k: nat)
    requires IsStarter(s, k) && s.starters[k].Linking? && IsTask(s, s.starters[k].t) && StarterOk(s, k) && TaskOk(s, s.starters[k].t)
    requires s.starters[k].i < |s.starters[k].deps|
    requires IsTask(s, s.starters[k].deps[s.starters[k].i]) && s.tasks[s.starters[k].deps[s.starters[k].i]].status.Finished?
    ensures TaskOk(DoLink(s, k, false), s.starters[k].t)
  {
    LinkCountsStatus(s, k);
    LinkCountsRest(s, k);
    hide *;
    AllOk(DoLink(s, k, false), s.starters[k].t);
  }

  lemma LinkCountsStatus(s: State, k: nat)
    requires IsStarter(s, k) && s.starters[k].Linking? && IsTask(s, s.starters[k].t) && StarterOk(s, k) && TaskOk(s, s.starters[k].t)
    requires s.starters[k].i < |s.starters[k].deps|
    requires IsTask(s, s.starters[k].deps[s.starters[k].i]) && s.tasks[s.starters[k].deps[s.starters[k].i]].status.Finished?
    ensures IsTask(DoLink(s, k, false), s.starters[k].t) && StatusOk(DoLink(s, k, false), s.starters[k].t)
  {
    LinkCountsJoin(s, k);
    hide PinsOk;
    hide JoinOk;
    hide LifeOk;
    hide OrderOk;
    hide OwnerOk;
  }

  lemma LinkCountsRest(s: State, k: nat)
    requires IsStarter(s, k) && s.starters[k].Linking? && IsTask(s, s.starters[k].t) && StarterOk(s, k) && TaskOk(s, s.starters[k].t)
    requires s.starters[k].i < |s.starters[k].deps|
    requires IsTask(s, s.starters[k].deps[s.starters[k].i]) && s.tasks[s.starters[k].deps[s.starters[k].i]].status.Finished?
    ensures var s', t := DoLink(s, k, false), s.starters[k].t; IsTask(s', t) && LifeOk(s', t) && OrderOk(s', t) && OwnerOk(s', t)
  {
    hide PinsOk;
    hide JoinOk;
    hide StatusOk;
  }

  lemma LinkCountsStarter(s: State, k: nat)
    requires IsStarter(s, k) && s.starters[k].Linking? && IsTask(s, s.starters[k].t) && StarterOk(s, k)
    requires s.starters[k].i < |s.starters[k].deps|
    requires IsTask(s, s.starters[k].deps[s.starters[k].i]) && s.tasks[s.starters[k].deps[s.starters[k].i]].status.Finished?
    ensures StarterOk(DoLink(s, k, false), k)
    ensures var x := s.tasks[s.starters[k].t]; x.starter == Some(k) && x.exec.NotReady? && x.status.Running?
  {
    hide PinsOk;
    PinsMove(s, DoLink(s, k, false), k);
  }

  lemma LinkCounts(s: State, k: nat)
    requires Inv(s) && IsStarter(s, k) && s.starters[k].Linking? && IsTask(s, s.starters[k].t)
    requires s.starters[k].i < |s.starters[k].deps|
    requires IsTask(s, s.starters[k].deps[s.starters[k].i]) && s.tasks[s.starters[k].deps[s.starters[k].i]].status.Finished?
    ensures var s', t := DoLink(s, k, false), s.starters[k].t;
      && TaskOk(s', t) && StarterOk(s', k) && s.tasks[t].starter == Some(k) && !s.tasks[t].status.Idle?
  {
    hide PairOk;
    assert StarterOk(s, k) && TaskOk(s, s.starters[k].t);
    LinkCountsTask(s, k);
    LinkCountsStarter(s, k);
    assert StarterOk(s, k) && s.tasks[s.starters[k].t].starter == Some(k);
    hide StarterOk;
    hide TaskOk;
  }

  lemma LinkLocksStarter(s: State, k: nat)
    requires IsStarter(s, k) && s.starters[k].Linking? && IsTask(s, s.starters[k].t) && StarterOk(s, k)
    requires s.starters[k].i < |s.starters[k].deps|
    requires var p := s.starters[k].deps[s.starters[k].i];
      IsTask(s, p) && !s.tasks[p].status.Finished? && !s.tasks[p].locked
    ensures StarterOk(DoLink(s, k, false), k)
    ensures var p := s.starters[k].deps[s.starters[k].i]; p != s.starters[k].t && s.tasks[p].status.Running?
  {
    var Linking(t, deps, i) := s.starters[k];
    assert deps[i] in deps;
    assert Started(s, deps[i]) && deps[i] != t;
    hide PinsOk;
    PinsMove(s, DoLink(s, k, false), k);
  }

  lemma LinkLocks(s: State, k: nat)
    requires Inv(s) && IsStarter(s, k) && s.starters[k].Linking? && IsTask(s, s.starters[k].t)
    requires s.starters[k].i < |s.starters[k].deps|
    requires var p := s.starters[k].deps[s.starters[k].i];
      IsTask(s, p) && !s.tasks[p].status.Finished? && !s.tasks[p].locked
    ensures var s', p := DoLink(s, k, false), s.starters[k].deps[s.starters[k].i];
      && TaskOk(s', p) && StarterOk(s', k) && s.tasks[p].owner.None? && p != s.starters[k].t
      && SameDebt(s.starters[k], s'.starters[k])
  {
    hide PairOk;
    hide TaskOk;
    hide StarterOk;
    assert StarterOk(s, k) && TaskOk(s, s.starters[k].deps[s.starters[k].i]);
    hide Inv;
    LinkLocksStarter(s, k);
    LinkLocksOwner(s, k);
    LinkLocksTask(s, k);
  }

  lemma LinkLocksTask(s: State, k: nat)
    requires IsStarter(s, k) && s.starters[k].Linking? && IsTask(s, s.starters[k].t)
    requires s.starters[k].i < |s.starters[k].deps|
    requires var p := s.starters[k].deps[s.starters[k].i];
      IsTask(s, p) && s.tasks[p].status.Running? && !s.tasks[p].locked && TaskOk(s, p) && p != s.starters[k].t
    requires var s', p := DoLink(s, k, false), s.starters[k].deps[s.starters[k].i]; IsTask(s', p) && OwnerOk(s', p)
    ensures var s', p := DoLink(s, k, false), s.starters[k].deps[s.starters[k].i];
      TaskOk(s', p) && IsStarter(s', k) && SameDebt(s.starters[k], s'.starters[k])
  {
    var s', p := DoLink(s, k, false), s.starters[k].deps[s.starters[k].i];
    hide StatusOk;
    hide LifeOk;
    hide OrderOk;
    assert Grows(s, s') && SameDebt(s.starters[k], s'.starters[k]);
    FrameDebt(s, s', p);
  }

  lemma LinkLocksOwner(s: State, k: nat)
    requires IsStarter(s, k) && s.starters[k].Linking? && IsTask(s, s.starters[k].t)
    requires s.starters[k].i < |s.starters[k].deps|
    requires var p := s.starters[k].deps[s.starters[k].i];
      IsTask(s, p) && !s.tasks[p].status.Finished? && !s.tasks[p].locked && TaskOk(s, p) && p != s.starters[k].t
    ensures var s', p := DoLink(s, k, false), s.starters[k].deps[s.starters[k].i]; IsTask(s', p) && OwnerOk(s', p)
    ensures s.tasks[s.starters[k].deps[s.starters[k].i]].owner.None?
  {
    hide StatusOk;
    hide LifeOk;
    hide OrderOk;
  }

  lemma UnregisterKeeps(s: State, k: nat)
    requires Inv(s) && IsStarter(s, k) && s.starters[k].Unregistering? && s.starters[k].i < |s.starters[k].deps|
    requires IsTask(s, s.starters[k].deps[s.starters[k].i])
    ensures Inv(DoUnregister(s, k))
  {
    hide PairOk;
    hide TaskOk;
    hide StarterOk;
    UnregisterOk(s, k);
    var Unregistering(t, deps, i) := s.starters[k];
    StepKeeps(s, k, deps[i], s.tasks[deps[i]].(locked := false, owner := None), Linking(t, deps, i + 1));
  }

  lemma UnregisterStarter(s: State, k: nat)
    requires IsStarter(s, k) && s.starters[k].Unregistering? && s.starters[k].i < |s.starters[k].deps| && StarterOk(s, k)
    requires IsTask(s, s.starters[k].deps[s.starters[k].i])
    ensures StarterOk(DoUnregister(s, k), k)
    ensures var p := s.starters[k].deps[s.starters[k].i];
      p != s.starters[k].t && s.tasks[p].status.Running? && s.tasks[p].owner == Some(k)
  {
    var Unregistering(t, deps, i) := s.starters[k];
    assert deps[i] in deps;
    assert deps[i] != t;
    hide PinsOk;
    PinsMove(s, DoUnregister(s, k), k);
  }

  lemma UnregisterOk(s: State, k: nat)
    requires Inv(s) && IsStarter(s, k) && s.starters[k].Unregistering? && s.starters[k].i < |s.starters[k].deps|
    requires IsTask(s, s.starters[k].deps[s.starters[k].i])
    ensures var s', p := DoUnregister(s, k), s.starters[k].deps[s.starters[k].i];
      && TaskOk(s', p) && StarterOk(s', k) && s.tasks[p].owner == Some(k) && p != s.starters[k].t
      && SameDebt(s.starters[k], s'.starters[k])
  {
    hide PairOk;
    var s' := DoUnregister(s, k);
    var Unregistering(t, deps, i) := s.starters[k];
    var p := deps[i];
    hide TaskOk;
    hide StarterOk;
    assert StarterOk(s, k) && TaskOk(s, p);
    hide Inv;
    UnregisterStarter(s, k);
    UnregisterOwner(s, k);
    hide StatusOk;
    FrameDebt(s, s', p);
  }

  lemma UnregisterOwner(s: State, k: nat)
    requires IsStarter(s, k) && s.starters[k].Unregistering? && s.starters[k].i < |s.starters[k].deps|
    requires var p := s.starters[k].deps[s.starters[k].i]; IsTask(s, p) && TaskOk(s, p) && s.tasks[p].owner == Some(k)
    requires s.starters[k].deps[s.starters[k].i] != s.starters[k].t
    ensures var s', p := DoUnregister(s, k), s.starters[k].deps[s.starters[k].i]; IsTask(s', p) && OwnerOk(s', p)
    ensures var p := s.starters[k].deps[s.starters[k].i]; s.tasks[p].starter != Some(k)
  {
    hide StatusOk;
    hide LifeOk;
    hide OrderOk;
  }

  lemma ReleaseGuardKeeps(s: State, k: nat)
    requires Inv(s) && IsStarter(s, k) && s.starters[k].Guarding? && IsTask(s, s.starters[k].t)
    ensures Inv(DoReleaseGuard(s, k))
  {
    hide PairOk;
    hide TaskOk;
    hide StarterOk;
    ReleaseGuardOk(s, k);
    var t := s.starters[k].t;
    StepKeeps(s, k, t, Arrive(s.tasks[t]).(starter := None), Resting);
  }

  lemma RestingOk(s: State, k: nat)
    requires IsStarter(s, k) && s.starters[k].Resting?
    ensures StarterOk(s, k)
  {
  }

  lemma ReleaseGuardJoin(s: State, k: nat)
    requires IsStarter(s, k) && s.starters[k].Guarding? && IsTask(s, s.starters[k].t)
    requires s.tasks[s.starters[k].t].starter == Some(k) && s.tasks[s.starters[k].t].exec.NotReady?
    requires JoinOk(s, s.starters[k].t)
    ensures JoinOk(DoReleaseGuard(s, k), s.starters[k].t)
  {
  }

  lemma ReleaseGuardTask(s: State, k: nat)
    requires IsStarter(s, k) && s.starters[k].Guarding? && IsTask(s, s.starters[k].t)
    requires StarterOk(s, k) && TaskOk(s, s.starters[k].t)
    ensures TaskOk(DoReleaseGuard(s, k), s.starters[k].t)
    ensures var x := s.tasks[s.starters[k].t]; x.starter == Some(k) && x.exec.NotReady? && x.status.Running?
  {
    hide PinsOk;
    hide JoinOk;
    hide OrderOk;
    var t, s' := s.starters[k].t, DoReleaseGuard(s, k);
    assert s.tasks[t].starter == Some(k) && s.tasks[t].exec.NotReady? && s.tasks[t].status.Running?;
    hide StarterOk;
    ReleaseGuardJoin(s, k);
    FrameOrder(s, s', t);
  }

  lemma ReleaseGuardOk(s: State, k: nat)
    requires Inv(s) && IsStarter(s, k) && s.starters[k].Guarding? && IsTask(s, s.starters[k].t)
    ensures var s', t := DoReleaseGuard(s, k), s.starters[k].t;
      && TaskOk(s', t) && StarterOk(s', k) && s.tasks[t].starter == Some(k) && s.tasks[t].exec.NotReady?
      && !s.tasks[t].status.Idle?
  {
    hide PairOk;
    assert StarterOk(s, k) && TaskOk(s, s.starters[k].t);
    ReleaseGuardTask(s, k);
    hide StarterOk;
    hide TaskOk;
    RestingOk(DoReleaseGuard(s, k), k);
  }

  lemma DispatchDirectKeeps(s: State, k: nat)
    requires Inv(s) && IsStarter(s, k) && s.starters[k].Dispatching? && IsTask(s, s.starters[k].t)
    ensures Inv(DoDispatchDirect(s, k))
  {
    hide PairOk;
    hide TaskOk;
    hide StarterOk;
    DispatchDirectOk(s, k);
    LocalKeeps(s, DoDispatchDirect(s, k), k, s.starters[k].t);
  }

  lemma DispatchDirectTask(s: State, k: nat)
    requires IsStarter(s, k) && s.starters[k].Dispatching? && IsTask(s, s.starters[k].t)
    requires StarterOk(s, k) && TaskOk(s, s.starters[k].t)
    ensures TaskOk(DoDispatchDirect(s, k), s.starters[k].t)
    ensures var x := s.tasks[s.starters[k].t]; x.starter == Some(k) && x.exec.NotReady? && x.status.Running?
  {
    hide PinsOk;
  }

  lemma DispatchDirectOk(s: State, k: nat)
    requires Inv(s) && IsStarter(s, k) && s.starters[k].Dispatching? && IsTask(s, s.starters[k].t)
    ensures var s', t := DoDispatchDirect(s, k), s.starters[k].t;
      && TaskOk(s', t) && StarterOk(s', k) && s.tasks[t].starter == Some(k) && s.tasks[t].exec.NotReady?
      && !s.tasks[t].status.Idle?
  {
    hide PairOk;
    assert StarterOk(s, k) && TaskOk(s, s.starters[k].t);
    DispatchDirectTask(s, k);
    hide StarterOk;
    hide TaskOk;
    RestingOk(DoDispatchDirect(s, k), k);
  }

  /** The dependency stored by start call k, in the table of its task and in the use count of the dependency. */
  lemma StoreDepKeeps(s: State, k: nat)
    requires Inv(s) && IsStarter(s, k) && s.starters[k].Storing? && s.starters[k].i < |s.starters[k].deps|
    requires Live(s, s.starters[k].t) && Live(s, s.starters[k].deps[s.starters[k].i])
    ensures Inv(DoStoreDep(s, k))
  {
    hide PairOk;
    hide TaskOk;
    hide StarterOk;
    var s' := DoStoreDep(s, k);
    var Storing(t, deps, many, i) := s.starters[k];
    StoreDepOk(s, k);
    TwoFrame(s, s', k, t, deps[i]);
    StoreDepPairs(s, k);
    FrameStored(s, s', t);
  }

  lemma StoreDepOk(s: State, k: nat)
    requires Inv(s) && IsStarter(s, k) && s.starters[k].Storing? && s.starters[k].i < |s.starters[k].deps|
    requires Live(s, s.starters[k].t) && Live(s, s.starters[k].deps[s.starters[k].i])
    ensures var s', t, p := DoStoreDep(s, k), s.starters[k].t, s.starters[k].deps[s.starters[k].i];
      && TaskOk(s', t) && TaskOk(s', p) && StarterOk(s', k) && p != t
      && s.tasks[t].owner == Some(k) && s.tasks[t].starter.None? && s.tasks[t].exec.NotReady?
  {
    hide PairOk;
    var s' := DoStoreDep(s, k);
    var Storing(t, deps, many, i) := s.starters[k];
    var p := deps[i];
    assert StarterOk(s, k) && TaskOk(s, t) && TaskOk(s, p);
    assert p in deps;
    assert Started(s, p) && p != t;
    StoreDepStarter(s, k);
    hide Inv;
    StoreDepTask(s, k);
    hide StarterOk;
    StoreDepPredecessor(s, k);
  }

  /** The task that stores a dependency. */
  lemma StoreDepTask(s: State, k: nat)
    requires IsStarter(s, k) && s.starters[k].Storing? && s.starters[k].i < |s.starters[k].deps|
    requires Live(s, s.starters[k].t) && Live(s, s.starters[k].deps[s.starters[k].i])
    requires s.starters[k].deps[s.starters[k].i] != s.starters[k].t
    requires StarterOk(s, k) && TaskOk(s, s.starters[k].t)
    ensures IsTask(DoStoreDep(s, k), s.starters[k].t) && TaskOk(DoStoreDep(s, k), s.starters[k].t)
  {
    var s', t := DoStoreDep(s, k), s.starters[k].t;
    hide OrderOk;
    hide PinsOk;
    FrameOrder(s, s', t);
    AllOk(s', t);
  }

  /** The dependency that is stored: one reference more. */
  lemma StoreDepPredecessor(s: State, k: nat)
    requires IsStarter(s, k) && s.starters[k].Storing? && s.starters[k].i < |s.starters[k].deps|
    requires Live(s, s.starters[k].t) && Live(s, s.starters[k].deps[s.starters[k].i])
    requires s.starters[k].deps[s.starters[k].i] != s.starters[k].t
    requires var p := s.starters[k].deps[s.starters[k].i];
      TaskOk(s, p) && s.tasks[p].owner != Some(k) && s.tasks[p].starter != Some(k)
    ensures var p := s.starters[k].deps[s.starters[k].i]; IsTask(DoStoreDep(s, k), p) && TaskOk(DoStoreDep(s, k), p)
  {
    hide TaskOk;
    hide Grows;
    hide SameWork;
    var s', p := DoStoreDep(s, k), s.starters[k].deps[s.starters[k].i];
    StoreDepLife(s, k);
    StoreDepFrame(s, k);
    hide DoStoreDep;
    FrameWork(s, s', p);
    AllOk(s', p);
  }

  lemma StoreDepFrame(s: State, k: nat)
    requires IsStarter(s, k) && s.starters[k].Storing? && s.starters[k].i < |s.starters[k].deps|
    requires IsTask(s, s.starters[k].t) && IsTask(s, s.starters[k].deps[s.starters[k].i])
    requires s.starters[k].deps[s.starters[k].i] != s.starters[k].t
    ensures var s', p := DoStoreDep(s, k), s.starters[k].deps[s.starters[k].i];
      && IsTask(s', p) && Grows(s, s') && SameWork(s.tasks[p], s'.tasks[p])
      && forall j: nat :: IsStarter(s, j) && j != k ==> s'.starters[j] == s.starters[j]
  {
  }

  lemma StoreDepLife(s: State, k: nat)
    requires IsStarter(s, k) && s.starters[k].Storing? && s.starters[k].i < |s.starters[k].deps|
    requires Live(s, s.starters[k].t) && Live(s, s.starters[k].deps[s.starters[k].i])
    requires s.starters[k].deps[s.starters[k].i] != s.starters[k].t && TaskOk(s, s.starters[k].deps[s.starters[k].i])
    ensures var p := s.starters[k].deps[s.starters[k].i]; IsTask(DoStoreDep(s, k), p) && LifeOk(DoStoreDep(s, k), p)
  {
    hide StatusOk;
    hide OwnerOk;
    hide OrderOk;
  }

  lemma StoreDepStarter(s: State, k: nat)
    requires IsStarter(s, k) && s.starters[k].Storing? && s.starters[k].i < |s.starters[k].deps|
    requires IsTask(s, s.starters[k].t) && IsTask(s, s.starters[k].deps[s.starters[k].i])
    requires s.starters[k].deps[s.starters[k].i] != s.starters[k].t && StarterOk(s, k)
    ensures StarterOk(DoStoreDep(s, k), k)
  {
    var Storing(t, deps, many, i) := s.starters[k];
    assert deps[..i + 1] == deps[..i] + [deps[i]];
    assert many || deps == [] by { assert PinsOk(s, k); }
    hide PinsOk;
    PinsMove(s, DoStoreDep(s, k), k);
  }

  lemma StoreDepPairs(s: State, k: nat)
    requires Inv(s) && IsStarter(s, k) && s.starters[k].Storing? && s.starters[k].i < |s.starters[k].deps|
    requires Live(s, s.starters[k].t) && Live(s, s.starters[k].deps[s.starters[k].i])
    requires s.starters[k].deps[s.starters[k].i] != s.starters[k].t
    ensures var s' := DoStoreDep(s, k); forall q, u :: 0 <= q < |s'.tasks| && 0 <= u < |s'.tasks| ==> PairOk(s', q, u)
  {
    hide TaskOk;
    hide StarterOk;
    hide Unsignalled;
    var s' := DoStoreDep(s, k);
    var t, p := s.starters[k].t, s.starters[k].deps[s.starters[k].i];
    var x, y := s.tasks[t], s.tasks[p];
    assert s'.tasks[p] == y.(uses := y.uses + 1, storedBy := y.storedBy + multiset{t});
    assert s'.tasks[t] == x.(preds := x.preds + [p]);
    assert Unsignalled(s'.tasks[t]) == Unsignalled(x) && Unsignalled(s'.tasks[p]) == Unsignalled(y) by {
      SameUnsignalled(x, s'.tasks[t]);
      SameUnsignalled(y, s'.tasks[p]);
    }
    forall q, u | 0 <= q < |s'.tasks| && 0 <= u < |s'.tasks|
      ensures PairOk(s', q, u)
    {
      assert PairOk(s, q, u);
      hide PairOk;
      StoreDepPair(s, s', t, p, q, u);
    }
  }

  lemma SameUnsignalled(x: Task, y: Task)
    requires y.exec == x.exec && y.succ == x.succ
    ensures Unsignalled(y) == Unsignalled(x)
  {
  }

  /** Only tasks of the state enter the records of who stores a reference. */
  lemma FrameStored(s: State, s': State, t: nat)
    requires |s'.tasks| == |s.tasks| && forall p :: 0 <= p < |s.tasks| ==> StoredOk(s, p)
    requires IsTask(s, t)
    requires forall p, u: nat :: 0 <= p < |s.tasks| && u in s'.tasks[p].storedBy ==> u == t || u in s.tasks[p].storedBy
    ensures forall p :: 0 <= p < |s'.tasks| ==> StoredOk(s', p)
  {
    forall p | 0 <= p < |s'.tasks|
      ensures StoredOk(s', p)
    {
      assert StoredOk(s, p);
    }
  }

  lemma StoreDepPair(s: State, s': State, t: nat, p: nat, q: nat, u: nat)
    requires |s'.tasks| == |s.tasks| && IsTask(s, t) && IsTask(s, p) && IsTask(s, q) && IsTask(s, u) && p != t
    requires forall v :: 0 <= v < |s.tasks| && v != t && v != p ==> s'.tasks[v] == s.tasks[v]
    requires Unsignalled(s'.tasks[t]) == Unsignalled(s.tasks[t]) && Unsignalled(s'.tasks[p]) == Unsignalled(s.tasks[p])
    requires s'.tasks[t].preds == s.tasks[t].preds + [p] && s'.tasks[t].waiting == s.tasks[t].waiting
    requires s'.tasks[t].storedBy == s.tasks[t].storedBy && s'.tasks[t].alive && s.tasks[t].alive
    requires s'.tasks[p].storedBy == s.tasks[p].storedBy + multiset{t} && s'.tasks[p].waiting == s.tasks[p].waiting
    requires s'.tasks[p].preds == s.tasks[p].preds && s'.tasks[p].alive && s.tasks[p].alive
    requires PairOk(s, q, u)
    ensures PairOk(s', q, u)
  {
    hide Unsignalled;
    assert u == t ==> multiset(s'.tasks[u].preds)[q] == multiset(s.tasks[u].preds)[q] + if q == p then 1 else 0;
    assert s'.tasks[q].storedBy[u] == s.tasks[q].storedBy[u] + if q == p && u == t then 1 else 0;
  }

  /** The registration: the call's task becomes the last successor, and waits for the predecessor once more. */
  lemma RegisterKeeps(s: State, k: nat)
    requires Inv(s) && IsStarter(s, k) && s.starters[k].Registering? && s.starters[k].i < |s.starters[k].deps|
    requires IsTask(s, s.starters[k].t) && IsTask(s, s.starters[k].deps[s.starters[k].i])
    ensures Inv(DoRegister(s, k))
  {
    hide PairOk;
    hide TaskOk;
    hide StarterOk;
    var s' := DoRegister(s, k);
    var Registering(t, deps, i) := s.starters[k];
    RegisterOk(s, k);
    TwoFrame(s, s', k, t, deps[i]);
    RegisterPairs(s, k);
    FrameStored(s, s', t);
  }

  lemma RotateKeeps(preds: seq<nat>)
    ensures multiset(Rotate(preds)) == multiset(preds)
  {
    if preds != [] {
      assert preds == [preds[0]] + preds[1..];
    }
  }

  lemma RegisterOk(s: State, k: nat)
    requires Inv(s) && IsStarter(s, k) && s.starters[k].Registering? && s.starters[k].i < |s.starters[k].deps|
    requires IsTask(s, s.starters[k].t) && IsTask(s, s.starters[k].deps[s.starters[k].i])
    ensures var s', t, p := DoRegister(s, k), s.starters[k].t, s.starters[k].deps[s.starters[k].i];
      && TaskOk(s', t) && TaskOk(s', p) && StarterOk(s', k) && p != t
      && s.tasks[p].owner == Some(k) && s.tasks[p].status.Running?
      && s.tasks[t].starter == Some(k) && s.tasks[t].status.Running? && s.tasks[t].exec.NotReady?
  {
    hide PairOk;
    var s' := DoRegister(s, k);
    var Registering(t, deps, i) := s.starters[k];
    assert StarterOk(s, k) && TaskOk(s, t) && TaskOk(s, deps[i]);
    RegisterStarter(s, k);
    hide StarterOk;
    hide TaskOk;
    RegisterTask(s, k);
    RegisterPredecessor(s, k);
  }

  lemma RegisterStarter(s: State, k: nat)
    requires IsStarter(s, k) && s.starters[k].Registering? && s.starters[k].i < |s.starters[k].deps| && StarterOk(s, k)
    requires IsTask(s, s.starters[k].t) && IsTask(s, s.starters[k].deps[s.starters[k].i])
    ensures StarterOk(DoRegister(s, k), k)
    ensures var t, p := s.starters[k].t, s.starters[k].deps[s.starters[k].i];
      && p != t && s.tasks[p].owner == Some(k) && s.tasks[p].status.Running?
      && s.tasks[t].starter == Some(k) && s.tasks[t].status.Running? && s.tasks[t].exec.NotReady?
      && s.tasks[t].deps == s.starters[k].deps
  {
    var Registering(t, deps, i) := s.starters[k];
    assert deps[i] in deps;
    assert deps[i] != t;
    hide PinsOk;
    PinsMove(s, DoRegister(s, k), k);
  }

  lemma RegisterJoin(s: State, k: nat)
    requires IsStarter(s, k) && s.starters[k].Registering? && s.starters[k].i < |s.starters[k].deps|
    requires var t, p := s.starters[k].t, s.starters[k].deps[s.starters[k].i];
      && IsTask(s, t) && IsTask(s, p) && p != t && s.tasks[t].starter == Some(k) && s.tasks[t].exec.NotReady? && JoinOk(s, t)
    ensures JoinOk(DoRegister(s, k), s.starters[k].t)
  {
    var Registering(t, deps, i) := s.starters[k];
    var s' := DoRegister(s, k);
    RegisterEffect(s, k);
    hide DoRegister;
    assert deps[i..] == [deps[i]] + deps[i + 1..];
    AwaitOne(s, s', t, deps[i]);
  }

  lemma RegisterEffect(s: State, k: nat)
    requires IsStarter(s, k) && s.starters[k].Registering? && s.starters[k].i < |s.starters[k].deps|
    requires var t, p := s.starters[k].t, s.starters[k].deps[s.starters[k].i];
      IsTask(s, t) && IsTask(s, p) && p != t && s.tasks[t].starter == Some(k)
    ensures var Registering(t, deps, i) := s.starters[k]; var s' := DoRegister(s, k);
      && IsTask(s', t) && s'.tasks[t] == s.tasks[t].(waiting := s.tasks[t].waiting + multiset{deps[i]})
      && UnlinkedOf(s, t) == deps[i..] && UnlinkedOf(s', t) == deps[i + 1..] && GuardOf(s', t) == GuardOf(s, t) == 1
  {
    hide Rotate;
  }

  /** One dependency fewer to link, one more to wait for. */
  lemma AwaitOne(s: State, s': State, t: nat, p: nat)
    requires IsTask(s, t) && IsTask(s', t) && JoinOk(s, t) && s.tasks[t].exec.NotReady?
    requires s'.tasks[t] == s.tasks[t].(waiting := s.tasks[t].waiting + multiset{p})
    requires UnlinkedOf(s, t) == [p] + UnlinkedOf(s', t) && GuardOf(s', t) == GuardOf(s, t)
    ensures JoinOk(s', t)
  {
    hide UnlinkedOf;
    hide GuardOf;
    assert multiset(UnlinkedOf(s, t)) == multiset{p} + multiset(UnlinkedOf(s', t));
  }

  lemma RegisterTask(s: State, k: nat)
    requires IsStarter(s, k) && s.starters[k].Registering? && s.starters[k].i < |s.starters[k].deps|
    requires var t, p := s.starters[k].t, s.starters[k].deps[s.starters[k].i];
      && IsTask(s, t) && IsTask(s, p) && p != t && TaskOk(s, t)
      && s.tasks[t].starter == Some(k) && s.tasks[t].status.Running? && s.tasks[t].exec.NotReady?
      && s.tasks[t].owner != Some(k)
    ensures TaskOk(DoRegister(s, k), s.starters[k].t)
  {
    hide OrderOk;
    var s' := DoRegister(s, k);
    RegisterJoin(s, k);
    hide JoinOk;
    FrameOrder(s, s', s.starters[k].t);
  }

  lemma FrameSuccessor(s: State, s': State, t: nat, p: nat)
    requires IsTask(s, p) && IsTask(s, t) && OrderOk(s, p) && Grows(s, s')
    requires var x, y := s.tasks[p], s'.tasks[p];
      y.deps == x.deps && y.rank == x.rank && y.done == x.done && y.succ == x.succ + [t]
    ensures OrderOk(s', p)
  {
  }

  lemma RegisterPredecessor(s: State, k: nat)
    requires IsStarter(s, k) && s.starters[k].Registering? && s.starters[k].i < |s.starters[k].deps|
    requires var t, p := s.starters[k].t, s.starters[k].deps[s.starters[k].i];
      && IsTask(s, t) && IsTask(s, p) && p != t && TaskOk(s, p)
      && s.tasks[p].owner == Some(k) && s.tasks[p].status.Running? && s.tasks[p].starter != Some(k)
    ensures TaskOk(DoRegister(s, k), s.starters[k].deps[s.starters[k].i])
  {
    var s' := DoRegister(s, k);
    var t, p := s.starters[k].t, s.starters[k].deps[s.starters[k].i];
    var x, y := s.tasks[p], s'.tasks[p];
    assert y == x.(succ := x.succ + [t], preds := Rotate(x.preds));
    RegisterPredecessorJoin(s, k);
    RegisterPredecessorLife(s, k);
    hide JoinOk;
    hide LifeOk;
    hide OwnerOk;
    hide StatusOk;
    assert OrderOk(s', p) by {
      FrameSuccessor(s, s', t, p);
    }
  }

  lemma RegisterPredecessorJoin(s: State, k: nat)
    requires IsStarter(s, k) && s.starters[k].Registering? && s.starters[k].i < |s.starters[k].deps|
    requires var t, p := s.starters[k].t, s.starters[k].deps[s.starters[k].i];
      && IsTask(s, t) && IsTask(s, p) && p != t && StatusOk(s, p)
      && s.tasks[p].status.Running? && s.tasks[p].starter != Some(k)
    ensures var s', p := DoRegister(s, k), s.starters[k].deps[s.starters[k].i]; IsTask(s', p) && StatusOk(s', p)
  {
    var s' := DoRegister(s, k);
    var t, p := s.starters[k].t, s.starters[k].deps[s.starters[k].i];
    RotateKeeps(s.tasks[p].preds);
    hide Rotate;
    var y := s'.tasks[p];
    assert y == s.tasks[p].(succ := y.succ, preds := y.preds) && multiset(y.preds) == multiset(s.tasks[p].preds);
    assert UnlinkedOf(s', p) == UnlinkedOf(s, p) && GuardOf(s', p) == GuardOf(s, p);
    assert s'.clock == s.clock;
    hide DoRegister;
    hide UnlinkedOf;
    hide GuardOf;
    assert JoinOk(s', p);
    hide JoinOk;
  }

  lemma RegisterPredecessorLife(s: State, k: nat)
    requires IsStarter(s, k) && s.starters[k].Registering? && s.starters[k].i < |s.starters[k].deps|
    requires var t, p := s.starters[k].t, s.starters[k].deps[s.starters[k].i];
      && IsTask(s, t) && IsTask(s, p) && p != t && LifeOk(s, p) && OwnerOk(s, p)
      && s.tasks[p].owner == Some(k) && s.tasks[p].starter != Some(k)
    ensures var s', p := DoRegister(s, k), s.starters[k].deps[s.starters[k].i]; IsTask(s', p) && LifeOk(s', p) && OwnerOk(s', p)
  {
    hide Rotate;
  }

  lemma RegisterPairs(s: State, k: nat)
    requires Inv(s) && IsStarter(s, k) && s.starters[k].Registering? && s.starters[k].i < |s.starters[k].deps|
    requires IsTask(s, s.starters[k].t) && IsTask(s, s.starters[k].deps[s.starters[k].i])
    requires var p := s.starters[k].deps[s.starters[k].i]; p != s.starters[k].t && s.tasks[p].status.Running? && TaskOk(s, p)
    ensures var s' := DoRegister(s, k); forall q, u :: 0 <= q < |s'.tasks| && 0 <= u < |s'.tasks| ==> PairOk(s', q, u)
  {
    var s' := DoRegister(s, k);
    var t, p := s.starters[k].t, s.starters[k].deps[s.starters[k].i];
    var x, y := s.tasks[t], s.tasks[p];
    RotateKeeps(y.preds);
    assert Unsignalled(s'.tasks[p]) == Unsignalled(y) + [t];
    assert s'.tasks[t].waiting == x.waiting + multiset{p};
    hide TaskOk;
    hide StarterOk;
    hide Unsignalled;
    forall q, u | 0 <= q < |s'.tasks| && 0 <= u < |s'.tasks|
      ensures PairOk(s', q, u)
    {
      assert PairOk(s, q, u);
      hide PairOk;
      RegisterPair(s, s', t, p, q, u);
    }
  }

  lemma RegisterPair(s: State, s': State, t: nat, p: nat, q: nat, u: nat)
    requires |s'.tasks| == |s.tasks| && IsTask(s, t) && IsTask(s, p) && IsTask(s, q) && IsTask(s, u) && p != t
    requires forall v :: 0 <= v < |s.tasks| && v != t && v != p ==> s'.tasks[v] == s.tasks[v]
    requires Unsignalled(s'.tasks[p]) == Unsignalled(s.tasks[p]) + [t]
    requires multiset(s'.tasks[p].preds) == multiset(s.tasks[p].preds)
    requires s'.tasks[p].waiting == s.tasks[p].waiting && s'.tasks[p].storedBy == s.tasks[p].storedBy
    requires s'.tasks[p].alive == s.tasks[p].alive
    requires s'.tasks[t] == s.tasks[t].(waiting := s.tasks[t].waiting + multiset{p})
    requires PairOk(s, q, u)
    ensures PairOk(s', q, u)
  {
    assert Unsignalled(s'.tasks[t]) == Unsignalled(s.tasks[t]);
    assert multiset(Unsignalled(s'.tasks[q]))[u] == multiset(Unsignalled(s.tasks[q]))[u] + if q == p && u == t then 1 else 0;
    assert s'.tasks[u].waiting[q] == s.tasks[u].waiting[q] + if q == p && u == t then 1 else 0;
  }

  // ---------------------------------------------------------------------------------
  // Actions of the executor and of handles
  // ---------------------------------------------------------------------------------

  /** The execution of a dispatched task advances: to the body, past it, or, with Finished published, to signalling. */
  ghost predicate ProgressOf(x: Task, y: Task) {
    || (x.exec.Ready? && y == x.(exec := Executing))
    || (x.exec.Executing? && y == x.(exec := Finishing))
    || (x.exec.Finishing? && !x.locked && y == x.(exec := Signalling(0), status := Finished))
  }

  lemma ProgressKeeps(s: State, t: nat, y: Task)
    requires Inv(s) && IsTask(s, t) && ProgressOf(s.tasks[t], y)
    ensures Inv(SetTask(s, t, y))
  {
    hide PairOk;
    hide StarterOk;
    assert TaskOk(s, t);
    ProgressTask(s, t, y);
    assert s.tasks[t].succ[0..] == s.tasks[t].succ;
    assert s.tasks[t].starter.None?;
    hide TaskOk;
    hide Inv;
    TaskKeeps(s, t, y);
  }

  lemma ProgressTask(s: State, t: nat, y: Task)
    requires IsTask(s, t) && TaskOk(s, t) && ProgressOf(s.tasks[t], y)
    ensures TaskOk(SetTask(s, t, y), t)
  {
    var s' := SetTask(s, t, y);
    assert Later(s.tasks[t], y);
    assert JoinOk(s, t) && s.tasks[t].starter.None?;
    DispatchedJoin(s, s', t);
    hide JoinOk;
    FrameOrder(s, s', t);
    hide OrderOk;
  }

  lemma DispatchedJoin(s: State, s': State, t: nat)
    requires IsTask(s, t) && IsTask(s', t) && JoinOk(s, t)
    requires var x, y := s.tasks[t], s'.tasks[t];
      && !x.exec.NotReady? && !y.exec.NotReady? && y.starter == x.starter && y.deps == x.deps
      && y.waiting == x.waiting && y.done == x.done && y.dispatched == x.dispatched
    ensures JoinOk(s', t)
  {
  }

  lemma CopyHandleKeeps(s: State, t: nat)
    requires Inv(s) && IsTask(s, t) && s.tasks[t].handles > 0
    ensures Inv(SetTask(s, t, s.tasks[t].(uses := s.tasks[t].uses + 1, handles := s.tasks[t].handles + 1)))
  {
    hide PairOk;
    hide StarterOk;
    var y := s.tasks[t].(uses := s.tasks[t].uses + 1, handles := s.tasks[t].handles + 1);
    var s' := SetTask(s, t, y);
    assert TaskOk(s, t);
    assert LifeOk(s', t);
    hide LifeOk;
    hide StatusOk;
    hide OrderOk;
    hide OwnerOk;
    FrameWork(s, s', t);
    hide TaskOk;
    TaskKeeps(s, t, y);
  }

  /** A started task that waits for somebody while its start call is under way has the submit guard up. */
  lemma GuardHolds(s: State, t: nat)
    requires Inv(s) && IsTask(s, t) && s.tasks[t].status.Running? && s.tasks[t].exec.NotReady?
    requires s.tasks[t].starter.Some? && s.tasks[t].waiting != multiset{}
    ensures s.tasks[t].join > 1
  {
    assert TaskOk(s, t);
    var k := s.tasks[t].starter.value;
    assert StarterOk(s, k);
    var p :| p in s.tasks[t].waiting;
    assert p in multiset(s.tasks[t].deps);
    assert GuardOf(s, t) == 1;
    assert |s.tasks[t].waiting| > 0;
  }

  /** The step of a signalling task t towards its successor v. */
  ghost predicate Signals(s: State, t: nat, v: nat) {
    && IsTask(s, t) && IsTask(s, v) && t != v
    && s.tasks[t].exec.Signalling? && s.tasks[t].exec.i < |s.tasks[t].succ| && s.tasks[t].succ[s.tasks[t].exec.i] == v
    && t in s.tasks[v].waiting && s.tasks[v].status.Running? && s.tasks[v].exec.NotReady?
  }

  lemma FrameDone(s: State, s': State, t: nat, v: nat)
    requires IsTask(s, t) && IsTask(s, v) && OrderOk(s, v) && Grows(s, s') && s'.tasks[t].status.Finished?
    requires var x, y := s.tasks[v], s'.tasks[v];
      y.deps == x.deps && y.rank == x.rank && y.done == x.done + multiset{t} && y.succ == x.succ
    ensures OrderOk(s', v)
  {
  }

  lemma AllOk(s: State, t: nat)
    requires IsTask(s, t) && StatusOk(s, t) && LifeOk(s, t) && OrderOk(s, t) && OwnerOk(s, t)
    ensures TaskOk(s, t)
  {
    hide StatusOk;
    hide LifeOk;
    hide OrderOk;
    hide OwnerOk;
  }

  /** A running task whose counters of arrivals change, and which may be dispatched by that. */
  lemma RunningStays(s: State, s': State, v: nat)
    requires IsTask(s, v) && IsTask(s', v) && TaskOk(s, v) && s.tasks[v].status.Running?
    requires s'.clock == s.clock && s'.starters == s.starters && s'.dropping == s.dropping
    requires var x, y := s.tasks[v], s'.tasks[v];
      && y == x.(join := y.join, exec := y.exec, dispatched := y.dispatched, waiting := y.waiting, done := y.done)
      && (y.exec.NotReady? || y.exec.Ready?)
    requires JoinOk(s', v)
    ensures StatusOk(s', v) && LifeOk(s', v) && OwnerOk(s', v) && OrderOk(s, v)
  {
    hide OrderOk;
    hide JoinOk;
  }

  lemma SignalArrives(s: State, t: nat, v: nat)
    requires Inv(s) && Signals(s, t, v)
    ensures TaskOk(DoSignal(s, t), v)
    ensures s.tasks[v].starter.Some? ==> DoSignal(s, t).tasks[v].exec == s.tasks[v].exec
  {
    hide PairOk;
    hide StarterOk;
    var s' := DoSignal(s, t);
    assert TaskOk(s, t) && TaskOk(s, v) && s.tasks[t].status.Finished?;
    hide Inv;
    hide TaskOk;
    SignalShape(s, t, v);
    SignalJoin(s, t, v);
    hide DoSignal;
    RunningStays(s, s', v);
    assert Grows(s, s');
    hide JoinOk;
    hide StatusOk;
    FrameDone(s, s', t, v);
    assert TaskOk(s', v) by { AllOk(s', v); }
  }

  lemma SignalArith(waiting: multiset<nat>, done: multiset<nat>, rest: multiset<nat>, t: nat)
    requires t in waiting
    ensures |waiting - multiset{t}| == |waiting| - 1
    ensures rest + (waiting - multiset{t}) + (done + multiset{t}) == rest + waiting + done
  {
  }

  lemma TaskJoin(s: State, v: nat)
    requires Inv(s) && IsTask(s, v) && s.tasks[v].status.Running?
    ensures JoinOk(s, v)
  {
    assert TaskOk(s, v);
    hide JoinOk;
  }

  /** A signal is no business of the start call that published the successor. */
  lemma SignalDebt(s: State, t: nat, v: nat)
    requires Inv(s) && Signals(s, t, v)
    ensures IsTask(s, v) && IsTask(DoSignal(s, t), v)
    ensures UnlinkedOf(DoSignal(s, t), v) == UnlinkedOf(s, v) && GuardOf(DoSignal(s, t), v) == GuardOf(s, v)
    ensures s.tasks[v].starter.None? ==> UnlinkedOf(s, v) == [] && GuardOf(s, v) == 0
    ensures s.tasks[v].starter.Some? ==> DoSignal(s, t).tasks[v].exec == s.tasks[v].exec
  {
    hide PairOk;
    hide StarterOk;
    assert TaskOk(s, v);
    TaskJoin(s, v);
    if s.tasks[v].starter.Some? { GuardHolds(s, v); }
  }

  lemma SignalJoin(s: State, t: nat, v: nat)
    requires Inv(s) && Signals(s, t, v)
    ensures JoinOk(DoSignal(s, t), v)
    ensures s.tasks[v].starter.Some? ==> DoSignal(s, t).tasks[v].exec == s.tasks[v].exec
  {
    SignalShape(s, t, v);
    TaskJoin(s, v);
    SignalDebt(s, t, v);
    var x, unlinked := s.tasks[v], UnlinkedOf(s, v);
    hide *;
    SignalArith(x.waiting, x.done, multiset(unlinked), t);
  }

  lemma SignalSender(s: State, t: nat, v: nat)
    requires IsTask(s, t) && TaskOk(s, t) && Signals(s, t, v)
    ensures TaskOk(DoSignal(s, t), t)
  {
    var s' := DoSignal(s, t);
    SignalShape(s, t, v);
    hide DoSignal;
    assert s.tasks[t].status.Finished? && s.tasks[t].starter.None? && s.tasks[t].owner.None?;
    SenderStatus(s, s', t);
    assert Grows(s, s');
    hide JoinOk;
    hide StatusOk;
    hide OrderOk;
    hide Signals;
    FrameOrder(s, s', t);
    AllOk(s', t);
  }

  lemma SenderStatus(s: State, s': State, t: nat)
    requires IsTask(s, t) && IsTask(s', t) && TaskOk(s, t) && s'.clock == s.clock && s'.dropping[t] == s.dropping[t]
    requires s.tasks[t].exec.Signalling? && s.tasks[t].exec.i < |s.tasks[t].succ|
    requires s'.tasks[t] == s.tasks[t].(exec := Signalling(s.tasks[t].exec.i + 1))
    ensures StatusOk(s', t) && LifeOk(s', t) && OwnerOk(s', t)
  {
    assert JoinOk(s, t) && s.tasks[t].starter.None?;
    DispatchedJoin(s, s', t);
    hide JoinOk;
    hide OrderOk;
  }

  /** One predecessor has signalled one registered entry. */
  lemma SignalKeeps(s: State, t: nat, v: nat)
    requires Inv(s) && Signals(s, t, v)
    ensures Inv(DoSignal(s, t))
  {
    hide PairOk;
    hide StarterOk;
    hide TaskOk;
    hide StoredOk;
    hide DoSignal;
    var s' := DoSignal(s, t);
    SignalShape(s, t, v);
    SignalArrives(s, t, v);
    SignalSender(s, t, v);
    SignalPairs(s, t, v);
    SignalOthers(s, t, v);
    FrameStored(s, s', t);
  }

  lemma SignalOthers(s: State, t: nat, v: nat)
    requires Inv(s) && Signals(s, t, v)
    ensures var s' := DoSignal(s, t);
      && |s'.tasks| == |s.tasks| && |s'.starters| == |s.starters|
      && (forall u :: 0 <= u < |s.tasks| && u != t && u != v ==> TaskOk(s', u))
      && (forall j :: 0 <= j < |s.starters| ==> StarterOk(s', j))
  {
    var s' := DoSignal(s, t);
    SenderRests(s, t, v);
    SignalShape(s, t, v);
    SignalArrives(s, t, v);
    SignalSender(s, t, v);
    hide PairOk;
    hide StarterOk;
    hide TaskOk;
    hide DoSignal;
    hide Inv;
    TwoFrame(s, s', |s.starters|, t, v);
  }

  lemma SenderRests(s: State, t: nat, v: nat)
    requires Inv(s) && Signals(s, t, v)
    ensures s.tasks[t].starter.None? && s.tasks[t].owner.None? && s.tasks[t].status.Finished?
  {
    assert TaskOk(s, t);
    hide PairOk;
    hide StarterOk;
  }

  lemma SignalShape(s: State, t: nat, v: nat)
    requires Signals(s, t, v)
    ensures var s', x, y := DoSignal(s, t), s.tasks[t], s.tasks[v];
      && s'.tasks == s.tasks[t := s'.tasks[t]][v := s'.tasks[v]]
      && s'.starters == s.starters && s'.dropping == s.dropping && s'.clock == s.clock
      && s'.tasks[t] == x.(exec := Signalling(x.exec.i + 1))
      && s'.tasks[v] == Arrive(y).(waiting := y.waiting - multiset{t}, done := y.done + multiset{t})
  {
  }

  lemma SignalPairs(s: State, t: nat, v: nat)
    requires Inv(s) && Signals(s, t, v)
    ensures var s' := DoSignal(s, t); forall q, u :: 0 <= q < |s'.tasks| && 0 <= u < |s'.tasks| ==> PairOk(s', q, u)
  {
    hide TaskOk;
    hide StarterOk;
    var s' := DoSignal(s, t);
    SignalShape(s, t, v);
    hide DoSignal;
    var x, y, i := s.tasks[t], s.tasks[v], s.tasks[t].exec.i;
    assert x.succ[i..] == [v] + x.succ[i + 1..];
    assert multiset(Unsignalled(x)) == multiset{v} + multiset(Unsignalled(s'.tasks[t]));
    assert Unsignalled(s'.tasks[v]) == Unsignalled(y);
    hide Unsignalled;
    forall q, u | 0 <= q < |s'.tasks| && 0 <= u < |s'.tasks|
      ensures PairOk(s', q, u)
    {
      assert PairOk(s, q, u);
      hide PairOk;
      SignalPair(s, s', t, v, q, u);
    }
  }

  lemma SignalPair(s: State, s': State, t: nat, v: nat, q: nat, u: nat)
    requires |s'.tasks| == |s.tasks| && IsTask(s, t) && IsTask(s, v) && IsTask(s, q) && IsTask(s, u) && t != v
    requires forall w :: 0 <= w < |s.tasks| && w != t && w != v ==> s'.tasks[w] == s.tasks[w]
    requires multiset(Unsignalled(s.tasks[t])) == multiset{v} + multiset(Unsignalled(s'.tasks[t]))
    requires Unsignalled(s'.tasks[v]) == Unsignalled(s.tasks[v])
    requires t in s.tasks[v].waiting && s'.tasks[v].waiting == s.tasks[v].waiting - multiset{t}
    requires s'.tasks[t].waiting == s.tasks[t].waiting
    requires forall w :: w == t || w == v ==>
      s'.tasks[w].storedBy == s.tasks[w].storedBy && s'.tasks[w].alive == s.tasks[w].alive
      && s'.tasks[w].preds == s.tasks[w].preds
    requires PairOk(s, q, u)
    ensures PairOk(s', q, u)
  {
    hide Unsignalled;
    var one := if q == t && u == v then 1 else 0;
    assert multiset(Unsignalled(s'.tasks[q]))[u] == multiset(Unsignalled(s.tasks[q]))[u] - one;
    assert s'.tasks[u].waiting[q] == s.tasks[u].waiting[q] - one;
  }

  // ---------------------------------------------------------------------------------
  // Dropping references
  // ---------------------------------------------------------------------------------

  /** One reference to task t is given up: by its execution, by a handle, or by a destroyed dependent. */
  ghost predicate GivesUp(s: State, d: State, t: nat, x: Task) {
    && IsTask(s, t) && d == s.(dropping := d.dropping) && s.tasks[t].uses > 0
    && (forall q: nat :: q != t ==> d.dropping[q] == s.dropping[q])
    && var w := s.tasks[t];
       || (w.execRef && w.exec.Signalling? && w.exec.i >= |w.succ| && d == s && x == w.(exec := Done, execRef := false))
       || (w.handles > 0 && (w.handles > 1 || Unpinned(s, t)) && d == s && x == w.(handles := w.handles - 1))
       || (s.dropping[t] > 0 && d.dropping[t] == s.dropping[t] - 1 && x == w)
  }

  /** The state after giving up the reference, before a destroyed task forgets those it stored. */
  function Given(d: State, t: nat, x: Task): State
    requires IsTask(d, t) && x.uses > 0
  {
    SetTask(d, t, x.(uses := x.uses - 1, alive := x.uses > 1))
  }

  lemma GivenShape(s: State, d: State, t: nat, x: Task)
    requires GivesUp(s, d, t, x)
    ensures var m := Given(d, t, x);
      && m.tasks == s.tasks[t := m.tasks[t]] && m.starters == s.starters && m.clock == s.clock
      && (forall q: nat :: q != t ==> m.dropping[q] == s.dropping[q])
      && (x.exec == s.tasks[t].exec ==> SameWork(s.tasks[t], m.tasks[t]))
      && HandlesKept(s, t, m.tasks[t].handles)
  {
  }

  lemma GivenTask(s: State, d: State, t: nat, x: Task)
    requires Inv(s) && GivesUp(s, d, t, x)
    ensures TaskOk(Given(d, t, x), t)
  {
    hide PairOk;
    hide StarterOk;
    hide StatusOk;
    hide OrderOk;
    hide OwnerOk;
    var m := Given(d, t, x);
    assert TaskOk(s, t);
    hide Inv;
    hide GivesUp;
    hide Given;
    GivenLife(s, d, t, x);
    GivenShape(s, d, t, x);
    hide LifeOk;
    if x.exec == s.tasks[t].exec {
      FrameWork(s, m, t);
    } else {
      GivenExec(s, d, t, x);
    }
    AllOk(m, t);
  }

  lemma GivenLife(s: State, d: State, t: nat, x: Task)
    requires IsTask(s, t) && LifeOk(s, t) && GivesUp(s, d, t, x)
    ensures LifeOk(Given(d, t, x), t)
  {
  }

  lemma GivenExec(s: State, d: State, t: nat, x: Task)
    requires IsTask(s, t) && TaskOk(s, t) && GivesUp(s, d, t, x) && x.exec != s.tasks[t].exec
    ensures var m := Given(d, t, x); StatusOk(m, t) && OrderOk(m, t) && OwnerOk(m, t)
  {
    var m := Given(d, t, x);
    assert s.tasks[t].exec.Signalling? && x.exec.Done? && s.tasks[t].status.Finished?;
    DispatchedJoin(s, m, t);
    hide JoinOk;
    assert Later(s.tasks[t], m.tasks[t]);
    FrameOrder(s, m, t);
    hide OrderOk;
  }

  /** All but one pair keeps to PairOk; what the destroyed task stored is still recorded. */
  ghost predicate PairBut(s: State, p: nat, u: nat, t: nat)
    requires IsTask(s, p) && IsTask(s, u)
  {
    if u == t then
      && s.tasks[t].waiting[p] == multiset(Unsignalled(s.tasks[p]))[t]
      && s.tasks[p].storedBy[t] == multiset(s.tasks[t].preds)[p]
    else PairOk(s, p, u)
  }

  lemma GivenLocal(s: State, d: State, t: nat, x: Task)
    requires Inv(s) && GivesUp(s, d, t, x)
    ensures var m := Given(d, t, x);
      Local(s, m, |s.starters|, {t}) && |m.tasks| == |s.tasks| && |m.starters| == |s.starters| && IsTask(s, t)
  {
    var m := Given(d, t, x);
    GivenPrivate(s, d, t, x);
    GivenShape(s, d, t, x);
    hide Inv;
    hide Private;
    hide Later;
    hide GivesUp;
    hide Given;
    hide HandlesKept;
    forall u: nat | IsTask(s, u)
      ensures Later(s.tasks[u], m.tasks[u])
    {
      LaterRefl(s.tasks[u]);
    }
  }

  lemma GivenOthers(s: State, d: State, t: nat, x: Task)
    requires Inv(s) && GivesUp(s, d, t, x)
    ensures var m := Given(d, t, x);
      && (forall u :: 0 <= u < |m.tasks| ==> TaskOk(m, u))
      && (forall j :: 0 <= j < |m.starters| ==> StarterOk(m, j))
  {
    var m := Given(d, t, x);
    hide PairOk;
    hide TaskOk;
    hide StarterOk;
    GivenTask(s, d, t, x);
    GivenLocal(s, d, t, x);
    hide *;
    FrameOthers(s, m, |s.starters|, {t});
  }

  lemma GivenPrivate(s: State, d: State, t: nat, x: Task)
    requires Inv(s) && GivesUp(s, d, t, x)
    ensures var y := Given(d, t, x).tasks[t];
      && Private(|s.starters|, s.tasks[t], y) && Later(s.tasks[t], y) && Unsignalled(y) == Unsignalled(s.tasks[t])
      && s.tasks[t].alive
  {
    hide Inv;
    hide TaskOk;
    TaskOf(s, t);
    UsedIsAlive(s, t);
  }

  /** A task that is still referred to is alive; one that signals is no longer in any start call's hands. */
  lemma UsedIsAlive(s: State, t: nat)
    requires IsTask(s, t) && TaskOk(s, t)
    ensures s.tasks[t].uses > 0 ==> s.tasks[t].alive
    ensures s.tasks[t].exec.Signalling? ==> s.tasks[t].starter.None? && !s.tasks[t].status.Idle?
  {
    hide OrderOk;
    hide OwnerOk;
  }

  lemma TaskOf(s: State, t: nat)
    requires Inv(s) && IsTask(s, t)
    ensures TaskOk(s, t)
  {
    hide TaskOk;
    hide PairOk;
    hide StarterOk;
  }

  lemma GivenPairs(s: State, d: State, t: nat, x: Task)
    requires Inv(s) && GivesUp(s, d, t, x)
    ensures var m := Given(d, t, x);
      forall p, u :: 0 <= p < |m.tasks| && 0 <= u < |m.tasks| ==> PairBut(m, p, u, t)
  {
    var m := Given(d, t, x);
    GivenPrivate(s, d, t, x);
    hide TaskOk;
    hide StarterOk;
    hide Private;
    hide Later;
    hide Unsignalled;
    forall p, u | 0 <= p < |m.tasks| && 0 <= u < |m.tasks|
      ensures PairBut(m, p, u, t)
    {
      assert PairOk(s, p, u);
    }
  }

  lemma OwnerHasHandle(m: State, t: nat)
    requires IsTask(m, t) && TaskOk(m, t) && forall j :: 0 <= j < |m.starters| ==> StarterOk(m, j)
    ensures m.tasks[t].owner.Some? ==> m.tasks[t].handles > 0
  {
    if m.tasks[t].owner.Some? {
      assert StarterOk(m, m.tasks[t].owner.value);
      assert Pins(m.starters[m.tasks[t].owner.value], t);
    }
  }

  /** The last reference is gone: the task is quiet and nobody refers to it. */
  lemma LastReferenceIsQuiet(s: State, d: State, t: nat, x: Task)
    requires Inv(s) && GivesUp(s, d, t, x) && x.uses == 1
    ensures var y := Given(d, t, x).tasks[t];
      && y.handles == 0 && !y.execRef && |y.storedBy| == 0 && d.dropping[t] == 0
      && (y.exec.NotReady? || y.exec.Done?) && y.owner.None?
      && t !in y.preds && (forall p :: p in y.preds ==> IsTask(s, p))
  {
    hide PairOk;
    var m := Given(d, t, x);
    GivenOthers(s, d, t, x);
    assert TaskOk(m, t);
    assert LifeOk(m, t);
    OwnerHasHandle(m, t);
    hide StarterOk;
    forall p | p in m.tasks[t].preds
      ensures p != t && IsTask(s, p)
    {
      assert p in multiset(m.tasks[t].preds);
      assert p in multiset(m.tasks[t].deps);
      assert OrderOk(m, t);
    }
  }

  /** The destroyed task's stored references become references to be dropped. */
  function Destroyed(m: State, t: nat): State
    requires IsTask(m, t)
  {
    m.(tasks := Forget(m.tasks, t), dropping := m.dropping + multiset(m.tasks[t].preds))
  }

  lemma DestroyedTask(m: State, t: nat, u: nat)
    requires IsTask(m, t) && IsTask(m, u) && TaskOk(m, u) && PairBut(m, u, t, t)
    requires u == t ==> m.tasks[t].preds == [] || t !in m.tasks[t].preds
    ensures TaskOk(Destroyed(m, t), u)
  {
    var r := Destroyed(m, t);
    assert LifeOk(r, u) by {
      DestroyedLife(m, t, u);
    }
    hide LifeOk;
    hide StatusOk;
    hide OrderOk;
    assert Grows(m, r);
    FrameWork(m, r, u);
    AllOk(r, u);
  }

  lemma DestroyedLife(m: State, t: nat, u: nat)
    requires IsTask(m, t) && IsTask(m, u) && LifeOk(m, u)
    requires m.tasks[u].storedBy[t] == multiset(m.tasks[t].preds)[u]
    ensures LifeOk(Destroyed(m, t), u)
  {
    var x, y := m.tasks[u], Destroyed(m, t).tasks[u];
    assert y.storedBy == x.storedBy[t := 0];
    assert |y.storedBy| == |x.storedBy| - x.storedBy[t];
  }

  lemma DestroyedPair(m: State, t: nat, p: nat, u: nat)
    requires IsTask(m, t) && IsTask(m, p) && IsTask(m, u) && !m.tasks[t].alive && PairBut(m, p, u, t)
    ensures PairOk(Destroyed(m, t), p, u)
  {
    var r := Destroyed(m, t);
    SameUnsignalled(m.tasks[p], r.tasks[p]);
    hide Unsignalled;
    assert r.tasks[p].storedBy == m.tasks[p].storedBy[t := 0];
    assert r.tasks[u].waiting == m.tasks[u].waiting && r.tasks[u].preds == m.tasks[u].preds;
  }

  lemma DestroyedKeeps(m: State, t: nat)
    requires IsTask(m, t) && !m.tasks[t].alive
    requires forall u :: 0 <= u < |m.tasks| ==> TaskOk(m, u)
    requires forall j :: 0 <= j < |m.starters| ==> StarterOk(m, j)
    requires forall p, u :: 0 <= p < |m.tasks| && 0 <= u < |m.tasks| ==> PairBut(m, p, u, t)
    requires forall p :: p in m.dropping ==> IsTask(m, p)
    requires t !in m.tasks[t].preds && (forall p :: p in m.tasks[t].preds ==> IsTask(m, p))
    requires forall p :: 0 <= p < |m.tasks| ==> StoredOk(m, p)
    ensures Inv(Destroyed(m, t))
  {
    hide TaskOk;
    hide StarterOk;
    var r := Destroyed(m, t);
    forall u | 0 <= u < |m.tasks|
      ensures TaskOk(r, u)
    {
      assert PairBut(m, u, t, t);
      DestroyedTask(m, t, u);
    }
    forall j | 0 <= j < |m.starters|
      ensures StarterOk(r, j)
    {
      DestroyedStarter(m, t, j);
    }
    forall p, u | 0 <= p < |m.tasks| && 0 <= u < |m.tasks|
      ensures PairOk(r, p, u)
    {
      DestroyedPair(m, t, p, u);
    }
    FrameStored(m, r, t);
    hide PairOk;
    hide PairBut;
    forall p: nat | p in r.dropping
      ensures IsTask(r, p)
    {
      assert p in m.dropping || p in multiset(m.tasks[t].preds);
      assert p in multiset(m.tasks[t].preds) ==> p in m.tasks[t].preds;
      assert |r.tasks| == |m.tasks|;
    }
  }

  lemma DestroyedStarter(m: State, t: nat, j: nat)
    requires IsTask(m, t) && IsStarter(m, j) && StarterOk(m, j)
    ensures StarterOk(Destroyed(m, t), j)
  {
    var r := Destroyed(m, t);
    assert Grows(m, r);
    forall u: nat | IsTask(m, u)
      ensures Keeps(m.starters[j], u, m.tasks[u], r.tasks[u])
    {
      assert StarterOk(m, j);
    }
    hide StarterOk;
    FrameStarter(m, r, j);
  }

  lemma ReleaseKeeps(s: State, d: State, t: nat, x: Task)
    requires Inv(s) && GivesUp(s, d, t, x) && x.uses > 0
    ensures Inv(Release(d, t, x))
  {
    var m := Given(d, t, x);
    GivenOthers(s, d, t, x);
    GivenPairs(s, d, t, x);
    FrameStored(s, m, t);
    assert forall p :: p in m.dropping ==> IsTask(m, p) by {
      assert forall p: nat :: p in d.dropping ==> p in s.dropping;
    }
    if x.uses == 1 {
      LastReferenceIsQuiet(s, d, t, x);
      hide TaskOk;
      hide StarterOk;
      hide PairBut;
      DestroyedKeeps(m, t);
    } else {
      GivenPrivate(s, d, t, x);
      hide TaskOk;
      hide StarterOk;
      forall p, u | 0 <= p < |m.tasks| && 0 <= u < |m.tasks|
        ensures PairOk(m, p, u)
      {
        assert PairBut(m, p, u, t);
      }
    }
  }
}
