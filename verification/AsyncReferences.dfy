// The references to a task, action by action: which action takes one and which gives one up, so that the counts the
// invariant speaks of are those of the calls that were made.

module AsyncReferences {
  import opened Common
  import opened AsyncProtocol
  import opened AsyncInvariant
  import opened AsyncTheorems

  /** The action gives up a reference to t. */
  predicate Drops(a: Action, t: nat) { (a.DropExec? || a.DropHandle? || a.DropStored?) && a.t == t }

  /** The action gives up the last reference to t. */
  predicate Destroys(s: State, a: Action, t: nat) { Drops(a, t) && IsTask(s, t) && s.tasks[t].uses == 1 }

  function HandlesMoved(a: Action, t: nat): int {
    if a.CopyHandle? && a.t == t then 1 else if a.DropHandle? && a.t == t then -1 else 0
  }

  /** References to t that are set free because the task that stored them is destroyed, less those then dropped. */
  function DroppingMoved(s: State, a: Action, t: nat): int {
    var freed: int :=
      if (a.DropExec? || a.DropHandle? || a.DropStored?) && Destroys(s, a, a.t) then multiset(s.tasks[a.t].preds)[t] else 0;
    if a.DropStored? && a.t == t then freed - 1 else freed
  }

  /** What an action does to the references of t. */
  ghost predicate Moved(s: State, a: Action, s': State, t: nat)
    requires IsTask(s, t)
  {
    && IsTask(s', t)
    && s'.tasks[t].handles == s.tasks[t].handles + HandlesMoved(a, t)
    && s'.dropping[t] == s.dropping[t] + DroppingMoved(s, a, t)
    && s'.tasks[t].alive == (if Destroys(s, a, t) then false else s.tasks[t].alive)
    && s'.tasks[t].execRef == if a.DropExec? && a.t == t then false else s.tasks[t].execRef || TakesRef(s, a, t)
  }

  /** The start that wins takes the execution's reference. */
  predicate TakesRef(s: State, a: Action, t: nat) {
    a.TakeRef? && IsStarter(s, a.k) && s.starters[a.k].TakingRef? && s.starters[a.k].t == t
  }

  predicate IsDrop(a: Action) { a.DropExec? || a.DropHandle? || a.DropStored? }

  /** The parts of a task and of the state that its references are about. */
  predicate SameReferences(s: State, s': State, t: nat)
    requires IsTask(s, t)
  {
    && IsTask(s', t) && s'.dropping == s.dropping
    && var x, y := s.tasks[t], s'.tasks[t]; x.handles == y.handles && x.alive == y.alive && x.execRef == y.execRef
  }

  lemma TaskKeeps(s: State, a: Action, t: nat)
    requires Enabled(s, a) && Defined(s, a) && IsTask(s, t) && (a.Execute? || a.EndBody? || a.Finish? || a.Signal?)
    ensures SameReferences(s, Apply(s, a), t)
  {
    hide Pins;
  }

  lemma LinkKeeps(s: State, a: Action, t: nat)
    requires Enabled(s, a) && Defined(s, a) && IsTask(s, t) && (a.Link? || a.Register? || a.Unregister?)
    ensures SameReferences(s, Apply(s, a), t)
  {
    hide Pins;
    hide Rotate;
  }

  lemma EndKeeps(s: State, a: Action, t: nat)
    requires Enabled(s, a) && Defined(s, a) && IsTask(s, t) && (a.ReleaseGuard? || a.DispatchDirect?)
    ensures SameReferences(s, Apply(s, a), t)
  {
    hide Pins;
  }

  lemma StartKeeps(s: State, a: Action, t: nat)
    requires Enabled(s, a) && Defined(s, a) && IsTask(s, t)
    requires a.BeginStart? || a.Validate? || a.Acquire? || a.StoreDep? || a.StoreJoin? || a.Publish? || a.Unlock?
    ensures SameReferences(s, Apply(s, a), t)
  {
    hide Pins;
  }

  /** The two actions that take a reference for a handle or for the execution. */
  lemma TakeMoves(s: State, a: Action, t: nat)
    requires Enabled(s, a) && Defined(s, a) && IsTask(s, t) && (a.CopyHandle? || a.TakeRef?)
    ensures Moved(s, a, Apply(s, a), t)
  {
    hide Pins;
  }

  lemma OthersMove(s: State, a: Action, t: nat)
    requires Enabled(s, a) && Defined(s, a) && IsTask(s, t) && !IsDrop(a) && !a.CopyHandle? && !a.TakeRef?
    ensures Moved(s, a, Apply(s, a), t)
  {
    hide Apply;
    hide Enabled;
    hide Defined;
    if a.Execute? || a.EndBody? || a.Finish? || a.Signal? {
      TaskKeeps(s, a, t);
    } else if a.Link? || a.Register? || a.Unregister? {
      LinkKeeps(s, a, t);
    } else if a.ReleaseGuard? || a.DispatchDirect? {
      EndKeeps(s, a, t);
    } else {
      StartKeeps(s, a, t);
    }
  }

  /** Giving up a reference to x. */
  lemma ReleaseMoves(s: State, u: nat, x: Task, t: nat)
    requires IsTask(s, u) && IsTask(s, t) && x.uses == s.tasks[u].uses > 0 && x.preds == s.tasks[u].preds && x.alive
    ensures var r, y := Release(s, u, x), if t == u then x else s.tasks[t]; var dies := x.uses == 1;
      && IsTask(r, t) && r.tasks[t].handles == y.handles && r.tasks[t].execRef == y.execRef
      && r.tasks[t].alive == (if t == u && dies then false else y.alive)
      && r.dropping[t] == s.dropping[t] + if dies then multiset(x.preds)[t] else 0
  {
  }

  lemma DropMoves(s: State, a: Action, t: nat)
    requires Enabled(s, a) && Defined(s, a) && IsTask(s, t) && IsDrop(a)
    ensures Moved(s, a, Apply(s, a), t)
  {
    hide Enabled;
    hide Release;
    Droppable(s, a);
    var x := s.tasks[a.t];
    if a.DropExec? {
      ReleaseMoves(s, a.t, x.(exec := Done, execRef := false), t);
    } else if a.DropHandle? {
      ReleaseMoves(s, a.t, x.(handles := x.handles - 1), t);
    } else {
      ReleaseMoves(s.(dropping := s.dropping - multiset{a.t}), a.t, x, t);
    }
  }

  lemma Droppable(s: State, a: Action)
    requires Enabled(s, a) && Defined(s, a) && IsDrop(a)
    ensures IsTask(s, a.t) && s.tasks[a.t].alive && s.tasks[a.t].uses > 0
    ensures a.DropHandle? ==> s.tasks[a.t].handles > 0
    ensures a.DropStored? ==> s.dropping[a.t] > 0
  {
    hide Pins;
  }

  /**
   * A handle is counted when it is copied and no longer when it is dropped; the execution's reference lasts from the
   * start to the end of the tear-down; a task dies with its last reference, and exactly then frees what it stored.
   */
  lemma ReferencesMove(s: State, a: Action, t: nat)
    requires Enabled(s, a) && Defined(s, a) && IsTask(s, t)
    ensures Moved(s, a, Apply(s, a), t)
  {
    hide Moved;
    hide Apply;
    hide Enabled;
    hide Defined;
    if IsDrop(a) {
      DropMoves(s, a, t);
    } else if a.CopyHandle? || a.TakeRef? {
      TakeMoves(s, a, t);
    } else {
      OthersMove(s, a, t);
    }
  }

  function HandlesSince(acts: seq<Action>, t: nat, i: nat): int
    requires i <= |acts|
  {
    if i == 0 then 0 else HandlesSince(acts, t, i - 1) + HandlesMoved(acts[i - 1], t)
  }

  function DroppingSince(run: seq<State>, acts: seq<Action>, t: nat, i: nat): int
    requires |run| == |acts| + 1 && i < |run|
  {
    if i == 0 then 0 else DroppingSince(run, acts, t, i - 1) + DroppingMoved(run[i - 1], acts[i - 1], t)
  }

  /**
   * In every run: a task has the handle it was created with, one for each copy, and one less for each handle dropped; and
   * of the references it was stored in, as many are still to be dropped as were set free and have not been.
   */
  lemma {:induction false} ReferencesAreAccounted(run: seq<State>, acts: seq<Action>, i: nat, t: nat)
    requires IsRun(run, acts) && i < |run| && IsTask(run[0], t)
    ensures IsTask(run[i], t)
    ensures run[i].tasks[t].handles == 1 + HandlesSince(acts, t, i)
    ensures run[i].dropping[t] == DroppingSince(run, acts, t, i)
  {
    hide Apply;
    hide Enabled;
    hide Defined;
    hide HandlesMoved;
    hide DroppingMoved;
    if i > 0 {
      ReferencesAreAccounted(run, acts, i - 1, t);
      assert Step(run[i - 1], acts[i - 1], run[i]);
      ReferencesMove(run[i - 1], acts[i - 1], t);
    }
  }
}
