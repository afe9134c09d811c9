// The dependency protocol at the level of the tasks' own fields: control word (field by field; the packing is in
// TopologyWord), edge table split into successors and stored predecessors, number of successors and join counter,
// all updated in place. Every method is one atomic action of the protocol.

module AsyncTasksObject {
  import opened Common
  import opened AsyncProtocol
  import opened AsyncInvariant
  import opened AsyncTheorems

  /** The fields of a control word that the protocol uses. */
  datatype Control = Control(status: Status, locked: bool, uses: nat)

  /** The fields of a task are those of the protocol's task. */
  predicate Shows(x: Task, c: Control, e: seq<nat>, n: nat, j: int) {
    c == Control(x.status, x.locked, x.uses) && e == x.succ + x.preds && n == |x.succ| && j == x.join
  }

  class AsyncTasks {
    var control: seq<Control>
    var edges: seq<seq<nat>>          // successors, then stored predecessors
    var numSuccessors: seq<nat>
    var joinCounter: seq<int>
    ghost var s: State

    ghost predicate Valid()
      reads this
    {
      && Inv(s)
      && |control| == |edges| == |numSuccessors| == |joinCounter| == |s.tasks|
      && forall t :: 0 <= t < |control| ==>
           Shows(s.tasks[t], control[t], edges[t], numSuccessors[t], joinCounter[t])
    }

    constructor (tasks: nat, ghost starters: nat)
      ensures Valid() && s == InitState(tasks, starters)
    {
      control := seq(tasks, _ => Control(Idle, false, 1));
      edges := seq(tasks, _ => []);
      numSuccessors := seq(tasks, _ => 0);
      joinCounter := seq(tasks, _ => 0);
      s := InitState(tasks, starters);
      new;
      InitInv(tasks, starters);
      hide Inv;
      assert forall t :: 0 <= t < tasks ==> s.tasks[t] == NewTask();
    }

    ghost method Advance(a: Action)
      requires Inv(s) && Enabled(s, a)
      modifies this`s
      ensures Defined(old(s), a) && s == Apply(old(s), a) && Inv(s)
    {
      hide Inv;
      StepInv(s, a);
      s := Apply(s, a);
    }

    /** Loading the control word at the beginning of start(): a task that is not Idle is refused. */
    method LoadStatus(k: nat, t: nat, args: seq<Option<nat>>) returns (ok: bool)
      requires Valid() && Enabled(s, BeginStart(k, t, args))
      modifies this
      ensures Valid() && Defined(old(s), BeginStart(k, t, args)) && s == Apply(old(s), BeginStart(k, t, args))
      ensures ok <==> old(s).tasks[t].status.Idle?
      ensures ok ==> s.starters[k] == Validating(t, args, [], args != [])
      ensures !ok ==> s.starters[k].Resting?
    {
      hide Inv;
      ok := control[t].status.Idle?;
      Advance(BeginStart(k, t, args));
    }

    /** Checking one dependency: the task itself and an Idle one are refused, null is skipped. */
    method ValidateNext(k: nat, t: nat, arg: Option<nat>) returns (ok: bool)
      requires Valid() && Enabled(s, Validate(k)) && s.starters[k].args != [] && s.starters[k].args[0] == arg
      requires t == s.starters[k].t
      modifies this
      ensures Valid() && Defined(old(s), Validate(k)) && s == Apply(old(s), Validate(k))
      ensures ok <==> arg.None? || (arg.value != t && !old(s).tasks[arg.value].status.Idle?)
      ensures if ok then s.starters[k].Validating? else s.starters[k].Resting?
    {
      hide Inv;
      Advance(Validate(k));
      match arg {
        case None => ok := true;
        case Some(p) =>
          ok := p != t && !control[p].status.Idle?;
      }
    }

    /** One round of the loop that takes the task's own lock while it stays Idle. */
    method LockSelf(k: nat, t: nat, weak: bool) returns (done: bool, ok: bool)
      requires Valid() && Enabled(s, Acquire(k, weak)) && t == s.starters[k].t
      modifies this
      ensures Valid() && Defined(old(s), Acquire(k, weak)) && s == Apply(old(s), Acquire(k, weak))
      ensures done <==> !old(s).tasks[t].status.Idle? || (!weak && !old(s).tasks[t].locked)
      ensures ok <==> done && old(s).tasks[t].status.Idle?
      ensures if !done then s.starters[k].Acquiring? else if ok then s.starters[k].Storing? else s.starters[k].Resting?
    {
      hide Inv;
      Advance(Acquire(k, weak));
      if !control[t].status.Idle? {
        return true, false;
      }
      if weak || control[t].locked {
        return false, false;
      }
      control := control[t := control[t].(locked := true)];
      return true, true;
    }

    /** Under the lock: one dependency is stored and its use count goes up. */
    method StorePredecessor(k: nat, t: nat, p: nat)
      requires Valid() && Enabled(s, StoreDep(k)) && t == s.starters[k].t && p == s.starters[k].deps[s.starters[k].i]
      modifies this
      ensures Valid() && Defined(old(s), StoreDep(k)) && s == Apply(old(s), StoreDep(k))
    {
      hide Inv;
      Advance(StoreDep(k));
      edges := edges[t := edges[t] + [p]];
      control := control[p := control[p].(uses := control[p].uses + 1)];
    }

    /** The join counter covers every dependency and the submit guard; a start without dependencies needs none. */
    method StoreJoinCounter(k: nat, t: nat, count: nat, many: bool)
      requires Valid() && Enabled(s, StoreJoin(k)) && t == s.starters[k].t
      requires count == |s.starters[k].deps| && many == s.starters[k].many
      modifies this
      ensures Valid() && Defined(old(s), StoreJoin(k)) && s == Apply(old(s), StoreJoin(k))
    {
      hide Inv;
      Advance(StoreJoin(k));
      joinCounter := joinCounter[t := if many then count + 1 else 0];
    }

    /** The execution's own reference. */
    method TakeExecutionRef(k: nat, t: nat)
      requires Valid() && Enabled(s, TakeRef(k)) && t == s.starters[k].t
      modifies this
      ensures Valid() && Defined(old(s), TakeRef(k)) && s == Apply(old(s), TakeRef(k))
    {
      hide Inv;
      Advance(TakeRef(k));
      control := control[t := control[t].(uses := control[t].uses + 1)];
    }

    /** fetch_or of the Running bit. */
    method PublishRunning(k: nat, t: nat)
      requires Valid() && Enabled(s, Publish(k)) && t == s.starters[k].t
      modifies this
      ensures Valid() && Defined(old(s), Publish(k)) && s == Apply(old(s), Publish(k))
    {
      hide Inv;
      Advance(Publish(k));
      control := control[t := control[t].(status := Running)];
    }

    /** fetch_and of the lock bit. */
    method UnlockSelf(k: nat, t: nat)
      requires Valid() && Enabled(s, Unlock(k)) && t == s.starters[k].t
      modifies this
      ensures Valid() && Defined(old(s), Unlock(k)) && s == Apply(old(s), Unlock(k))
    {
      hide Inv;
      Advance(Unlock(k));
      control := control[t := control[t].(locked := false)];
    }

    /** _link_predecessors, one round: a Finished predecessor counts at once, otherwise its lock is tried. */
    method LinkNext(k: nat, t: nat, p: nat, weak: bool) returns (counted: bool, locked: bool)
      requires Valid() && Enabled(s, Link(k, weak)) && s.starters[k].i < |s.starters[k].deps|
      requires t == s.starters[k].t && p == s.starters[k].deps[s.starters[k].i]
      modifies this
      ensures Valid() && Defined(old(s), Link(k, weak)) && s == Apply(old(s), Link(k, weak))
      ensures counted <==> old(s).tasks[p].status.Finished?
      ensures locked <==> !counted && !weak && !old(s).tasks[p].locked
      ensures locked <==> s.starters[k].Registering?
      ensures joinCounter[t] == old(joinCounter[t]) - if counted then 1 else 0
    {
      hide Inv;
      Advance(Link(k, weak));
      counted := control[p].status.Finished?;
      locked := false;
      if counted {
        joinCounter := joinCounter[t := joinCounter[t] - 1];
      } else if !weak && !control[p].locked {
        control := control[p := control[p].(locked := true)];
        locked := true;
      }
    }

    /** push_back and one swap keep the table's successors in front of its stored predecessors. */
    lemma SwapRotates(succ: seq<nat>, preds: seq<nat>, t: nat)
      ensures var e := succ + preds + [t]; var n := |succ|;
        e[n := e[|e| - 1]][|e| - 1 := e[n]] == (succ + [t]) + Rotate(preds)
    {
      if preds == [] {
        assert succ + [] + [t] == succ + [t];
      } else {
        assert succ + preds + [t] == succ + [preds[0]] + preds[1..] + [t];
      }
    }

    /** The registration under the predecessor's lock. */
    method RegisterSuccessor(k: nat, t: nat, p: nat)
      requires Valid() && Enabled(s, Register(k)) && s.starters[k].i < |s.starters[k].deps|
      requires t == s.starters[k].t && p == s.starters[k].deps[s.starters[k].i]
      modifies this
      ensures Valid() && Defined(old(s), Register(k)) && s == Apply(old(s), Register(k))
    {
      hide Inv;
      Advance(Register(k));
      var e, n := edges[p] + [t], numSuccessors[p];
      SwapRotates(old(s).tasks[p].succ, old(s).tasks[p].preds, t);
      edges := edges[p := e[n := e[|e| - 1]][|e| - 1 := e[n]]];
      numSuccessors := numSuccessors[p := n + 1];
    }

    method UnlockPredecessor(k: nat, p: nat)
      requires Valid() && Enabled(s, Unregister(k)) && s.starters[k].i < |s.starters[k].deps|
      requires p == s.starters[k].deps[s.starters[k].i]
      modifies this
      ensures Valid() && Defined(old(s), Unregister(k)) && s == Apply(old(s), Unregister(k))
    {
      hide Inv;
      Advance(Unregister(k));
      control := control[p := control[p].(locked := false)];
    }

    /** Giving back the submit guard: whoever takes the counter from 1 to 0 dispatches. */
    method ReleaseSubmitGuard(k: nat, t: nat) returns (dispatch: bool)
      requires Valid() && Enabled(s, ReleaseGuard(k)) && t == s.starters[k].t
      modifies this
      ensures Valid() && Defined(old(s), ReleaseGuard(k)) && s == Apply(old(s), ReleaseGuard(k))
      ensures dispatch <==> s.tasks[t].dispatched == old(s).tasks[t].dispatched + 1
    {
      hide Inv;
      Advance(ReleaseGuard(k));
      dispatch := joinCounter[t] == 1;
      joinCounter := joinCounter[t := joinCounter[t] - 1];
    }

    /** One round of the tear-down's loop: Finished is entered only from an unlocked word. */
    method PublishFinished(t: nat, weak: bool) returns (ok: bool, size: nat)
      requires Valid() && Enabled(s, Finish(t, weak))
      modifies this
      ensures Valid() && Defined(old(s), Finish(t, weak)) && s == Apply(old(s), Finish(t, weak))
      ensures ok <==> !weak && !old(s).tasks[t].locked
      ensures ok ==> s.tasks[t].exec == Signalling(0) && s.tasks[t].status.Finished? && size == |s.tasks[t].succ|
    {
      hide Inv;
      Advance(Finish(t, weak));
      ok := !weak && !control[t].locked;
      size := numSuccessors[t];
      if ok {
        control := control[t := control[t].(status := Finished)];
      }
    }

    /** One arrival at the i-th successor. */
    method SignalSuccessor(t: nat, i: nat) returns (ready: Option<nat>)
      requires Valid() && Enabled(s, Signal(t)) && i == s.tasks[t].exec.i
      modifies this
      ensures Valid() && Defined(old(s), Signal(t)) && s == Apply(old(s), Signal(t))
      ensures ready.Some? ==> ready.value == old(s).tasks[t].succ[i]
      ensures ready.Some? <==> s.tasks[old(s).tasks[t].succ[i]].dispatched == old(s).tasks[old(s).tasks[t].succ[i]].dispatched + 1
    {
      hide Inv;
      Advance(Signal(t));
      var v := edges[t][i];
      ready := if joinCounter[v] == 1 then Some(v) else None;
      joinCounter := joinCounter[v := joinCounter[v] - 1];
    }

    /** _decrement_ref: the last reference destroys the task; the references it stored are then to be dropped. */
    method DropReference(t: nat, ghost a: Action) returns (destroyed: bool)
      requires Valid() && Enabled(s, a) && (a == DropExec(t) || a == DropHandle(t) || a == DropStored(t))
      modifies this
      ensures Valid() && Defined(old(s), a) && s == Apply(old(s), a)
      ensures destroyed <==> !s.tasks[t].alive
      ensures destroyed <==> old(control)[t].uses == 1
      ensures t < |control| && control[t].uses == old(control)[t].uses - 1
      ensures destroyed ==> s.dropping >= multiset(edges[t][numSuccessors[t]..])
    {
      hide Inv;
      hide Enabled;
      hide Defined;
      hide Apply;
      Advance(a);
      DroppedShows(old(s), t, a);
      destroyed := control[t].uses == 1;
      control := control[t := control[t].(uses := control[t].uses - 1)];
    }

    /** Dropping a reference changes no field but the use count of the task itself. */
    lemma DroppedShows(before: State, t: nat, a: Action)
      requires Enabled(before, a) && Defined(before, a) && (a == DropExec(t) || a == DropHandle(t) || a == DropStored(t))
      ensures var r := Apply(before, a);
        && t < |r.tasks| == |before.tasks| && r.tasks[t].uses == before.tasks[t].uses - 1
        && (before.tasks[t].uses == 1 <==> r.tasks[t].uses == 0)
        && (before.tasks[t].uses == 1 ==> !r.tasks[t].alive && r.dropping >= multiset(before.tasks[t].preds))
        && (before.tasks[t].uses != 1 ==> r.tasks[t].alive)
        && forall u :: 0 <= u < |r.tasks| ==>
             && r.tasks[u].status == before.tasks[u].status && r.tasks[u].locked == before.tasks[u].locked
             && r.tasks[u].succ == before.tasks[u].succ && r.tasks[u].preds == before.tasks[u].preds
             && r.tasks[u].join == before.tasks[u].join && (u != t ==> r.tasks[u].uses == before.tasks[u].uses)
    {
    }

    method AddHandle(t: nat)
      requires Valid() && Enabled(s, CopyHandle(t))
      modifies this
      ensures Valid() && Defined(old(s), CopyHandle(t)) && s == Apply(old(s), CopyHandle(t))
      ensures t < |control| && control[t].uses == old(control)[t].uses + 1
    {
      hide Inv;
      Advance(CopyHandle(t));
      control := control[t := control[t].(uses := control[t].uses + 1)];
    }
  }
}
