// Runtime's launch and wait functions, the invocation of a task that is given a Runtime, and _schedule_parent, on the
// works' own fields: join counter, PREEMPTED flag, parent pointer, and the executor's count of topologies. Works are
// numbered in the order in which they are published. Every method is one atomic action of RuntimeProtocol.

module RuntimeObject {
  import opened Common
  import opened RuntimeProtocol
  import opened RuntimeTheorems

  class RuntimeWorks {
    var joinCounter: seq<nat>
    var preempted: seq<bool>
    var parents: seq<Option<nat>>
    var numTopologies: nat
    ghost var s: State

    ghost predicate Valid()
      reads this
    {
      && Inv(s)
      && |joinCounter| == |preempted| == |parents| == |s.works|
      && numTopologies == s.topologies
      && forall c :: 0 <= c < |joinCounter| ==>
           joinCounter[c] == s.works[c].join && preempted[c] == s.works[c].preempted && parents[c] == s.works[c].parent
    }

    constructor ()
      ensures Valid() && s == InitState()
    {
      hide Inv;
      joinCounter, preempted, parents, numTopologies := [], [], [], 0;
      s := InitState();
      InitInv();
    }

    ghost method Advance(a: Action)
      requires Inv(s) && Enabled(s, a)
      modifies this`s
      ensures Defined(old(s), a) && s == Apply(old(s), a) && Inv(s)
    {
      hide Inv;
      StepInv(s, a);
      s := Apply(s, a);
    }

    /** _increment_topology */
    method IncrementTopology()
      requires Valid()
      modifies this
      ensures Valid() && s == Apply(old(s), Announce)
    {
      hide Inv;
      Advance(Announce);
      numTopologies := numTopologies + 1;
    }

    /** A top-level task is handed to the scheduler. */
    method SubmitTop(waits: bool) returns (c: nat)
      requires Valid() && Enabled(s, RuntimeProtocol.Submit(waits))
      modifies this
      ensures Valid() && s == Apply(old(s), RuntimeProtocol.Submit(waits)) && c == |old(s.works)|
    {
      hide Inv;
      c := |joinCounter|;
      Advance(RuntimeProtocol.Submit(waits));
      Add(None);
    }

    /** The fields of a new work. */
    method Add(parent: Option<nat>)
      modifies this`joinCounter, this`preempted, this`parents
      ensures joinCounter == old(joinCounter) + [0] && preempted == old(preempted) + [false]
      ensures parents == old(parents) + [parent]
    {
      joinCounter, preempted, parents := joinCounter + [0], preempted + [false], parents + [parent];
    }

    /** The slots are counted before the children are published. */
    method CountChildren(p: nat, n: nat)
      requires Valid() && Enabled(s, AddSlots(p, n))
      modifies this
      ensures Valid() && s == Apply(old(s), AddSlots(p, n))
    {
      hide Inv;
      Advance(AddSlots(p, n));
      joinCounter := joinCounter[p := joinCounter[p] + n];
    }

    method PublishOne(p: nat, waits: bool) returns (c: nat)
      requires Valid() && Enabled(s, PublishChild(p, waits))
      modifies this
      ensures Valid() && s == Apply(old(s), PublishChild(p, waits)) && c == |old(s.works)|
    {
      hide Inv;
      c := |joinCounter|;
      Advance(PublishChild(p, waits));
      Add(Some(p));
    }

    /** run(): all the sources are counted at once, and then published one after the other. */
    method LaunchSources(p: nat, n: nat)
      requires Valid() && Enabled(s, AddSlots(p, n))
      modifies this
      ensures Valid() && |s.works| == |old(s.works)| + n && s.topologies == old(s.topologies)
      ensures s.works[p] == old(s.works)[p].(join := old(s.works)[p].join + n)
      ensures forall c :: 0 <= c < |s.works| && c != p ==>
        s.works[c] == if c < |old(s.works)| then old(s.works)[c] else NewWork(Some(p), false)
    {
      hide Inv;
      CountChildren(p, n);
      var i := 0;
      while i < n
        invariant 0 <= i <= n && Valid() && |s.works| == |old(s.works)| + i && s.topologies == old(s.topologies)
        invariant p < |s.works| && s.works[p] == old(s.works)[p].(join := old(s.works)[p].join + n, phase := Running(n - i))
        invariant forall c :: 0 <= c < |s.works| && c != p ==>
          s.works[c] == if c < |old(s.works)| then old(s.works)[c] else NewWork(Some(p), false)
      {
        var _ := PublishOne(p, false);
        i := i + 1;
      }
    }

    /** The condition of wait(). */
    method ChildrenDone(p: nat) returns (done: bool)
      requires Valid() && IsWork(s, p) && s.works[p].phase == Running(0)
      ensures done <==> forall c: nat :: IsWork(s, c) && s.works[c].parent == Some(p) ==> IsDone(s, c)
    {
      hide Inv;
      done := joinCounter[p] == 1;
      CounterShowsChildren(s, p);
    }

    /** The condition of wait_for_all(). */
    method AllDone() returns (done: bool)
      requires Valid()
      ensures done <==> s.announced == 0 && forall c: nat :: IsWork(s, c) ==> IsDone(s, c)
    {
      hide Inv;
      done := numTopologies == 0;
      TopologiesShowAll(s);
    }

    /** invoke: the flag says whether the body is still to run; if so, the flag is set and the baseline slot taken. */
    method Enter(c: nat) returns (first: bool)
      requires Valid() && Enabled(s, Invoke(c, false))
      modifies this
      ensures Valid() && s == Apply(old(s), Invoke(c, false)) && (first <==> s.works[c].phase.Running?)
      ensures first <==> !old(preempted)[c]
    {
      hide Inv;
      Advance(Invoke(c, false));
      first := !preempted[c];
      if first {
        preempted := preempted[c := true];
        joinCounter := joinCounter[c := joinCounter[c] + 1];
      } else {
        preempted := preempted[c := false];
      }
    }

    /** After the body: with no child out the task finishes here, otherwise it is left to its children. */
    method ReleaseBaseline(c: nat) returns (finished: bool)
      requires Valid() && Enabled(s, EndBody(c))
      modifies this
      ensures Valid() && Defined(old(s), EndBody(c)) && s == Apply(old(s), EndBody(c))
      ensures finished <==> s.works[c].phase.Finishing?
      ensures finished <==> old(joinCounter)[c] == 1
    {
      hide Inv;
      Advance(EndBody(c));
      finished := joinCounter[c] == 1;
      joinCounter := joinCounter[c := joinCounter[c] - 1];
      if finished { preempted := preempted[c := false]; }
    }

    /** Tear-down: slots for ready successors but the first are counted before these are published. */
    method CountReady(c: nat, p: nat, n: nat)
      requires Valid() && Enabled(s, AddSiblings(c, n)) && Some(p) == s.works[c].parent
      modifies this
      ensures Valid() && Defined(old(s), AddSiblings(c, n)) && s == Apply(old(s), AddSiblings(c, n))
    {
      hide Inv;
      Advance(AddSiblings(c, n));
      joinCounter := joinCounter[p := joinCounter[p] + n];
    }

    method PublishReady(c: nat) returns (r: nat)
      requires Valid() && Enabled(s, PublishSibling(c))
      modifies this
      ensures Valid() && Defined(old(s), PublishSibling(c)) && s == Apply(old(s), PublishSibling(c)) && r == |old(s.works)|
    {
      hide Inv;
      r := |joinCounter|;
      Advance(PublishSibling(c));
      Add(parents[c]);
    }

    /** The first ready successor goes on under the slot of the task it follows: the parent's counter is left alone. */
    method InheritSlot(c: nat) returns (r: nat)
      requires Valid() && Enabled(s, HandOver(c))
      modifies this
      ensures Valid() && Defined(old(s), HandOver(c)) && s == Apply(old(s), HandOver(c)) && r == |old(s.works)|
      ensures forall p :: 0 <= p < |old(joinCounter)| ==> joinCounter[p] == old(joinCounter)[p]
    {
      hide Inv;
      r := |joinCounter|;
      Advance(HandOver(c));
      Add(parents[c]);
    }

    /** _schedule_parent reads the parent's flag first, */
    method ReadPreempted(c: nat, p: nat) returns (flag: bool)
      requires Valid() && Enabled(s, ReadParent(c)) && Some(p) == s.works[c].parent
      modifies this
      ensures Valid() && Defined(old(s), ReadParent(c)) && s == Apply(old(s), ReadParent(c)) && s.works[c].phase == Returning(flag)
    {
      hide Inv;
      Advance(ReadParent(c));
      flag := preempted[p];
    }

    /** and then returns the slot; the last one resumes the parent. */
    method ReturnSlot(c: nat, p: nat, flag: bool) returns (resumed: bool)
      requires Valid() && Enabled(s, Return(c)) && Some(p) == s.works[c].parent && s.works[c].phase == Returning(flag)
      modifies this
      ensures Valid() && Defined(old(s), Return(c)) && s == Apply(old(s), Return(c))
      ensures resumed <==> s.works[p].wakes == old(s.works)[p].wakes + 1
      ensures resumed <==> old(joinCounter)[p] == 1
    {
      LocalParent(s.works, c);
      hide Inv;
      Advance(Return(c));
      resumed := joinCounter[p] == 1 && flag;
      joinCounter := joinCounter[p := joinCounter[p] - 1];
    }

    /** _decrement_topology: the last one wakes whoever waits for all. */
    method DecrementTopology(c: nat) returns (last: bool)
      requires Valid() && Enabled(s, Leave(c))
      modifies this
      ensures Valid() && Defined(old(s), Leave(c)) && s == Apply(old(s), Leave(c)) && (last <==> s.topologies == 0)
      ensures last <==> old(numTopologies) == 1
    {
      hide Inv;
      Advance(Leave(c));
      last := numTopologies == 1;
      numTopologies := numTopologies - 1;
    }
  }
}
