// Child tasks of a running task: every activation holds one slot of its parent's join counter, or of the executor's
// count of topologies if it has no parent; a running body holds one slot of its own counter, the baseline; a body
// that ends while slots are taken leaves its task suspended, to be resumed by whoever returns the last slot.
// One action per atomic step. An activation that takes over its predecessor's slot is a new activation here.

module RuntimeProtocol {
  import opened Common

  datatype Phase =
    | Waiting                     // submitted, its predecessors have not all finished
    | Queued                      // in a queue, or in some worker's hands to be invoked next
    | Running(counted: nat)       // inside the body; slots counted for children that are not published yet
    | Suspended                   // the body has ended, children are still out
    | Finishing(counted: nat)     // in the tear-down; slots counted for siblings that are not published yet
    | Returning(resumes: bool)    // has read the parent's PREEMPTED flag, is about to return the slot
    | Done

  datatype Work = Work(
    parent: Option<nat>,
    join: nat,
    preempted: bool,
    phase: Phase,
    alive: bool,                  // false from the earliest moment at which the tear-down may destroy it
    bodies: nat, wakes: nat, finishes: nat)   // how often the body ran, it was resumed, its tear-down was entered

  datatype State = State(works: seq<Work>, topologies: nat, announced: nat)

  datatype Action =
    | Announce                              // _increment_topology
    | Submit(waits: bool)                   // a top-level task is published
    | Dispatch(c: nat)                      // the last predecessor has finished
    | Invoke(c: nat, plain: bool)           // plain: a body that is given no Runtime
    | Skip(c: nat)                          // a stop was requested: the body does not run
    | AddSlots(c: nat, n: nat)              // the body counts n children at once
    | PublishChild(c: nat, waits: bool)
    | EndBody(c: nat)
    | AddSiblings(c: nat, n: nat)           // the tear-down counts n more activations of the same parent
    | PublishSibling(c: nat)
    | HandOver(c: nat)                      // a successor takes over the slot
    | ReadParent(c: nat)
    | Return(c: nat)
    | Leave(c: nat)                         // _decrement_topology

  function NewWork(parent: Option<nat>, waits: bool): Work {
    Work(parent, 0, false, if waits then Waiting else Queued, true, 0, 0, 0)
  }

  function InitState(): State { State([], 0, 0) }

  predicate IsWork(s: State, c: nat) { c < |s.works| }

  predicate HasParent(x: Work) { x.parent.Some? }

  predicate Enabled(s: State, a: Action) {
    match a
    case Announce => true
    case Submit(_) => s.announced > 0
    case Dispatch(c) => IsWork(s, c) && s.works[c].phase.Waiting?
    case Invoke(c, _) => IsWork(s, c) && s.works[c].phase.Queued?
    case Skip(c) => IsWork(s, c) && s.works[c].phase.Queued? && !s.works[c].preempted && HasParent(s.works[c])
    case AddSlots(c, n) => IsWork(s, c) && s.works[c].phase == Running(0) && n > 0
    case PublishChild(c, _) => IsWork(s, c) && s.works[c].phase.Running? && s.works[c].phase.counted > 0
    case EndBody(c) => IsWork(s, c) && s.works[c].phase == Running(0)
    case AddSiblings(c, n) => IsWork(s, c) && s.works[c].phase == Finishing(0) && HasParent(s.works[c]) && n > 0
    case PublishSibling(c) => IsWork(s, c) && s.works[c].phase.Finishing? && s.works[c].phase.counted > 0
    case HandOver(c) => IsWork(s, c) && s.works[c].phase == Finishing(0) && HasParent(s.works[c])
    case ReadParent(c) => IsWork(s, c) && s.works[c].phase == Finishing(0) && HasParent(s.works[c])
    case Return(c) => IsWork(s, c) && s.works[c].phase.Returning?
    case Leave(c) => IsWork(s, c) && s.works[c].phase == Finishing(0) && !HasParent(s.works[c])
  }

  predicate LiveParent(s: State, c: nat)
    requires IsWork(s, c)
  {
    var x := s.works[c];
    x.parent.Some? && x.parent.value < c && s.works[x.parent.value].alive
  }

  /** The parent that is read or changed has not been destroyed, and no counter underflows. */
  predicate Defined(s: State, a: Action)
    requires Enabled(s, a)
  {
    match a
    case EndBody(c) => s.works[c].join > 0
    case Skip(c) => LiveParent(s, c)
    case AddSiblings(c, _) => LiveParent(s, c)
    case PublishSibling(c) => LiveParent(s, c)
    case HandOver(c) => LiveParent(s, c)
    case ReadParent(c) => LiveParent(s, c)
    case Return(c) => LiveParent(s, c) && s.works[s.works[c].parent.value].join > 0
    case Leave(c) => s.topologies > 0
    case _ => true
  }

  function Set(s: State, c: nat, x: Work): State
    requires IsWork(s, c)
  {
    s.(works := s.works[c := x])
  }

  /** The first invocation runs the body; a resumed task is found PREEMPTED and goes on to its tear-down. */
  function Invoked(x: Work, plain: bool): Work {
    if x.preempted then x.(phase := Finishing(0), preempted := false, finishes := x.finishes + 1)
    else if plain then x.(phase := Finishing(0), bodies := x.bodies + 1, finishes := x.finishes + 1)
    else x.(phase := Running(0), preempted := true, join := x.join + 1, bodies := x.bodies + 1)
  }

  /** The baseline slot is given back: with no child out the task finishes at once. */
  function Ended(x: Work): Work
    requires x.join > 0
  {
    if x.join == 1 then x.(join := 0, phase := Finishing(0), preempted := false, finishes := x.finishes + 1)
    else x.(join := x.join - 1, phase := Suspended)
  }

  /** _schedule_parent: whoever takes the counter from 1 to 0 resumes a PREEMPTED parent. */
  function SlotReturned(y: Work, resumes: bool): Work
    requires y.join > 0
  {
    if y.join == 1 && resumes then y.(join := 0, phase := Queued, wakes := y.wakes + 1) else y.(join := y.join - 1)
  }

  /** The first half of _schedule_parent; the task itself may be gone by now. */
  function ReadsParent(s: State, c: nat): State
    requires IsWork(s, c) && LiveParent(s, c)
  {
    Set(s, c, s.works[c].(phase := Returning(s.works[s.works[c].parent.value].preempted), alive := false))
  }

  function Apply(s: State, a: Action): State
    requires Enabled(s, a) && Defined(s, a)
  {
    match a
    case Announce => s.(topologies := s.topologies + 1, announced := s.announced + 1)
    case Submit(waits) => s.(works := s.works + [NewWork(None, waits)], announced := s.announced - 1)
    case Dispatch(c) => Set(s, c, s.works[c].(phase := Queued))
    case Invoke(c, plain) => Set(s, c, Invoked(s.works[c], plain))
    case Skip(c) => ReadsParent(s, c)
    case AddSlots(c, n) => Set(s, c, s.works[c].(phase := Running(n), join := s.works[c].join + n))
    case PublishChild(c, waits) =>
      var s' := Set(s, c, s.works[c].(phase := Running(s.works[c].phase.counted - 1)));
      s'.(works := s'.works + [NewWork(Some(c), waits)])
    case EndBody(c) => Set(s, c, Ended(s.works[c]))
    case AddSiblings(c, n) =>
      var p := s.works[c].parent.value;
      Set(Set(s, c, s.works[c].(phase := Finishing(n))), p, s.works[p].(join := s.works[p].join + n))
    case PublishSibling(c) =>
      var s' := Set(s, c, s.works[c].(phase := Finishing(s.works[c].phase.counted - 1)));
      s'.(works := s'.works + [NewWork(s.works[c].parent, false)])
    case HandOver(c) =>
      var s' := Set(s, c, s.works[c].(phase := Done, alive := false));
      s'.(works := s'.works + [NewWork(s.works[c].parent, false)])
    case ReadParent(c) => ReadsParent(s, c)
    case Return(c) =>
      var p := s.works[c].parent.value;
      Set(Set(s, c, s.works[c].(phase := Done)), p, SlotReturned(s.works[p], s.works[c].phase.resumes))
    case Leave(c) =>
      Set(s, c, s.works[c].(phase := Done, alive := false)).(topologies := s.topologies - 1)
  }

  ghost predicate Step(s: State, a: Action, s': State) {
    Enabled(s, a) && Defined(s, a) && s' == Apply(s, a)
  }

  // ---------------------------------------------------------------------------------
  // The invariant
  // ---------------------------------------------------------------------------------

  /** The slots of `parent` that x answers for: its own, and those it has counted for siblings. */
  function SlotsOf(x: Work, parent: Option<nat>): nat {
    if x.parent != parent || x.phase.Done? then 0 else if x.phase.Finishing? then 1 + x.phase.counted else 1
  }

  function Slots(works: seq<Work>, parent: Option<nat>): nat {
    if works == [] then 0 else Slots(works[..|works| - 1], parent) + SlotsOf(works[|works| - 1], parent)
  }

  /** The slots of its own counter that a running body answers for: the baseline, and children to be published. */
  function Own(x: Work): nat { if x.phase.Running? then 1 + x.phase.counted else 0 }

  /** A task whose children may be out. */
  predicate Hosts(y: Work) { y.alive && y.preempted && (y.phase.Running? || y.phase.Suspended?) }

  predicate Untouched(x: Work) { !x.preempted && x.join == 0 && x.bodies == x.wakes == x.finishes == 0 }

  predicate LocalOk(x: Work, c: nat) {
    && (x.parent.Some? ==> x.parent.value < c)
    && (x.phase.Finishing? && x.phase.counted > 0 ==> x.parent.Some?)
    && (x.alive <==> !x.phase.Returning? && !x.phase.Done?)
    && match x.phase
       case Waiting => Untouched(x)
       case Queued =>
         if x.preempted then x.join == 0 && x.bodies == 1 && x.wakes == 1 && x.finishes == 0 else Untouched(x)
       case Running(_) => x.preempted && x.bodies == 1 && x.wakes == x.finishes == 0
       case Suspended => x.preempted && x.join > 0 && x.bodies == 1 && x.wakes == x.finishes == 0
       case Finishing(_) => !x.preempted && x.join == 0 && x.bodies == x.finishes == 1 && x.wakes <= 1
       case Returning(resumes) =>
         resumes && x.parent.Some? && !x.preempted && x.join == 0 && x.wakes <= x.bodies == x.finishes <= 1
       case Done => !x.preempted && x.join == 0 && x.wakes <= x.bodies == x.finishes <= 1
  }

  /** The counter is exactly the slots taken, and who holds one of them has a parent that waits for it. */
  ghost predicate WorkOk(works: seq<Work>, c: nat)
    requires c < |works|
  {
    var x := works[c];
    && LocalOk(x, c)
    && x.join == Own(x) + Slots(works, Some(c))
    && (x.parent.Some? && !x.phase.Done? ==> Hosts(works[x.parent.value]))
  }

  ghost predicate Inv(s: State) {
    && (forall c :: 0 <= c < |s.works| ==> WorkOk(s.works, c))
    && s.topologies == s.announced + Slots(s.works, None)
  }
}
