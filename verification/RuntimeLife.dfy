// The life of one activation, told from the actions alone: what has happened to it says in which phase it is, so it is
// invoked only after its last predecessor has finished, its body is begun once, and it is invoked a second time exactly
// if somebody had to wake it. Every action of its own brings its end nearer.

module RuntimeLife {
  import opened Common
  import opened RuntimeProtocol
  import opened RuntimeTheorems

  /** What has happened to an activation so far. */
  datatype Life = Life(
    waits: bool,        // it was published with predecessors still to finish
    dispatched: bool,   // the last of them has finished
    skipped: bool,      // a stop was requested before its body was begun
    begun: bool,        // its body was begun,
    plain: bool,        // which was given no Runtime
    ended: bool,        // its body has ended,
    alone: bool,        // with no child out
    woken: bool,        // the last child has returned its slot to it afterwards,
    again: bool,        // and it was invoked once more
    read: bool,         // it has read its parent's flag
    gone: bool)         // it has returned, handed over or given up its own slot

  function Newborn(waits: bool): Life {
    Life(waits, false, false, false, false, false, false, false, false, false, false)
  }

  /** How action `a`, done in state `s`, adds to the life of activation c. */
  function LifeAfter(s: State, a: Action, c: nat, l: Life): Life {
    match a
    case Submit(waits) => if c == |s.works| then Newborn(waits) else l
    case PublishChild(_, waits) => if c == |s.works| then Newborn(waits) else l
    case PublishSibling(_) => if c == |s.works| then Newborn(false) else l
    case HandOver(d) => if c == |s.works| then Newborn(false) else if d == c then l.(gone := true) else l
    case Dispatch(d) => if d == c then l.(dispatched := true) else l
    case Invoke(d, plain) =>
      if d != c then l else if l.begun then l.(again := true) else l.(begun := true, plain := plain)
    case Skip(d) => if d == c then l.(skipped := true) else l
    case EndBody(d) => if d == c && IsWork(s, c) then l.(ended := true, alone := s.works[c].join == 1) else l
    case ReadParent(d) => if d == c then l.(read := true) else l
    case Return(d) =>
      if d == c then l.(gone := true)
      else if IsWork(s, c) && IsWork(s, d) && s.works[d].parent == Some(c) && s.works[c].join == 1 then l.(woken := true)
      else l
    case Leave(d) => if d == c then l.(gone := true) else l
    case _ => l
  }

  function Lived(run: seq<State>, acts: seq<Action>, c: nat, i: nat): Life
    requires |run| == |acts| + 1 && i < |run|
  {
    if i == 0 then Newborn(false) else LifeAfter(run[i - 1], acts[i - 1], c, Lived(run, acts, c, i - 1))
  }

  predicate Ready(l: Life) { l.waits ==> l.dispatched }

  /** It has been invoked for the first time and its body is over, or never was to give it a Runtime. */
  predicate InTearDown(l: Life) { l.begun && (l.plain || (l.ended && (l.alone || l.again))) }

  /** The phase that a life amounts to. */
  predicate PhaseFits(x: Work, l: Life) {
    && (x.phase.Waiting? <==> !Ready(l))
    && (x.phase.Queued? <==> (Ready(l) && !l.begun && !l.skipped) || (l.woken && !l.again))
    && (x.phase.Running? <==> l.begun && !l.plain && !l.ended)
    && (x.phase.Suspended? <==> l.ended && !l.alone && !l.woken)
    && (x.phase.Finishing? <==> InTearDown(l) && !l.read && !l.gone)
    && (x.phase.Returning? <==> (l.skipped || l.read) && !l.gone)
    && (x.phase.Done? <==> l.gone)
  }

  /** The parts of a life come in order. */
  predicate InOrder(l: Life) {
    && (l.begun || l.skipped ==> Ready(l)) && !(l.begun && l.skipped)
    && (l.plain ==> l.begun && !l.ended) && (l.ended ==> l.begun) && (l.alone ==> l.ended)
    && (l.woken ==> l.ended && !l.alone) && (l.again ==> l.woken)
    && (l.read ==> InTearDown(l)) && (l.gone ==> InTearDown(l) || l.skipped)
  }

  predicate LifeOk(s: State, c: nat, l: Life)
    requires IsWork(s, c)
  {
    PhaseFits(s.works[c], l) && InOrder(l) && (s.works[c].preempted <==> l.begun && !l.plain && !InTearDown(l))
  }

  /** The actions of activation c other than to count and publish further ones. */
  predicate MovesOn(a: Action, c: nat) {
    match a
    case Dispatch(d) => d == c
    case Invoke(d, _) => d == c
    case Skip(d) => d == c
    case EndBody(d) => d == c
    case HandOver(d) => d == c
    case ReadParent(d) => d == c
    case Return(d) => d == c
    case Leave(d) => d == c
    case _ => false
  }

  /** The invariant's say on one activation, and on the one whose slot is being returned. */
  lemma PhasesOf(s: State, a: Action, c: nat)
    requires Inv(s) && Enabled(s, a) && IsWork(s, c)
    ensures LocalOk(s.works[c], c) && Defined(s, a)
    ensures a.Return? ==> LocalOk(s.works[a.c], a.c) && Hosts(s.works[s.works[a.c].parent.value])
  {
    StepInv(s, a);
    assert WorkOk(s.works, c);
    if a.Return? {
      assert WorkOk(s.works, a.c);
    }
  }

  lemma WokenOnlyAsleep(s: State, d: nat, c: nat)
    requires Inv(s) && Enabled(s, Return(d)) && IsWork(s, c) && s.works[d].parent == Some(c) && s.works[c].join == 1
    ensures s.works[c].phase.Suspended? && c != d && Defined(s, Return(d))
  {
    StepInv(s, Return(d));
    assert WorkOk(s.works, c) && WorkOk(s.works, d);
    SlotsUpdate(s.works, d, s.works[d].(phase := Done), Some(c));
  }

  lemma LifeStep(s: State, a: Action, c: nat, l: Life)
    requires Inv(s) && Enabled(s, a) && IsWork(s, c) && LifeOk(s, c, l)
    ensures Defined(s, a) && IsWork(Apply(s, a), c) && LifeOk(Apply(s, a), c, LifeAfter(s, a, c, l))
  {
    hide Inv;
    hide LifeOk;
    hide LifeAfter;
    hide Apply;
    hide Enabled;
    if a.Return? {
      ReturnStep(s, a.c, c, l);
    } else if MovesOn(a, c) {
      OwnStep(s, a, c, l);
    } else {
      OtherStep(s, a, c, l);
    }
  }

  lemma ReturnStep(s: State, d: nat, c: nat, l: Life)
    requires Inv(s) && Enabled(s, Return(d)) && IsWork(s, c) && LifeOk(s, c, l)
    ensures Defined(s, Return(d)) && IsWork(Apply(s, Return(d)), c)
    ensures LifeOk(Apply(s, Return(d)), c, LifeAfter(s, Return(d), c, l))
  {
    hide Inv;
    PhasesOf(s, Return(d), c);
    if s.works[d].parent == Some(c) && s.works[c].join == 1 {
      WokenOnlyAsleep(s, d, c);
    }
  }

  lemma OwnStep(s: State, a: Action, c: nat, l: Life)
    requires Inv(s) && Enabled(s, a) && IsWork(s, c) && LifeOk(s, c, l) && MovesOn(a, c) && !a.Return?
    ensures Defined(s, a) && IsWork(Apply(s, a), c) && LifeOk(Apply(s, a), c, LifeAfter(s, a, c, l))
  {
    hide Inv;
    PhasesOf(s, a, c);
  }

  lemma OtherStep(s: State, a: Action, c: nat, l: Life)
    requires Inv(s) && Enabled(s, a) && IsWork(s, c) && LifeOk(s, c, l) && !MovesOn(a, c) && !a.Return?
    ensures Defined(s, a) && IsWork(Apply(s, a), c) && LifeOk(Apply(s, a), c, LifeAfter(s, a, c, l))
  {
    hide Inv;
    PhasesOf(s, a, c);
  }

  lemma Birth(s: State, a: Action, c: nat, l: Life)
    requires Inv(s) && Enabled(s, a) && c == |s.works|
    ensures Defined(s, a)
    ensures IsWork(Apply(s, a), c) ==> LifeOk(Apply(s, a), c, LifeAfter(s, a, c, l))
  {
    StepInv(s, a);
    hide Inv;
  }

  lemma AddsOne(s: State, a: Action)
    requires Enabled(s, a) && Defined(s, a)
    ensures |s.works| <= |Apply(s, a).works| <= |s.works| + 1
  {
  }

  /**
   * In every run: what has happened to an activation says exactly in which phase it is. In particular it can be invoked
   * exactly when no predecessor is left to finish and its body was neither begun nor skipped, or when it was woken.
   */
  lemma {:induction false} PhaseIsHistory(run: seq<State>, acts: seq<Action>, i: nat, c: nat, plain: bool)
    requires IsRun(run, acts) && i < |run| && IsWork(run[i], c)
    ensures var l := Lived(run, acts, c, i);
      && PhaseFits(run[i].works[c], l) && InOrder(l)
      && (Enabled(run[i], Invoke(c, plain)) <==> (Ready(l) && !l.begun && !l.skipped) || (l.woken && !l.again))
  {
    LifeHolds(run, acts, i, c);
    hide Lived;
  }

  lemma {:induction false} LifeHolds(run: seq<State>, acts: seq<Action>, i: nat, c: nat)
    requires IsRun(run, acts) && i < |run| && IsWork(run[i], c)
    ensures LifeOk(run[i], c, Lived(run, acts, c, i))
  {
    hide LifeOk;
    hide Inv;
    hide Apply;
    hide Enabled;
    hide Defined;
    if i > 0 {
      RunInv(run, acts, i - 1);
      assert Step(run[i - 1], acts[i - 1], run[i]);
      if IsWork(run[i - 1], c) {
        LifeHolds(run, acts, i - 1, c);
        LifeStep(run[i - 1], acts[i - 1], c, Lived(run, acts, c, i - 1));
      } else {
        AddsOne(run[i - 1], acts[i - 1]);
        Birth(run[i - 1], acts[i - 1], c, Lived(run, acts, c, i - 1));
      }
    }
  }

  /** How far an activation is from its end. */
  function Left(x: Work): nat {
    match x.phase
    case Waiting => 7
    case Queued => if x.preempted then 3 else 6
    case Running(_) => 5
    case Suspended => 4
    case Finishing(_) => 2
    case Returning(_) => 1
    case Done => 0
  }

  /** No action takes an activation back, and each of its own brings its end nearer, as does the one that wakes it. */
  lemma LifeGoesOn(s: State, a: Action, c: nat)
    requires Inv(s) && Enabled(s, a) && IsWork(s, c)
    ensures Defined(s, a) && IsWork(Apply(s, a), c) && Left(Apply(s, a).works[c]) <= Left(s.works[c])
    ensures MovesOn(a, c) ==> Left(Apply(s, a).works[c]) < Left(s.works[c])
    ensures a.Return? && s.works[a.c].parent == Some(c) ==>
      (Left(Apply(s, a).works[c]) < Left(s.works[c]) <==> s.works[c].join == 1)
  {
    hide Inv;
    PhasesOf(s, a, c);
    if a.Return? && s.works[a.c].parent == Some(c) && s.works[c].join == 1 {
      WokenOnlyAsleep(s, a.c, c);
    }
  }

  /** An activation that has not ended, waits for no predecessor and for no child has an action of its own. */
  lemma LifeCanGoOn(s: State, c: nat)
    requires Inv(s) && IsWork(s, c) && !s.works[c].phase.Done?
    ensures var x := s.works[c];
      match x.phase
      case Waiting => Enabled(s, Dispatch(c))
      case Queued => forall plain :: Enabled(s, Invoke(c, plain))
      case Running(n) => Enabled(s, if n == 0 then EndBody(c) else PublishChild(c, false))
      case Suspended => x.join > 0 && exists d: nat :: IsWork(s, d) && s.works[d].parent == Some(c) && !s.works[d].phase.Done?
      case Finishing(n) =>
        Enabled(s, if n > 0 then PublishSibling(c) else if HasParent(x) then ReadParent(c) else Leave(c))
      case Returning(_) => Enabled(s, Return(c))
      case Done => false
  {
    assert WorkOk(s.works, c);
    if s.works[c].phase.Suspended? {
      SomebodyOut(s.works, Some(c));
    }
  }

  lemma {:induction false} SomebodyOut(works: seq<Work>, parent: Option<nat>)
    requires Slots(works, parent) > 0
    ensures exists d: nat :: d < |works| && works[d].parent == parent && !works[d].phase.Done?
  {
    var last := |works| - 1;
    if SlotsOf(works[last], parent) == 0 {
      SomebodyOut(works[..last], parent);
      var d: nat :| d < last && works[..last][d].parent == parent && !works[..last][d].phase.Done?;
      assert works[d] == works[..last][d];
    }
  }

  // ---------------------------------------------------------------------------------
  // Counters
  // ---------------------------------------------------------------------------------

  /** The slots of activation c's counter that an action takes, less those it gives back. */
  function SlotsMoved(s: State, a: Action, c: nat): int
    requires IsWork(s, c)
  {
    match a
    case Invoke(d, plain) => if d == c && !plain && !s.works[c].preempted then 1 else 0   // the baseline
    case AddSlots(d, n) => if d == c then n else 0
    case AddSiblings(d, n) => if IsWork(s, d) && s.works[d].parent == Some(c) then n else 0
    case EndBody(d) => if d == c then -1 else 0
    case Return(d) => if IsWork(s, d) && s.works[d].parent == Some(c) then -1 else 0
    case _ => 0
  }

  /** Activations that c has counted and not published yet. */
  function Pending(x: Work): nat { if x.phase.Running? || x.phase.Finishing? then x.phase.counted else 0 }

  function PendingMoved(a: Action, c: nat): int {
    match a
    case AddSlots(d, n) => if d == c then n else 0
    case AddSiblings(d, n) => if d == c then n else 0
    case PublishChild(d, _) => if d == c then -1 else 0
    case PublishSibling(d) => if d == c then -1 else 0
    case _ => 0
  }

  function TopologiesMoved(a: Action): int { if a.Announce? then 1 else if a.Leave? then -1 else 0 }

  /** Every action moves the counters by exactly what it takes and gives back. */
  lemma CountersMove(s: State, a: Action, c: nat)
    requires Inv(s) && Enabled(s, a) && IsWork(s, c)
    ensures Defined(s, a) && IsWork(Apply(s, a), c)
    ensures Apply(s, a).works[c].join == s.works[c].join + SlotsMoved(s, a, c)
    ensures Pending(Apply(s, a).works[c]) == Pending(s.works[c]) + PendingMoved(a, c)
    ensures Apply(s, a).topologies == s.topologies + TopologiesMoved(a)
  {
    PhasesOf(s, a, c);
    LocalParents(s, a);
    if a.Return? && s.works[a.c].parent == Some(c) && s.works[c].join == 1 {
      WokenOnlyAsleep(s, a.c, c);
    }
    hide Inv;
    hide Hosts;
    hide Untouched;
  }

  lemma LocalParents(s: State, a: Action)
    requires Inv(s) && Enabled(s, a)
    ensures a.AddSiblings? || a.Return? ==> s.works[a.c].parent.Some? && s.works[a.c].parent.value < a.c
  {
    if a.AddSiblings? || a.Return? { assert WorkOk(s.works, a.c); }
  }

  function SlotsSince(run: seq<State>, acts: seq<Action>, c: nat, i: nat): int
    requires |run| == |acts| + 1 && i < |run|
  {
    if i == 0 then 0
    else SlotsSince(run, acts, c, i - 1) + if IsWork(run[i - 1], c) then SlotsMoved(run[i - 1], acts[i - 1], c) else 0
  }

  function PendingSince(run: seq<State>, acts: seq<Action>, c: nat, i: nat): int
    requires |run| == |acts| + 1 && i < |run|
  {
    if i == 0 then 0
    else PendingSince(run, acts, c, i - 1) + if IsWork(run[i - 1], c) then PendingMoved(acts[i - 1], c) else 0
  }

  function TopologiesSince(acts: seq<Action>, i: nat): int
    requires i <= |acts|
  {
    if i == 0 then 0 else TopologiesSince(acts, i - 1) + TopologiesMoved(acts[i - 1])
  }

  /**
   * In every run: a counter is what was taken from it less what was given back, an activation has still to publish what
   * it has counted less what it has published, and the topologies are those announced less those that have left.
   */
  lemma {:induction false} CountersAreAccounted(run: seq<State>, acts: seq<Action>, i: nat, c: nat)
    requires IsRun(run, acts) && i < |run|
    ensures if IsWork(run[i], c)
      then run[i].works[c].join == SlotsSince(run, acts, c, i) && Pending(run[i].works[c]) == PendingSince(run, acts, c, i)
      else SlotsSince(run, acts, c, i) == 0 == PendingSince(run, acts, c, i)
    ensures run[i].topologies == TopologiesSince(acts, i)
  {
    hide Inv;
    hide Apply;
    hide Enabled;
    hide Defined;
    hide SlotsMoved;
    hide PendingMoved;
    hide Pending;
    if i > 0 {
      CountersAreAccounted(run, acts, i - 1, c);
      RunInv(run, acts, i - 1);
      assert Step(run[i - 1], acts[i - 1], run[i]);
      if IsWork(run[i - 1], c) {
        CountersMove(run[i - 1], acts[i - 1], c);
      } else {
        NotYet(run[i - 1], acts[i - 1], c);
      }
    }
  }

  lemma NotYet(s: State, a: Action, c: nat)
    requires Inv(s) && Enabled(s, a) && !IsWork(s, c)
    ensures Defined(s, a) && Apply(s, a).topologies == s.topologies + TopologiesMoved(a)
    ensures IsWork(Apply(s, a), c) ==> Apply(s, a).works[c].join == 0 && Pending(Apply(s, a).works[c]) == 0
  {
    StepInv(s, a);
    hide Inv;
  }

  // ---------------------------------------------------------------------------------
  // Births
  // ---------------------------------------------------------------------------------

  predicate GivesBirth(a: Action) { a.Submit? || a.PublishChild? || a.PublishSibling? || a.HandOver? }

  /** Whose child the new activation is. */
  function ParentOf(s: State, a: Action): Option<nat> {
    match a
    case PublishChild(c, _) => Some(c)
    case PublishSibling(c) => if IsWork(s, c) then s.works[c].parent else None
    case HandOver(c) => if IsWork(s, c) then s.works[c].parent else None
    case _ => None
  }

  function AnnouncedMoved(a: Action): int { if a.Announce? then 1 else if a.Submit? then -1 else 0 }

  /** Publishing adds one activation, with its parent; nobody ever changes parent, and nobody disappears. */
  lemma WorksGrow(s: State, a: Action, c: nat)
    requires Inv(s) && Enabled(s, a)
    ensures Defined(s, a) && |Apply(s, a).works| == |s.works| + if GivesBirth(a) then 1 else 0
    ensures GivesBirth(a) ==> Apply(s, a).works[|s.works|].parent == ParentOf(s, a)
    ensures IsWork(s, c) ==> Apply(s, a).works[c].parent == s.works[c].parent
    ensures Apply(s, a).announced == s.announced + AnnouncedMoved(a)
  {
    StepInv(s, a);
    hide Inv;
  }

  function Births(acts: seq<Action>, i: nat): nat
    requires i <= |acts|
  {
    if i == 0 then 0 else Births(acts, i - 1) + if GivesBirth(acts[i - 1]) then 1 else 0
  }

  function AnnouncedSince(acts: seq<Action>, i: nat): int
    requires i <= |acts|
  {
    if i == 0 then 0 else AnnouncedSince(acts, i - 1) + AnnouncedMoved(acts[i - 1])
  }

  /** In every run there are as many activations as were published, and as many announced tasks as were not submitted yet. */
  lemma {:induction false} BirthsAreCounted(run: seq<State>, acts: seq<Action>, i: nat)
    requires IsRun(run, acts) && i < |run|
    ensures |run[i].works| == Births(acts, i) && run[i].announced == AnnouncedSince(acts, i)
  {
    hide Inv;
    hide Apply;
    hide Enabled;
    hide Defined;
    if i > 0 {
      BirthsAreCounted(run, acts, i - 1);
      RunInv(run, acts, i - 1);
      assert Step(run[i - 1], acts[i - 1], run[i]);
      WorksGrow(run[i - 1], acts[i - 1], 0);
    }
  }
}
