// What the slots guarantee, in every run: structured concurrency of tasks and the children they launch.

module RuntimeTheorems {
  import opened Common
  import opened RuntimeProtocol

  // ---------------------------------------------------------------------------------
  // Counting slots
  // ---------------------------------------------------------------------------------

  lemma {:induction false} SlotsUpdate(works: seq<Work>, c: nat, x: Work, parent: Option<nat>)
    requires c < |works|
    ensures Slots(works[c := x], parent) + SlotsOf(works[c], parent) == Slots(works, parent) + SlotsOf(x, parent)
  {
    hide SlotsOf;
    var n := |works| - 1;
    var r := works[c := x];
    if c == n {
      assert r[..n] == works[..n];
    } else {
      assert r[..n] == works[..n][c := x];
      SlotsUpdate(works[..n], c, x, parent);
    }
  }

  lemma SlotsAppend(works: seq<Work>, z: Work, parent: Option<nat>)
    ensures Slots(works + [z], parent) == Slots(works, parent) + SlotsOf(z, parent)
  {
    hide SlotsOf;
    var r := works + [z];
    assert r[..|r| - 1] == works;
  }

  /** No slots are taken exactly if nobody holds one. */
  lemma {:induction false} NoSlots(works: seq<Work>, parent: Option<nat>)
    ensures Slots(works, parent) == 0 <==> forall c :: 0 <= c < |works| ==> SlotsOf(works[c], parent) == 0
  {
    hide SlotsOf;
    if works != [] {
      var n := |works| - 1;
      NoSlots(works[..n], parent);
      assert forall c :: 0 <= c < n ==> works[..n][c] == works[c];
      if Slots(works, parent) == 0 {
        forall c | 0 <= c < |works| ensures SlotsOf(works[c], parent) == 0 {
          if c < n { assert SlotsOf(works[..n][c], parent) == 0; }
        }
      }
    }
  }

  /** An activation that is yet to be created has no children. */
  lemma NewHasNoSlots(s: State, c: nat)
    requires Inv(s) && c >= |s.works|
    ensures Slots(s.works, Some(c)) == 0
  {
    hide Slots;
    forall v | 0 <= v < |s.works| ensures SlotsOf(s.works[v], Some(c)) == 0 { assert WorkOk(s.works, v); }
    NoSlots(s.works, Some(c));
  }

  /** A host whose counter is down to what it holds itself has no activation below it. */
  lemma NobodyBelow(works: seq<Work>, p: nat, c: nat)
    requires p < |works| && c < |works| && works[p].join == Own(works[p]) + Slots(works, Some(p))
    requires works[p].join == Own(works[p]) && works[c].parent == Some(p)
    ensures works[c].phase.Done?
  {
    NoSlots(works, Some(p));
    assert SlotsOf(works[c], Some(p)) == 0;
  }

  // ---------------------------------------------------------------------------------
  // Kinds of steps
  // ---------------------------------------------------------------------------------

  /** The counter of x moves with what x itself holds of it, and x still hosts its children, if it has any. */
  predicate KeepsChildren(x: Work, y: Work) {
    && y.join - Own(y) == x.join - Own(x)
    && (Hosts(x) ==> Hosts(y) || y.join == Own(y))
  }

  /** One activation changes; without a parent it may give up its slot of the executor. */
  lemma ChangeOne(s: State, c: nat, y: Work, topologies: nat)
    requires Inv(s) && IsWork(s, c) && y.parent == s.works[c].parent
    requires KeepsChildren(s.works[c], y) && LocalOk(y, c)
    requires y.parent.Some? ==> SlotsOf(y, y.parent) == SlotsOf(s.works[c], y.parent) > 0
    requires topologies - s.topologies == SlotsOf(y, None) - SlotsOf(s.works[c], None)
    ensures Inv(Set(s, c, y).(topologies := topologies))
  {
    hide Slots;
    hide LocalOk;
    var works := s.works[c := y];
    forall v | 0 <= v < |works| ensures WorkOk(works, v) {
      assert WorkOk(s.works, v) && WorkOk(s.works, c);
      LocalParent(s.works, c);
      LocalParent(s.works, v);
      SlotsUpdate(s.works, c, y, Some(v));
      if works[v].parent == Some(c) && !works[v].phase.Done? {
        if y.join == Own(y) { NobodyBelow(s.works, c, v); }
      }
    }
    SlotsUpdate(s.works, c, y, None);
  }

  lemma LocalParent(works: seq<Work>, v: nat)
    requires v < |works| && WorkOk(works, v)
    ensures works[v].parent.Some? ==> works[v].parent.value < v
  {
  }

  /** An activation and its parent change together: what one takes or returns the other counts. */
  lemma ChangeTwo(s: State, c: nat, y: Work, p: nat, q: Work)
    requires Inv(s) && IsWork(s, c) && s.works[c].parent == Some(p) && p < c
    requires y.parent == s.works[c].parent && q.parent == s.works[p].parent
    requires KeepsChildren(s.works[c], y) && LocalOk(y, c) && LocalOk(q, p)
    requires SlotsOf(y, Some(p)) - SlotsOf(s.works[c], Some(p)) == (q.join - Own(q)) - (s.works[p].join - Own(s.works[p]))
    requires Hosts(q) || (q.join == Own(q) && y.phase.Done?)
    requires !q.phase.Done? && !s.works[p].phase.Done? && SlotsOf(q, q.parent) == SlotsOf(s.works[p], q.parent)
    requires !s.works[c].phase.Done?
    ensures Inv(Set(Set(s, c, y), p, q))
  {
    hide Slots;
    hide LocalOk;
    var half := s.works[c := y];
    var works := half[p := q];
    forall v | 0 <= v < |works| ensures WorkOk(works, v) {
      assert WorkOk(s.works, v) && WorkOk(s.works, c) && WorkOk(s.works, p);
      LocalParent(s.works, c);
      LocalParent(s.works, p);
      LocalParent(s.works, v);
      SlotsUpdate(s.works, c, y, Some(v));
      SlotsUpdate(half, p, q, Some(v));
      if works[v].parent == Some(c) && !works[v].phase.Done? {
        if y.join == Own(y) { NobodyBelow(s.works, c, v); }
      }
      if works[v].parent == Some(p) && !works[v].phase.Done? && !Hosts(q) {
        SlotsUpdate(s.works, c, y, Some(p));
        SlotsUpdate(half, p, q, Some(p));
        NobodyBelow(works, p, v);
      }
    }
    SlotsUpdate(s.works, c, y, None);
    SlotsUpdate(half, p, q, None);
  }

  /** A new activation, for which its parent, or a sibling, or the executor has counted a slot. */
  lemma AppendOne(s: State, c: nat, y: Work, z: Work)
    requires Inv(s) && IsWork(s, c) && y.parent == s.works[c].parent && LocalOk(y, c)
    requires z.parent.Some? && z.parent.value < |s.works| && LocalOk(z, |s.works|) && SlotsOf(z, z.parent) == 1 && z.join == Own(z)
    requires Hosts(s.works[z.parent.value]) && (Hosts(s.works[c]) ==> Hosts(y))
    requires if z.parent == Some(c) then
        y.join == s.works[c].join && Own(y) == Own(s.works[c]) - 1 && SlotsOf(y, y.parent) == SlotsOf(s.works[c], y.parent)
      else
        z.parent == y.parent && KeepsChildren(s.works[c], y) && SlotsOf(y, y.parent) == SlotsOf(s.works[c], y.parent) - 1
    requires !s.works[c].phase.Done?
    ensures Inv(Set(s, c, y).(works := s.works[c := y] + [z]))
  {
    hide Slots;
    hide LocalOk;
    var half := s.works[c := y];
    var works := half + [z];
    var n := |s.works|;
    assert forall v :: 0 <= v < n ==> WorkOk(s.works, v);
    forall v | 0 <= v < n ensures WorkOk(works, v) {
      assert WorkOk(s.works, v) && WorkOk(s.works, c);
      LocalParent(s.works, c);
      LocalParent(s.works, v);
      SlotsUpdate(s.works, c, y, Some(v));
      SlotsAppend(half, z, Some(v));
    }
    NewHasNoSlots(s, n);
    LocalParent(s.works, c);
    SlotsUpdate(s.works, c, y, Some(n));
    SlotsAppend(half, z, Some(n));
    assert WorkOk(works, n);
    SlotsUpdate(s.works, c, y, None);
    SlotsAppend(half, z, None);
  }

  // ---------------------------------------------------------------------------------
  // Actions
  // ---------------------------------------------------------------------------------

  lemma SubmitInv(s: State, waits: bool)
    requires Inv(s) && s.announced > 0
    ensures Inv(Apply(s, Submit(waits)))
  {
    hide Slots;
    var z := NewWork(None, waits);
    var works := s.works + [z];
    var n := |s.works|;
    assert forall v :: 0 <= v < n ==> WorkOk(s.works, v);
    forall v | 0 <= v < n ensures WorkOk(works, v) {
      assert WorkOk(s.works, v);
      SlotsAppend(s.works, z, Some(v));
    }
    NewHasNoSlots(s, n);
    SlotsAppend(s.works, z, Some(n));
    SlotsAppend(s.works, z, None);
  }

  lemma DispatchInv(s: State, c: nat)
    requires Inv(s) && Enabled(s, Dispatch(c))
    ensures Inv(Apply(s, Dispatch(c)))
  {
    hide Slots;
    assert WorkOk(s.works, c);
    ChangeOne(s, c, s.works[c].(phase := Queued), s.topologies);
  }

  lemma InvokeInv(s: State, c: nat, plain: bool)
    requires Inv(s) && Enabled(s, Invoke(c, plain))
    ensures Inv(Apply(s, Invoke(c, plain)))
  {
    hide Slots;
    assert WorkOk(s.works, c);
    InvokedOk(s.works[c], c, plain);
    hide Invoked;
    hide SlotsOf;
    hide LocalOk;
    hide KeepsChildren;
    ChangeOne(s, c, Invoked(s.works[c], plain), s.topologies);
  }

  lemma InvokedOk(x: Work, c: nat, plain: bool)
    requires LocalOk(x, c) && x.phase.Queued?
    ensures var y := Invoked(x, plain);
      && y.parent == x.parent && KeepsChildren(x, y) && LocalOk(y, c) && SlotsOf(y, None) == SlotsOf(x, None)
      && (y.parent.Some? ==> SlotsOf(y, y.parent) == SlotsOf(x, y.parent) > 0)
  {
    if x.preempted {
    } else if plain {
    } else {
    }
  }

  lemma AddSlotsInv(s: State, c: nat, n: nat)
    requires Inv(s) && Enabled(s, AddSlots(c, n))
    ensures Inv(Apply(s, AddSlots(c, n)))
  {
    hide Slots;
    assert WorkOk(s.works, c);
    ChangeOne(s, c, s.works[c].(phase := Running(n), join := s.works[c].join + n), s.topologies);
  }

  lemma EndBodyInv(s: State, c: nat)
    requires Inv(s) && Enabled(s, EndBody(c))
    ensures Defined(s, EndBody(c)) && Inv(Apply(s, EndBody(c)))
  {
    hide Slots;
    assert WorkOk(s.works, c);
    ChangeOne(s, c, Ended(s.works[c]), s.topologies);
  }

  lemma ReadParentInv(s: State, a: Action)
    requires Inv(s) && Enabled(s, a) && (a.ReadParent? || a.Skip?)
    ensures Defined(s, a) && Inv(Apply(s, a))
  {
    hide Slots;
    assert WorkOk(s.works, a.c);
    ChangeOne(s, a.c, Apply(s, a).works[a.c], s.topologies);
  }

  lemma LeaveInv(s: State, c: nat)
    requires Inv(s) && Enabled(s, Leave(c))
    ensures Defined(s, Leave(c)) && Inv(Apply(s, Leave(c)))
  {
    hide Slots;
    assert WorkOk(s.works, c);
    NoSlots(s.works, None);
    assert SlotsOf(s.works[c], None) == 1;
    ChangeOne(s, c, Apply(s, Leave(c)).works[c], s.topologies - 1);
  }

  lemma AddSiblingsInv(s: State, c: nat, n: nat)
    requires Inv(s) && Enabled(s, AddSiblings(c, n))
    ensures Defined(s, AddSiblings(c, n)) && Inv(Apply(s, AddSiblings(c, n)))
  {
    hide Slots;
    var p := s.works[c].parent.value;
    assert WorkOk(s.works, c) && WorkOk(s.works, p);
    ChangeTwo(s, c, s.works[c].(phase := Finishing(n)), p, s.works[p].(join := s.works[p].join + n));
  }

  /**
   * A slot is returned to a parent that still exists and still has the flag that was read before; if it is the last
   * slot, the parent's body has ended and nobody has resumed it yet.
   */
  lemma ReturnIsSafe(s: State, c: nat)
    requires Inv(s) && Enabled(s, Return(c))
    ensures Defined(s, Return(c))
    ensures var p := s.works[s.works[c].parent.value];
      && p.alive && p.preempted == s.works[c].phase.resumes == true && p.finishes == p.wakes == 0
      && (p.join == 1 ==> p.phase.Suspended?)
  {
    hide Slots;
    assert WorkOk(s.works, c);
    var p := s.works[c].parent.value;
    assert WorkOk(s.works, p);
    NoSlots(s.works, Some(p));
    assert SlotsOf(s.works[c], Some(p)) == 1;
  }

  lemma ReturnInv(s: State, c: nat)
    requires Inv(s) && Enabled(s, Return(c))
    ensures Defined(s, Return(c)) && Inv(Apply(s, Return(c)))
  {
    hide Slots;
    ReturnIsSafe(s, c);
    var p := s.works[c].parent.value;
    assert WorkOk(s.works, c) && WorkOk(s.works, p);
    ChangeTwo(s, c, s.works[c].(phase := Done), p, SlotReturned(s.works[p], true));
  }

  lemma PublishInv(s: State, a: Action)
    requires Inv(s) && Enabled(s, a) && (a.PublishChild? || a.PublishSibling? || a.HandOver?)
    ensures Defined(s, a) && Inv(Apply(s, a))
  {
    hide Slots;
    assert WorkOk(s.works, a.c);
    var s' := Apply(s, a);
    AppendOne(s, a.c, s'.works[a.c], s'.works[|s.works|]);
  }

  lemma StepInv(s: State, a: Action)
    requires Inv(s) && Enabled(s, a)
    ensures Defined(s, a) && Inv(Apply(s, a))
  {
    hide Inv;
    match a
    case Announce => AnnounceInv(s);
    case Submit(waits) => SubmitInv(s, waits);
    case EndBody(c) => EndBodyInv(s, c);
    case AddSiblings(c, n) => AddSiblingsInv(s, c, n);
    case ReadParent(_) => ReadParentInv(s, a);
    case Skip(_) => ReadParentInv(s, a);
    case Return(c) => ReturnInv(s, c);
    case Leave(c) => LeaveInv(s, c);
    case PublishChild(_, _) => PublishInv(s, a);
    case PublishSibling(_) => PublishInv(s, a);
    case HandOver(_) => PublishInv(s, a);
    case Dispatch(c) => DispatchInv(s, c);
    case Invoke(c, plain) => InvokeInv(s, c, plain);
    case AddSlots(c, n) => AddSlotsInv(s, c, n);
  }

  lemma AnnounceInv(s: State)
    requires Inv(s)
    ensures Inv(Apply(s, Announce))
  {
  }

  lemma InitInv()
    ensures Inv(InitState())
  {
  }

  ghost predicate IsRun(run: seq<State>, acts: seq<Action>) {
    && |run| == |acts| + 1
    && run[0] == InitState()
    && forall i :: 0 <= i < |acts| ==> Step(run[i], acts[i], run[i + 1])
  }

  lemma {:induction false} RunInv(run: seq<State>, acts: seq<Action>, i: nat)
    requires IsRun(run, acts) && i < |run|
    ensures Inv(run[i])
  {
    if i > 0 {
      RunInv(run, acts, i - 1);
      assert Step(run[i - 1], acts[i - 1], run[i]);
      hide Inv;
      StepInv(run[i - 1], acts[i - 1]);
    }
  }

  // ---------------------------------------------------------------------------------
  // Theorems
  // ---------------------------------------------------------------------------------

  /** path[1] was launched on behalf of path[0], path[2] on behalf of path[1], and so on. */
  ghost predicate IsPath(s: State, path: seq<nat>) {
    && path != [] && (forall i :: 0 <= i < |path| ==> IsWork(s, path[i]))
    && forall i :: 0 <= i < |path| - 1 ==> s.works[path[i + 1]].parent == Some(path[i])
  }

  predicate IsDone(s: State, c: nat) { IsWork(s, c) && s.works[c].phase.Done? }

  /** Below a task that has not begun, or has left its body and all waiting, nothing is left to be done. */
  lemma {:induction false} NothingBelow(s: State, path: seq<nat>)
    requires Inv(s) && IsPath(s, path) && !s.works[path[0]].phase.Running? && !s.works[path[0]].phase.Suspended?
    ensures forall i :: 0 < i < |path| ==> IsDone(s, path[i])
  {
    hide Slots;
    if |path| > 1 {
      var rest := path[1..];
      assert s.works[path[1]].parent == Some(path[0]);
      assert WorkOk(s.works, path[1]);
      assert IsPath(s, rest) by {
        forall i | 0 <= i < |rest| - 1 ensures s.works[rest[i + 1]].parent == Some(rest[i]) {
          assert s.works[path[i + 1 + 1]].parent == Some(path[i + 1]);
        }
      }
      NothingBelow(s, rest);
      forall i | 0 < i < |path| ensures IsDone(s, path[i]) {
        if i > 1 { assert path[i] == rest[i - 1]; }
      }
    }
  }

  /**
   * The body runs at most once, the tear-down is entered at most once and only after the body, and a task that is
   * in its tear-down or done has nothing below it, at any depth, that is not done.
   */
  lemma FinishedOnceAndLast(run: seq<State>, acts: seq<Action>, i: nat, path: seq<nat>)
    requires IsRun(run, acts) && i < |run| && IsPath(run[i], path)
    ensures var s := run[i]; var x := s.works[path[0]];
      && x.bodies <= 1 && x.wakes <= 1 && x.finishes <= x.bodies
      && (x.finishes == 1 || x.phase.Done? ==> forall k :: 0 < k < |path| ==> IsDone(s, path[k]))
      && (x.phase.Done? ==> x.finishes == x.bodies && !x.alive)
  {
    RunInv(run, acts, i);
    var s := run[i];
    assert WorkOk(s.works, path[0]);
    if s.works[path[0]].finishes == 1 || s.works[path[0]].phase.Done? { NothingBelow(s, path); }
  }

  /** wait() sees a counter of 1 exactly when every child is done, and then everything below them is done too. */
  lemma WaitMeansChildrenDone(run: seq<State>, acts: seq<Action>, i: nat, p: nat)
    requires IsRun(run, acts) && i < |run| && IsWork(run[i], p) && run[i].works[p].phase == Running(0)
    ensures var s := run[i];
      && (s.works[p].join == 1 <==> forall c: nat :: IsWork(s, c) && s.works[c].parent == Some(p) ==> IsDone(s, c))
      && (s.works[p].join == 1 ==>
            forall path: seq<nat> :: IsPath(s, path) && path[0] == p ==> forall k :: 0 < k < |path| ==> IsDone(s, path[k]))
  {
    RunInv(run, acts, i);
    var s := run[i];
    CounterShowsChildren(s, p);
    if s.works[p].join == 1 {
      forall path: seq<nat> | IsPath(s, path) && path[0] == p ensures forall k :: 0 < k < |path| ==> IsDone(s, path[k]) {
        BelowDone(s, path);
      }
    }
  }

  lemma CounterShowsChildren(s: State, p: nat)
    requires Inv(s) && IsWork(s, p) && s.works[p].phase == Running(0)
    ensures s.works[p].join == 1 <==> forall c: nat :: IsWork(s, c) && s.works[c].parent == Some(p) ==> IsDone(s, c)
  {
    assert WorkOk(s.works, p);
    NoSlots(s.works, Some(p));
    if s.works[p].join == 1 {
      forall c: nat | IsWork(s, c) && s.works[c].parent == Some(p) ensures IsDone(s, c) {
        assert SlotsOf(s.works[c], Some(p)) == 0;
      }
    } else if forall c: nat :: IsWork(s, c) && s.works[c].parent == Some(p) ==> IsDone(s, c) {
      forall c | 0 <= c < |s.works| ensures SlotsOf(s.works[c], Some(p)) == 0 {
        if s.works[c].parent == Some(p) { assert IsDone(s, c); }
      }
    }
  }

  lemma BelowDone(s: State, path: seq<nat>)
    requires Inv(s) && IsPath(s, path)
    requires forall c: nat :: IsWork(s, c) && s.works[c].parent == Some(path[0]) ==> IsDone(s, c)
    ensures forall k :: 0 < k < |path| ==> IsDone(s, path[k])
  {
    if |path| > 1 {
      var rest := path[1..];
      assert s.works[path[0 + 1]].parent == Some(path[0]);
      assert IsPath(s, rest) by {
        forall i | 0 <= i < |rest| - 1 ensures s.works[rest[i + 1]].parent == Some(rest[i]) {
          assert s.works[path[i + 1 + 1]].parent == Some(path[i + 1]);
        }
      }
      assert IsDone(s, rest[0]);
      NothingBelow(s, rest);
      forall k | 0 < k < |path| ensures IsDone(s, path[k]) {
        if k > 1 { assert path[k] == rest[k - 1]; }
      }
    }
  }

  /** wait_for_all() sees no topologies exactly when nothing is being submitted and every activation is done. */
  lemma WaitForAllMeansAllDone(run: seq<State>, acts: seq<Action>, i: nat)
    requires IsRun(run, acts) && i < |run|
    ensures var s := run[i];
      s.topologies == 0 <==> s.announced == 0 && forall c: nat :: IsWork(s, c) ==> IsDone(s, c)
  {
    RunInv(run, acts, i);
    TopologiesShowAll(run[i]);
  }

  lemma TopologiesShowAll(s: State)
    requires Inv(s)
    ensures s.topologies == 0 <==> s.announced == 0 && forall c: nat :: IsWork(s, c) ==> IsDone(s, c)
  {
    NoSlots(s.works, None);
    if s.topologies == 0 {
      forall c: nat | IsWork(s, c) ensures IsDone(s, c) { RootsDone(s, c); }
    } else if s.announced == 0 && forall c: nat :: IsWork(s, c) ==> IsDone(s, c) {
      forall c | 0 <= c < |s.works| ensures SlotsOf(s.works[c], None) == 0 { assert IsDone(s, c); }
    }
  }

  lemma {:induction false} RootsDone(s: State, c: nat)
    requires Inv(s) && IsWork(s, c) && Slots(s.works, None) == 0
    ensures IsDone(s, c)
  {
    hide Slots;
    assert WorkOk(s.works, c);
    NoSlots(s.works, None);
    if s.works[c].parent.Some? {
      RootsDone(s, s.works[c].parent.value);
    } else {
      assert SlotsOf(s.works[c], None) == 0;
    }
  }

  /** Nothing is ready, running or on its way out. */
  ghost predicate Quiet(s: State) {
    s.announced == 0 && forall c :: 0 <= c < |s.works| ==> s.works[c].phase.Suspended? || s.works[c].phase.Done?
  }

  /** Nobody is left suspended: an activation that is out has one below it that is not suspended. */
  lemma {:induction false} NobodySuspended(s: State, c: nat)
    requires Inv(s) && Quiet(s) && IsWork(s, c)
    ensures s.works[c].phase.Done?
    decreases |s.works| - c
  {
    hide Slots;
    if !s.works[c].phase.Done? {
      assert WorkOk(s.works, c);
      NoSlots(s.works, Some(c));
      var d :| 0 <= d < |s.works| && SlotsOf(s.works[d], Some(c)) != 0;
      assert WorkOk(s.works, d);
      NobodySuspended(s, d);
    }
  }

  /** When nothing is ready, running or on its way out, everything is done, and wait_for_all() returns. */
  lemma QuietMeansAllDone(run: seq<State>, acts: seq<Action>, i: nat)
    requires IsRun(run, acts) && i < |run| && Quiet(run[i])
    ensures run[i].topologies == 0 && forall c: nat :: IsWork(run[i], c) ==> IsDone(run[i], c)
  {
    RunInv(run, acts, i);
    forall c: nat | IsWork(run[i], c) ensures IsDone(run[i], c) { NobodySuspended(run[i], c); }
    WaitForAllMeansAllDone(run, acts, i);
  }

  /** The counter of every activation is exactly the slots taken of it. */
  lemma SlotsAreCounted(run: seq<State>, acts: seq<Action>, i: nat, c: nat)
    requires IsRun(run, acts) && i < |run| && IsWork(run[i], c)
    ensures var s := run[i];
      && s.works[c].join == Own(s.works[c]) + Slots(s.works, Some(c))
      && s.topologies == s.announced + Slots(s.works, None)
      && (s.works[c].parent.Some? && !s.works[c].phase.Done? ==>
            s.works[c].parent.value < c && Hosts(s.works[s.works[c].parent.value]))
  {
    RunInv(run, acts, i);
    assert WorkOk(run[i].works, c);
  }
}
