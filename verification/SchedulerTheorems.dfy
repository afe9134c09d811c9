// No wakeup is lost: every action of the scheduler keeps the invariant, in every run.

module SchedulerTheorems {
  import opened Common
  import N = NotifierProtocol
  import NI = NotifierInvariant
  import NT = NotifierTheorems
  import opened Scheduler

  /** What an action of the event count does to the parts the scheduler looks at. */
  ghost predicate Effect(n: N.State, a: N.Action, n': N.State) {
    && N.Inv(n') && |n'.pc| == |n.pc| && |n'.nc| == |n.nc|
    && (IsNotify(a) ==> n'.pc == n.pc && forall k :: 0 <= k < |n.nc| && k != a.k ==> n'.nc[k] == n.nc[k])
    && (IsCommit(a) || IsCancel(a) || a.Prepare? ==>
          n'.nc == n.nc && forall v :: 0 <= v < |n.pc| && v != a.w ==> n'.pc[v] == n.pc[v])
    && (forall v :: 0 <= v < |n.pc| && a != N.Prepare(v) && NT.Blocked(n', v) ==> NT.Blocked(n, v))
  }

  lemma EffectOnThreads(n: N.State, a: N.Action)
    requires N.Inv(n) && N.Enabled(n, a) && N.Defined(n, a)
    ensures var n' := N.Apply(n, a);
      && |n'.pc| == |n.pc| && |n'.nc| == |n.nc|
      && (IsNotify(a) ==> n'.pc == n.pc && forall k :: 0 <= k < |n.nc| && k != a.k ==> n'.nc[k] == n.nc[k])
      && (IsCommit(a) || IsCancel(a) || a.Prepare? ==>
            n'.nc == n.nc && forall v :: 0 <= v < |n.pc| && v != a.w ==> n'.pc[v] == n.pc[v])
  {
    hide N.Inv;
  }

  lemma NotifierEffect(n: N.State, a: N.Action)
    requires N.Inv(n) && N.Enabled(n, a) && N.Defined(n, a)
    ensures Effect(n, a, N.Apply(n, a))
  {
    hide N.Inv;
    hide N.Apply;
    NI.StepInv(n, a);
    EffectOnThreads(n, a);
    var n' := N.Apply(n, a);
    assert N.Step(n, a, n');
    forall v | 0 <= v < |n.pc| && a != N.Prepare(v) ensures NT.Blocked(n', v) ==> NT.Blocked(n, v) {
      ShapeOf(n);
      NT.BlockedOnlyByPrepare(n, a, n', v);
    }
  }

  /** Where the acting waiter itself ends up. */
  lemma WaiterPcAfter(n: N.State, a: N.Action)
    requires N.Inv(n) && N.Enabled(n, a) && N.Defined(n, a)
    requires a.Prepare? || IsCommit(a) || IsCancel(a)
    ensures a.w < |N.Apply(n, a).pc|
    ensures a.Prepare? ==> N.Apply(n, a).pc[a.w].Prepared?
    ensures IsCancel(a) ==> N.Apply(n, a).pc[a.w].Out? || N.Apply(n, a).pc[a.w].Cancelling?
    ensures IsCommit(a) ==> !N.Apply(n, a).pc[a.w].Cancelling?
  {
    hide N.Inv;
  }

  /** A notify_all call stays one. */
  lemma NotifyAllStays(n: N.State, a: N.Action, k: nat)
    requires N.Enabled(n, a) && N.Defined(n, a) && IsNotify(a) && k < |n.nc| && InNotifyAll(n.nc[k])
    requires a.k == k && a.NotifyLoad? ==> a.req.All?
    ensures k < |N.Apply(n, a).nc| && InNotifyAll(N.Apply(n, a).nc[k])
  {
  }

  lemma ShapeOf(n: N.State)
    requires N.Inv(n)
    ensures N.Shape(n)
  {
  }

  /** Blocked threads are inside the protocol. */
  lemma BlockedIsInside(n: N.State, v: nat)
    requires N.Inv(n) && v < |n.pc| && NT.Blocked(n, v)
    ensures !n.pc[v].Out?
  {
    assert N.WaiterOk(n, v);
    NI.QueuedIffAhead(n, v);
  }

  /** A worker that runs or explores is not blocked. */
  lemma RunnerNotBlocked(s: State, v: nat)
    requires Inv(s) && v < |s.pc| && (s.pc[v].Running? || s.pc[v].Exploring?)
    ensures !NT.Blocked(s.n, v)
  {
    assert PcMatches(s, v);
    if NT.Blocked(s.n, v) { BlockedIsInside(s.n, v); }
  }

  lemma PublishAction(s: State, a: Action)
    requires Inv(s) && Enabled(s, a) && a.Publish?
    ensures Inv(Apply(s, a))
  {
    hide N.Inv;
    var s' := Apply(s, a);
    forall q, x | 0 <= q < |s'.queues| && x in s'.queues[q] ensures ItemOk(s', q, x) {
      if x == a.x {
        assert x in s'.owed[a.k];
        assert x !in s.asleep;
      } else {
        assert x in s.queues[q] && ItemOk(s, q, x);
        if Owes(s, x) { var k :| 0 <= k < |s.owed| && x in s.owed[k]; assert x in s'.owed[k]; }
      }
    }
    forall q, x, v | 0 <= q < |s'.queues| && x in s'.queues[q] && 0 <= v < |s'.pc| ensures SightOk(s', q, x, v) {
      if x == a.x { assert x !in s.asleep; } else { assert x in s.queues[q] && SightOk(s, q, x, v); }
    }
    forall v | 0 <= v < |s'.pc| ensures PcMatches(s', v) && DrainOk(s', v) && ReserveOk(s', v) {
      assert PcMatches(s, v) && DrainOk(s, v) && ReserveOk(s, v);
    }
    forall k | 0 <= k < |s'.owed| ensures OwedOk(s', k) { assert OwedOk(s, k); }
  }

  lemma ClaimAction(s: State, a: Action)
    requires Inv(s) && Enabled(s, a) && a.Claim?
    ensures Inv(Apply(s, a))
  {
    ClaimItems(s, a);
    ClaimPlaces(s, a);
    hide N.Inv;
    hide ItemOk;
    hide SightOk;
    hide PcMatches;
    hide DrainOk;
    hide ReserveOk;
    var s' := Apply(s, a);
    forall k | 0 <= k < |s'.owed| ensures OwedOk(s', k) { assert OwedOk(s, k); }
  }

  lemma ClaimItems(s: State, a: Action)
    requires Inv(s) && Enabled(s, a) && a.Claim?
    ensures var s' := Apply(s, a);
      && Shape(s')
      && (forall q, x :: 0 <= q < |s'.queues| && x in s'.queues[q] ==> ItemOk(s', q, x))
      && (forall q, x, v :: 0 <= q < |s'.queues| && x in s'.queues[q] && 0 <= v < |s'.pc| ==> SightOk(s', q, x, v))
  {
    RunnerNotBlocked(s, a.v);
    hide N.Inv;
    hide PcMatches;
    hide DrainOk;
    hide OwedOk;
    var s' := Apply(s, a);
    forall q, x | 0 <= q < |s'.queues| && x in s'.queues[q] ensures ItemOk(s', q, x) {
      assert x in s.queues[q] && ItemOk(s, q, x);
      if Owes(s, x) { var k :| 0 <= k < |s.owed| && x in s.owed[k]; assert x in s'.owed[k]; }
    }
    forall q, x, v | 0 <= q < |s'.queues| && x in s'.queues[q] && 0 <= v < |s'.pc| ensures SightOk(s', q, x, v) {
      assert x in s.queues[q] && SightOk(s, q, x, v);
    }
  }

  lemma ClaimPlaces(s: State, a: Action)
    requires Inv(s) && Enabled(s, a) && a.Claim?
    ensures var s' := Apply(s, a);
      && Shape(s')
      && forall v :: 0 <= v < |s'.pc| ==> PcMatches(s', v) && DrainOk(s', v) && ReserveOk(s', v)
  {
    RunnerNotBlocked(s, a.v);
    hide N.Inv;
    hide ItemOk;
    hide SightOk;
    hide OwedOk;
    var s' := Apply(s, a);
    forall v | 0 <= v < |s'.pc| ensures PcMatches(s', v) && DrainOk(s', v) && ReserveOk(s', v) {
      assert PcMatches(s, v) && DrainOk(s, v) && ReserveOk(s, v);
    }
  }

  /** Item facts survive as long as queues, debts and the record of sleepers stay. */
  lemma ItemFrame(s: State, s': State)
    requires Inv(s) && Shape(s') && |s'.pc| == |s.pc|
    requires s'.queues == s.queues && s'.owed == s.owed && s'.seen == s.seen
    requires forall x :: x in s'.asleep <==> x in s.asleep
    requires forall x :: x in s.asleep ==> s'.asleep[x] <= s.asleep[x]
    ensures forall q, x :: 0 <= q < |s'.queues| && x in s'.queues[q] ==> ItemOk(s', q, x)
  {
    hide N.Inv;
    forall q, x | 0 <= q < |s'.queues| && x in s'.queues[q] ensures ItemOk(s', q, x) {
      assert ItemOk(s, q, x);
      if Owes(s, x) { var k :| 0 <= k < |s.owed| && x in s.owed[k]; assert x in s'.owed[k]; }
      if x in s.asleep { var u :| 0 <= u < |s.pc| && u !in s.asleep[x]; assert u !in s'.asleep[x]; }
    }
  }

  /** Worker u moves on; queues, reservations and the event count stay. */
  lemma LocalFrame(s: State, s': State, u: nat)
    requires Inv(s) && Shape(s') && u < |s.pc| == |s'.pc| && s' == s.(pc := s.pc[u := s'.pc[u]])
    requires PcMatches(s', u) && DrainOk(s', u) && ReserveOk(s', u)
    requires forall q, x :: 0 <= q < |s.queues| && x in s.queues[q] ==> SightOk(s', q, x, u)
    ensures Inv(s')
  {
    hide N.Inv;
    ItemFrame(s, s');
    hide ItemOk;
    forall q, x, v | 0 <= q < |s'.queues| && x in s'.queues[q] && 0 <= v < |s'.pc| ensures SightOk(s', q, x, v) {
      assert SightOk(s, q, x, v);
    }
    forall v | 0 <= v < |s'.pc| ensures PcMatches(s', v) && DrainOk(s', v) && ReserveOk(s', v) {
      assert PcMatches(s, v) && DrainOk(s, v) && ReserveOk(s, v);
    }
    forall k | 0 <= k < |s'.owed| ensures OwedOk(s', k) { assert OwedOk(s, k); }
  }

  lemma LocalAction(s: State, a: Action)
    requires Inv(s) && Enabled(s, a) && (a.Drained? || a.Leave?)
    ensures Inv(Apply(s, a))
  {
    RunnerNotBlocked(s, a.v);
    assert PcMatches(s, a.v) && ReserveOk(s, a.v);
    hide N.Inv;
    LocalFrame(s, Apply(s, a), a.v);
  }

  lemma ReserveAction(s: State, v: nat, x: nat)
    requires Inv(s) && Enabled(s, Reserve(v, x))
    ensures Inv(Apply(s, Reserve(v, x)))
  {
    hide N.Inv;
    var s' := Apply(s, Reserve(v, x));
    ItemFrame(s, s');
    hide ItemOk;
    forall q, y, u | 0 <= q < |s'.queues| && y in s'.queues[q] && 0 <= u < |s'.pc| ensures SightOk(s', q, y, u) {
      assert SightOk(s, q, y, u);
    }
    forall u | 0 <= u < |s'.pc| ensures PcMatches(s', u) && DrainOk(s', u) && ReserveOk(s', u) {
      assert PcMatches(s, u) && DrainOk(s, u) && ReserveOk(s, u);
    }
    forall k | 0 <= k < |s'.owed| ensures OwedOk(s', k) { assert OwedOk(s, k); }
  }

  lemma RescanWorker(s: State, u: nat)
    requires Inv(s) && Enabled(s, Rescan(u))
    ensures var s' := DoRescan(s, u); Shape(s') && PcMatches(s', u) && DrainOk(s', u) && ReserveOk(s', u)
  {
    assert PcMatches(s, u) && ReserveOk(s, u) && DrainOk(s, u) && StopOk(s);
    hide N.Inv;
    hide ItemOk;
    hide SightOk;
  }

  /** What an item says of a worker still holds when that worker begins its next look, or ends its round. */
  lemma RescanSight(s: State, u: nat, q: nat, x: nat)
    requires Inv(s) && Enabled(s, Rescan(u)) && q < |s.queues| && x in s.queues[q]
    ensures Shape(DoRescan(s, u)) && SightOk(DoRescan(s, u), q, x, u)
  {
    assert PcMatches(s, u) && DrainOk(s, u) && StopOk(s) && SightOk(s, q, x, u);
    hide Inv;
    hide ItemOk;
    hide OwedOk;
    hide N.Inv;
    hide N.Enabled;
    hide N.Defined;
    hide N.Apply;
  }

  lemma RescanAction(s: State, u: nat)
    requires Inv(s) && Enabled(s, Rescan(u))
    ensures Inv(DoRescan(s, u))
  {
    hide N.Inv;
    RescanWorker(s, u);
    var s' := DoRescan(s, u);
    forall q, x | 0 <= q < |s.queues| && x in s.queues[q] ensures SightOk(s', q, x, u) { RescanSight(s, u, q, x); }
    hide SightOk;
    LocalFrame(s, s', u);
  }

  /** The end of a look: a queue is passed only if what was there when it began is gone or reserved. */
  lemma EndLookAction(s: State, u: nat, found: bool)
    requires Inv(s) && Enabled(s, EndLook(u, found))
    ensures Inv(DoEndLook(s, u, found))
  {
    assert PcMatches(s, u) && ReserveOk(s, u) && DrainOk(s, u);
    hide N.Inv;
    var s' := DoEndLook(s, u, found);
    forall q, x | 0 <= q < |s.queues| && x in s.queues[q] ensures SightOk(s', q, x, u) {
      assert SightOk(s, q, x, u);
    }
    LocalFrame(s, s', u);
  }

  lemma PrepareAction(s: State, v: nat)
    requires Inv(s) && Enabled(s, Prepare(v))
    ensures Inv(Apply(s, Prepare(v)))
  {
    hide N.Inv;
    hide N.Apply;
    var s' := Apply(s, Prepare(v));
    NotifierEffect(s.n, N.Prepare(v));
    ShapeOf(N.Apply(s.n, N.Prepare(v)));
    WaiterPcAfter(s.n, N.Prepare(v));
    ItemFrame(s, s');
    forall q, x, u | 0 <= q < |s'.queues| && x in s'.queues[q] && 0 <= u < |s'.pc| ensures SightOk(s', q, x, u) {
      assert SightOk(s, q, x, u);
    }
    forall u | 0 <= u < |s'.pc| ensures PcMatches(s', u) && DrainOk(s', u) && ReserveOk(s', u) {
      assert PcMatches(s, u) && DrainOk(s, u) && ReserveOk(s, u);
    }
    forall k | 0 <= k < |s'.owed| ensures OwedOk(s', k) { assert OwedOk(s, k); }
  }

  lemma WaiterAction(s: State, v: nat, na: N.Action)
    requires Inv(s) && Enabled(s, Waiter(v, na))
    ensures Inv(Apply(s, Waiter(v, na)))
  {
    hide N.Inv;
    hide N.Apply;
    var s' := Apply(s, Waiter(v, na));
    NotifierEffect(s.n, na);
    ShapeOf(N.Apply(s.n, na));
    ItemFrame(s, s');
    WaiterPlaces(s, v, na);
    hide PcMatches;
    hide DrainOk;
    hide ReserveOk;
    forall q, x, u | 0 <= q < |s'.queues| && x in s'.queues[q] && 0 <= u < |s'.pc| ensures SightOk(s', q, x, u) {
      assert SightOk(s, q, x, u);
      if NT.Blocked(s'.n, u) { BlockedIsInside(s'.n, u); }
    }
    forall k | 0 <= k < |s'.owed| ensures OwedOk(s', k) { assert OwedOk(s, k); }
  }

  lemma WaiterPlaces(s: State, v: nat, na: N.Action)
    requires Inv(s) && Enabled(s, Waiter(v, na))
    ensures var s' := Apply(s, Waiter(v, na));
      Shape(s') && forall u :: 0 <= u < |s'.pc| ==> PcMatches(s', u) && DrainOk(s', u) && ReserveOk(s', u)
  {
    hide N.Inv;
    hide N.Apply;
    hide ItemOk;
    hide SightOk;
    hide OwedOk;
    var s' := Apply(s, Waiter(v, na));
    NotifierEffect(s.n, na);
    ShapeOf(N.Apply(s.n, na));
    WaiterPcAfter(s.n, na);
    forall u | 0 <= u < |s'.pc| ensures PcMatches(s', u) && DrainOk(s', u) && ReserveOk(s', u) {
      assert PcMatches(s, u) && DrainOk(s, u) && ReserveOk(s, u);
      if NT.Blocked(s'.n, u) { BlockedIsInside(s'.n, u); }
    }
  }

  /** A notify that takes effect leaves some worker unblocked. */
  lemma SomebodyUnblocked(n: N.State, a: N.Action, n': N.State, k: nat) returns (u: nat)
    requires N.Inv(n) && N.Step(n, a, n') && IsNotify(a) && |n.pc| > 0 && k < |n'.nc| && TakesEffect(n, a, n', k)
    ensures u < |n.pc| && !NT.Blocked(n', u)
  {
    if NT.Consumes(n, a) {
      u := NT.ConsumeUnblocks(n, a, n');
    } else {
      NT.NoWaitersIffNobodyBlocked(n);
      u := 0;
      assert !NT.Blocked(n, u);
      NT.BlockedOnlyByPrepare(n, a, n', u);
    }
  }

  /** Until its notify takes effect a call stays where it cannot end. */
  lemma UnheardCallGoesOn(n: N.State, a: N.Action, k: nat)
    requires N.Inv(n) && N.Enabled(n, a) && N.Defined(n, a) && IsNotify(a) && a.k == k && k < |n.nc|
    requires n.nc[k].Idle? || n.nc[k].Popping? || (n.nc[k].Testing? && !N.NoWaiters(n.nc[k].snap.word))
    ensures k < |N.Apply(n, a).nc|
    ensures TakesEffect(n, a, N.Apply(n, a), k) || N.Apply(n, a).nc[k].Popping?
         || (N.Apply(n, a).nc[k].Testing? && !N.NoWaiters(N.Apply(n, a).nc[k].snap.word))
  {
    hide N.Inv;
  }

  /** After a notify action its publisher owes nothing, or the call goes on. */
  lemma OwedAfter(s: State, k: nat, na: N.Action)
    requires Inv(s) && Enabled(s, Notify(k, na))
    ensures Shape(Apply(s, Notify(k, na))) && OwedOk(Apply(s, Notify(k, na)), k)
  {
    hide N.Inv;
    hide N.Apply;
    NotifierEffect(s.n, na);
    ShapeOf(N.Apply(s.n, na));
    assert OwedOk(s, k);
    if s.owed[k] != {} { UnheardCallGoesOn(s.n, na, k); }
  }

  /** Whoever was recorded for an item as asleep at its notify, somebody else was awake. */
  lemma NotifyWakes(s: State, k: nat, na: N.Action, q: nat, x: nat)
    requires Inv(s) && Enabled(s, Notify(k, na)) && q < |s.queues| && x in s.queues[q]
    requires x in Apply(s, Notify(k, na)).asleep
    ensures exists v :: 0 <= v < |s.pc| && v !in Apply(s, Notify(k, na)).asleep[x]
  {
    hide N.Inv;
    hide N.Apply;
    var s' := Apply(s, Notify(k, na));
    NotifierEffect(s.n, na);
    assert ItemOk(s, q, x);
    hide PcMatches;
    hide DrainOk;
    hide ReserveOk;
    hide SightOk;
    hide OwedOk;
    hide StopOk;
    if x in s.owed[k] && TakesEffect(s.n, na, s'.n, k) {
      var u := SomebodyUnblocked(s.n, na, s'.n, k);
      assert u !in s'.asleep[x];
    } else {
      var u :| 0 <= u < |s.pc| && u !in s.asleep[x];
      assert u !in s'.asleep[x];
    }
  }

  lemma NotifyItems(s: State, k: nat, na: N.Action, q: nat, x: nat)
    requires Inv(s) && Enabled(s, Notify(k, na)) && q < |s.queues| && x in s.queues[q]
    ensures Shape(Apply(s, Notify(k, na))) && ItemOk(Apply(s, Notify(k, na)), q, x)
  {
    hide N.Inv;
    hide N.Apply;
    var s' := Apply(s, Notify(k, na));
    NotifierEffect(s.n, na);
    ShapeOf(N.Apply(s.n, na));
    assert ItemOk(s, q, x);
    if x in s'.asleep { NotifyWakes(s, k, na, q, x); }
    hide Inv;
    if Owes(s, x) && x !in s'.asleep {
      var j :| 0 <= j < |s.owed| && x in s.owed[j];
      assert x in s'.owed[j];
    }
  }

  lemma NotifySight(s: State, k: nat, na: N.Action, q: nat, x: nat, v: nat)
    requires Inv(s) && Enabled(s, Notify(k, na)) && q < |s.queues| && x in s.queues[q] && v < |s.pc|
    ensures Shape(Apply(s, Notify(k, na))) && SightOk(Apply(s, Notify(k, na)), q, x, v)
  {
    hide N.Inv;
    hide N.Apply;
    var s' := Apply(s, Notify(k, na));
    NotifierEffect(s.n, na);
    ShapeOf(N.Apply(s.n, na));
    assert SightOk(s, q, x, v);
    hide Inv;
    hide ItemOk;
    hide DrainOk;
    if x in s'.asleep && v !in s'.asleep[x] && NT.Blocked(s'.n, v) {
      assert v in NT.BlockedSet(s'.n);
    }
  }

  lemma NotifyDrain(s: State, k: nat, na: N.Action, v: nat)
    requires Inv(s) && Enabled(s, Notify(k, na)) && v < |s.pc|
    ensures Shape(Apply(s, Notify(k, na))) && DrainOk(Apply(s, Notify(k, na)), v)
  {
    hide N.Inv;
    hide N.Apply;
    var s' := Apply(s, Notify(k, na));
    NotifierEffect(s.n, na);
    ShapeOf(N.Apply(s.n, na));
    assert DrainOk(s, v);
    if s.stopper == Some(k) && TakesEffect(s.n, na, s'.n, k) {
      if NT.Consumes(s.n, na) {
        NT.NotifyAllUnblocksAll(s.n, na, s'.n, v);
      } else {
        NT.NoWaitersIffNobodyBlocked(s.n);
        NT.BlockedOnlyByPrepare(s.n, na, s'.n, v);
      }
    }
  }

  lemma NotifyPlaces(s: State, k: nat, na: N.Action)
    requires Inv(s) && Enabled(s, Notify(k, na))
    ensures var s' := Apply(s, Notify(k, na));
      && Shape(s') && |s'.pc| == |s.pc| > 0 && s'.queues == s.queues
      && forall v :: 0 <= v < |s'.pc| ==> PcMatches(s', v) && ReserveOk(s', v)
  {
    hide N.Inv;
    hide N.Apply;
    hide ItemOk;
    hide SightOk;
    hide OwedOk;
    var s' := Apply(s, Notify(k, na));
    NotifierEffect(s.n, na);
    ShapeOf(N.Apply(s.n, na));
    forall v | 0 <= v < |s'.pc| ensures PcMatches(s', v) && ReserveOk(s', v) {
      assert PcMatches(s, v) && ReserveOk(s, v);
    }
  }

  lemma NotifyHistory(s: State, k: nat, na: N.Action)
    requires Inv(s) && Enabled(s, Notify(k, na))
    ensures var s' := Apply(s, Notify(k, na));
      && Shape(s') && N.Inv(s'.n) && StopOk(s')
      && (forall j :: 0 <= j < |s'.owed| ==> OwedOk(s', j))
      && (forall x :: x in s'.asleep ==> x in s'.seen)
  {
    hide N.Inv;
    hide N.Apply;
    hide ItemOk;
    hide SightOk;
    hide PcMatches;
    hide DrainOk;
    var s' := Apply(s, Notify(k, na));
    NotifierEffect(s.n, na);
    ShapeOf(N.Apply(s.n, na));
    OwedAfter(s, k, na);
    forall j | 0 <= j < |s'.owed| ensures OwedOk(s', j) { if j != k { assert OwedOk(s, j); } }
    assert forall x :: x in s'.asleep ==> x in s'.seen by { assert OwedOk(s, k); }
    if s.stopper.Some? { NotifyAllStays(s.n, na, s.stopper.value); }
  }

  lemma NotifyAction(s: State, k: nat, na: N.Action)
    requires Inv(s) && Enabled(s, Notify(k, na))
    ensures Inv(Apply(s, Notify(k, na)))
  {
    hide *;
    var s' := Apply(s, Notify(k, na));
    NotifyPlaces(s, k, na);
    NotifyHistory(s, k, na);
    forall q, x | 0 <= q < |s'.queues| && x in s'.queues[q] ensures ItemOk(s', q, x) { NotifyItems(s, k, na, q, x); }
    forall q, x, v | 0 <= q < |s'.queues| && x in s'.queues[q] && 0 <= v < |s'.pc| ensures SightOk(s', q, x, v) {
      NotifySight(s, k, na, q, x, v);
    }
    forall v | 0 <= v < |s'.pc| ensures DrainOk(s', v) { NotifyDrain(s, k, na, v); }
    Together(s');
  }

  lemma Together(s: State)
    requires Shape(s) && |s.pc| > 0 && N.Inv(s.n) && StopOk(s)
    requires forall v :: 0 <= v < |s.pc| ==> PcMatches(s, v) && DrainOk(s, v) && ReserveOk(s, v)
    requires forall k :: 0 <= k < |s.owed| ==> OwedOk(s, k)
    requires forall q, x :: 0 <= q < |s.queues| && x in s.queues[q] ==> ItemOk(s, q, x)
    requires forall q, x, v :: 0 <= q < |s.queues| && x in s.queues[q] && 0 <= v < |s.pc| ==> SightOk(s, q, x, v)
    requires forall x :: x in s.asleep ==> x in s.seen
    ensures Inv(s)
  {
    hide N.Inv;
  }

  lemma ShutdownAction(s: State, k: nat)
    requires Inv(s) && Enabled(s, Shutdown(k))
    ensures Inv(Apply(s, Shutdown(k)))
  {
    var s' := Apply(s, Shutdown(k));
    ItemFrame(s, s');
    forall q, x, v | 0 <= q < |s'.queues| && x in s'.queues[q] && 0 <= v < |s'.pc| ensures SightOk(s', q, x, v) {
      assert SightOk(s, q, x, v);
    }
    forall v | 0 <= v < |s'.pc| ensures PcMatches(s', v) && DrainOk(s', v) && ReserveOk(s', v) {
      assert PcMatches(s, v) && DrainOk(s, v) && ReserveOk(s, v);
    }
    forall j | 0 <= j < |s'.owed| ensures OwedOk(s', j) { assert OwedOk(s, j); }
  }

  lemma StepInv(s: State, a: Action)
    requires Inv(s) && Enabled(s, a)
    ensures Inv(Apply(s, a))
  {
    hide Inv;
    match a {
      case Publish(_, _, _) => PublishAction(s, a);
      case Reserve(v, x) => ReserveAction(s, v, x);
      case Claim(_, _, _) => ClaimAction(s, a);
      case Drained(_) => LocalAction(s, a);
      case Rescan(u) => RescanAction(s, u);
      case EndLook(u, found) => EndLookAction(s, u, found);
      case Leave(_) => LocalAction(s, a);
      case Prepare(v) => PrepareAction(s, v);
      case Waiter(v, na) => WaiterAction(s, v, na);
      case Notify(k, na) => NotifyAction(s, k, na);
      case Shutdown(k) => ShutdownAction(s, k);
    }
  }

  ghost predicate IsRun(run: seq<State>, acts: seq<Action>, workers: nat, shards: nat, publishers: nat) {
    && |run| == |acts| + 1
    && run[0] == InitState(workers, shards, publishers)
    && forall i :: 0 <= i < |acts| ==> Enabled(run[i], acts[i]) && run[i + 1] == Apply(run[i], acts[i])
  }

  lemma InitInv(workers: nat, shards: nat, publishers: nat)
    requires workers > 0
    ensures Inv(InitState(workers, shards, publishers))
  {
    NI.InitInv(workers, publishers);
  }

  lemma {:induction false} RunInv(run: seq<State>, acts: seq<Action>, workers: nat, shards: nat, publishers: nat, i: nat)
    requires IsRun(run, acts, workers, shards, publishers) && workers > 0 && i < |run|
    ensures Inv(run[i])
  {
    hide Inv;
    if i == 0 {
      InitInv(workers, shards, publishers);
    } else {
      RunInv(run, acts, workers, shards, publishers, i - 1);
      StepInv(run[i - 1], acts[i - 1]);
    }
  }

  // ---------------------------------------------------------------------------------
  // Main results
  // ---------------------------------------------------------------------------------

  /** Worker v has passed its rescan and will not wake by itself. */
  predicate AsleepForGood(s: State, v: nat) {
    v < |s.pc| && s.pc[v].Committing? && NT.Blocked(s.n, v)
  }

  /**
   * Worker v runs or explores, or is no longer counted as a sleeper, or will look into queue q, or is in a look at it
   * that has already seen x. A worker that has left, or is about to, does not count.
   */
  ghost predicate WillFind(s: State, v: nat, q: nat, x: nat) {
    && v < |s.pc| && !s.pc[v].Stopped? && !s.pc[v].Stopping?
    && (NT.Blocked(s.n, v) ==> s.pc[v].Running? || s.pc[v].Exploring? || WillMeet(s.pc[v], q, x))
  }

  /** Whoever was not asleep when the item's notify took effect finds the item, unless its owner is about to take it. */
  lemma SomebodyFinds(s: State, q: nat, x: nat) returns (v: nat)
    requires Inv(s) && q < |s.queues| && x in s.queues[q] && !Owes(s, x)
    ensures v < |s.pc| && !AsleepForGood(s, v)
    ensures s.terminate || WillFind(s, v, q, x)
  {
    hide N.Inv;
    assert ItemOk(s, q, x);
    var u :| 0 <= u < |s.pc| && u !in s.asleep[x];
    assert SightOk(s, q, x, u) && PcMatches(s, u);
    v := if NT.Blocked(s.n, u) && IsReserved(s, q, x) then q - s.shards else u;
    if IsReserved(s, q, x) { assert ReserveOk(s, q - s.shards); }
    assert PcMatches(s, v);
  }

  /**
   * No lost wakeup, in any run of any number of workers and publishers until a shutdown begins: while an item is in
   * some queue and nobody still owes its notify, there is a worker that is awake, or no longer counted as a sleeper,
   * or that will find the item in the look it is in or in one still to come, before it may sleep.
   */
  lemma NoLostWakeup(run: seq<State>, acts: seq<Action>, workers: nat, shards: nat, publishers: nat, i: nat, q: nat, x: nat)
    requires IsRun(run, acts, workers, shards, publishers) && workers > 0 && i < |run|
    requires q < |run[i].queues| && x in run[i].queues[q] && !Owes(run[i], x) && !run[i].terminate
    ensures exists v :: 0 <= v < |run[i].pc| && WillFind(run[i], v, q, x)
  {
    RunInv(run, acts, workers, shards, publishers, i);
    hide Inv;
    var v := SomebodyFinds(run[i], q, x);
  }

  /** A publisher whose notify call returns owes nothing: the call has taken effect. */
  lemma ReturnedNotifyIsHeard(s: State, k: nat, na: N.Action)
    requires Inv(s) && Enabled(s, Notify(k, na)) && !s.n.nc[k].Idle?
    requires k < |N.Apply(s.n, na).nc| && N.Apply(s.n, na).nc[k].Idle?
    ensures Apply(s, Notify(k, na)).owed[k] == {}
  {
    hide N.Inv;
    hide N.Apply;
    assert OwedOk(s, k);
    if s.owed[k] != {} { UnheardCallGoesOn(s.n, na, k); }
  }

  /** If every worker sleeps, every queue is empty but for items whose notify is still under way. */
  lemma AllAsleepMeansNothingToDo(run: seq<State>, acts: seq<Action>, workers: nat, shards: nat, publishers: nat, i: nat)
    requires IsRun(run, acts, workers, shards, publishers) && workers > 0 && i < |run|
    requires forall v :: 0 <= v < |run[i].pc| ==> AsleepForGood(run[i], v)
    ensures forall q, x :: 0 <= q < |run[i].queues| && x in run[i].queues[q] ==> Owes(run[i], x)
  {
    RunInv(run, acts, workers, shards, publishers, i);
    hide Inv;
    forall q, x | 0 <= q < |run[i].queues| && x in run[i].queues[q] ensures Owes(run[i], x) {
      if !Owes(run[i], x) { var v := SomebodyFinds(run[i], q, x); }
    }
  }

  /** Once the shutdown's notify_all has taken effect nobody sleeps, so every worker thread can be joined. */
  lemma ShutdownLeavesNobodyAsleep(run: seq<State>, acts: seq<Action>, workers: nat, shards: nat, publishers: nat, i: nat, v: nat)
    requires IsRun(run, acts, workers, shards, publishers) && workers > 0 && i < |run| && v < |run[i].pc|
    requires run[i].drained
    ensures !AsleepForGood(run[i], v)
  {
    RunInv(run, acts, workers, shards, publishers, i);
    assert DrainOk(run[i], v);
  }
}
