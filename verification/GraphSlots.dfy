// The slots of the parent in every run of every graph, with all kinds of nodes and exceptions.

module GraphSlots {
  import opened Common
  import opened GraphProtocol

  // ---------------------------------------------------------------------------------
  // Slots
  // ---------------------------------------------------------------------------------

  lemma {:induction false} SlotsUpdate(workers: seq<Pc>, k: nat, c: Pc)
    requires k < |workers|
    ensures TotalSlots(workers[k := c]) + Slots(workers[k]) == TotalSlots(workers) + Slots(c)
  {
    var w := workers[k := c];
    if k == 0 {
      assert w[1..] == workers[1..];
    } else {
      assert w[1..] == workers[1..][k - 1 := c];
      SlotsUpdate(workers[1..], k - 1, c);
    }
  }

  /** What an action of worker k does to the slots: its own place, the pool and the counter change in step. */
  ghost predicate WorkerStep(g: Graph, s: State, s': State, k: nat) {
    && IsWorker(s, k) && |s'.workers| == |s.workers| && s'.workers == s.workers[k := s'.workers[k]]
    && |s'.nodes| == |s.nodes| && s'.start == s.start
    && InGraph(g, s'.workers[k])
    && (forall v :: v in s'.pool && v !in s.pool ==> IsNode(g, v))
    && s'.parent - |s'.pool| - Slots(s'.workers[k]) == s.parent - |s.pool| - Slots(s.workers[k])
  }

  lemma WorkerKeepsSlots(g: Graph, base: nat, s: State, s': State, k: nat)
    requires SlotInv(g, base, s) && WorkerStep(g, s, s', k)
    ensures SlotInv(g, base, s')
  {
    SlotsUpdate(s.workers, k, s'.workers[k]);
    hide Slots;
    hide InGraph;
  }

  lemma TakeStep(g: Graph, base: nat, s: State, k: nat, n: nat)
    requires WellFormed(g, s) && Enabled(g, s, Take(k, n))
    ensures WorkerStep(g, s, Apply(g, base, s, Take(k, n)), k)
  {
  }

  lemma ExecuteStep(g: Graph, base: nat, s: State, a: Action)
    requires WellFormed(g, s) && Enabled(g, s, a) && (a.RunBody? || a.Restore? || a.Choose?)
    ensures WorkerStep(g, s, Apply(g, base, s, a), a.k)
  {
    assert InGraph(g, s.workers[a.k]);
    hide ValidGraph;
    hide Weight;
    hide Selects;
  }

  lemma ArriveStep(g: Graph, s: State, k: nat)
    requires WellFormed(g, s) && IsWorker(s, k) && s.workers[k].Scanning? && s.workers[k].i < |s.workers[k].targets|
    requires InGraph(g, s.workers[k])
    ensures var Scanning(n, targets, i, cache, ready) := s.workers[k];
      targets[i] in targets && WorkerStep(g, s, DoArrive(s, k, n, targets, i, cache, ready), k)
  {
    var Scanning(n, targets, i, cache, ready) := s.workers[k];
    assert targets[i] in targets;
    assert forall v :: v in ready + [targets[i]] ==> v in ready || v in targets;
  }

  lemma EndScanStep(g: Graph, s: State, k: nat)
    requires WellFormed(g, s) && IsWorker(s, k) && s.workers[k].Scanning? && InGraph(g, s.workers[k])
    ensures var Scanning(n, targets, i, cache, ready) := s.workers[k];
      WorkerStep(g, s, DoEndScan(s, k, n, cache, ready), k)
  {
  }

  lemma ForceStep(g: Graph, s: State, k: nat)
    requires WellFormed(g, s) && IsWorker(s, k) && s.workers[k].Jumping? && s.workers[k].i < |s.workers[k].targets|
    requires InGraph(g, s.workers[k])
    ensures var Jumping(n, targets, i) := s.workers[k];
      targets[i] in targets && WorkerStep(g, s, DoForce(s, k, n, targets, i), k)
  {
  }

  lemma EndJumpStep(g: Graph, s: State, k: nat)
    requires WellFormed(g, s) && IsWorker(s, k) && s.workers[k].Jumping? && InGraph(g, s.workers[k])
    ensures WorkerStep(g, s, DoEndJump(s, k, s.workers[k].targets), k)
  {
    var targets := s.workers[k].targets;
    var n := |targets| - 1;
    assert targets[n] in targets && forall v :: v in targets[..n] ==> v in targets;
  }

  lemma PublishStep(g: Graph, s: State, k: nat)
    requires WellFormed(g, s) && IsWorker(s, k) && s.workers[k].Publishing? && InGraph(g, s.workers[k])
    ensures WorkerStep(g, s, DoPublish(s, k, s.workers[k].next, s.workers[k].ready), k)
  {
    var ready := s.workers[k].ready;
    assert ready[0] in ready && forall v :: v in ready[1..] ==> v in ready;
  }

  lemma CountStep(g: Graph, base: nat, s: State, a: Action)
    requires WellFormed(g, s) && Enabled(g, s, a) && (a.AddSlots? || a.Return?) && InGraph(g, s.workers[a.k])
    ensures WorkerStep(g, s, Apply(g, base, s, a), a.k)
  {
  }

  /** Every action, in every graph and with exceptions, keeps the counter at its base plus the slots held. */
  lemma StepSlots(g: Graph, base: nat, s: State, a: Action)
    requires SlotInv(g, base, s) && Enabled(g, s, a)
    ensures SlotInv(g, base, Apply(g, base, s, a))
  {
    if a.CountSources? || a.PushSource? {
      StartSlots(g, base, s, a);
    } else {
      var s' := Apply(g, base, s, a);
      assert InGraph(g, s.workers[a.k]);
      hide WorkerStep;
      match a {
        case Take(k, n) => TakeStep(g, base, s, k, n);
        case RunBody(_) => ExecuteStep(g, base, s, a);
        case Restore(_) => ExecuteStep(g, base, s, a);
        case Choose(_, _, _) => ExecuteStep(g, base, s, a);
        case Arrive(k) => ArriveStep(g, s, k);
        case EndScan(k) => EndScanStep(g, s, k);
        case Force(k) => ForceStep(g, s, k);
        case EndJump(k) => EndJumpStep(g, s, k);
        case AddSlots(_) => CountStep(g, base, s, a);
        case Publish(k) => PublishStep(g, s, k);
        case Return(_) => CountStep(g, base, s, a);
      }
      hide *;
      WorkerKeepsSlots(g, base, s, s', a.k);
    }
  }

  lemma StartSlots(g: Graph, base: nat, s: State, a: Action)
    requires SlotInv(g, base, s) && Enabled(g, s, a) && (a.CountSources? || a.PushSource?)
    ensures SlotInv(g, base, Apply(g, base, s, a))
  {
    hide TotalSlots;
  }

  /** A run of a graph: from its set-up, any interleaving of any number of workers. */
  ghost predicate IsRun(g: Graph, base: nat, run: seq<State>, acts: seq<Action>) {
    && |run| == |acts| + 1
    && IsSetUp(g, base, run[0])
    && forall i :: 0 <= i < |acts| ==> Step(g, base, run[i], acts[i], run[i + 1])
  }

  lemma {:induction false} NoSlots(workers: seq<Pc>)
    requires forall k :: 0 <= k < |workers| ==> workers[k].Free?
    ensures TotalSlots(workers) == 0 && AllHands(workers) == multiset{}
  {
    if workers != [] {
      assert workers[0].Free?;
      NoSlots(workers[1..]);
    }
  }

  lemma {:induction false} SlotsOfOne(workers: seq<Pc>, k: nat)
    requires k < |workers|
    ensures TotalSlots(workers) >= Slots(workers[k])
  {
    if k > 0 {
      SlotsOfOne(workers[1..], k - 1);
    }
  }

  lemma RunStart(g: Graph, base: nat, run: seq<State>, acts: seq<Action>)
    requires IsRun(g, base, run, acts)
    ensures |run| == |acts| + 1 && IsSetUp(g, base, run[0])
  {
  }

  lemma RunStep(g: Graph, base: nat, run: seq<State>, acts: seq<Action>, i: nat)
    requires IsRun(g, base, run, acts) && i < |acts|
    ensures |run| == |acts| + 1 && WellFormed(g, run[i]) && Enabled(g, run[i], acts[i])
    ensures run[i + 1] == Apply(g, base, run[i], acts[i])
  {
    hide WellFormed;
    hide Enabled;
    hide Apply;
    hide IsSetUp;
    assert Step(g, base, run[i], acts[i], run[i + 1]);
  }

  lemma SetUpSlots(g: Graph, base: nat, s: State)
    requires IsSetUp(g, base, s)
    ensures SlotInv(g, base, s)
  {
    NoSlots(s.workers);
    hide WellFormed;
  }

  lemma {:induction false} RunSlots(g: Graph, base: nat, run: seq<State>, acts: seq<Action>, i: nat)
    requires IsRun(g, base, run, acts) && i < |run|
    ensures SlotInv(g, base, run[i])
  {
    hide *;
    RunStart(g, base, run, acts);
    if i == 0 {
      SetUpSlots(g, base, run[0]);
    } else {
      RunSlots(g, base, run, acts, i - 1);
      RunStep(g, base, run, acts, i - 1);
      StepSlots(g, base, run[i - 1], acts[i - 1]);
    }
  }

  /**
   * Parent-slot conservation, with all five kinds of nodes and exceptions mixed: the counter is its base plus
   * the activations holding a slot, so it is above its base while any worker has a node or a ready successor in
   * its hands, any activation is queued, or any counted source is unpublished.
   */
  lemma ParentCountsHolders(g: Graph, base: nat, run: seq<State>, acts: seq<Action>, i: nat, k: nat)
    requires IsRun(g, base, run, acts) && i < |run|
    ensures var s := run[i];
      && s.parent == base + Held(s) && s.parent >= base
      && (IsWorker(s, k) && !s.workers[k].Free? ==> s.parent > base)
      && (IsWorker(s, k) && s.workers[k].Publishing? ==> s.parent > base + |s.workers[k].ready|)
      && (s.pool != multiset{} ==> s.parent > base)
      && (s.start.PushingSources? && s.start.sources != [] ==> s.parent > base)
  {
    var s := run[i];
    RunSlots(g, base, run, acts, i);
    if IsWorker(s, k) {
      SlotsOfOne(s.workers, k);
    }
    if s.pool != multiset{} {
      var v :| v in s.pool;
      assert |s.pool| >= s.pool[v];
    }
  }

  lemma OnlyReturnGivesBack(g: Graph, base: nat, s: State, a: Action)
    requires WellFormed(g, s) && Enabled(g, s, a)
    ensures Apply(g, base, s, a).parent < s.parent ==> a.Return?
    ensures Apply(g, base, s, a).fired == s.fired + if a.Return? && Apply(g, base, s, a).parent == base then 1 else 0
  {
    hide InGraph;
    hide Weight;
    hide Selects;
  }

  /** The counter falls back to its base only by a Return, which is observed, and gives up the last slot of the run. */
  lemma LastReturnFires(g: Graph, base: nat, run: seq<State>, acts: seq<Action>, i: nat)
    requires IsRun(g, base, run, acts) && i < |acts|
    ensures run[i].parent > base && run[i + 1].parent == base ==> acts[i].Return? && run[i + 1].fired == run[i].fired + 1
    ensures run[i + 1].fired > run[i].fired ==> run[i + 1].parent == base && Held(run[i + 1]) == 0
  {
    RunSlots(g, base, run, acts, i);
    RunSlots(g, base, run, acts, i + 1);
    assert Step(g, base, run[i], acts[i], run[i + 1]);
    hide TotalSlots;
    hide Enabled;
    OnlyReturnGivesBack(g, base, run[i], acts[i]);
    hide Apply;
    hide WellFormed;
    hide Held;
  }
}
