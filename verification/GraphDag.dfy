// Runs of graphs without jumps: every node runs at most once, after its predecessors, whatever the schedule and whatever
// branches select; in an acyclic graph of Tasks exactly once.

module GraphDag {
  import opened Common
  import opened GraphProtocol
  import opened GraphSlots

  // ---------------------------------------------------------------------------------
  // Where the activations are
  // ---------------------------------------------------------------------------------

  lemma {:induction false} HandsUpdate(workers: seq<Pc>, k: nat, c: Pc, v: nat)
    requires k < |workers|
    ensures AllHands(workers[k := c])[v] + Hand(workers[k])[v] == AllHands(workers)[v] + Hand(c)[v]
  {
    var w := workers[k := c];
    hide Hand;
    if k == 0 {
      assert w[1..] == workers[1..];
    } else {
      assert w[1..] == workers[1..][k - 1 := c];
      HandsUpdate(workers[1..], k - 1, c, v);
    }
  }

  lemma {:induction false} HandOfOne(workers: seq<Pc>, k: nat)
    requires k < |workers|
    ensures Hand(workers[k]) <= AllHands(workers)
  {
    hide Hand;
    if k > 0 {
      HandOfOne(workers[1..], k - 1);
    }
  }

  /** A node that is nowhere but in worker k's hands. */
  lemma OnlyThere(s: State, k: nat, v: nat, j: nat)
    requires IsWorker(s, k) && Places(s)[v] <= Hand(s.workers[k])[v]
    ensures v !in s.pool && v !in s.start.sources
    ensures IsWorker(s, j) && j != k ==> v !in Hand(s.workers[j])
  {
    hide Hand;
    HandOfOne(s.workers, k);
    assert AllHands(s.workers)[v] >= Hand(s.workers[k])[v];
    assert multiset(s.start.sources)[v] == 0;
    if IsWorker(s, j) && j != k {
      var rest := s.workers[k := Free];
      HandsUpdate(s.workers, k, Free, v);
      FreeHand();
      HandOfOne(rest, j);
      assert AllHands(rest)[v] == 0;
    }
  }

  lemma FreeHand()
    ensures Hand(Free) == multiset{}
  {
  }

  lemma MovePlaces(s: State, s': State, k: nat, v: nat)
    requires IsWorker(s, k) && |s'.workers| == |s.workers| && s'.workers == s.workers[k := s'.workers[k]]
    requires s'.start == s.start
    ensures Places(s')[v] + Hand(s.workers[k])[v] + s.pool[v] == Places(s)[v] + Hand(s'.workers[k])[v] + s'.pool[v]
  {
    hide Hand;
    HandsUpdate(s.workers, k, s'.workers[k], v);
  }

  // ---------------------------------------------------------------------------------
  // Frames
  // ---------------------------------------------------------------------------------

  lemma FrameWorker(g: Graph, s: State, s': State, c: Pc)
    requires ValidGraph(g) && InGraph(g, c) && |s.nodes| == |g.kinds| && |s'.nodes| == |s.nodes| && WorkerOk(g, s, c)
    requires forall v: nat :: v in Hand(c) && v < |s.nodes| ==> s'.nodes[v] == s.nodes[v]
    ensures WorkerOk(g, s', c)
  {
    HandOf(c);
    hide Hand;
    hide InGraph;
  }

  lemma HandOf(c: Pc)
    ensures c.Busy? || c.Restoring? || c.Choosing? || c.Scanning? ==> c.n in Hand(c)
    ensures c.Scanning? && c.cache.Some? ==> c.cache.value in Hand(c)
    ensures c.Scanning? || c.Counting? || c.Publishing? ==> forall v :: v in c.ready ==> v in Hand(c)
    ensures c.Counting? || c.Publishing? ==> c.next in Hand(c)
  {
  }

  /** Worker k changes the nodes in xs, which are nowhere but in its hands: everybody else is as before. */
  lemma FrameRest(g: Graph, s: State, s': State, k: nat, xs: set<nat>)
    requires StrongInv(g, s) && WellFormed(g, s') && IsWorker(s, k) && |s'.workers| == |s.workers|
    requires s'.workers == s.workers[k := s'.workers[k]] && s'.start == s.start && |s'.nodes| == |s.nodes|
    requires forall v: nat :: v < |s.nodes| && v !in xs ==> s'.nodes[v] == s.nodes[v]
    requires forall v :: v in xs ==> Places(s)[v] <= Hand(s.workers[k])[v]
    ensures forall j :: 0 <= j < |s.workers| && j != k ==> WorkerOk(g, s', s'.workers[j])
    ensures forall v :: v in s.pool ==> PhaseIs(s', v, Ready)
    ensures forall v :: v in s.start.sources ==> PhaseIs(s', v, Ready)
  {
    hide NodeOk;
    hide EdgeOk;
    hide InGraph;
    forall j | 0 <= j < |s.workers| && j != k
      ensures WorkerOk(g, s', s'.workers[j])
    {
      assert WorkerOk(g, s, s.workers[j]) && InGraph(g, s.workers[j]);
      forall v: nat | v in Hand(s.workers[j]) && v < |s.nodes|
        ensures s'.nodes[v] == s.nodes[v]
      {
        if v in xs {
          OnlyThere(s, k, v, j);
        }
      }
      hide WorkerOk;
      hide Hand;
      FrameWorker(g, s, s', s.workers[j]);
    }
    forall v | v in s.pool || v in s.start.sources
      ensures PhaseIs(s', v, Ready)
    {
      if v in xs {
        OnlyThere(s, k, v, k);
      }
    }
  }

  // ---------------------------------------------------------------------------------
  // Actions in a graph without jumps
  // ---------------------------------------------------------------------------------

  lemma FrameNode(g: Graph, s: State, s': State, v: nat)
    requires v < |g.succ| && v < |g.preds| && v < |g.kinds| && v < |s.nodes| && v < |s'.nodes| && NodeOk(g, s, v)
    requires s'.nodes[v] == s.nodes[v] && Places(s')[v] == Places(s)[v] && (s.failed ==> s'.failed)
    ensures NodeOk(g, s', v)
  {
    hide Places;
  }

  /** A step that changes the nodes in xs only, keeps the edges, and moves the other activations around. */
  lemma StepKeeps(g: Graph, s: State, s': State, k: nat, xs: set<nat>)
    requires StrongInv(g, s) && WellFormed(g, s') && IsWorker(s, k) && |s'.workers| == |s.workers|
    requires s'.workers == s.workers[k := s'.workers[k]] && s'.start == s.start && |s'.nodes| == |s.nodes|
    requires s.failed ==> s'.failed
    requires forall v: nat :: v < |s.nodes| && v !in xs ==> s'.nodes[v] == s.nodes[v] && Places(s')[v] == Places(s)[v]
    requires forall v :: v in xs ==> v < |s.nodes| && Places(s)[v] <= Hand(s.workers[k])[v] && NodeOk(g, s', v)
    requires forall u, v :: 0 <= u < |s.nodes| && 0 <= v < |s.nodes| ==> EdgeOk(g, s', u, v)
    requires WorkerOk(g, s', s'.workers[k])
    requires forall v :: v in s'.pool && v !in s.pool ==> PhaseIs(s', v, Ready)
    ensures StrongInv(g, s')
  {
    hide NodeOk;
    hide WorkerOk;
    hide EdgeOk;
    hide PhaseIs;
    hide Hand;
    hide Places;
    FrameRest(g, s, s', k, xs);
    StepNodes(g, s, s', k, xs);
    hide WellFormed;
  }

  lemma StepNodes(g: Graph, s: State, s': State, k: nat, xs: set<nat>)
    requires StrongInv(g, s) && |s'.nodes| == |s.nodes| && (s.failed ==> s'.failed)
    requires forall v: nat :: v < |s.nodes| && v !in xs ==> s'.nodes[v] == s.nodes[v] && Places(s')[v] == Places(s)[v]
    requires |g.succ| == |g.preds| == |g.kinds| == |s.nodes|
    requires forall v :: v in xs ==> v < |s.nodes| && NodeOk(g, s', v)
    ensures forall v :: 0 <= v < |s.nodes| ==> NodeOk(g, s', v)
  {
    hide WellFormed;
    hide EdgeOk;
    hide WorkerOk;
    hide PhaseIs;
    hide Places;
    hide NodeOk;
    forall v | 0 <= v < |s.nodes|
      ensures NodeOk(g, s', v)
    {
      if v !in xs {
        assert NodeOk(g, s, v);
        FrameNode(g, s, s', v);
      }
    }
  }

  lemma SameEdges(g: Graph, s: State, s': State)
    requires StrongInv(g, s) && |s'.nodes| == |s.nodes|
    requires forall v :: 0 <= v < |s.nodes| ==> s'.nodes[v].left == s.nodes[v].left && s'.nodes[v].waiting == s.nodes[v].waiting
    ensures forall u, v :: 0 <= u < |s.nodes| && 0 <= v < |s.nodes| ==> EdgeOk(g, s', u, v)
  {
    forall u, v | 0 <= u < |s.nodes| && 0 <= v < |s.nodes|
      ensures EdgeOk(g, s', u, v)
    {
      assert EdgeOk(g, s, u, v);
    }
  }

  /** Worker k moves on and activations move between its hands and the pool; no node changes. */
  lemma MoveKeeps(g: Graph, s: State, s': State, k: nat)
    requires StrongInv(g, s) && IsWorker(s, k) && |s'.workers| == |s.workers|
    requires s'.workers == s.workers[k := s'.workers[k]] && s'.start == s.start && s'.nodes == s.nodes
    requires s'.failed == s.failed
    requires forall v: nat :: Hand(s'.workers[k])[v] + s'.pool[v] == Hand(s.workers[k])[v] + s.pool[v]
    requires InGraph(g, s'.workers[k]) && WorkerOk(g, s, s'.workers[k])
    requires forall v :: v in s'.pool && v !in s.pool ==> PhaseIs(s, v, Ready)
    ensures StrongInv(g, s')
  {
    hide NodeOk;
    hide Hand;
    hide InGraph;
    assert WorkerOk(g, s', s'.workers[k]);
    hide WorkerOk;
    assert WellFormed(g, s');
    SameEdges(g, s, s');
    hide EdgeOk;
    forall v: nat
      ensures Places(s')[v] == Places(s)[v]
    {
      MovePlaces(s, s', k, v);
    }
    hide Places;
    StepKeeps(g, s, s', k, {});
  }

  /** A node in a worker's hands is there once and nowhere else. */
  lemma InHands(g: Graph, s: State, k: nat, n: nat)
    requires StrongInv(g, s) && IsWorker(s, k) && IsNode(g, n) && n in Hand(s.workers[k])
    ensures Hand(s.workers[k])[n] == 1 && Places(s)[n] == 1 && NodeAt(g, n, s.nodes[n], 1, s.failed)
    ensures InGraph(g, s.workers[k]) && WorkerOk(g, s, s.workers[k])
  {
    assert NodeOk(g, s, n);
    HandOfOne(s.workers, k);
    hide Hand;
    hide WorkerOk;
    hide EdgeOk;
  }

  lemma NodePlaces(g: Graph, s: State, s': State, k: nat, n: nat)
    requires IsWorker(s, k) && |s'.workers| == |s.workers| && n < |s'.nodes| && n < |g.succ| && n < |g.preds| && n < |g.kinds|
    requires s'.workers == s.workers[k := s'.workers[k]] && s'.start == s.start && s'.pool == s.pool
    requires Hand(s.workers[k])[n] == 1 && Places(s)[n] == 1
    requires forall v: nat :: v != n ==> Hand(s'.workers[k])[v] == Hand(s.workers[k])[v]
    requires NodeAt(g, n, s'.nodes[n], Hand(s'.workers[k])[n], s'.failed)
    ensures forall v: nat :: v != n ==> Places(s')[v] == Places(s)[v]
    ensures NodeOk(g, s', n)
  {
    hide Hand;
    hide NodeAt;
    forall v: nat
      ensures Places(s')[v] == Places(s)[v] + Hand(s'.workers[k])[v] - Hand(s.workers[k])[v]
    {
      MovePlaces(s, s', k, v);
    }
    hide Places;
  }

  /** Worker k changes a node in its hands without touching the edges, and possibly lets go of it. */
  lemma NodeKeeps(g: Graph, s: State, s': State, k: nat, n: nat)
    requires StrongInv(g, s) && IsWorker(s, k) && |s'.workers| == |s.workers| && IsNode(g, n)
    requires s'.workers == s.workers[k := s'.workers[k]] && s'.start == s.start && s'.pool == s.pool
    requires |s'.nodes| == |s.nodes| && s'.nodes == s.nodes[n := s'.nodes[n]]
    requires s'.nodes[n].left == s.nodes[n].left && s'.nodes[n].waiting == s.nodes[n].waiting
    requires s.failed ==> s'.failed
    requires Hand(s.workers[k])[n] == 1 && forall v: nat :: v != n ==> Hand(s'.workers[k])[v] == Hand(s.workers[k])[v]
    requires InGraph(g, s'.workers[k]) && WorkerOk(g, s', s'.workers[k])
    requires NodeAt(g, n, s'.nodes[n], Hand(s'.workers[k])[n], s'.failed)
    ensures StrongInv(g, s')
  {
    hide Hand;
    hide Places;
    hide NodeOk;
    hide NodeAt;
    hide EdgeOk;
    hide WorkerOk;
    hide InGraph;
    hide PhaseIs;
    InHands(g, s, k, n);
    NodePlaces(g, s, s', k, n);
    NodeWellFormed(g, s, s', k, n);
    SameEdges(g, s, s');
    hide StrongInv;
    hide WellFormed;
    StepKeeps(g, s, s', k, {n});
  }

  lemma NodeWellFormed(g: Graph, s: State, s': State, k: nat, n: nat)
    requires WellFormed(g, s) && IsWorker(s, k) && |s'.workers| == |s.workers|
    requires s'.workers == s.workers[k := s'.workers[k]] && s'.start == s.start && s'.pool == s.pool
    requires |s'.nodes| == |s.nodes| && InGraph(g, s'.workers[k])
    ensures WellFormed(g, s')
  {
    hide InGraph;
  }

  lemma TakeKeeps(g: Graph, s: State, k: nat, n: nat)
    requires StrongInv(g, s) && IsWorker(s, k) && s.workers[k].Free? && n in s.pool
    ensures StrongInv(g, Goto(s, k, Busy(n)).(pool := s.pool - multiset{n}))
  {
    hide NodeOk;
    hide EdgeOk;
    MoveKeeps(g, s, Goto(s, k, Busy(n)).(pool := s.pool - multiset{n}), k);
  }

  lemma RunBodyKeeps(g: Graph, s: State, k: nat)
    requires StrongInv(g, s) && IsWorker(s, k) && s.workers[k].Busy? && IsNode(g, s.workers[k].n)
    ensures StrongInv(g, DoRunBody(s, k, s.workers[k].n))
  {
    var n := s.workers[k].n;
    InHands(g, s, k, n);
    hide StrongInv;
    NodeKeeps(g, s, DoRunBody(s, k, n), k, n);
  }

  lemma DagIsStrong(g: Graph, rank: seq<nat>)
    requires IsDag(g, rank)
    ensures IsStrong(g)
  {
  }

  lemma AllStrong(g: Graph, n: nat)
    requires IsStrong(g) && IsNode(g, n)
    ensures Weight(g, n) == |g.preds[n]|
  {
    forall u: nat | u in g.preds[n]
      ensures IsNode(g, u) && Strong(g.kinds[u])
    {
      assert IsNode(g, n) && u in g.preds[n] ==> IsNode(g, u);
    }
  }

  lemma RestoreKeeps(g: Graph, s: State, k: nat)
    requires StrongInv(g, s) && IsStrong(g) && IsWorker(s, k) && s.workers[k].Restoring? && IsNode(g, s.workers[k].n)
    ensures StrongInv(g, DoRestore(g, s, k, s.workers[k].n))
  {
    var n := s.workers[k].n;
    InHands(g, s, k, n);
    AllStrong(g, n);
    hide StrongInv;
    hide Weight;
    NodeKeeps(g, s, DoRestore(g, s, k, n), k, n);
  }

  /** What a node selects is among its successors, with multiplicity. */
  lemma SelectsSome(g: Graph, n: nat, targets: seq<nat>, v: nat)
    requires ValidGraph(g) && IsNode(g, n) && n < |g.succ| && Selects(g, n, targets)
    ensures multiset(targets)[v] <= multiset(g.succ[n])[v]
    ensures v in targets ==> IsNode(g, v)
    ensures g.kinds[n].Task? ==> targets == g.succ[n]
  {
    if !g.kinds[n].Task? {
      DistinctOnce(targets, v);
      assert v in targets ==> v in multiset(g.succ[n]);
    }
  }

  lemma ChooseScans(g: Graph, s: State, k: nat, n: nat, targets: seq<nat>)
    requires StrongInv(g, s) && IsWorker(s, k) && s.workers[k] == Choosing(n) && IsNode(g, n)
    requires WorkerOk(g, s, s.workers[k]) && Selects(g, n, targets) && n < |s.nodes|
    ensures StrongInv(g, Goto(SetNode(s, n, s.nodes[n].(left := targets)), k, Scanning(n, targets, 0, None, [])))
  {
    hide Hand;
    hide Places;
    hide NodeAt;
    hide NodeOk;
    hide EdgeOk;
    hide Selects;
    HandOf(s.workers[k]);
    InHands(g, s, k, n);
    var s' := Goto(SetNode(s, n, s.nodes[n].(left := targets)), k, Scanning(n, targets, 0, None, []));
    assert targets[0..] == targets;
    forall v ensures v in targets ==> IsNode(g, v) { SelectsSome(g, n, targets, v); }
    assert InGraph(g, s'.workers[k]) && WorkerOk(g, s', s'.workers[k]);
    hide WorkerOk;
    hide InGraph;
    ChosenEdges(g, s, s', n, targets);
    ChosenHand(n, targets);
    ArriveSource(g, n, s.nodes[n], targets, s.failed);
    NodePlaces(g, s, s', k, n);
    NodeWellFormed(g, s, s', k, n);
    StepKeeps(g, s, s', k, {n});
  }

  lemma ChosenHand(n: nat, targets: seq<nat>)
    ensures Hand(Scanning(n, targets, 0, None, [])) == Hand(Choosing(n))
  {
  }

  lemma ChosenEdges(g: Graph, s: State, s': State, n: nat, targets: seq<nat>)
    requires StrongInv(g, s) && IsNode(g, n) && n < |s.nodes| && Selects(g, n, targets) && s.nodes[n].left == g.succ[n]
    requires s'.nodes == s.nodes[n := s.nodes[n].(left := targets)]
    ensures |s'.nodes| == |s.nodes| == |g.kinds|
    ensures forall u, v :: 0 <= u < |s.nodes| && 0 <= v < |s.nodes| ==> EdgeOk(g, s', u, v)
  {
    forall u, v | 0 <= u < |s.nodes| && 0 <= v < |s.nodes|
      ensures EdgeOk(g, s', u, v)
    {
      assert EdgeOk(g, s, u, v);
      SelectsSome(g, n, targets, v);
    }
  }

  lemma ChooseEnds(g: Graph, s: State, k: nat, n: nat, failed: bool)
    requires StrongInv(g, s) && IsWorker(s, k) && s.workers[k] == Choosing(n) && IsNode(g, n)
    requires n < |s.nodes| && n < |g.succ| && n < |g.preds| && NodeAt(g, n, s.nodes[n], 1, s.failed)
    requires s.nodes[n].phase.Restored? && s.nodes[n].left == g.succ[n] && (g.kinds[n].Task? ==> failed)
    ensures StrongInv(g, Goto(SetNode(s, n, s.nodes[n].(phase := Done)), k, Returning).(failed := s.failed || failed))
  {
    hide StrongInv;
    NodeKeeps(g, s, Goto(SetNode(s, n, s.nodes[n].(phase := Done)), k, Returning).(failed := s.failed || failed), k, n);
  }

  lemma ChooseKeeps(g: Graph, s: State, k: nat, targets: seq<nat>, exceptional: bool)
    requires StrongInv(g, s) && IsStrong(g) && IsWorker(s, k) && s.workers[k].Choosing? && IsNode(g, s.workers[k].n)
    requires Selects(g, s.workers[k].n, targets)
    ensures StrongInv(g, DoChoose(g, s, k, s.workers[k].n, targets, exceptional))
  {
    var n := s.workers[k].n;
    InHands(g, s, k, n);
    assert Strong(g.kinds[n]);
    hide StrongInv;
    if exceptional || (targets == [] && !g.kinds[n].Task?) {
      ChooseEnds(g, s, k, n, exceptional);
    } else {
      ChooseScans(g, s, k, n, targets);
    }
  }

  lemma ScanHand(n: nat, targets: seq<nat>, i: nat, cache: Option<nat>, ready: seq<nat>, u: nat)
    ensures Hand(Scanning(n, targets, i, cache, ready))[u]
         == (if u == n then 1 else 0) + (if cache == Some(u) then 1 else 0) + multiset(ready)[u]
  {
  }

  lemma NextHand(next: nat, ready: seq<nat>, u: nat)
    ensures Hand(Counting(next, ready))[u] == (if u == next then 1 else 0) + multiset(ready)[u]
    ensures Hand(Busy(next))[u] == if u == next then 1 else 0
    ensures Hand(Returning)[u] == 0
  {
  }

  lemma EndScanHand(n: nat, targets: seq<nat>, i: nat, cache: Option<nat>, ready: seq<nat>, u: nat)
    requires cache.None? ==> ready == []
    ensures var c := if cache.None? then Returning else Continue(cache.value, ready);
      Hand(Scanning(n, targets, i, cache, ready))[u] == Hand(c)[u] + if u == n then 1 else 0
  {
    ScanHand(n, targets, i, cache, ready, u);
    NextHand(if cache.Some? then cache.value else n, ready, u);
    assert ready == [] ==> multiset(ready)[u] == 0;
    hide Hand;
  }

  lemma EndScanWorker(g: Graph, s: State, k: nat)
    requires IsWorker(s, k) && s.workers[k].Scanning? && IsNode(g, s.workers[k].n)
    requires ValidGraph(g) && |s.nodes| == |g.kinds|
    requires InGraph(g, s.workers[k]) && WorkerOk(g, s, s.workers[k])
    ensures var Scanning(n, _, _, cache, ready) := s.workers[k];
      var s' := DoEndScan(s, k, n, cache, ready); InGraph(g, s'.workers[k]) && WorkerOk(g, s', s'.workers[k])
  {
  }

  lemma EndScanKeeps(g: Graph, s: State, k: nat)
    requires StrongInv(g, s) && IsWorker(s, k) && s.workers[k].Scanning? && IsNode(g, s.workers[k].n)
    requires s.workers[k].i == |s.workers[k].targets|
    ensures var Scanning(n, _, _, cache, ready) := s.workers[k]; StrongInv(g, DoEndScan(s, k, n, cache, ready))
  {
    var Scanning(n, targets, i, cache, ready) := s.workers[k];
    HandOf(s.workers[k]);
    hide Hand;
    hide NodeOk;
    hide EdgeOk;
    hide WorkerOk;
    hide NodeAt;
    hide Places;
    InHands(g, s, k, n);
    var s' := DoEndScan(s, k, n, cache, ready);
    EndScanWorker(g, s, k);
    EndScanShape(g, s, k);
    hide *;
    forall u: nat
      ensures Hand(s.workers[k])[u] == Hand(s'.workers[k])[u] + if u == n then 1 else 0
    {
      EndScanHand(n, targets, i, cache, ready, u);
    }
    NodeKeeps(g, s, s', k, n);
  }

  lemma EndScanShape(g: Graph, s: State, k: nat)
    requires StrongInv(g, s) && IsWorker(s, k) && s.workers[k].Scanning? && IsNode(g, s.workers[k].n)
    requires s.workers[k].i == |s.workers[k].targets| && NodeAt(g, s.workers[k].n, s.nodes[s.workers[k].n], 1, s.failed)
    requires InGraph(g, s.workers[k]) && WorkerOk(g, s, s.workers[k])
    ensures var Scanning(n, _, _, cache, ready) := s.workers[k];
      var s' := DoEndScan(s, k, n, cache, ready);
      && (cache.None? ==> ready == [])
      && |s'.workers| == |s.workers| && s'.workers == s.workers[k := s'.workers[k]] && s'.start == s.start && s'.pool == s.pool
      && s'.workers[k] == (if cache.None? then Returning else Continue(cache.value, ready))
      && |s'.nodes| == |s.nodes| && s'.nodes == s.nodes[n := s'.nodes[n]] && s'.failed == s.failed
      && s'.nodes[n].left == s.nodes[n].left && s'.nodes[n].waiting == s.nodes[n].waiting
      && NodeAt(g, n, s'.nodes[n], 0, s'.failed)
  {
    var Scanning(n, targets, i, _, _) := s.workers[k];
    assert targets[i..] == [];
    hide StrongInv;
  }

  lemma AddSlotsKeeps(g: Graph, s: State, k: nat, parent: int)
    requires StrongInv(g, s) && IsWorker(s, k) && s.workers[k].Counting?
    ensures StrongInv(g, Goto(s, k, Publishing(s.workers[k].next, s.workers[k].ready)).(parent := parent))
  {
    hide NodeOk;
    hide EdgeOk;
    assert WorkerOk(g, s, s.workers[k]) && InGraph(g, s.workers[k]);
    MoveKeeps(g, s, Goto(s, k, Publishing(s.workers[k].next, s.workers[k].ready)).(parent := parent), k);
  }

  lemma PublishHand(next: nat, ready: seq<nat>)
    requires ready != []
    ensures Hand(Publishing(next, ready)) == Hand(if |ready| == 1 then Busy(next) else Publishing(next, ready[1..])) + multiset{ready[0]}
  {
    assert ready == [ready[0]] + ready[1..];
  }

  lemma PublishKeeps(g: Graph, s: State, k: nat)
    requires StrongInv(g, s) && IsWorker(s, k) && s.workers[k].Publishing? && s.workers[k].ready != []
    ensures StrongInv(g, DoPublish(s, k, s.workers[k].next, s.workers[k].ready))
  {
    var Publishing(next, ready) := s.workers[k];
    assert WorkerOk(g, s, s.workers[k]) && InGraph(g, s.workers[k]);
    hide StrongInv;
    PublishWorker(g, s, next, ready);
    hide WorkerOk;
    hide InGraph;
    PublishHand(next, ready);
    hide Hand;
    MoveKeeps(g, s, DoPublish(s, k, next, ready), k);
  }

  lemma PublishWorker(g: Graph, s: State, next: nat, ready: seq<nat>)
    requires ValidGraph(g) && InGraph(g, Publishing(next, ready)) && |s.nodes| == |g.kinds|
    requires WorkerOk(g, s, Publishing(next, ready))
    ensures var c := if |ready| == 1 then Busy(next) else Publishing(next, ready[1..]);
      InGraph(g, c) && WorkerOk(g, s, c)
    ensures PhaseIs(s, ready[0], Ready)
  {
    assert ready[0] in ready && forall v :: v in ready[1..] ==> v in ready;
  }

  lemma ReturnKeeps(g: Graph, base: nat, s: State, k: nat)
    requires StrongInv(g, s) && IsWorker(s, k) && s.workers[k].Returning?
    ensures StrongInv(g, DoReturn(s, k, base))
  {
    hide NodeOk;
    hide EdgeOk;
    MoveKeeps(g, s, DoReturn(s, k, base), k);
  }

  /** The successor about to be signalled waits for the node that scans. */
  lemma TargetWaits(g: Graph, s: State, k: nat)
    requires StrongInv(g, s) && IsWorker(s, k) && s.workers[k].Scanning? && s.workers[k].i < |s.workers[k].targets|
    ensures var Scanning(n, targets, i, cache, ready) := s.workers[k]; var v := targets[i];
      && n < |s.nodes| && v < |s.nodes| && v != n && s.nodes[v].phase.NotReady? && n in s.nodes[v].waiting
      && s.nodes[n].phase.Restored? && s.nodes[n].left == targets[i..]
      && NodeAt(g, v, s.nodes[v], 0, s.failed) && Places(s)[v] == 0
      && NodeAt(g, n, s.nodes[n], 1, s.failed) && Hand(s.workers[k])[n] == 1 && Places(s)[n] == 1
  {
    var Scanning(n, targets, i, cache, ready) := s.workers[k];
    assert InGraph(g, s.workers[k]) && targets[i] in targets;
    InHands(g, s, k, n);
    assert targets[i..][0] == targets[i];
    assert targets[i] in multiset(s.nodes[n].left);
    assert EdgeOk(g, s, n, targets[i]) && NodeOk(g, s, targets[i]);
  }

  lemma ArriveWaiting(waiting: multiset<nat>, n: nat)
    requires n in waiting
    ensures |waiting - multiset{n}| == |waiting| - 1 && (|waiting| == 1 ==> waiting - multiset{n} == multiset{})
  {
    assert |waiting - multiset{n}| == |waiting| - 1;
  }

  /** What the arrival of n at its next target v does to the state. */
  ghost predicate Arrived(g: Graph, s: State, s': State, k: nat, n: nat, v: nat) {
    && IsWorker(s, k) && s.workers[k].Scanning? && n < |s.nodes| && v < |s.nodes| && v != n
    && n < |g.succ| && n < |g.preds| && n < |g.kinds| && v < |g.succ| && v < |g.preds| && v < |g.kinds|
    && s'.start == s.start && s'.pool == s.pool && s'.failed == s.failed
    && |s'.workers| == |s.workers| && s'.workers == s.workers[k := s'.workers[k]]
    && |s'.nodes| == |s.nodes| && s'.nodes == s.nodes[n := s'.nodes[n]][v := s'.nodes[v]]
    && var Scanning(_, targets, i, cache, ready) := s.workers[k];
       var ok := s.nodes[v].join == 1;
       && i < |targets| && targets[i] == v && s.workers[k].n == n
       && s'.nodes[n] == s.nodes[n].(left := targets[i + 1..]) && s.nodes[n].left == targets[i..]
       && s'.nodes[v].left == s.nodes[v].left && n in s.nodes[v].waiting
       && s'.nodes[v].waiting == s.nodes[v].waiting - multiset{n}
       && s.nodes[n].phase.Restored? && s.nodes[v].phase.NotReady?
       && s'.nodes[v].phase == (if ok then Ready else NotReady)
       && NodeAt(g, v, s'.nodes[v], if ok then 1 else 0, s.failed) && NodeAt(g, n, s'.nodes[n], 1, s.failed)
       && s'.workers[k] == Scanning(n, targets, i + 1, if ok && cache.None? then Some(v) else cache,
                                    if ok && cache.Some? then ready + [v] else ready)
  }

  predicate DagLengths(g: Graph, s: State) {
    |g.succ| == |g.kinds| && |g.preds| == |g.kinds| && |s.nodes| == |g.kinds|
  }

  lemma ArriveTarget(g: Graph, v: nat, x: Node, y: Node, n: nat, failed: bool)
    requires v < |g.succ| && v < |g.preds| && v < |g.kinds| && x.phase.NotReady? && NodeAt(g, v, x, 0, failed) && n in x.waiting
    requires y == x.(join := x.join - 1, waiting := x.waiting - multiset{n}, phase := if x.join == 1 then Ready else NotReady)
    ensures NodeAt(g, v, y, if x.join == 1 then 1 else 0, failed)
  {
    ArriveWaiting(x.waiting, n);
  }

  lemma ArriveSource(g: Graph, n: nat, x: Node, left: seq<nat>, failed: bool)
    requires n < |g.succ| && n < |g.preds| && n < |g.kinds| && x.phase.Restored? && NodeAt(g, n, x, 1, failed)
    ensures NodeAt(g, n, x.(left := left), 1, failed)
  {
  }

  /** DoArrive spelled out. */
  lemma ArriveEffect(s: State, k: nat, n: nat, targets: seq<nat>, i: nat, cache: Option<nat>, ready: seq<nat>)
    requires IsWorker(s, k) && n < |s.nodes| && i < |targets| && targets[i] < |s.nodes| && targets[i] != n
    requires s.nodes[n].left == targets[i..]
    ensures var s', v := DoArrive(s, k, n, targets, i, cache, ready), targets[i];
      var x, ok := s.nodes[v], s.nodes[v].join == 1;
      && s'.start == s.start && s'.pool == s.pool && s'.failed == s.failed
      && |s'.workers| == |s.workers| && s'.workers == s.workers[k := s'.workers[k]]
      && |s'.nodes| == |s.nodes| && s'.nodes == s.nodes[n := s'.nodes[n]][v := s'.nodes[v]]
      && s'.nodes[n] == s.nodes[n].(left := targets[i + 1..])
      && s'.nodes[v] == x.(join := x.join - 1, waiting := x.waiting - multiset{n}, phase := if ok then Ready else x.phase)
      && s'.workers[k] == Scanning(n, targets, i + 1, if ok && cache.None? then Some(v) else cache,
                                   if ok && cache.Some? then ready + [v] else ready)
  {
    assert targets[i..][1..] == targets[i + 1..];
  }

  lemma ArriveShape(g: Graph, s: State, k: nat, n: nat, v: nat)
    requires DagLengths(g, s) && IsWorker(s, k) && s.workers[k].Scanning? && n < |s.nodes| && v < |s.nodes| && v != n
    requires var c := s.workers[k];
      c.n == n && c.i < |c.targets| && c.targets[c.i] == v && s.nodes[n].left == c.targets[c.i..]
    requires s.nodes[v].phase.NotReady? && n in s.nodes[v].waiting && s.nodes[n].phase.Restored?
    requires NodeAt(g, v, s.nodes[v], 0, s.failed) && NodeAt(g, n, s.nodes[n], 1, s.failed)
    ensures var Scanning(_, targets, i, cache, ready) := s.workers[k];
      Arrived(g, s, DoArrive(s, k, n, targets, i, cache, ready), k, n, v)
  {
    hide NodeAt;
    hide DoArrive;
    var Scanning(_, targets, i, cache, ready) := s.workers[k];
    var s' := DoArrive(s, k, n, targets, i, cache, ready);
    ArriveEffect(s, k, n, targets, i, cache, ready);
    ArriveTarget(g, v, s.nodes[v], s'.nodes[v], n, s.failed);
    ArriveSource(g, n, s.nodes[n], targets[i + 1..], s.failed);
  }

  lemma ArriveEdges(g: Graph, s: State, s': State, n: nat, v: nat, targets: seq<nat>, i: nat)
    requires n < |s.nodes| && v < |s.nodes| && v != n && |s'.nodes| == |s.nodes| == |g.kinds| && i < |targets| && targets[i] == v
    requires s'.nodes == s.nodes[n := s'.nodes[n]][v := s'.nodes[v]]
    requires s'.nodes[n].left == targets[i + 1..] && s.nodes[n].left == targets[i..]
    requires s'.nodes[n].waiting == s.nodes[n].waiting && s'.nodes[v].left == s.nodes[v].left
    requires n in s.nodes[v].waiting && s'.nodes[v].waiting == s.nodes[v].waiting - multiset{n}
    requires forall u, w :: 0 <= u < |s.nodes| && 0 <= w < |s.nodes| ==> EdgeOk(g, s, u, w)
    ensures forall u, w :: 0 <= u < |s.nodes| && 0 <= w < |s.nodes| ==> EdgeOk(g, s', u, w)
  {
    assert targets[i..] == [v] + targets[i + 1..];
    forall u, w | 0 <= u < |s.nodes| && 0 <= w < |s.nodes|
      ensures EdgeOk(g, s', u, w)
    {
      assert EdgeOk(g, s, u, w);
      var one := if u == n && w == v then 1 else 0;
      assert multiset(s'.nodes[u].left)[w] == multiset(s.nodes[u].left)[w] - one;
      assert s'.nodes[w].waiting[u] == s.nodes[w].waiting[u] - one;
    }
  }

  lemma ArriveHand(n: nat, targets: seq<nat>, i: nat, v: nat, cache: Option<nat>, ready: seq<nat>, ok: bool, u: nat)
    requires i < |targets|
    ensures var c := Scanning(n, targets, i + 1, if ok && cache.None? then Some(v) else cache,
                              if ok && cache.Some? then ready + [v] else ready);
      Hand(c)[u] == Hand(Scanning(n, targets, i, cache, ready))[u] + if ok && u == v then 1 else 0
  {
    ScanHand(n, targets, i, cache, ready, u);
    var cache1, ready1 := if ok && cache.None? then Some(v) else cache, if ok && cache.Some? then ready + [v] else ready;
    ScanHand(n, targets, i + 1, cache1, ready1, u);
    assert multiset(ready + [v])[u] == multiset(ready)[u] + if u == v then 1 else 0;
    hide Hand;
  }

  lemma ArrivePlaces(g: Graph, s: State, s': State, k: nat, n: nat, v: nat)
    requires Arrived(g, s, s', k, n, v) && Places(s)[v] == 0 && Places(s)[n] == 1
    ensures forall u: nat :: u != v ==> Places(s')[u] == Places(s)[u]
    ensures n < |g.kinds| && v < |g.kinds| && NodeOk(g, s', n) && NodeOk(g, s', v)
  {
    hide *;
    ArrivedNodes(g, s, s', k, n, v);
    var ok := s.nodes[v].join == 1;
    ArrivedHand(g, s, s', k, n, v);
    NodeAtPlace(g, s', n, 1);
    NodeAtPlace(g, s', v, if ok then 1 else 0);
  }

  lemma ArrivedHand(g: Graph, s: State, s': State, k: nat, n: nat, v: nat)
    requires Arrived(g, s, s', k, n, v)
    ensures v < |s.nodes| && forall u: nat :: Places(s')[u] == Places(s)[u] + if s.nodes[v].join == 1 && u == v then 1 else 0
  {
    hide *;
    ArrivedNodes(g, s, s', k, n, v);
    var c, ok := s.workers[k], s.nodes[v].join == 1;
    forall u: nat
      ensures Places(s')[u] == Places(s)[u] + if ok && u == v then 1 else 0
    {
      ArrivePlace(s, s', k, n, v, c.targets, c.i, c.cache, c.ready, ok, u);
    }
  }

  lemma ArrivePlace(s: State, s': State, k: nat, n: nat, v: nat, targets: seq<nat>, i: nat, cache: Option<nat>,
                    ready: seq<nat>, ok: bool, u: nat)
    requires IsWorker(s, k) && |s'.workers| == |s.workers| && s'.workers == s.workers[k := s'.workers[k]]
    requires s'.start == s.start && s'.pool == s.pool && i < |targets| && s.workers[k] == Scanning(n, targets, i, cache, ready)
    requires s'.workers[k] == Scanning(n, targets, i + 1, if ok && cache.None? then Some(v) else cache,
                                       if ok && cache.Some? then ready + [v] else ready)
    ensures Places(s')[u] == Places(s)[u] + if ok && u == v then 1 else 0
  {
    hide *;
    ArriveHand(n, targets, i, v, cache, ready, ok, u);
    MovePlaces(s, s', k, u);
  }

  lemma ArrivedNodes(g: Graph, s: State, s': State, k: nat, n: nat, v: nat)
    requires Arrived(g, s, s', k, n, v)
    ensures v != n && |s'.nodes| == |s.nodes| && n < |s'.nodes| && v < |s'.nodes| && |s'.workers| == |s.workers| && s'.failed == s.failed
    ensures k < |s.workers| && IsWorker(s, k) && s'.workers == s.workers[k := s'.workers[k]] && s'.start == s.start && s'.pool == s.pool
    ensures var c, ok := s.workers[k], s.nodes[v].join == 1;
      && c.Scanning? && c.n == n && c.i < |c.targets|
      && s'.workers[k] == Scanning(n, c.targets, c.i + 1, if ok && c.cache.None? then Some(v) else c.cache,
                                   if ok && c.cache.Some? then c.ready + [v] else c.ready)
    ensures n < |g.succ| && n < |g.preds| && n < |g.kinds| && v < |g.succ| && v < |g.preds| && v < |g.kinds|
    ensures NodeAt(g, v, s'.nodes[v], if s.nodes[v].join == 1 then 1 else 0, s'.failed) && NodeAt(g, n, s'.nodes[n], 1, s'.failed)
  {
    hide NodeAt;
  }

  lemma NodeAtPlace(g: Graph, s: State, v: nat, places: nat)
    requires v < |g.succ| && v < |g.preds| && v < |g.kinds| && v < |s.nodes| && Places(s)[v] == places
    requires NodeAt(g, v, s.nodes[v], places, s.failed)
    ensures NodeOk(g, s, v)
  {
    hide NodeAt;
    hide Places;
  }

  lemma ArriveWorker(g: Graph, s: State, s': State, k: nat, n: nat, v: nat)
    requires ValidGraph(g) && |s.nodes| == |g.kinds| && Arrived(g, s, s', k, n, v)
    requires InGraph(g, s.workers[k]) && WorkerOk(g, s, s.workers[k])
    ensures InGraph(g, s'.workers[k]) && WorkerOk(g, s', s'.workers[k])
  {
    hide NodeAt;
    var Scanning(_, targets, i, cache, ready) := s.workers[k];
    assert v in targets;
    assert forall u :: u in ready + [v] ==> u in ready || u == v;
  }

  lemma ArriveKeeps(g: Graph, s: State, k: nat)
    requires StrongInv(g, s) && IsWorker(s, k) && s.workers[k].Scanning? && s.workers[k].i < |s.workers[k].targets|
    ensures var Scanning(n, targets, i, cache, ready) := s.workers[k];
      n < |s.nodes| && targets[i] < |s.nodes| && StrongInv(g, DoArrive(s, k, n, targets, i, cache, ready))
  {
    TargetWaits(g, s, k);
    var Scanning(n, targets, i, cache, ready) := s.workers[k];
    ArriveShape(g, s, k, n, targets[i]);
    var s' := DoArrive(s, k, n, targets, i, cache, ready);
    hide DoArrive;
    hide NodeAt;
    assert InGraph(g, s.workers[k]) && WorkerOk(g, s, s.workers[k]);
    ArrivedKeeps(g, s, s', k, n, targets[i]);
  }

  lemma ArrivedKeeps(g: Graph, s: State, s': State, k: nat, n: nat, v: nat)
    requires StrongInv(g, s) && Arrived(g, s, s', k, n, v) && InGraph(g, s.workers[k]) && WorkerOk(g, s, s.workers[k])
    requires Places(s)[v] == 0 && Places(s)[n] == 1 && Hand(s.workers[k])[n] == 1
    ensures StrongInv(g, s')
  {
    hide Hand;
    hide NodeAt;
    hide WorkerOk;
    hide InGraph;
    hide Places;
    hide NodeOk;
    ArrivePlaces(g, s, s', k, n, v);
    ArriveWorker(g, s, s', k, n, v);
    ArriveEdges(g, s, s', n, v, s.workers[k].targets, s.workers[k].i);
    hide EdgeOk;
    assert WellFormed(g, s');
    hide StrongInv;
    StepKeeps(g, s, s', k, {n, v});
  }

  lemma StartKeeps(g: Graph, base: nat, s: State, a: Action)
    requires StrongInv(g, s) && Enabled(g, s, a) && (a.CountSources? || a.PushSource?)
    ensures StrongInv(g, Apply(g, base, s, a))
  {
    var s' := Apply(g, base, s, a);
    StartPlaces(g, base, s, a);
    assert s'.nodes == s.nodes && s'.workers == s.workers && s'.failed == s.failed;
    assert forall v :: v in s'.start.sources ==> v in s.start.sources;
    assert forall v :: v in s'.pool ==> v in s.pool || v in s.start.sources;
    hide Apply;
    hide Enabled;
    StartFrame(g, s, s');
  }

  lemma StartPlaces(g: Graph, base: nat, s: State, a: Action)
    requires WellFormed(g, s) && Enabled(g, s, a) && (a.CountSources? || a.PushSource?)
    ensures Places(Apply(g, base, s, a)) == Places(s)
  {
    if a.PushSource? {
      assert s.start.sources == [s.start.sources[0]] + s.start.sources[1..];
    }
  }

  lemma StartFrame(g: Graph, s: State, s': State)
    requires StrongInv(g, s) && s'.nodes == s.nodes && s'.workers == s.workers && s'.failed == s.failed && Places(s') == Places(s)
    requires forall v :: v in s'.start.sources ==> v in s.start.sources
    requires forall v :: v in s'.pool ==> v in s.pool || v in s.start.sources
    ensures StrongInv(g, s')
  {
    hide Places;
    hide NodeAt;
    hide InGraph;
    SameEdges(g, s, s');
    forall v | 0 <= v < |s.nodes|
      ensures NodeOk(g, s', v)
    {
      assert NodeOk(g, s, v);
    }
    hide NodeOk;
    hide EdgeOk;
    forall k | 0 <= k < |s.workers|
      ensures WorkerOk(g, s', s'.workers[k])
    {
      assert WorkerOk(g, s, s.workers[k]);
    }
  }

  lemma StrongStep(g: Graph, base: nat, s: State, a: Action)
    requires StrongInv(g, s) && IsStrong(g) && Enabled(g, s, a)
    ensures StrongInv(g, Apply(g, base, s, a))
  {
    assert a.CountSources? || a.PushSource? || (InGraph(g, s.workers[a.k]) && WorkerOk(g, s, s.workers[a.k]));
    hide StrongInv;
    match a
    case CountSources => StartKeeps(g, base, s, a);
    case PushSource => StartKeeps(g, base, s, a);
    case Take(k, n) => TakeKeeps(g, s, k, n);
    case RunBody(k) => RunBodyKeeps(g, s, k);
    case Restore(k) => RestoreKeeps(g, s, k);
    case Choose(k, targets, exceptional) => ChooseKeeps(g, s, k, targets, exceptional);
    case Arrive(k) => ArriveKeeps(g, s, k);
    case EndScan(k) => EndScanKeeps(g, s, k);
    case AddSlots(k) => AddSlotsKeeps(g, s, k, Apply(g, base, s, a).parent);
    case Publish(k) => PublishKeeps(g, s, k);
    case Return(k) => ReturnKeeps(g, base, s, k);
  }

  // ---------------------------------------------------------------------------------
  // Complete runs
  // ---------------------------------------------------------------------------------

  lemma SetUpStrong(g: Graph, base: nat, s: State)
    requires IsStrong(g) && IsSetUp(g, base, s)
    ensures StrongInv(g, s)
  {
    NoSlots(s.workers);
    forall v | 0 <= v < |s.nodes|
      ensures NodeOk(g, s, v)
    {
      AllStrong(g, v);
      hide Weight;
      DistinctOnce(s.start.sources, v);
      assert Places(s)[v] == multiset(s.start.sources)[v];
    }
    forall u, v | 0 <= u < |s.nodes| && 0 <= v < |s.nodes|
      ensures EdgeOk(g, s, u, v)
    {
      assert multiset(g.succ[u])[v] == multiset(g.preds[v])[u];
    }
  }

  lemma {:induction false} DistinctOnce(c: seq<nat>, v: nat)
    requires Distinct(c)
    ensures multiset(c)[v] == if v in c then 1 else 0
  {
    if c != [] {
      assert c == [c[0]] + c[1..];
      DistinctOnce(c[1..], v);
    }
  }

  lemma {:induction false} RunStrong(g: Graph, base: nat, run: seq<State>, acts: seq<Action>, i: nat)
    requires IsStrong(g) && IsRun(g, base, run, acts) && i < |run|
    ensures StrongInv(g, run[i])
  {
    hide *;
    RunStart(g, base, run, acts);
    if i == 0 {
      SetUpStrong(g, base, run[0]);
    } else {
      RunStrong(g, base, run, acts, i - 1);
      RunStep(g, base, run, acts, i - 1);
      StrongStep(g, base, run[i - 1], acts[i - 1]);
    }
  }

  /**
   * In every schedule of a graph without jumps, cyclic or not, whatever its branches select and whoever fails: a node
   * runs at most once, and only after every predecessor has run.
   */
  lemma RunsOnceAfterPredecessors(g: Graph, base: nat, run: seq<State>, acts: seq<Action>, i: nat, v: nat)
    requires IsStrong(g) && IsRun(g, base, run, acts) && i < |run| && IsNode(g, v)
    ensures |run[i].nodes| == |g.kinds| && |g.preds| == |g.kinds| && run[i].nodes[v].runs <= 1
    ensures run[i].nodes[v].runs == 1 ==> forall u: nat :: u in g.preds[v] ==> IsNode(g, u) && run[i].nodes[u].runs == 1
  {
    RunStrong(g, base, run, acts, i);
    var s := run[i];
    assert NodeOk(g, s, v);
    if s.nodes[v].runs == 1 {
      forall u: nat | u in g.preds[v]
        ensures IsNode(g, u) && s.nodes[u].runs == 1
      {
        assert NodeOk(g, s, u) && EdgeOk(g, s, u, v);
        assert u in multiset(g.preds[v]);
        assert multiset(g.succ[u])[v] > 0;
      }
    }
  }

  /** No activation is anywhere: queued, in a worker's hands, or among the sources to be pushed. */
  lemma NothingHeld(g: Graph, base: nat, s: State, v: nat)
    requires SlotInv(g, base, s) && s.start.PushingSources? && s.parent == base
    ensures Places(s)[v] == 0
  {
    hide TotalSlots;
    assert |s.pool| >= s.pool[v];
    HandsAreSlots(s.workers, v);
    assert |multiset(s.start.sources)| >= multiset(s.start.sources)[v];
  }

  lemma {:induction false} HandsAreSlots(workers: seq<Pc>, v: nat)
    requires TotalSlots(workers) == 0
    ensures AllHands(workers)[v] == 0
  {
    if workers != [] {
      HandsAreSlots(workers[1..], v);
    }
  }

  /** A node that never became ready waits for one of lower rank that did not run either; there is none. */
  lemma {:induction false} AllRan(g: Graph, rank: seq<nat>, s: State, v: nat)
    requires IsDag(g, rank) && StrongInv(g, s) && IsNode(g, v) && !s.failed && forall u: nat :: Places(s)[u] == 0
    ensures s.nodes[v].phase.Done?
    decreases rank[v]
  {
    hide Places;
    assert NodeOk(g, s, v);
    if s.nodes[v].phase.NotReady? {
      assert |s.nodes[v].waiting| > 0;
      var u :| u in s.nodes[v].waiting;
      WaitingIsEdge(g, s, u, v);
      assert NodeOk(g, s, u);
      AllRan(g, rank, s, u);
    }
  }

  lemma WaitingIsEdge(g: Graph, s: State, u: nat, v: nat)
    requires StrongInv(g, s) && IsNode(g, v) && s.nodes[v].phase.NotReady? && u in s.nodes[v].waiting
    ensures IsNode(g, u) && v in g.succ[u] && (g.kinds[u].Task? ==> s.nodes[u].left != [])
  {
    assert NodeOk(g, s, v);
    assert s.nodes[v].waiting[u] <= multiset(g.preds[v])[u];
    assert u in g.preds[v];
    assert IsNode(g, u) && EdgeOk(g, s, u, v);
    assert v in multiset(g.succ[u]);
    if g.kinds[u].Task? { assert v in multiset(s.nodes[u].left); }
  }

  /**
   * When the parent's counter is back at its base after the sources were counted, every node of the graph has run
   * exactly once and every join counter is back at its weight; until then the counter is above its base.
   */
  lemma BaseMeansComplete(g: Graph, rank: seq<nat>, base: nat, run: seq<State>, acts: seq<Action>, i: nat)
    requires IsDag(g, rank) && IsRun(g, base, run, acts) && i < |run|
    requires run[i].start.PushingSources? && !run[i].failed
    ensures |run[i].nodes| == |g.kinds| && ValidGraph(g)
    ensures run[i].parent == base <==>
      run[i].start.sources == [] && run[i].pool == multiset{} && (forall k: nat :: IsWorker(run[i], k) ==> run[i].workers[k].Free?)
    ensures run[i].parent == base ==>
      forall v: nat :: IsNode(g, v) ==> run[i].nodes[v].runs == 1 && run[i].nodes[v].join == Weight(g, v)
  {
    var s := run[i];
    DagIsStrong(g, rank);
    RunStrong(g, base, run, acts, i);
    RunSlots(g, base, run, acts, i);
    BaseMeansIdle(g, base, s);
    if s.parent == base {
      forall v: nat
        ensures Places(s)[v] == 0
      {
        NothingHeld(g, base, s, v);
      }
      forall v: nat | IsNode(g, v)
        ensures s.nodes[v].runs == 1 && s.nodes[v].join == Weight(g, v)
      {
        AllRan(g, rank, s, v);
        AllStrong(g, v);
        assert NodeOk(g, s, v);
      }
    }
  }

  lemma BaseMeansIdle(g: Graph, base: nat, s: State)
    requires SlotInv(g, base, s) && s.start.PushingSources?
    ensures s.parent == base <==>
      s.start.sources == [] && s.pool == multiset{} && forall k: nat :: IsWorker(s, k) ==> s.workers[k].Free?
  {
    if s.parent == base {
      forall k: nat | IsWorker(s, k)
        ensures s.workers[k].Free?
      {
        SlotsOfOne(s.workers, k);
      }
    }
    if forall k: nat :: IsWorker(s, k) ==> s.workers[k].Free? {
      NoSlots(s.workers);
    }
  }

  /** While the counter is above its base some action is enabled: a run cannot get stuck before it is complete. */
  lemma NeverStuck(g: Graph, base: nat, run: seq<State>, acts: seq<Action>, i: nat) returns (a: Action)
    requires IsStrong(g) && IsRun(g, base, run, acts) && i < |run| && |run[i].workers| > 0
    requires run[i].start.PushingSources? && run[i].parent > base
    ensures WellFormed(g, run[i]) && Enabled(g, run[i], a)
  {
    var s := run[i];
    RunStrong(g, base, run, acts, i);
    RunSlots(g, base, run, acts, i);
    if s.start.sources != [] {
      a := PushSource;
    } else if exists k: nat :: IsWorker(s, k) && !s.workers[k].Free? {
      var k: nat :| IsWorker(s, k) && !s.workers[k].Free?;
      a := BusyMoves(g, s, k);
    } else {
      NoSlots(s.workers);
      var v :| v in s.pool;
      a := Take(0, v);
    }
  }

  lemma BusyMoves(g: Graph, s: State, k: nat) returns (a: Action)
    requires StrongInv(g, s) && IsWorker(s, k) && !s.workers[k].Free?
    ensures Enabled(g, s, a)
  {
    assert InGraph(g, s.workers[k]) && WorkerOk(g, s, s.workers[k]);
    hide StrongInv;
    match s.workers[k]
    case Busy(_) => a := RunBody(k);
    case Restoring(_) => a := Restore(k);
    case Choosing(n) => a := Choose(k, if g.kinds[n].Task? then g.succ[n] else [], false);
    case Scanning(_, targets, i, _, _) => a := if i < |targets| then Arrive(k) else EndScan(k);
    case Counting(_, _) => a := AddSlots(k);
    case Publishing(_, _) => a := Publish(k);
    case Returning => a := Return(k);
  }
}
