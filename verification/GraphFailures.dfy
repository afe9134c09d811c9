// Runs of acyclic graphs in which nodes end with an exception, and how often the end of a run is observed.

module GraphFailures {
  import opened Common
  import opened GraphProtocol
  import opened GraphSlots
  import opened GraphDag

  /** A node that is done without having arrived at any of its successors, of which it has some: it ended with an exception. */
  predicate FailedAt(g: Graph, s: State, u: nat) {
    u < |s.nodes| && u < |g.succ| && s.nodes[u].phase.Done? && s.nodes[u].left != []
  }

  /** A path along the edges. */
  ghost predicate IsPath(g: Graph, path: seq<nat>) {
    && |path| >= 2 && (forall k :: 0 <= k < |path| ==> IsNode(g, path[k]))
    && |g.succ| == |g.kinds|
    && forall k :: 0 <= k < |path| - 1 ==> path[k + 1] in g.succ[path[k]]
  }

  /** v is a strict descendant of a node that ended with an exception. */
  ghost predicate BelowFailure(g: Graph, s: State, v: nat) {
    exists path: seq<nat> :: IsPath(g, path) && FailedAt(g, s, path[0]) && path[|path| - 1] == v
  }

  /** With no activation left a node has arrived everywhere, or nowhere. */
  lemma AtRest(g: Graph, s: State, v: nat)
    requires StrongInv(g, s) && IsNode(g, v) && Places(s)[v] == 0
    ensures |s.nodes| == |g.kinds| == |g.succ| == |g.preds|
    ensures s.nodes[v].phase.NotReady? || s.nodes[v].phase.Done?
    ensures s.nodes[v].phase.NotReady? <==> s.nodes[v].runs == 0
    ensures g.kinds[v].Task? ==> s.nodes[v].left == [] || s.nodes[v].left == g.succ[v]
    ensures s.nodes[v].phase.NotReady? ==> s.nodes[v].left == g.succ[v] && s.nodes[v].waiting != multiset{}
    ensures s.nodes[v].phase.Done? ==> s.nodes[v].waiting == multiset{} && s.nodes[v].join == |g.preds[v]|
  {
    assert NodeOk(g, s, v);
    hide Places;
  }

  /** An arrival that is still to come, from both ends of the edge. */
  lemma StillToCome(g: Graph, s: State, u: nat, v: nat)
    requires StrongInv(g, s) && IsNode(g, u) && IsNode(g, v) && v in g.succ[u] && Places(s)[v] == 0
    requires s.nodes[u].left == g.succ[u]
    ensures s.nodes[v].phase.NotReady?
  {
    AtRest(g, s, v);
    assert EdgeOk(g, s, u, v);
    hide StrongInv;
    assert multiset(g.succ[u])[v] > 0;
  }

  /** Everything below a failure has not run. */
  lemma {:induction false} BelowHasNotRun(g: Graph, s: State, path: seq<nat>)
    requires StrongInv(g, s) && IsPath(g, path) && path[0] < |s.nodes| && s.nodes[path[0]].left == g.succ[path[0]]
    requires forall u: nat :: Places(s)[u] == 0
    ensures path[|path| - 1] < |s.nodes| && s.nodes[path[|path| - 1]].phase.NotReady?
  {
    hide Places;
    var v := path[0 + 1];
    StillToCome(g, s, path[0], v);
    AtRest(g, s, v);
    hide StrongInv;
    if |path| > 2 {
      var rest := path[1..];
      assert IsPath(g, rest) by {
        forall k | 0 <= k < |rest| - 1 ensures rest[k + 1] in g.succ[rest[k]] { assert path[k + 1 + 1] in g.succ[path[k + 1]]; }
      }
      BelowHasNotRun(g, s, rest);
    }
  }

  /** A node that has not run is below a failure: it waits for a node that failed, or for one that has not run either. */
  lemma {:induction false} NotRunIsBelow(g: Graph, rank: seq<nat>, s: State, v: nat) returns (path: seq<nat>)
    requires IsDag(g, rank) && StrongInv(g, s) && IsNode(g, v) && v < |s.nodes| && s.nodes[v].phase.NotReady?
    requires forall u: nat :: Places(s)[u] == 0
    ensures IsPath(g, path) && FailedAt(g, s, path[0]) && path[|path| - 1] == v
    decreases rank[v]
  {
    hide Places;
    AtRest(g, s, v);
    var u :| u in s.nodes[v].waiting;
    WaitingIsEdge(g, s, u, v);
    AtRest(g, s, u);
    if s.nodes[u].phase.Done? {
      path := [u, v];
    } else {
      var before := NotRunIsBelow(g, rank, s, u);
      path := before + [v];
      forall k | 0 <= k < |path| - 1 ensures path[k + 1] in g.succ[path[k]] {
        if k + 1 < |before| { assert before[k + 1] in g.succ[before[k]]; }
      }
    }
  }

  /**
   * When the parent's counter is back at its base after the sources were counted, with or without exceptions: a node
   * has not run exactly if it is a strict descendant of a node that ended with an exception; every other node has run
   * exactly once and its join counter is back at its weight.
   */
  lemma NotRunExactlyBelowFailures(g: Graph, rank: seq<nat>, base: nat, run: seq<State>, acts: seq<Action>, i: nat, v: nat)
    requires IsDag(g, rank) && IsRun(g, base, run, acts) && i < |run| && IsNode(g, v)
    requires run[i].start.PushingSources? && run[i].parent == base
    ensures ValidGraph(g) && |run[i].nodes| == |g.kinds|
    ensures run[i].nodes[v].runs == 0 <==> BelowFailure(g, run[i], v)
    ensures run[i].nodes[v].runs != 0 ==> run[i].nodes[v].runs == 1 && run[i].nodes[v].join == Weight(g, v)
  {
    var s := run[i];
    RunStrong(g, base, run, acts, i);
    RunSlots(g, base, run, acts, i);
    forall u: nat ensures Places(s)[u] == 0 { NothingHeld(g, base, s, u); }
    hide Places;
    AtRest(g, s, v);
    AllStrong(g, v);
    if s.nodes[v].runs == 0 {
      var path := NotRunIsBelow(g, rank, s, v);
    }
    if BelowFailure(g, s, v) {
      var path: seq<nat> :| IsPath(g, path) && FailedAt(g, s, path[0]) && path[|path| - 1] == v;
      AtRest(g, s, path[0]);
      BelowHasNotRun(g, s, path);
    }
    assert NodeOk(g, s, v);
  }

  // ---------------------------------------------------------------------------------
  // The end of a run
  // ---------------------------------------------------------------------------------

  /** Before the sources are counted nothing happens; afterwards the end has been observed exactly if it is reached. */
  predicate FiredOk(base: nat, s: State) {
    match s.start
    case CountingSources(sources) => s.fired == 0 && s.parent == base && sources != []
    case PushingSources(_) => s.fired == if s.parent == base then 1 else 0
  }

  lemma FiredStep(g: Graph, base: nat, s: State, a: Action)
    requires SlotInv(g, base, s) && Enabled(g, s, a) && FiredOk(base, s)
    ensures FiredOk(base, Apply(g, base, s, a))
  {
    if s.parent == base { NothingEnabled(g, base, s, a); }
    StepSlots(g, base, s, a);
    OnlyReturnGivesBack(g, base, s, a);
    StartStays(g, base, s, a);
    hide Apply;
    hide Enabled;
    hide WellFormed;
  }

  lemma StartStays(g: Graph, base: nat, s: State, a: Action)
    requires WellFormed(g, s) && Enabled(g, s, a)
    ensures a.CountSources? <==> s.start.CountingSources? && Apply(g, base, s, a).start.PushingSources?
    ensures s.start.PushingSources? ==> Apply(g, base, s, a).start.PushingSources?
    ensures a.CountSources? ==> Apply(g, base, s, a).parent == s.parent + |s.start.sources|
    ensures !a.CountSources? && !a.Return? ==> Apply(g, base, s, a).parent >= s.parent
  {
    hide InGraph;
    hide Weight;
    hide Selects;
  }

  /** At the base nobody has anything to do, but to count the sources. */
  lemma NothingEnabled(g: Graph, base: nat, s: State, a: Action)
    requires SlotInv(g, base, s) && Enabled(g, s, a) && s.parent == base
    ensures a.CountSources? && s.start.CountingSources?
  {
    if s.workers != [] && !a.CountSources? && !a.PushSource? && IsWorker(s, a.k) { SlotsOfOne(s.workers, a.k); }
    if a.Take? { assert |s.pool| >= s.pool[a.n]; }
    hide InGraph;
    hide Selects;
    hide TotalSlots;
  }

  /**
   * In every run of every graph that has a source, with all kinds of nodes and exceptions: the parent's counter is
   * brought back to its base once, and once it is there the run is over.
   */
  lemma {:induction false} EndIsSeenOnce(g: Graph, base: nat, run: seq<State>, acts: seq<Action>, i: nat)
    requires IsRun(g, base, run, acts) && i < |run| && run[0].start.sources != []
    ensures FiredOk(base, run[i])
    ensures run[i].start.PushingSources? && run[i].parent == base ==> i == |acts|
  {
    hide *;
    RunStart(g, base, run, acts);
    RunSlots(g, base, run, acts, i);
    if i == 0 {
      SetUpFired(g, base, run[0]);
    } else {
      EndIsSeenOnce(g, base, run, acts, i - 1);
      RunSlots(g, base, run, acts, i - 1);
      RunStep(g, base, run, acts, i - 1);
      FiredStep(g, base, run[i - 1], acts[i - 1]);
    }
    if i < |acts| && run[i].start.PushingSources? && run[i].parent == base {
      RunStep(g, base, run, acts, i);
      NothingEnabled(g, base, run[i], acts[i]);
    }
  }

  lemma SetUpFired(g: Graph, base: nat, s: State)
    requires IsSetUp(g, base, s) && s.start.sources != []
    ensures FiredOk(base, s)
  {
  }
}
