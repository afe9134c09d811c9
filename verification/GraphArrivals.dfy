// The join counters of a run in any graph, with jumps, cycles and exceptions: every change of a counter is accounted
// for, every chosen target is handled once and in order, and an activation appears or disappears only as it should.

module GraphArrivals {
  import opened Common
  import opened GraphProtocol
  import opened GraphSlots
  import opened GraphDag

  // ---------------------------------------------------------------------------------
  // What an action does to node v
  // ---------------------------------------------------------------------------------

  /** The node that arrives at v by this action. */
  predicate ArrivesFrom(s: State, a: Action, u: nat, v: nat) {
    && a.Arrive? && IsWorker(s, a.k) && s.workers[a.k].Scanning?
    && var c := s.workers[a.k]; c.n == u && c.i < |c.targets| && c.targets[c.i] == v
  }

  predicate Arrives(s: State, a: Action, v: nat) {
    a.Arrive? && IsWorker(s, a.k) && s.workers[a.k].Scanning? && ArrivesFrom(s, a, s.workers[a.k].n, v)
  }

  predicate Forces(s: State, a: Action, v: nat) {
    && a.Force? && IsWorker(s, a.k) && s.workers[a.k].Jumping?
    && var c := s.workers[a.k]; c.i < |c.targets| && c.targets[c.i] == v
  }

  predicate Restores(s: State, a: Action, v: nat) {
    a.Restore? && IsWorker(s, a.k) && s.workers[a.k] == Restoring(v)
  }

  lemma CounterKept(g: Graph, base: nat, s: State, a: Action, v: nat)
    requires WellFormed(g, s) && Enabled(g, s, a) && IsNode(g, v) && !a.Arrive? && !a.Force? && !a.Restore?
    ensures |Apply(g, base, s, a).nodes| == |s.nodes| == |g.kinds|
    ensures Apply(g, base, s, a).nodes[v].join == s.nodes[v].join
  {
    hide Selects;
    hide ValidGraph;
    InRange(g, s, a);
    hide InGraph;
  }

  lemma CounterMoved(g: Graph, base: nat, s: State, a: Action, v: nat)
    requires WellFormed(g, s) && Enabled(g, s, a) && IsNode(g, v) && (a.Arrive? || a.Force? || a.Restore?)
    ensures |Apply(g, base, s, a).nodes| == |s.nodes| == |g.kinds|
    ensures Apply(g, base, s, a).nodes[v].join ==
      if Forces(s, a, v) then 0
      else s.nodes[v].join + (if Restores(s, a, v) then Weight(g, v) else 0) - (if Arrives(s, a, v) then 1 else 0)
  {
    hide Weight;
    hide Selects;
    hide ValidGraph;
    InRange(g, s, a);
    hide InGraph;
  }

  /** A counter changes by an arrival, which takes one, by the node's own tear-down, which adds the weight, or by a jump. */
  lemma CounterStep(g: Graph, base: nat, s: State, a: Action, v: nat)
    requires WellFormed(g, s) && Enabled(g, s, a) && IsNode(g, v)
    ensures |Apply(g, base, s, a).nodes| == |s.nodes| == |g.kinds|
    ensures Apply(g, base, s, a).nodes[v].join ==
      if Forces(s, a, v) then 0
      else s.nodes[v].join + (if Restores(s, a, v) then Weight(g, v) else 0) - (if Arrives(s, a, v) then 1 else 0)
  {
    hide Apply;
    hide Enabled;
    hide WellFormed;
    hide Weight;
    if a.Arrive? || a.Force? || a.Restore? {
      CounterMoved(g, base, s, a, v);
    } else {
      CounterKept(g, base, s, a, v);
    }
  }

  /** The node that an action is about is one of the graph. */
  lemma InRange(g: Graph, s: State, a: Action)
    requires WellFormed(g, s) && Enabled(g, s, a)
    ensures |s.nodes| == |g.kinds|
    ensures a.CountSources? || a.PushSource? || (IsWorker(s, a.k) && a.k < |s.workers| && InGraph(g, s.workers[a.k]))
    ensures !a.CountSources? && !a.PushSource? ==>
      var c := s.workers[a.k];
      && (c.Busy? || c.Restoring? || c.Choosing? || c.Scanning? || c.Jumping? ==> IsNode(g, c.n))
      && ((c.Scanning? || c.Jumping?) && c.i < |c.targets| ==> IsNode(g, c.targets[c.i]))
  {
    hide ValidGraph;
    hide Selects;
    if !a.CountSources? && !a.PushSource? {
      var c := s.workers[a.k];
      assert InGraph(g, c);
      assert (c.Scanning? || c.Jumping?) && c.i < |c.targets| ==> c.targets[c.i] in c.targets;
    }
  }

  // ---------------------------------------------------------------------------------
  // Counting over runs
  // ---------------------------------------------------------------------------------

  function Arrivals(run: seq<State>, acts: seq<Action>, v: nat, j: nat, i: nat): nat
    requires |run| == |acts| + 1 && j <= i < |run|
    decreases i
  {
    if i == j then 0 else Arrivals(run, acts, v, j, i - 1) + if Arrives(run[i - 1], acts[i - 1], v) then 1 else 0
  }

  function ArrivalsFrom(run: seq<State>, acts: seq<Action>, u: nat, v: nat, i: nat): nat
    requires |run| == |acts| + 1 && i < |run|
  {
    if i == 0 then 0 else ArrivalsFrom(run, acts, u, v, i - 1) + if ArrivesFrom(run[i - 1], acts[i - 1], u, v) then 1 else 0
  }

  function Restorations(run: seq<State>, acts: seq<Action>, v: nat, j: nat, i: nat): nat
    requires |run| == |acts| + 1 && j <= i < |run|
    decreases i
  {
    if i == j then 0 else Restorations(run, acts, v, j, i - 1) + if Restores(run[i - 1], acts[i - 1], v) then 1 else 0
  }

  /**
   * In every run of every graph, as long as nobody jumps to v: its counter is what it was, plus the weight for each of
   * its own tear-downs, minus one for each arrival.
   */
  lemma {:induction false} CounterIsAccounted(g: Graph, base: nat, run: seq<State>, acts: seq<Action>, j: nat, i: nat, v: nat)
    requires IsRun(g, base, run, acts) && j <= i < |run| && IsNode(g, v)
    requires forall m :: j <= m < i ==> !Forces(run[m], acts[m], v)
    ensures ValidGraph(g) && |run[j].nodes| == |run[i].nodes| == |g.kinds|
    ensures run[i].nodes[v].join == run[j].nodes[v].join + Weight(g, v) * Restorations(run, acts, v, j, i) - Arrivals(run, acts, v, j, i)
    decreases i
  {
    hide *;
    RunSizes(g, base, run, acts, j);
    RunSizes(g, base, run, acts, i);
    if i == j {
      NoneYet(run, acts, v, j);
    } else {
      CounterIsAccounted(g, base, run, acts, j, i - 1, v);
      RunStep(g, base, run, acts, i - 1);
      CounterStep(g, base, run[i - 1], acts[i - 1], v);
      OneMore(run, acts, v, j, i);
      var w, n := Weight(g, v), Restorations(run, acts, v, j, i - 1);
      assert w * (n + 1) == w * n + w;
    }
  }

  lemma RunSizes(g: Graph, base: nat, run: seq<State>, acts: seq<Action>, i: nat)
    requires IsRun(g, base, run, acts) && i < |run|
    ensures |run| == |acts| + 1 && ValidGraph(g) && WellFormed(g, run[i])
    ensures |run[i].nodes| == |g.kinds| == |g.preds|
  {
    hide *;
    RunStart(g, base, run, acts);
    RunSlots(g, base, run, acts, i);
    SlotShape(g, base, run[i]);
  }

  lemma SlotShape(g: Graph, base: nat, s: State)
    requires SlotInv(g, base, s)
    ensures ValidGraph(g) && WellFormed(g, s) && |s.nodes| == |g.kinds| == |g.preds|
  {
    hide InGraph;
  }

  lemma NoneYet(run: seq<State>, acts: seq<Action>, v: nat, j: nat)
    requires |run| == |acts| + 1 && j < |run|
    ensures Restorations(run, acts, v, j, j) == Arrivals(run, acts, v, j, j) == 0
  {
  }

  lemma OneMore(run: seq<State>, acts: seq<Action>, v: nat, j: nat, i: nat)
    requires |run| == |acts| + 1 && j < i < |run|
    ensures Arrivals(run, acts, v, j, i) == Arrivals(run, acts, v, j, i - 1) + if Arrives(run[i - 1], acts[i - 1], v) then 1 else 0
    ensures Restorations(run, acts, v, j, i)
         == Restorations(run, acts, v, j, i - 1) + if Restores(run[i - 1], acts[i - 1], v) then 1 else 0
  {
    hide Arrives;
    hide Restores;
  }

  /** A jump sets the counter to 0, whatever it was. */
  lemma JumpSetsZero(g: Graph, base: nat, run: seq<State>, acts: seq<Action>, i: nat, v: nat)
    requires IsRun(g, base, run, acts) && i < |acts| && IsNode(g, v) && Forces(run[i], acts[i], v)
    ensures |run[i + 1].nodes| == |g.kinds| && run[i + 1].nodes[v].join == 0
  {
    hide *;
    RunStep(g, base, run, acts, i);
    CounterStep(g, base, run[i], acts[i], v);
  }

  /** How many entries of the list are of one of the kinds. */
  function EntriesOf(g: Graph, entries: seq<nat>, kinds: set<Kind>): nat
    requires forall u: nat :: u in entries ==> IsNode(g, u)
  {
    if entries == [] then 0
    else
      var u := entries[|entries| - 1];
      assert u in entries && IsNode(g, u);
      EntriesOf(g, entries[..|entries| - 1], kinds) + if g.kinds[u] in kinds then 1 else 0
  }

  lemma {:induction false} StrongEntries(g: Graph, entries: seq<nat>)
    requires forall u: nat :: u in entries ==> IsNode(g, u)
    ensures StrongCount(g, entries) == EntriesOf(g, entries, {Task, Branch, MultiBranch})
  {
    if entries != [] {
      var n := |entries| - 1;
      assert entries == entries[..n] + [entries[n]];
      StrongEntries(g, entries[..n]);
      StrongAppend(g, entries[..n], entries[n]);
    }
  }

  lemma {:induction false} StrongAppend(g: Graph, entries: seq<nat>, u: nat)
    requires IsNode(g, u) && forall w: nat :: w in entries ==> IsNode(g, w)
    ensures forall w :: w in entries + [u] ==> IsNode(g, w)
    ensures StrongCount(g, entries + [u]) == StrongCount(g, entries) + if g.kinds[u].Jump? || g.kinds[u].MultiJump? then 0 else 1
  {
    if entries != [] {
      assert (entries + [u])[1..] == entries[1..] + [u] && entries[0] in entries;
      StrongAppend(g, entries[1..], u);
    }
  }

  /** The weight of a node is the number of its incoming edges from Task, Branch and MultiBranch nodes. */
  lemma WeightCounts(g: Graph, v: nat)
    requires ValidGraph(g) && IsNode(g, v)
    ensures v < |g.preds| && (forall u :: u in g.preds[v] ==> IsNode(g, u))
    ensures Weight(g, v) == EntriesOf(g, g.preds[v], {Task, Branch, MultiBranch})
  {
    StrongEntries(g, g.preds[v]);
  }

  // ---------------------------------------------------------------------------------
  // Graphs without jumps: a node runs after everybody has arrived
  // ---------------------------------------------------------------------------------

  lemma WaitingKept(g: Graph, base: nat, s: State, a: Action, v: nat)
    requires WellFormed(g, s) && Enabled(g, s, a) && IsNode(g, v) && !a.Arrive?
    ensures |Apply(g, base, s, a).nodes| == |s.nodes| == |g.kinds|
    ensures Apply(g, base, s, a).nodes[v].waiting == s.nodes[v].waiting
  {
    hide Weight;
    hide Selects;
    hide ValidGraph;
    InRange(g, s, a);
    hide InGraph;
  }

  lemma ArriveWaits(g: Graph, base: nat, s: State, k: nat, u: nat, v: nat)
    requires StrongInv(g, s) && IsStrong(g) && Enabled(g, s, Arrive(k)) && IsNode(g, v)
    ensures |Apply(g, base, s, Arrive(k)).nodes| == |s.nodes| == |g.kinds|
    ensures Apply(g, base, s, Arrive(k)).nodes[v].waiting[u] + (if ArrivesFrom(s, Arrive(k), u, v) then 1 else 0)
         == s.nodes[v].waiting[u]
  {
    hide NodeAt;
    hide NodeOk;
    hide EdgeOk;
    hide WorkerOk;
    hide Places;
    hide Hand;
    hide ValidGraph;
    TargetWaits(g, s, k);
    InRange(g, s, Arrive(k));
    hide StrongInv;
    hide IsStrong;
    hide InGraph;
  }

  lemma WaitingStep(g: Graph, base: nat, s: State, a: Action, u: nat, v: nat)
    requires StrongInv(g, s) && IsStrong(g) && Enabled(g, s, a) && IsNode(g, v)
    ensures |Apply(g, base, s, a).nodes| == |s.nodes| == |g.kinds|
    ensures Apply(g, base, s, a).nodes[v].waiting[u] + (if ArrivesFrom(s, a, u, v) then 1 else 0) == s.nodes[v].waiting[u]
  {
    hide Apply;
    hide WellFormed;
    hide IsStrong;
    if a.Arrive? {
      ArriveWaits(g, base, s, a.k, u, v);
    } else {
      WaitingKept(g, base, s, a, v);
    }
  }

  lemma {:induction false} WaitingIsAccounted(g: Graph, base: nat, run: seq<State>, acts: seq<Action>, i: nat, u: nat, v: nat)
    requires IsStrong(g) && IsRun(g, base, run, acts) && i < |run| && IsNode(g, u) && IsNode(g, v)
    ensures |run| == |acts| + 1 && |run[i].nodes| == |g.kinds| == |g.preds|
    ensures run[i].nodes[v].waiting[u] + ArrivalsFrom(run, acts, u, v, i) == multiset(g.preds[v])[u]
  {
    hide *;
    RunSizes(g, base, run, acts, i);
    if i == 0 {
      RunStart(g, base, run, acts);
      WaitingAtFirst(g, base, run, acts, u, v);
    } else {
      WaitingIsAccounted(g, base, run, acts, i - 1, u, v);
      RunStrong(g, base, run, acts, i - 1);
      RunStep(g, base, run, acts, i - 1);
      WaitingStep(g, base, run[i - 1], acts[i - 1], u, v);
      OneMoreFrom(run, acts, u, v, i);
    }
  }

  lemma WaitingAtFirst(g: Graph, base: nat, run: seq<State>, acts: seq<Action>, u: nat, v: nat)
    requires |run| == |acts| + 1 && IsSetUp(g, base, run[0]) && IsNode(g, v)
    ensures |g.preds| == |g.kinds| && |run[0].nodes| == |g.kinds|
    ensures run[0].nodes[v].waiting == multiset(g.preds[v]) && ArrivalsFrom(run, acts, u, v, 0) == 0
  {
  }

  lemma OneMoreFrom(run: seq<State>, acts: seq<Action>, u: nat, v: nat, i: nat)
    requires |run| == |acts| + 1 && 0 < i < |run|
    ensures ArrivalsFrom(run, acts, u, v, i) == ArrivalsFrom(run, acts, u, v, i - 1) + if ArrivesFrom(run[i - 1], acts[i - 1], u, v) then 1 else 0
  {
    hide ArrivesFrom;
  }

  /**
   * In every run of every graph without jumps, whatever branches select: a node that has run, or is about to, has been
   * arrived at over each of its incoming edges, exactly once each; until then it has not.
   */
  lemma RunsAfterArrivals(g: Graph, base: nat, run: seq<State>, acts: seq<Action>, i: nat, u: nat, v: nat)
    requires IsStrong(g) && IsRun(g, base, run, acts) && i < |run| && IsNode(g, u) && IsNode(g, v)
    ensures |run[i].nodes| == |g.kinds| == |g.preds|
    ensures ArrivalsFrom(run, acts, u, v, i) <= multiset(g.preds[v])[u]
    ensures run[i].nodes[v].runs > 0 || Places(run[i])[v] > 0 ==> ArrivalsFrom(run, acts, u, v, i) == multiset(g.preds[v])[u]
  {
    WaitingIsAccounted(g, base, run, acts, i, u, v);
    RunStrong(g, base, run, acts, i);
    assert NodeOk(g, run[i], v);
    hide ArrivalsFrom;
    hide Places;
  }

  // ---------------------------------------------------------------------------------
  // Every chosen target is handled once, in order
  // ---------------------------------------------------------------------------------

  /**
   * The latest tear-down of a worker: the node, what it chose, the targets it has arrived at or jumped to so far, and
   * those of them that became ready by it.
   */
  datatype TearDown = TearDown(n: nat, targets: seq<nat>, handled: seq<nat>, made: seq<nat>)

  function Account(s: State, a: Action, k: nat, d: TearDown): TearDown {
    if !IsWorker(s, k) then d
    else
      match a
      case Choose(j, targets, _) => if j == k && s.workers[k].Choosing? then TearDown(s.workers[k].n, targets, [], []) else d
      case Arrive(j) =>
        var c := s.workers[k];
        if j == k && c.Scanning? && c.i < |c.targets| then
          var v := c.targets[c.i];
          d.(handled := d.handled + [v], made := d.made + if v < |s.nodes| && s.nodes[v].join == 1 then [v] else [])
        else d
      case Force(j) =>
        var c := s.workers[k];
        if j == k && c.Jumping? && c.i < |c.targets| then
          d.(handled := d.handled + [c.targets[c.i]], made := d.made + [c.targets[c.i]])
        else d
      case _ => d
  }

  function Latest(run: seq<State>, acts: seq<Action>, k: nat, i: nat): TearDown
    requires |run| == |acts| + 1 && i < |run|
  {
    if i == 0 then TearDown(0, [], [], []) else Account(run[i - 1], acts[i - 1], k, Latest(run, acts, k, i - 1))
  }

  ghost predicate TearDownOk(g: Graph, c: Pc, d: TearDown) {
    match c
    case Scanning(n, targets, i, cache, ready) =>
      && n == d.n && targets == d.targets && i <= |targets| && d.handled == targets[..i]
      && IsNode(g, n) && (g.kinds[n].Task? || g.kinds[n].Branch? || g.kinds[n].MultiBranch?)
      && (cache.None? ==> ready == []) && d.made == (if cache.Some? then [cache.value] else []) + ready
    case Jumping(n, targets, i) =>
      && n == d.n && targets == d.targets && i <= |targets| && d.handled == d.made == targets[..i]
      && IsNode(g, n) && (g.kinds[n].Jump? || g.kinds[n].MultiJump?)
    case _ => true
  }

  predicate ByWorker(a: Action, k: nat) { !a.CountSources? && !a.PushSource? && a.k == k }

  lemma OthersLeaveWorker(g: Graph, base: nat, s: State, a: Action, k: nat)
    requires WellFormed(g, s) && Enabled(g, s, a) && IsWorker(s, k) && !ByWorker(a, k)
    ensures IsWorker(Apply(g, base, s, a), k) && Apply(g, base, s, a).workers[k] == s.workers[k]
  {
    hide ValidGraph;
    hide Weight;
    hide Selects;
    assert a.CountSources? || a.PushSource? || InGraph(g, s.workers[a.k]);
  }

  lemma HandlingStep(g: Graph, base: nat, s: State, a: Action, k: nat, d: TearDown)
    requires WellFormed(g, s) && Enabled(g, s, a) && IsWorker(s, k) && TearDownOk(g, s.workers[k], d)
    requires (a.Arrive? || a.Force?) && a.k == k
    ensures IsWorker(Apply(g, base, s, a), k) && TearDownOk(g, Apply(g, base, s, a).workers[k], Account(s, a, k, d))
  {
    hide ValidGraph;
    hide Weight;
    hide Selects;
    InRange(g, s, a);
    hide InGraph;
    var c := s.workers[k];
    assert c.targets[..c.i + 1] == c.targets[..c.i] + [c.targets[c.i]];
  }

  lemma StagesStep(g: Graph, base: nat, s: State, a: Action, k: nat, d: TearDown)
    requires WellFormed(g, s) && Enabled(g, s, a) && IsWorker(s, k) && TearDownOk(g, s.workers[k], d)
    requires ByWorker(a, k) && !a.Arrive? && !a.Force?
    ensures IsWorker(Apply(g, base, s, a), k) && TearDownOk(g, Apply(g, base, s, a).workers[k], Account(s, a, k, d))
  {
    hide ValidGraph;
    hide Weight;
    hide Selects;
    InRange(g, s, a);
    hide InGraph;
  }

  lemma TearDownStep(g: Graph, base: nat, s: State, a: Action, k: nat, d: TearDown)
    requires WellFormed(g, s) && Enabled(g, s, a) && IsWorker(s, k) && TearDownOk(g, s.workers[k], d)
    ensures IsWorker(Apply(g, base, s, a), k) && TearDownOk(g, Apply(g, base, s, a).workers[k], Account(s, a, k, d))
  {
    hide Apply;
    hide Enabled;
    hide WellFormed;
    hide TearDownOk;
    if !ByWorker(a, k) {
      OthersLeaveWorker(g, base, s, a, k);
      assert Account(s, a, k, d) == d;
    } else if a.Arrive? || a.Force? {
      HandlingStep(g, base, s, a, k, d);
    } else {
      StagesStep(g, base, s, a, k, d);
    }
  }

  lemma {:induction false} TearDownHolds(g: Graph, base: nat, run: seq<State>, acts: seq<Action>, i: nat, k: nat)
    requires IsRun(g, base, run, acts) && i < |run| && IsWorker(run[0], k)
    ensures |run| == |acts| + 1 && IsWorker(run[i], k) && TearDownOk(g, run[i].workers[k], Latest(run, acts, k, i))
  {
    hide *;
    RunStart(g, base, run, acts);
    if i == 0 {
      AllFree(g, base, run[0], k, Latest(run, acts, k, 0));
    } else {
      TearDownHolds(g, base, run, acts, i - 1, k);
      RunStep(g, base, run, acts, i - 1);
      TearDownStep(g, base, run[i - 1], acts[i - 1], k, Latest(run, acts, k, i - 1));
      LatestNext(run, acts, k, i);
    }
  }

  lemma AllFree(g: Graph, base: nat, s: State, k: nat, d: TearDown)
    requires IsSetUp(g, base, s) && IsWorker(s, k)
    ensures TearDownOk(g, s.workers[k], d)
  {
  }

  lemma LatestNext(run: seq<State>, acts: seq<Action>, k: nat, i: nat)
    requires |run| == |acts| + 1 && 0 < i < |run|
    ensures Latest(run, acts, k, i) == Account(run[i - 1], acts[i - 1], k, Latest(run, acts, k, i - 1))
  {
    hide Account;
  }

  /**
   * When a node that waits for nobody's permission, a Jump or MultiJump, ends its tear-down: it has jumped to each of
   * its targets once, in order, and all of them go on from here, one in this worker's hands and the others to be
   * published.
   */
  lemma JumpsToAll(g: Graph, base: nat, run: seq<State>, acts: seq<Action>, i: nat, k: nat)
    requires IsRun(g, base, run, acts) && i < |acts| && IsWorker(run[0], k) && acts[i] == EndJump(k)
    ensures |run| == |acts| + 1 && IsWorker(run[i + 1], k) && IsWorker(run[i], k) && run[i].workers[k].Jumping?
    ensures var d := Latest(run, acts, k, i);
      && d.handled == d.targets != [] && IsNode(g, d.n) && (g.kinds[d.n].Jump? || g.kinds[d.n].MultiJump?)
      && Hand(run[i + 1].workers[k]) == multiset(d.targets)
  {
    hide IsRun;
    hide Latest;
    RunStep(g, base, run, acts, i);
    TearDownHolds(g, base, run, acts, i, k);
    JumpEnds(g, base, run[i], k, Latest(run, acts, k, i));
  }

  lemma JumpEnds(g: Graph, base: nat, s: State, k: nat, d: TearDown)
    requires WellFormed(g, s) && Enabled(g, s, EndJump(k)) && TearDownOk(g, s.workers[k], d)
    ensures IsWorker(s, k) && s.workers[k].Jumping? && IsWorker(Apply(g, base, s, EndJump(k)), k)
    ensures d.handled == d.targets != [] && IsNode(g, d.n) && (g.kinds[d.n].Jump? || g.kinds[d.n].MultiJump?)
    ensures Hand(Apply(g, base, s, EndJump(k)).workers[k]) == multiset(d.targets)
  {
    hide ValidGraph;
    InRange(g, s, EndJump(k));
    var c := s.workers[k];
    assert c.targets[..c.i] == c.targets;
    LastApart(c.targets);
    hide Hand;
  }

  lemma LastApart(c: seq<nat>)
    requires c != []
    ensures multiset(c) == multiset{c[|c| - 1]} + multiset(c[..|c| - 1])
    ensures Hand(Continue(c[|c| - 1], c[..|c| - 1])) == multiset(c)
  {
    assert c == c[..|c| - 1] + [c[|c| - 1]];
  }

  /**
   * When a Task, Branch or MultiBranch ends its scan: it has arrived at each of its targets once, in order, and exactly
   * those go on from here whose counter it took from 1 to 0.
   */
  lemma ScansAll(g: Graph, base: nat, run: seq<State>, acts: seq<Action>, i: nat, k: nat)
    requires IsRun(g, base, run, acts) && i < |acts| && IsWorker(run[0], k) && acts[i] == EndScan(k)
    ensures |run| == |acts| + 1 && IsWorker(run[i + 1], k) && IsWorker(run[i], k) && run[i].workers[k].Scanning?
    ensures var d := Latest(run, acts, k, i);
      && d.handled == d.targets && IsNode(g, d.n) && (g.kinds[d.n].Task? || g.kinds[d.n].Branch? || g.kinds[d.n].MultiBranch?)
      && Hand(run[i + 1].workers[k]) == multiset(d.made)
  {
    hide IsRun;
    hide Latest;
    RunStep(g, base, run, acts, i);
    TearDownHolds(g, base, run, acts, i, k);
    ScanEnds(g, base, run[i], k, Latest(run, acts, k, i));
  }

  lemma ScanEnds(g: Graph, base: nat, s: State, k: nat, d: TearDown)
    requires WellFormed(g, s) && Enabled(g, s, EndScan(k)) && TearDownOk(g, s.workers[k], d)
    ensures IsWorker(s, k) && s.workers[k].Scanning? && IsWorker(Apply(g, base, s, EndScan(k)), k)
    ensures d.handled == d.targets && IsNode(g, d.n) && (g.kinds[d.n].Task? || g.kinds[d.n].Branch? || g.kinds[d.n].MultiBranch?)
    ensures Hand(Apply(g, base, s, EndScan(k)).workers[k]) == multiset(d.made)
  {
    hide ValidGraph;
    InRange(g, s, EndScan(k));
    hide InGraph;
    var c := s.workers[k];
    assert c.targets[..c.i] == c.targets;
    if c.cache.Some? { CacheHand(c.cache.value, c.ready); }
    hide Hand;
  }

  lemma CacheHand(next: nat, ready: seq<nat>)
    ensures Hand(Continue(next, ready)) == multiset([next] + ready)
    ensures Hand(Returning) == multiset([])
  {
  }

  /** A tear-down goes no further than its choice exactly if there was an exception, or a selecting node chose nothing. */
  lemma ChooseEndsIff(g: Graph, base: nat, s: State, k: nat, targets: seq<nat>, exceptional: bool)
    requires WellFormed(g, s) && Enabled(g, s, Choose(k, targets, exceptional))
    ensures var s' := Apply(g, base, s, Choose(k, targets, exceptional));
      && IsWorker(s, k) && IsWorker(s', k) && s.workers[k].Choosing? && IsNode(g, s.workers[k].n)
      && (s'.workers[k].Returning? <==> exceptional || (targets == [] && !g.kinds[s.workers[k].n].Task?))
      && (!s'.workers[k].Returning? ==> s'.workers[k].Scanning? || s'.workers[k].Jumping?)
  {
    hide ValidGraph;
  }

  // ---------------------------------------------------------------------------------
  // Activations
  // ---------------------------------------------------------------------------------

  /** The activations that come to be by an action: a last arrival's target, or all that were jumped to. */
  function Born(s: State, a: Action): multiset<nat> {
    match a
    case Arrive(k) =>
      if IsWorker(s, k) && s.workers[k].Scanning? && s.workers[k].i < |s.workers[k].targets| then
        var v := s.workers[k].targets[s.workers[k].i];
        if v < |s.nodes| && s.nodes[v].join == 1 then multiset{v} else multiset{}
      else multiset{}
    case EndJump(k) => if IsWorker(s, k) && s.workers[k].Jumping? then multiset(s.workers[k].targets) else multiset{}
    case _ => multiset{}
  }

  /** The activations that are over: a tear-down that has chosen nothing, or handled everything. */
  function Over(g: Graph, s: State, a: Action): multiset<nat> {
    match a
    case Choose(k, targets, exceptional) =>
      if IsWorker(s, k) && s.workers[k].Choosing? && IsNode(g, s.workers[k].n)
         && (exceptional || (targets == [] && !g.kinds[s.workers[k].n].Task?)) then multiset{s.workers[k].n}
      else multiset{}
    case EndScan(k) => if IsWorker(s, k) && s.workers[k].Scanning? then multiset{s.workers[k].n} else multiset{}
    case EndJump(k) => if IsWorker(s, k) && s.workers[k].Jumping? then multiset{s.workers[k].n} else multiset{}
    case _ => multiset{}
  }

  /** A scanning worker that has kept nothing back for itself has nothing to publish. */
  ghost predicate ScanOk(c: Pc) { c.Scanning? && c.cache.None? ==> c.ready == [] }

  /** The worker's hands and the pool together change by what is born and what is over. */
  ghost predicate HandsChange(g: Graph, s: State, a: Action, s': State, k: nat, v: nat) {
    && IsWorker(s, k) && |s'.workers| == |s.workers| && s'.workers == s.workers[k := s'.workers[k]] && s'.start == s.start
    && Hand(s'.workers[k])[v] + s'.pool[v] + Over(g, s, a)[v] == Hand(s.workers[k])[v] + s.pool[v] + Born(s, a)[v]
  }

  lemma HandsStep(g: Graph, base: nat, s: State, a: Action, v: nat)
    requires WellFormed(g, s) && Enabled(g, s, a) && !a.CountSources? && !a.PushSource? && ScanOk(s.workers[a.k])
    ensures HandsChange(g, s, a, Apply(g, base, s, a), a.k, v)
  {
    hide HandsChange;
    InRange(g, s, a);
    if a.Arrive? { ArriveHands(g, base, s, a.k, v); }
    else if a.EndScan? || a.EndJump? { EndHands(g, base, s, a, v); }
    else { OtherHands(g, base, s, a, v); }
  }

  /** Where worker k stands after the action, and the pool. */
  ghost predicate MovesTo(s: State, s': State, k: nat, c: Pc) {
    IsWorker(s, k) && s'.workers == s.workers[k := c] && s'.start == s.start
  }

  lemma ArriveMoves(g: Graph, base: nat, s: State, k: nat)
    requires WellFormed(g, s) && Enabled(g, s, Arrive(k))
    ensures IsWorker(s, k) && s.workers[k].Scanning? && s.workers[k].i < |s.workers[k].targets|
    ensures var Scanning(n, targets, i, cache, ready) := s.workers[k];
      && targets[i] < |s.nodes|
      && var ok := s.nodes[targets[i]].join == 1; var s' := Apply(g, base, s, Arrive(k));
         && s'.pool == s.pool
         && MovesTo(s, s', k, Scanning(n, targets, i + 1, if ok && cache.None? then Some(targets[i]) else cache,
                                       if ok && cache.Some? then ready + [targets[i]] else ready))
  {
    hide ValidGraph;
    hide Selects;
    InRange(g, s, Arrive(k));
    hide InGraph;
  }

  lemma ArriveHands(g: Graph, base: nat, s: State, k: nat, v: nat)
    requires WellFormed(g, s) && Enabled(g, s, Arrive(k)) && ScanOk(s.workers[k])
    ensures HandsChange(g, s, Arrive(k), Apply(g, base, s, Arrive(k)), k, v)
  {
    hide Apply;
    hide Enabled;
    hide WellFormed;
    hide Hand;
    ArriveMoves(g, base, s, k);
    var Scanning(n, targets, i, cache, ready) := s.workers[k];
    ArriveHand(n, targets, i, targets[i], cache, ready, s.nodes[targets[i]].join == 1, v);
  }

  lemma EndScanMoves(g: Graph, base: nat, s: State, k: nat)
    requires WellFormed(g, s) && Enabled(g, s, EndScan(k))
    ensures IsWorker(s, k) && s.workers[k].Scanning?
    ensures var Scanning(_, _, _, cache, ready) := s.workers[k]; var s' := Apply(g, base, s, EndScan(k));
      s'.pool == s.pool && MovesTo(s, s', k, if cache.None? then Returning else Continue(cache.value, ready))
  {
    hide ValidGraph;
    hide Selects;
    InRange(g, s, EndScan(k));
    hide InGraph;
  }

  lemma EndJumpMoves(g: Graph, base: nat, s: State, k: nat)
    requires WellFormed(g, s) && Enabled(g, s, EndJump(k))
    ensures IsWorker(s, k) && s.workers[k].Jumping? && s.workers[k].targets != []
    ensures var c := s.workers[k].targets; var s' := Apply(g, base, s, EndJump(k));
      s'.pool == s.pool && MovesTo(s, s', k, Continue(c[|c| - 1], c[..|c| - 1]))
  {
    hide ValidGraph;
    hide Selects;
    InRange(g, s, EndJump(k));
  }

  lemma EndHands(g: Graph, base: nat, s: State, a: Action, v: nat)
    requires WellFormed(g, s) && Enabled(g, s, a) && (a.EndScan? || a.EndJump?) && ScanOk(s.workers[a.k])
    ensures HandsChange(g, s, a, Apply(g, base, s, a), a.k, v)
  {
    hide Apply;
    hide Enabled;
    hide WellFormed;
    hide Hand;
    if a.EndScan? {
      EndScanMoves(g, base, s, a.k);
      var c := s.workers[a.k];
      EndScanHand(c.n, c.targets, c.i, c.cache, c.ready, v);
    } else {
      EndJumpMoves(g, base, s, a.k);
      var c := s.workers[a.k];
      LastApart(c.targets);
      JumpHand(c.n, c.targets, c.i, v);
    }
  }

  lemma JumpHand(n: nat, targets: seq<nat>, i: nat, v: nat)
    ensures Hand(Jumping(n, targets, i))[v] == if v == n then 1 else 0
  {
  }

  lemma OtherHands(g: Graph, base: nat, s: State, a: Action, v: nat)
    requires WellFormed(g, s) && Enabled(g, s, a) && !a.CountSources? && !a.PushSource?
    requires !a.Arrive? && !a.EndScan? && !a.EndJump?
    ensures HandsChange(g, s, a, Apply(g, base, s, a), a.k, v)
  {
    if a.Take? || a.AddSlots? || a.Publish? || a.Return? || a.Force? {
      QueueHands(g, base, s, a, v);
    } else {
      NodeHands(g, base, s, a, v);
    }
  }

  /** Where a worker goes that takes an activation, or publishes, or returns its slot. */
  lemma QueueMoves(g: Graph, base: nat, s: State, a: Action)
    requires WellFormed(g, s) && Enabled(g, s, a) && (a.Take? || a.AddSlots? || a.Publish? || a.Return? || a.Force?)
    ensures IsWorker(s, a.k) && (a.Take? ==> a.n in s.pool) && (a.Publish? ==> s.workers[a.k].Publishing? && s.workers[a.k].ready != [])
    ensures a.AddSlots? ==> s.workers[a.k].Counting?
    ensures var s', c := Apply(g, base, s, a), s.workers[a.k];
      match a
      case Take(k, n) => c.Free? && MovesTo(s, s', k, Busy(n)) && s'.pool == s.pool - multiset{n}
      case AddSlots(k) => MovesTo(s, s', k, Publishing(c.next, c.ready)) && s'.pool == s.pool
      case Publish(k) =>
        && MovesTo(s, s', k, if |c.ready| == 1 then Busy(c.next) else Publishing(c.next, c.ready[1..]))
        && s'.pool == s.pool + multiset{c.ready[0]}
      case Return(k) => c.Returning? && MovesTo(s, s', k, Free) && s'.pool == s.pool
      case Force(k) => c.Jumping? && MovesTo(s, s', k, Jumping(c.n, c.targets, c.i + 1)) && s'.pool == s.pool
      case _ => true
  {
    hide ValidGraph;
    hide Selects;
    hide Weight;
    InRange(g, s, a);
  }

  lemma QueueHands(g: Graph, base: nat, s: State, a: Action, v: nat)
    requires WellFormed(g, s) && Enabled(g, s, a) && (a.Take? || a.AddSlots? || a.Publish? || a.Return? || a.Force?)
    ensures HandsChange(g, s, a, Apply(g, base, s, a), a.k, v)
  {
    hide Apply;
    hide Enabled;
    hide WellFormed;
    hide Hand;
    hide Born;
    hide Over;
    QueueMoves(g, base, s, a);
    NothingBorn(g, s, a);
    var c := s.workers[a.k];
    match a {
      case Take(_, n) => OneHand(n);
      case AddSlots(_) => CountingHand(c.next, c.ready);
      case Publish(_) => PublishHand(c.next, c.ready);
      case Return(_) => OneHand(0);
      case Force(_) =>
        JumpHand(c.n, c.targets, c.i, v);
        JumpHand(c.n, c.targets, c.i + 1, v);
    }
  }

  lemma OneHand(n: nat)
    ensures Hand(Free) == Hand(Returning) == multiset{}
    ensures Hand(Busy(n)) == Hand(Restoring(n)) == Hand(Choosing(n)) == multiset{n}
    ensures forall targets :: Hand(Scanning(n, targets, 0, None, [])) == Hand(Jumping(n, targets, 0)) == multiset{n}
  {
  }

  lemma CountingHand(next: nat, ready: seq<nat>)
    ensures Hand(Counting(next, ready)) == Hand(Publishing(next, ready))
  {
  }

  lemma NothingBorn(g: Graph, s: State, a: Action)
    requires !a.Arrive? && !a.EndScan? && !a.EndJump?
    ensures Born(s, a) == multiset{}
    ensures !a.Choose? ==> Over(g, s, a) == multiset{}
  {
  }

  /** Where a worker goes that executes a node, restores its counter or chooses. */
  lemma NodeMoves(g: Graph, base: nat, s: State, a: Action)
    requires WellFormed(g, s) && Enabled(g, s, a) && (a.RunBody? || a.Restore? || a.Choose?)
    ensures IsWorker(s, a.k) && (s.workers[a.k].Busy? || s.workers[a.k].Restoring? || s.workers[a.k].Choosing?)
    ensures var s', n := Apply(g, base, s, a), s.workers[a.k].n;
      && s'.pool == s.pool && IsNode(g, n)
      && match a
         case RunBody(k) => s.workers[k].Busy? && MovesTo(s, s', k, Restoring(n))
         case Restore(k) => s.workers[k].Restoring? && MovesTo(s, s', k, Choosing(n))
         case Choose(k, targets, ex) =>
           && s.workers[k].Choosing?
           && MovesTo(s, s', k, if ex || (targets == [] && !g.kinds[n].Task?) then Returning
                                else if Strong(g.kinds[n]) then Scanning(n, targets, 0, None, []) else Jumping(n, targets, 0))
         case _ => true
  {
    hide ValidGraph;
    hide Selects;
    hide Weight;
    InRange(g, s, a);
    hide InGraph;
  }

  lemma NodeHands(g: Graph, base: nat, s: State, a: Action, v: nat)
    requires WellFormed(g, s) && Enabled(g, s, a) && (a.RunBody? || a.Restore? || a.Choose?)
    ensures HandsChange(g, s, a, Apply(g, base, s, a), a.k, v)
  {
    hide Apply;
    hide Enabled;
    hide WellFormed;
    hide Strong;
    hide Hand;
    hide Born;
    NodeMoves(g, base, s, a);
    NothingBorn(g, s, a);
    OneHand(s.workers[a.k].n);
  }

  lemma StartBears(g: Graph, s: State, a: Action)
    requires a.CountSources? || a.PushSource?
    ensures Born(s, a) == Over(g, s, a) == multiset{}
  {
  }

  /**
   * In every run of every graph: an activation, queued, in some worker's hands or a source still to be pushed, comes to
   * be only by the arrival that takes its counter from 1 to 0 or by a jump, and is over only when its tear-down is.
   */
  lemma ActivationsAreAccounted(g: Graph, base: nat, run: seq<State>, acts: seq<Action>, i: nat, v: nat)
    requires IsRun(g, base, run, acts) && i < |acts|
    ensures |run| == |acts| + 1
    ensures Places(run[i + 1])[v] + Over(g, run[i], acts[i])[v] == Places(run[i])[v] + Born(run[i], acts[i])[v]
  {
    hide *;
    RunStep(g, base, run, acts, i);
    var s, a := run[i], acts[i];
    if a.CountSources? || a.PushSource? {
      StartPlaces(g, base, s, a);
      StartBears(g, s, a);
    } else {
      InRange(g, s, a);
      WorkersStay(g, base, run, acts, i, a.k);
      TearDownHolds(g, base, run, acts, i, a.k);
      KeptBack(g, s.workers[a.k], Latest(run, acts, a.k, i));
      HandsStep(g, base, s, a, v);
      ChangeIs(g, s, a, run[i + 1], a.k, v);
      MovePlaces(s, run[i + 1], a.k, v);
    }
  }

  lemma ChangeIs(g: Graph, s: State, a: Action, s': State, k: nat, v: nat)
    requires HandsChange(g, s, a, s', k, v)
    ensures IsWorker(s, k) && |s'.workers| == |s.workers| && s'.workers == s.workers[k := s'.workers[k]] && s'.start == s.start
    ensures Hand(s'.workers[k])[v] + s'.pool[v] + Over(g, s, a)[v] == Hand(s.workers[k])[v] + s.pool[v] + Born(s, a)[v]
  {
    hide Hand;
    hide Over;
    hide Born;
  }

  lemma KeptBack(g: Graph, c: Pc, d: TearDown)
    requires TearDownOk(g, c, d)
    ensures ScanOk(c)
  {
  }

  lemma {:induction false} WorkersStay(g: Graph, base: nat, run: seq<State>, acts: seq<Action>, i: nat, k: nat)
    requires IsRun(g, base, run, acts) && i < |run| && IsWorker(run[i], k)
    ensures |run| == |acts| + 1 && IsWorker(run[0], k)
  {
    hide *;
    RunStart(g, base, run, acts);
    if i > 0 {
      RunStep(g, base, run, acts, i - 1);
      SameWorkers(g, base, run[i - 1], acts[i - 1]);
      WorkerStays(run[i - 1], run[i], k);
      WorkersStay(g, base, run, acts, i - 1, k);
    }
  }

  lemma WorkerStays(s: State, s': State, k: nat)
    requires |s'.workers| == |s.workers|
    ensures IsWorker(s', k) <==> IsWorker(s, k)
  {
  }

  lemma SameWorkers(g: Graph, base: nat, s: State, a: Action)
    requires WellFormed(g, s) && Enabled(g, s, a)
    ensures |Apply(g, base, s, a).workers| == |s.workers|
  {
    hide ValidGraph;
    hide Weight;
    hide Selects;
    hide InGraph;
    InRange(g, s, a);
    hide WellFormed;
  }

  // ---------------------------------------------------------------------------------
  // Progress
  // ---------------------------------------------------------------------------------

  /** The stages of a tear-down, */
  function Stage(c: Pc): nat {
    match c
    case Busy(_) => 7
    case Restoring(_) => 6
    case Choosing(_) => 5
    case Scanning(_, _, _, _, _) => 4
    case Jumping(_, _, _) => 4
    case Counting(_, _) => 3
    case Publishing(_, _) => 2
    case Returning => 1
    case Free => 0
  }

  /** and what is left to do within one. */
  function Rest(c: Pc): int {
    match c
    case Scanning(_, targets, i, _, _) => |targets| - i
    case Jumping(_, targets, i) => |targets| - i
    case Publishing(_, ready) => |ready|
    case _ => 0
  }

  /** The worker goes on by action `a` as it should. */
  ghost predicate GoesOn(c: Pc, a: Action, d: Pc) {
    && (c.Free? <==> a.Take?) && (a.Take? ==> d == Busy(a.n))
    && (!c.Free? ==>
          || Stage(d) < Stage(c)
          || (Stage(d) == Stage(c) && 0 <= Rest(d) < Rest(c))
          || (d.Busy? && (a.EndScan? || a.EndJump? || (a.Publish? && c.Publishing? && |c.ready| == 1))))
    && (d.Free? <==> a.Return?)
  }

  lemma HandlingGoesOn(g: Graph, base: nat, s: State, a: Action, k: nat)
    requires WellFormed(g, s) && Enabled(g, s, a) && IsWorker(s, k) && ByWorker(a, k)
    requires a.Arrive? || a.Force? || a.EndScan? || a.EndJump?
    ensures IsWorker(Apply(g, base, s, a), k) && GoesOn(s.workers[k], a, Apply(g, base, s, a).workers[k])
  {
    hide ValidGraph;
    hide Selects;
    hide Weight;
    InRange(g, s, a);
  }

  lemma BodyGoesOn(g: Graph, base: nat, s: State, a: Action, k: nat)
    requires WellFormed(g, s) && Enabled(g, s, a) && IsWorker(s, k) && ByWorker(a, k)
    requires a.RunBody? || a.Restore? || a.Choose?
    ensures IsWorker(Apply(g, base, s, a), k) && GoesOn(s.workers[k], a, Apply(g, base, s, a).workers[k])
  {
    hide ValidGraph;
    hide Selects;
    hide Weight;
    InRange(g, s, a);
    hide InGraph;
  }

  lemma QueueGoesOn(g: Graph, base: nat, s: State, a: Action, k: nat)
    requires WellFormed(g, s) && Enabled(g, s, a) && IsWorker(s, k) && ByWorker(a, k)
    requires a.Take? || a.AddSlots? || a.Publish? || a.Return?
    ensures IsWorker(Apply(g, base, s, a), k) && GoesOn(s.workers[k], a, Apply(g, base, s, a).workers[k])
  {
    hide ValidGraph;
    assert InGraph(g, s.workers[k]);
  }

  /**
   * A worker that takes a node is busy with it; each of its own actions brings it to a later stage of the tear-down or
   * leaves less to do within one, until it goes on with a next node or is free again.
   */
  lemma TearDownGoesOn(g: Graph, base: nat, s: State, a: Action, k: nat)
    requires WellFormed(g, s) && Enabled(g, s, a) && IsWorker(s, k) && ByWorker(a, k)
    ensures IsWorker(Apply(g, base, s, a), k) && GoesOn(s.workers[k], a, Apply(g, base, s, a).workers[k])
  {
    hide Apply;
    hide Enabled;
    hide WellFormed;
    hide GoesOn;
    if a.Arrive? || a.Force? || a.EndScan? || a.EndJump? {
      HandlingGoesOn(g, base, s, a, k);
    } else if a.RunBody? || a.Restore? || a.Choose? {
      BodyGoesOn(g, base, s, a, k);
    } else {
      QueueGoesOn(g, base, s, a, k);
    }
  }

  /** The call that starts the run counts all its sources and then pushes them one by one. */
  lemma StartGoesOn(g: Graph, base: nat, s: State, a: Action)
    requires WellFormed(g, s) && Enabled(g, s, a)
    ensures var s' := Apply(g, base, s, a); var left := s.start.sources;
      if a.CountSources? then s.start.CountingSources? && s'.start == PushingSources(left) && s'.parent == s.parent + |left|
      else if a.PushSource? then left != [] && s'.start == PushingSources(left[1..]) && s'.pool == s.pool + multiset{left[0]}
      else s'.start == s.start
  {
    hide ValidGraph;
    hide Selects;
    hide Weight;
    InRange(g, s, a);
    hide InGraph;
  }

  /** A worker in the middle of something always has an action of its own, and so has the starting call. */
  lemma WorkerCanGoOn(g: Graph, s: State, k: nat)
    requires WellFormed(g, s)
    ensures IsWorker(s, k) && !s.workers[k].Free? ==> exists a :: ByWorker(a, k) && Enabled(g, s, a)
    ensures IsWorker(s, k) && s.workers[k].Free? && |s.pool| > 0 ==> exists n :: Enabled(g, s, Take(k, n))
    ensures s.start.CountingSources? ==> Enabled(g, s, CountSources)
    ensures s.start.PushingSources? && s.start.sources != [] ==> Enabled(g, s, PushSource)
  {
    hide ValidGraph;
    if IsWorker(s, k) && !s.workers[k].Free? {
      var c := s.workers[k];
      assert InGraph(g, c);
      if c.Choosing? { CanChoose(g, s, k, c.n); }
      var a := match c
        case Busy(_) => RunBody(k)
        case Restoring(_) => Restore(k)
        case Choosing(n) => Choose(k, if g.kinds[n].Task? then SuccOf(g, n) else [], true)
        case Scanning(_, targets, i, _, _) => if i < |targets| then Arrive(k) else EndScan(k)
        case Jumping(_, targets, i) => if i < |targets| then Force(k) else EndJump(k)
        case Counting(_, _) => AddSlots(k)
        case Publishing(_, _) => Publish(k)
        case _ => Return(k);
      assert ByWorker(a, k) && Enabled(g, s, a);
    }
    if |s.pool| > 0 && IsWorker(s, k) && s.workers[k].Free? {
      var n :| n in s.pool;
      assert Enabled(g, s, Take(k, n));
    }
  }

  lemma CanChoose(g: Graph, s: State, k: nat, n: nat)
    requires WellFormed(g, s) && IsWorker(s, k) && s.workers[k] == Choosing(n)
    ensures IsNode(g, n) && Enabled(g, s, Choose(k, if g.kinds[n].Task? then SuccOf(g, n) else [], true))
  {
    assert InGraph(g, s.workers[k]);
  }

  function SuccOf(g: Graph, n: nat): seq<nat> { if n < |g.succ| then g.succ[n] else [] }
}
