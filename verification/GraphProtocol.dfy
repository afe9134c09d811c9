// One run of a static graph: workers execute nodes, tear them down in one of five ways, and account for
// every activation in the join counter of the graph's parent. Threads interleave at every atomic access.

module GraphProtocol {
  import opened Common

  datatype Kind = Task | Branch | MultiBranch | Jump | MultiJump

  /** The static edges: successors in table order and, from the other end, predecessors. */
  datatype Graph = Graph(kinds: seq<Kind>, succ: seq<seq<nat>>, preds: seq<seq<nat>>)

  predicate IsNode(g: Graph, v: nat) { v < |g.kinds| }

  ghost predicate ValidGraph(g: Graph) {
    && |g.succ| == |g.kinds| && |g.preds| == |g.kinds|
    && (forall u: nat, v: nat :: IsNode(g, u) && v in g.succ[u] ==> IsNode(g, v))
    && (forall u: nat, v: nat :: IsNode(g, v) && u in g.preds[v] ==> IsNode(g, u))
    && (forall u: nat, v: nat :: IsNode(g, u) && IsNode(g, v) ==> multiset(g.succ[u])[v] == multiset(g.preds[v])[u])
  }

  /** Jump and MultiJump nodes are weak predecessors: nobody waits for them. */
  predicate Strong(k: Kind) { !k.Jump? && !k.MultiJump? }

  /** _compute_join_weight: the number of strong entries among the predecessors. */
  function StrongCount(g: Graph, preds: seq<nat>): (n: nat)
    requires forall u: nat :: u in preds ==> IsNode(g, u)
    ensures n <= |preds|
    ensures (forall u: nat :: u in preds ==> IsNode(g, u) && Strong(g.kinds[u])) ==> n == |preds|
  {
    if preds == [] then 0
    else
      var u := preds[0];
      assert u in preds && IsNode(g, u);
      (if Strong(g.kinds[u]) then 1 else 0) + StrongCount(g, preds[1..])
  }

  function Weight(g: Graph, v: nat): nat
    requires ValidGraph(g) && IsNode(g, v)
  {
    StrongCount(g, g.preds[v])
  }

  /** How far a node has come in this run; for graphs in which nodes run once. */
  datatype Phase = NotReady | Ready | Ran | Restored | Done

  datatype Node = Node(
    join: int,
    // history
    runs: nat,
    phase: Phase,
    left: seq<nat>,           // successors it has not arrived at; once some are chosen, those of them
    waiting: multiset<nat>)   // predecessors that have not arrived

  /** Program counters of a worker inside _invoke and the tear-down routines. */
  datatype Pc =
    | Free
    | Busy(n: nat)
    | Restoring(n: nat)
    | Choosing(n: nat)
    | Scanning(n: nat, targets: seq<nat>, i: nat, cache: Option<nat>, ready: seq<nat>)
    | Jumping(n: nat, targets: seq<nat>, i: nat)
    | Counting(next: nat, ready: seq<nat>)
    | Publishing(next: nat, ready: seq<nat>)
    | Returning

  /** The call that starts the run: counts the sources on the parent, then pushes them. */
  datatype Start = CountingSources(sources: seq<nat>) | PushingSources(sources: seq<nat>)

  datatype State = State(
    parent: int,              // the parent's join counter
    nodes: seq<Node>,
    pool: multiset<nat>,      // activations in some queue
    workers: seq<Pc>,
    start: Start,
    // history
    fired: nat,               // how often the counter was brought back to its base
    failed: bool)             // some node of this run ended with an exception

  datatype Action =
    | CountSources
    | PushSource
    | Take(k: nat, n: nat)
    | RunBody(k: nat)
    | Restore(k: nat)
    | Choose(k: nat, targets: seq<nat>, exceptional: bool)
    | Arrive(k: nat)
    | EndScan(k: nat)
    | Force(k: nat)
    | EndJump(k: nat)
    | AddSlots(k: nat)
    | Publish(k: nat)
    | Return(k: nat)

  predicate IsWorker(s: State, k: nat) { k < |s.workers| }

  /** What a node of each kind may choose to continue with: its successors, or some of them, without repetition. */
  ghost predicate Selects(g: Graph, n: nat, targets: seq<nat>)
    requires ValidGraph(g) && IsNode(g, n)
  {
    match g.kinds[n]
    case Task => targets == g.succ[n]
    case Branch => |targets| <= 1 && forall v :: v in targets ==> v in g.succ[n]
    case Jump => |targets| <= 1 && forall v :: v in targets ==> v in g.succ[n]
    case MultiBranch => Distinct(targets) && forall v :: v in targets ==> v in g.succ[n]
    case MultiJump => Distinct(targets) && forall v :: v in targets ==> v in g.succ[n]
  }

  /** Node numbers in a program counter are nodes of the graph. */
  predicate InGraph(g: Graph, c: Pc) {
    match c
    case Free => true
    case Busy(n) => IsNode(g, n)
    case Restoring(n) => IsNode(g, n)
    case Choosing(n) => IsNode(g, n)
    case Scanning(n, targets, i, cache, ready) =>
      && IsNode(g, n) && (forall v :: v in targets ==> IsNode(g, v)) && i <= |targets|
      && (cache.Some? ==> IsNode(g, cache.value)) && (forall v :: v in ready ==> IsNode(g, v))
    case Jumping(n, targets, i) =>
      IsNode(g, n) && (forall v :: v in targets ==> IsNode(g, v)) && i <= |targets| && targets != []
    case Counting(n, ready) => IsNode(g, n) && ready != [] && forall v :: v in ready ==> IsNode(g, v)
    case Publishing(n, ready) => IsNode(g, n) && ready != [] && forall v :: v in ready ==> IsNode(g, v)
    case Returning => true
  }

  ghost predicate WellFormed(g: Graph, s: State) {
    && ValidGraph(g) && |s.nodes| == |g.kinds|
    && (forall k :: 0 <= k < |s.workers| ==> InGraph(g, s.workers[k]))
    && (forall v :: v in s.pool ==> IsNode(g, v))
    && (forall v :: v in s.start.sources ==> IsNode(g, v))
  }

  ghost predicate Enabled(g: Graph, s: State, a: Action)
    requires WellFormed(g, s)
  {
    match a
    case CountSources => s.start.CountingSources?
    case PushSource => s.start.PushingSources? && s.start.sources != []
    case Take(k, n) => IsWorker(s, k) && s.workers[k].Free? && n in s.pool
    case RunBody(k) => IsWorker(s, k) && s.workers[k].Busy?
    case Restore(k) => IsWorker(s, k) && s.workers[k].Restoring?
    case Choose(k, targets, _) =>
      IsWorker(s, k) && (match s.workers[k] case Choosing(n) => IsNode(g, n) && Selects(g, n, targets) case _ => false)
    case Arrive(k) =>
      IsWorker(s, k) && (match s.workers[k] case Scanning(_, targets, i, _, _) => i < |targets| case _ => false)
    case EndScan(k) =>
      IsWorker(s, k) && (match s.workers[k] case Scanning(_, targets, i, _, _) => i == |targets| case _ => false)
    case Force(k) =>
      IsWorker(s, k) && (match s.workers[k] case Jumping(_, targets, i) => i < |targets| case _ => false)
    case EndJump(k) =>
      IsWorker(s, k) && (match s.workers[k] case Jumping(_, targets, i) => i == |targets| case _ => false)
    case AddSlots(k) => IsWorker(s, k) && s.workers[k].Counting?
    case Publish(k) => IsWorker(s, k) && s.workers[k].Publishing?
    case Return(k) => IsWorker(s, k) && s.workers[k].Returning?
  }

  // ---------------------------------------------------------------------------------
  // Actions
  // ---------------------------------------------------------------------------------

  function Goto(s: State, k: nat, c: Pc): State
    requires IsWorker(s, k)
  {
    s.(workers := s.workers[k := c])
  }

  function SetNode(s: State, v: nat, x: Node): State
    requires v < |s.nodes|
  {
    s.(nodes := s.nodes[v := x])
  }

  /** The tear-down has a first successor to go on with; the others need slots of their own. */
  function Continue(next: nat, ready: seq<nat>): Pc {
    if ready == [] then Busy(next) else Counting(next, ready)
  }

  function DoRunBody(s: State, k: nat, n: nat): State
    requires IsWorker(s, k) && n < |s.nodes|
  {
    var x := s.nodes[n];
    Goto(SetNode(s, n, x.(runs := x.runs + 1, phase := Ran)), k, Restoring(n))
  }

  /** The join counter gets its weight back by addition, so early arrivals of the next round are kept. */
  function DoRestore(g: Graph, s: State, k: nat, n: nat): State
    requires WellFormed(g, s) && IsWorker(s, k) && IsNode(g, n)
  {
    var x := s.nodes[n];
    Goto(SetNode(s, n, x.(join := x.join + Weight(g, n), phase := Restored)), k, Choosing(n))
  }

  /** An exception, or no target for a selecting node, ends the propagation; a Task just scans its successors. */
  function DoChoose(g: Graph, s: State, k: nat, n: nat, targets: seq<nat>, exceptional: bool): State
    requires WellFormed(g, s) && IsWorker(s, k) && IsNode(g, n)
  {
    if exceptional || (targets == [] && !g.kinds[n].Task?) then
      Goto(SetNode(s, n, s.nodes[n].(phase := Done)), k, Returning).(failed := s.failed || exceptional)
    else if Strong(g.kinds[n]) then
      Goto(SetNode(s, n, s.nodes[n].(left := targets)), k, Scanning(n, targets, 0, None, []))
    else Goto(s, k, Jumping(n, targets, 0))
  }

  /** One arrival: the one that takes the counter from 1 to 0 makes the successor ready. */
  function DoArrive(s: State, k: nat, n: nat, targets: seq<nat>, i: nat, cache: Option<nat>, ready: seq<nat>): State
    requires IsWorker(s, k) && n < |s.nodes| && i < |targets| && targets[i] < |s.nodes|
  {
    var v := targets[i];
    var x := s.nodes[n];
    var u := SetNode(s, n, x.(left := if x.left == [] then [] else x.left[1..]));
    var y := u.nodes[v];
    var z := y.(join := y.join - 1, waiting := y.waiting - multiset{n});
    if y.join != 1 then Goto(SetNode(u, v, z), k, Scanning(n, targets, i + 1, cache, ready))
    else
      Goto(SetNode(u, v, z.(phase := Ready)), k,
           if cache.None? then Scanning(n, targets, i + 1, Some(v), ready)
           else Scanning(n, targets, i + 1, cache, ready + [v]))
  }

  function DoEndScan(s: State, k: nat, n: nat, cache: Option<nat>, ready: seq<nat>): State
    requires IsWorker(s, k) && n < |s.nodes|
  {
    Goto(SetNode(s, n, s.nodes[n].(phase := Done)), k, if cache.None? then Returning else Continue(cache.value, ready))
  }

  /** A jump does not wait: the target's counter is set to 0. */
  function DoForce(s: State, k: nat, n: nat, targets: seq<nat>, i: nat): State
    requires IsWorker(s, k) && i < |targets| && targets[i] < |s.nodes|
  {
    var y := s.nodes[targets[i]];
    Goto(SetNode(s, targets[i], y.(join := 0, phase := Ready)), k, Jumping(n, targets, i + 1))
  }

  /** The last target inherits the slot. */
  function DoEndJump(s: State, k: nat, targets: seq<nat>): State
    requires IsWorker(s, k) && targets != []
  {
    Goto(s, k, Continue(targets[|targets| - 1], targets[..|targets| - 1]))
  }

  function DoPublish(s: State, k: nat, next: nat, ready: seq<nat>): State
    requires IsWorker(s, k) && ready != []
  {
    Goto(s, k, if |ready| == 1 then Busy(next) else Publishing(next, ready[1..])).(pool := s.pool + multiset{ready[0]})
  }

  /** _schedule_parent: one slot is given back. */
  function DoReturn(s: State, k: nat, base: nat): State
    requires IsWorker(s, k)
  {
    var parent := s.parent - 1;
    Goto(s, k, Free).(parent := parent, fired := s.fired + if parent == base then 1 else 0)
  }

  /** base is the value of the parent's counter before the run. */
  ghost function Apply(g: Graph, base: nat, s: State, a: Action): State
    requires WellFormed(g, s) && Enabled(g, s, a)
  {
    match a
    case CountSources => s.(parent := s.parent + |s.start.sources|, start := PushingSources(s.start.sources))
    case PushSource => s.(pool := s.pool + multiset{s.start.sources[0]}, start := PushingSources(s.start.sources[1..]))
    case Take(k, n) => Goto(s, k, Busy(n)).(pool := s.pool - multiset{n})
    case RunBody(k) => (match s.workers[k] case Busy(n) => assert InGraph(g, s.workers[k]); DoRunBody(s, k, n))
    case Restore(k) => (match s.workers[k] case Restoring(n) => assert InGraph(g, s.workers[k]); DoRestore(g, s, k, n))
    case Choose(k, targets, exceptional) =>
      (match s.workers[k] case Choosing(n) => DoChoose(g, s, k, n, targets, exceptional))
    case Arrive(k) =>
      (match s.workers[k] case Scanning(n, targets, i, cache, ready) =>
        assert InGraph(g, s.workers[k]) && targets[i] in targets; DoArrive(s, k, n, targets, i, cache, ready))
    case EndScan(k) => (match s.workers[k] case Scanning(n, _, _, cache, ready) =>
        assert InGraph(g, s.workers[k]); DoEndScan(s, k, n, cache, ready))
    case Force(k) => (match s.workers[k] case Jumping(n, targets, i) =>
        assert InGraph(g, s.workers[k]) && targets[i] in targets; DoForce(s, k, n, targets, i))
    case EndJump(k) => (match s.workers[k] case Jumping(_, targets, _) => DoEndJump(s, k, targets))
    case AddSlots(k) =>
      (match s.workers[k] case Counting(next, ready) =>
        Goto(s, k, Publishing(next, ready)).(parent := s.parent + |ready|))
    case Publish(k) => (match s.workers[k] case Publishing(next, ready) => DoPublish(s, k, next, ready))
    case Return(k) => DoReturn(s, k, base)
  }

  ghost predicate Step(g: Graph, base: nat, s: State, a: Action, s': State) {
    WellFormed(g, s) && Enabled(g, s, a) && s' == Apply(g, base, s, a)
  }

  // ---------------------------------------------------------------------------------
  // Slots of the parent
  // ---------------------------------------------------------------------------------

  /** The slots of the parent a worker answers for. */
  function Slots(c: Pc): nat {
    match c
    case Free => 0
    case Publishing(_, ready) => 1 + |ready|
    case _ => 1
  }

  function TotalSlots(workers: seq<Pc>): nat {
    if workers == [] then 0 else Slots(workers[0]) + TotalSlots(workers[1..])
  }

  /** The activations that hold a slot: queued, in a worker's hands and counted, or counted and still to be pushed. */
  function Held(s: State): nat {
    |s.pool| + TotalSlots(s.workers) + if s.start.PushingSources? then |s.start.sources| else 0
  }

  /** The counter is its base plus the slots held. */
  ghost predicate SlotInv(g: Graph, base: nat, s: State) {
    && WellFormed(g, s)
    && s.parent == base + Held(s)
  }

  // ---------------------------------------------------------------------------------
  // Runs of graphs without jumps
  // ---------------------------------------------------------------------------------

  /** Task, Branch and MultiBranch nodes only: every edge is waited for. */
  ghost predicate IsStrong(g: Graph) {
    ValidGraph(g) && forall v :: 0 <= v < |g.kinds| ==> Strong(g.kinds[v])
  }

  /** Only Task nodes, and the ranks fall along every edge: no cycles. */
  ghost predicate IsDag(g: Graph, rank: seq<nat>) {
    && ValidGraph(g) && |rank| == |g.kinds|
    && (forall v :: 0 <= v < |g.kinds| ==> g.kinds[v].Task?)
    && (forall u: nat, v: nat :: IsNode(g, u) && IsNode(g, v) && v in g.succ[u] ==> rank[u] < rank[v])
  }

  /** The nodes in a worker's hands. */
  function Hand(c: Pc): multiset<nat> {
    match c
    case Free => multiset{}
    case Busy(n) => multiset{n}
    case Restoring(n) => multiset{n}
    case Choosing(n) => multiset{n}
    case Scanning(n, _, _, cache, ready) =>
      multiset{n} + (if cache.Some? then multiset{cache.value} else multiset{}) + multiset(ready)
    case Jumping(n, _, _) => multiset{n}
    case Counting(next, ready) => multiset{next} + multiset(ready)
    case Publishing(next, ready) => multiset{next} + multiset(ready)
    case Returning => multiset{}
  }

  function AllHands(workers: seq<Pc>): multiset<nat> {
    if workers == [] then multiset{} else Hand(workers[0]) + AllHands(workers[1..])
  }

  /** Where the activations are. */
  function Places(s: State): multiset<nat> {
    s.pool + AllHands(s.workers) + multiset(s.start.sources)
  }

  /** A node of such a run, with the number of places where it is. */
  predicate NodeAt(g: Graph, v: nat, x: Node, places: int, failed: bool)
    requires v < |g.succ| && v < |g.preds| && v < |g.kinds|
  {
    match x.phase
    case NotReady =>
      && x.runs == 0 && x.join == |x.waiting| && x.join > 0 && x.left == g.succ[v] && places == 0
      && x.waiting <= multiset(g.preds[v])
    case Ready => x.runs == 0 && x.join == 0 && x.waiting == multiset{} && x.left == g.succ[v] && places == 1
    case Ran => x.runs == 1 && x.join == 0 && x.waiting == multiset{} && x.left == g.succ[v] && places == 1
    case Restored => x.runs == 1 && x.join == |g.preds[v]| && x.waiting == multiset{} && places == 1
    case Done => x.runs == 1 && x.join == |g.preds[v]| && x.waiting == multiset{} && places == 0
                 && (g.kinds[v].Task? ==> x.left == [] || (failed && x.left == g.succ[v]))
  }

  predicate NodeOk(g: Graph, s: State, v: nat)
    requires v < |g.succ| && v < |g.preds| && v < |g.kinds| && v < |s.nodes|
  {
    NodeAt(g, v, s.nodes[v], Places(s)[v], s.failed)
  }

  /** The arrivals still to come, seen from both ends; a node that selects may never arrive at some it could have. */
  ghost predicate EdgeOk(g: Graph, s: State, u: nat, v: nat)
    requires u < |s.nodes| && v < |s.nodes| && u < |g.kinds|
  {
    if g.kinds[u].Task? then s.nodes[v].waiting[u] == multiset(s.nodes[u].left)[v]
    else s.nodes[v].waiting[u] >= multiset(s.nodes[u].left)[v]
  }

  predicate PhaseIs(s: State, v: nat, p: Phase) { v < |s.nodes| && s.nodes[v].phase == p }

  ghost predicate WorkerOk(g: Graph, s: State, c: Pc)
    requires ValidGraph(g) && InGraph(g, c) && |s.nodes| == |g.kinds|
  {
    match c
    case Free => true
    case Busy(n) => PhaseIs(s, n, Ready)
    case Restoring(n) => PhaseIs(s, n, Ran)
    case Choosing(n) => PhaseIs(s, n, Restored) && s.nodes[n].left == g.succ[n]
    case Scanning(n, targets, i, cache, ready) =>
      && PhaseIs(s, n, Restored) && s.nodes[n].left == targets[i..]
      && (cache.Some? ==> PhaseIs(s, cache.value, Ready)) && (cache.None? ==> ready == [])
      && (forall v :: v in ready ==> PhaseIs(s, v, Ready))
    case Jumping(_, _, _) => false
    case Counting(next, ready) => PhaseIs(s, next, Ready) && forall v :: v in ready ==> PhaseIs(s, v, Ready)
    case Publishing(next, ready) => PhaseIs(s, next, Ready) && forall v :: v in ready ==> PhaseIs(s, v, Ready)
    case Returning => true
  }

  ghost predicate StrongInv(g: Graph, s: State) {
    && WellFormed(g, s)
    && (forall v :: 0 <= v < |s.nodes| ==> NodeOk(g, s, v))
    && (forall u, v :: 0 <= u < |s.nodes| && 0 <= v < |s.nodes| ==> EdgeOk(g, s, u, v))
    && (forall k :: 0 <= k < |s.workers| ==> WorkerOk(g, s, s.workers[k]))
    && (forall v :: v in s.pool ==> PhaseIs(s, v, Ready))
    && (forall v :: v in s.start.sources ==> PhaseIs(s, v, Ready))
  }

  // ---------------------------------------------------------------------------------
  // The set-up of a run
  // ---------------------------------------------------------------------------------

  /** _set_up_graph: sources are the nodes without any predecessor; the counters of the others get their weight. */
  ghost predicate IsSetUp(g: Graph, base: nat, s: State) {
    && WellFormed(g, s) && s.parent == base && s.pool == multiset{} && s.start.CountingSources?
    && (forall k :: 0 <= k < |s.workers| ==> s.workers[k].Free?)
    && Distinct(s.start.sources) && (forall v: nat :: v in s.start.sources <==> IsNode(g, v) && g.preds[v] == [])
    && s.fired == 0 && !s.failed
    && forall v :: 0 <= v < |s.nodes| ==>
         s.nodes[v] == Node(if g.preds[v] == [] then s.nodes[v].join else Weight(g, v), 0,
                            if g.preds[v] == [] then Ready else NotReady, g.succ[v], multiset(g.preds[v]))
         && (g.preds[v] == [] ==> s.nodes[v].join == 0)
  }
}
