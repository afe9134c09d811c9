// The recheck between prepare_wait and commit_wait, round by round: a worker commits only after it has looked at every
// queue but its own, one after the other, each time without finding anything; and a worker that finds nothing does
// commit, unless the executor is being shut down.

module SchedulerRounds {
  import opened Common
  import N = NotifierProtocol
  import opened Scheduler
  import opened SchedulerTheorems

  /** The queues a worker looks at, in order: the first `n`, without its own. */
  function Others(n: nat, own: nat): seq<nat> {
    if n == 0 then [] else Others(n - 1, own) + if n - 1 == own then [] else [n - 1]
  }

  lemma {:induction false} OthersAre(n: nat, own: nat, q: nat)
    ensures q in Others(n, own) <==> q < n && q != own
    ensures Distinct(Others(n, own))
  {
    if n > 0 {
      OthersAre(n - 1, own, q);
      OthersAre(n - 1, own, n - 1);
    }
  }

  /** The queues that worker v has looked at and passed since its latest prepare_wait. */
  function Passed(run: seq<State>, acts: seq<Action>, v: nat, i: nat): seq<nat>
    requires |run| == |acts| + 1 && i < |run|
  {
    if i == 0 then [] else PassedAfter(run[i - 1], acts[i - 1], v, Passed(run, acts, v, i - 1))
  }

  function PassedAfter(s: State, a: Action, v: nat, before: seq<nat>): seq<nat> {
    match a
    case Prepare(u) => if u == v then [] else before
    case EndLook(u, found) =>
      if u == v && !found && v < |s.pc| && s.pc[v].Looking? then before + [s.pc[v].i] else before
    case _ => before
  }

  /** How far a worker's round has come. */
  ghost predicate RoundOk(s: State, v: nat, passed: seq<nat>)
    requires Shape(s) && v < |s.pc|
  {
    match s.pc[v]
    case Rescanning(i) => i <= |s.queues| && passed == Others(i, Own(s, v))
    case Looking(i, _) => i < |s.queues| && i != Own(s, v) && passed == Others(i, Own(s, v))
    case Committing => passed == Others(|s.queues|, Own(s, v))
    case Stopping => passed == Others(|s.queues|, Own(s, v))
    case _ => true
  }

  predicate ByWorker(a: Action, v: nat) {
    match a
    case Reserve(u, _) => u == v
    case Claim(u, _, _) => u == v
    case Drained(u) => u == v
    case Prepare(u) => u == v
    case Rescan(u) => u == v
    case EndLook(u, _) => u == v
    case Waiter(u, _) => u == v
    case Leave(u) => u == v
    case _ => false
  }

  lemma SameSizes(s: State, a: Action)
    requires Inv(s) && Enabled(s, a)
    ensures Shape(s) && Shape(Apply(s, a)) && |Apply(s, a).pc| == |s.pc| && |Apply(s, a).queues| == |s.queues|
    ensures Apply(s, a).shards == s.shards
  {
    StepInv(s, a);
    hide N.Inv;
    hide N.Apply;
    hide N.Enabled;
    hide N.Defined;
    hide Inv;
  }

  lemma OthersLeaveWorker(s: State, a: Action, v: nat)
    requires Inv(s) && Enabled(s, a) && v < |s.pc| && !ByWorker(a, v)
    ensures v < |Apply(s, a).pc| && Apply(s, a).pc[v] == s.pc[v]
  {
    hide N.Inv;
    hide N.Apply;
    hide N.Enabled;
    hide N.Defined;
    SameSizes(s, a);
    hide Inv;
  }

  lemma RoundStep(s: State, a: Action, v: nat, passed: seq<nat>)
    requires Inv(s) && Enabled(s, a) && v < |s.pc| && RoundOk(s, v, passed)
    ensures Shape(Apply(s, a)) && v < |Apply(s, a).pc| && RoundOk(Apply(s, a), v, PassedAfter(s, a, v, passed))
  {
    hide N.Inv;
    hide N.Apply;
    hide N.Enabled;
    hide N.Defined;
    hide Inv;
    hide RoundOk;
    SameSizes(s, a);
    if ByWorker(a, v) {
      OwnRound(s, a, v, passed);
    } else {
      OthersLeaveWorker(s, a, v);
      hide Apply;
      hide Enabled;
      RoundFrame(s, Apply(s, a), v, passed);
    }
  }

  lemma RoundFrame(s: State, s': State, v: nat, passed: seq<nat>)
    requires Shape(s) && Shape(s') && v < |s.pc| && v < |s'.pc| && s'.pc[v] == s.pc[v] && RoundOk(s, v, passed)
    requires |s'.queues| == |s.queues| && s'.shards == s.shards
    ensures RoundOk(s', v, passed)
  {
    hide N.Shape;
  }

  lemma OwnRound(s: State, a: Action, v: nat, passed: seq<nat>)
    requires Inv(s) && Enabled(s, a) && v < |s.pc| && RoundOk(s, v, passed) && ByWorker(a, v)
    requires Shape(Apply(s, a)) && |Apply(s, a).pc| == |s.pc| && |Apply(s, a).queues| == |s.queues| && Apply(s, a).shards == s.shards
    ensures RoundOk(Apply(s, a), v, PassedAfter(s, a, v, passed))
  {
    hide N.Inv;
    hide N.Shape;
    hide N.Apply;
    hide N.Enabled;
    hide N.Defined;
    hide Inv;
  }

  lemma {:induction false} RoundHolds(run: seq<State>, acts: seq<Action>, workers: nat, shards: nat, publishers: nat, i: nat, v: nat)
    requires IsRun(run, acts, workers, shards, publishers) && workers > 0 && i < |run| && v < workers
    ensures Shape(run[i]) && v < |run[i].pc| && RoundOk(run[i], v, Passed(run, acts, v, i))
  {
    hide Inv;
    hide Apply;
    hide Enabled;
    hide RoundOk;
    RunInv(run, acts, workers, shards, publishers, 0);
    if i == 0 {
      FirstRound(run[0], workers, shards, publishers, v);
    } else {
      RoundHolds(run, acts, workers, shards, publishers, i - 1, v);
      RunInv(run, acts, workers, shards, publishers, i - 1);
      RoundStep(run[i - 1], acts[i - 1], v, Passed(run, acts, v, i - 1));
    }
  }

  lemma FirstRound(s: State, workers: nat, shards: nat, publishers: nat, v: nat)
    requires s == InitState(workers, shards, publishers) && Inv(s) && v < workers
    ensures Shape(s) && v < |s.pc| && RoundOk(s, v, [])
  {
    hide N.Inv;
  }

  /**
   * In every run: a worker that has committed to sleep has, since its latest prepare_wait, looked at every queue but its
   * own, at each once and in order, and passed it.
   */
  lemma CommitsAfterFullRound(run: seq<State>, acts: seq<Action>, workers: nat, shards: nat, publishers: nat, i: nat, v: nat, q: nat)
    requires IsRun(run, acts, workers, shards, publishers) && workers > 0 && i < |run| && v < workers
    requires v < |run[i].pc| && run[i].pc[v].Committing?
    ensures Passed(run, acts, v, i) == Others(|run[i].queues|, Own(run[i], v)) && Distinct(Passed(run, acts, v, i))
    ensures q in Passed(run, acts, v, i) <==> q < |run[i].queues| && q != Own(run[i], v)
  {
    RoundHolds(run, acts, workers, shards, publishers, i, v);
    OthersAre(|run[i].queues|, Own(run[i], v), q);
    hide Passed;
  }

  /** How many actions a worker in its round is away from the end of it, if it finds nothing. */
  function RoundLeft(s: State, v: nat): int
    requires v < |s.pc|
  {
    match s.pc[v]
    case Rescanning(i) => 2 * (|s.queues| - i) + 1
    case Looking(i, _) => 2 * (|s.queues| - i)
    case _ => 0
  }

  /**
   * A worker in its round only ever goes on; looking at a queue ends the round exactly if something is found, and the
   * end of a round without a find is to commit, or, exactly if a shutdown has begun, to leave.
   */
  lemma RoundGoesOn(s: State, a: Action, v: nat)
    requires Inv(s) && Enabled(s, a) && v < |s.pc| && ByWorker(a, v) && (s.pc[v].Rescanning? || s.pc[v].Looking?)
    requires s.pc[v].Rescanning? ==> s.pc[v].i <= |s.queues|
    ensures v < |Apply(s, a).pc| && (a.Rescan? || a.EndLook?)
    ensures var c, d := s.pc[v], Apply(s, a).pc[v];
      && (a.EndLook? ==> d == if a.found then Cancelling else Rescanning(c.i + 1))
      && (c.Rescanning? && c.i < |s.queues| ==> d == if c.i == Own(s, v) then Rescanning(c.i + 1) else Looking(c.i, s.queues[c.i]))
      && (c.Rescanning? && c.i == |s.queues| ==> if s.terminate then d.Stopping? else d.Committing?)
      && (d.Rescanning? || d.Looking? ==> 0 < RoundLeft(Apply(s, a), v) < RoundLeft(s, v))
      && (d.Rescanning? || d.Looking? || d.Cancelling? || (c.Rescanning? && c.i == |s.queues|))
  {
    hide N.Inv;
    hide N.Apply;
    hide N.Shape;
    hide N.Enabled;
    hide N.Defined;
    SameSizes(s, a);
    RoundPc(s, v);
    hide Inv;
  }

  lemma RoundPc(s: State, v: nat)
    requires Inv(s) && v < |s.pc|
    ensures s.pc[v].Looking? ==> s.pc[v].i < |s.queues|
  {
    hide N.Inv;
    assert PcMatches(s, v);
  }

  lemma RoundCanGoOn(s: State, v: nat)
    requires Inv(s) && v < |s.pc| && (s.pc[v].Rescanning? || s.pc[v].Looking?)
    ensures Enabled(s, if s.pc[v].Rescanning? then Rescan(v) else EndLook(v, true))
    ensures s.pc[v].Looking? && MayPass(s, s.pc[v].i, s.pc[v].first) ==> Enabled(s, EndLook(v, false))
    ensures s.pc[v].Looking? && s.pc[v].i < |s.queues| && s.queues[s.pc[v].i] == {} ==> Enabled(s, EndLook(v, false))
  {
    hide N.Inv;
    assert PcMatches(s, v);
  }

  // ---------------------------------------------------------------------------------
  // The worker's loop
  // ---------------------------------------------------------------------------------

  /**
   * What a worker outside its round does next: it leaves its own queue only when that is empty, begins a round from
   * exploring, comes back from a wait or a cancelled wait to explore, or, if it saw the terminate flag, to stop, and is
   * done once it has stopped.
   */
  lemma WorkerGoesOn(s: State, a: Action, v: nat)
    requires Inv(s) && Enabled(s, a) && v < |s.pc| && ByWorker(a, v)
    ensures Shape(Apply(s, a)) && v < |Apply(s, a).pc| && !s.pc[v].Stopped?
    ensures var c, d, n := s.pc[v], Apply(s, a).pc[v], Apply(s, a).n;
      && (c.Running? ==> d == if a.Drained? then Exploring else Running)
      && (c.Exploring? ==> d == if a.Prepare? then Rescanning(0) else if a.Leave? then Stopped else Running)
      && (c.Committing? || c.Cancelling? ==> d == if n.pc[v].Out? then Exploring else c)
      && (c.Stopping? ==> d == if n.pc[v].Out? then Stopped else Stopping)
      && (d.Stopped? ==> s.terminate)
  {
    hide N.Inv;
    hide N.Apply;
    hide N.Shape;
    hide N.Enabled;
    hide N.Defined;
    SameSizes(s, a);
    assert PcMatches(s, v);
    assert Shape(s) && |s.n.pc| == |s.pc| && Shape(Apply(s, a)) && |Apply(s, a).n.pc| == |s.pc|;
    hide Inv;
  }

  // ---------------------------------------------------------------------------------
  // The shutdown
  // ---------------------------------------------------------------------------------

  /** The publisher that has begun the shutdown. */
  function Stopper(acts: seq<Action>, i: nat): Option<nat>
    requires i <= |acts|
  {
    if i == 0 then None else if acts[i - 1].Shutdown? then Some(acts[i - 1].k) else Stopper(acts, i - 1)
  }

  lemma ShutdownStep(s: State, a: Action)
    requires Inv(s) && Enabled(s, a)
    ensures var s' := Apply(s, a);
      if a.Shutdown? then s'.terminate && s'.stopper == Some(a.k) && s.stopper.None?
      else s'.terminate == s.terminate && s'.stopper == s.stopper
  {
    hide N.Inv;
    hide N.Apply;
    hide N.Shape;
    hide N.Enabled;
    hide N.Defined;
    hide Inv;
    hide Keep;
  }

  /** In every run: the terminate flag is up exactly if a shutdown has begun, and there is at most one. */
  lemma {:induction false} TerminatesIffShutdown(run: seq<State>, acts: seq<Action>, workers: nat, shards: nat, publishers: nat,
                                                 i: nat, j: nat)
    requires IsRun(run, acts, workers, shards, publishers) && workers > 0 && i < |run|
    ensures run[i].stopper == Stopper(acts, i) && (run[i].terminate <==> Stopper(acts, i).Some?)
    ensures j < i && acts[j].Shutdown? ==> Stopper(acts, i) == Some(acts[j].k)
  {
    hide Inv;
    hide Apply;
    hide Enabled;
    if i > 0 {
      TerminatesIffShutdown(run, acts, workers, shards, publishers, i - 1, j);
      RunInv(run, acts, workers, shards, publishers, i - 1);
      ShutdownStep(run[i - 1], acts[i - 1]);
    }
  }

  // ---------------------------------------------------------------------------------
  // Items
  // ---------------------------------------------------------------------------------

  /** The queue to which item x was published, if it has not been claimed since. */
  function Where(acts: seq<Action>, x: nat, i: nat): Option<nat>
    requires i <= |acts|
  {
    if i == 0 then None else WhereAfter(acts[i - 1], x, Where(acts, x, i - 1))
  }

  function WhereAfter(a: Action, x: nat, before: Option<nat>): Option<nat> {
    match a
    case Publish(_, q, y) => if y == x then Some(q) else before
    case Claim(_, _, y) => if y == x then None else before
    case _ => before
  }

  /** How often item x has been published, and claimed. */
  function Times(acts: seq<Action>, x: nat, i: nat, claims: bool): nat
    requires i <= |acts|
  {
    if i == 0 then 0 else Times(acts, x, i - 1, claims) + if Concerns(acts[i - 1], x, claims) then 1 else 0
  }

  predicate Concerns(a: Action, x: nat, claims: bool) {
    match a
    case Publish(_, _, y) => y == x && !claims
    case Claim(_, _, y) => y == x && claims
    case _ => false
  }

  ghost predicate PlacedAt(s: State, x: nat, at: Option<nat>) {
    && (at.Some? ==> at.value < |s.queues| && x in s.seen)
    && forall q :: 0 <= q < |s.queues| ==> (x in s.queues[q] <==> at == Some(q))
  }

  lemma PlaceStep(s: State, a: Action, x: nat, at: Option<nat>)
    requires Inv(s) && Enabled(s, a) && PlacedAt(s, x, at)
    ensures PlacedAt(Apply(s, a), x, WhereAfter(a, x, at))
    ensures a.Publish? && a.x == x ==> x !in s.seen && at.None?
    ensures a.Claim? && a.x == x ==> at == Some(a.q)
    ensures x in Apply(s, a).seen <==> x in s.seen || (a.Publish? && a.x == x)
  {
    hide N.Inv;
    hide N.Apply;
    hide N.Shape;
    hide N.Enabled;
    hide N.Defined;
    hide Inv;
    hide Keep;
  }

  /**
   * In every run: an item is in a queue exactly if it was published to it and has not been claimed since; it is published
   * at most once, and claimed at most once, from the queue it was published to.
   */
  lemma {:induction false} ClaimedOnce(run: seq<State>, acts: seq<Action>, workers: nat, shards: nat, publishers: nat, i: nat, x: nat)
    requires IsRun(run, acts, workers, shards, publishers) && workers > 0 && i < |run|
    ensures PlacedAt(run[i], x, Where(acts, x, i))
    ensures x in run[i].seen <==> Times(acts, x, i, false) == 1
    ensures Times(acts, x, i, true) + (if Where(acts, x, i).Some? then 1 else 0) == Times(acts, x, i, false) <= 1
  {
    hide Inv;
    hide Apply;
    hide Enabled;
    hide PlacedAt;
    if i == 0 {
      FirstPlace(run[0], workers, shards, publishers, x);
    } else {
      ClaimedOnce(run, acts, workers, shards, publishers, i - 1, x);
      RunInv(run, acts, workers, shards, publishers, i - 1);
      PlaceStep(run[i - 1], acts[i - 1], x, Where(acts, x, i - 1));
    }
  }

  lemma FirstPlace(s: State, workers: nat, shards: nat, publishers: nat, x: nat)
    requires s == InitState(workers, shards, publishers)
    ensures PlacedAt(s, x, None) && x !in s.seen
  {
  }

  // ---------------------------------------------------------------------------------
  // Reservations, and the notifier underneath
  // ---------------------------------------------------------------------------------

  /** The item that worker v's pop has reserved: the latest one, until it is claimed from v's own queue. */
  function Reserved(acts: seq<Action>, shards: nat, v: nat, i: nat): Option<nat>
    requires i <= |acts|
  {
    if i == 0 then None
    else
      var before := Reserved(acts, shards, v, i - 1);
      match acts[i - 1]
      case Reserve(u, x) => if u == v then Some(x) else before
      case Claim(_, q, x) => if q == shards + v && before == Some(x) then None else before
      case _ => before
  }

  lemma ReservedStep(s: State, a: Action, v: nat)
    requires Inv(s) && Enabled(s, a) && v < |s.reserved|
    ensures v < |Apply(s, a).reserved| && Apply(s, a).shards == s.shards
    ensures Apply(s, a).reserved[v] ==
      if a.Reserve? && a.v == v then Some(a.x)
      else if a.Claim? && a.q == Own(s, v) && s.reserved[v] == Some(a.x) then None
      else s.reserved[v]
  {
    hide N.Inv;
    hide N.Apply;
    hide N.Shape;
    hide N.Enabled;
    hide N.Defined;
    hide Keep;
    hide Inv;
  }

  /** In every run: what is reserved is what the owner's pop has reserved and nobody has taken since. */
  lemma {:induction false} ReservedIsHistory(run: seq<State>, acts: seq<Action>, workers: nat, shards: nat, publishers: nat,
                                             i: nat, v: nat)
    requires IsRun(run, acts, workers, shards, publishers) && workers > 0 && i < |run| && v < workers
    ensures run[i].shards == shards && v < |run[i].reserved| && run[i].reserved[v] == Reserved(acts, shards, v, i)
  {
    hide Inv;
    hide Apply;
    hide Enabled;
    if i > 0 {
      ReservedIsHistory(run, acts, workers, shards, publishers, i - 1, v);
      RunInv(run, acts, workers, shards, publishers, i - 1);
      ReservedStep(run[i - 1], acts[i - 1], v);
    }
  }

  /** The notifier's part of an action, if it has one. */
  function NotifierPart(a: Action): Option<N.Action> {
    match a
    case Prepare(v) => Some(N.Prepare(v))
    case Waiter(_, na) => Some(na)
    case Notify(_, na) => Some(na)
    case _ => None
  }

  /** Every run of the scheduler is, on the notifier's side, a run of the notifier: each action is one of its actions or none. */
  lemma NotifierFollows(run: seq<State>, acts: seq<Action>, workers: nat, shards: nat, publishers: nat, i: nat)
    requires IsRun(run, acts, workers, shards, publishers) && workers > 0 && i < |acts|
    ensures run[0].n == N.InitState(workers, publishers)
    ensures match NotifierPart(acts[i])
      case Some(na) => N.Step(run[i].n, na, run[i + 1].n)
      case None => run[i + 1].n == run[i].n
  {
    RunInv(run, acts, workers, shards, publishers, i);
    NotifierStep(run[i], acts[i]);
    hide Inv;
    hide Apply;
    hide Enabled;
  }

  lemma NotifierStep(s: State, a: Action)
    requires Inv(s) && Enabled(s, a)
    ensures match NotifierPart(a)
      case Some(na) => N.Step(s.n, na, Apply(s, a).n)
      case None => Apply(s, a).n == s.n
  {
    hide N.Inv;
    hide N.Apply;
    hide N.Shape;
    hide N.Enabled;
    hide Keep;
    hide Inv;
  }

  // ---------------------------------------------------------------------------------
  // What publishers owe, and when the shutdown is heard
  // ---------------------------------------------------------------------------------

  /** The i-th action is one of publisher k's notify by which the call takes effect. */
  predicate Heard(run: seq<State>, acts: seq<Action>, k: nat, i: nat)
    requires |run| == |acts| + 1 && i < |acts|
  {
    acts[i].Notify? && acts[i].k == k && k < |run[i + 1].n.nc| && TakesEffect(run[i].n, acts[i].a, run[i + 1].n, k)
  }

  /** The items that publisher k has published since its latest notify took effect. */
  function OwedSince(run: seq<State>, acts: seq<Action>, k: nat, i: nat): set<nat>
    requires |run| == |acts| + 1 && i < |run|
  {
    if i == 0 then {}
    else if acts[i - 1].Publish? && acts[i - 1].k == k then OwedSince(run, acts, k, i - 1) + {acts[i - 1].x}
    else if Heard(run, acts, k, i - 1) then {}
    else OwedSince(run, acts, k, i - 1)
  }

  /** Some notify of the shutdown's publisher has taken effect since the shutdown began. */
  ghost predicate DrainedSince(run: seq<State>, acts: seq<Action>, i: nat)
    requires |run| == |acts| + 1 && i < |run|
  {
    i > 0 && (DrainedSince(run, acts, i - 1) || exists k :: Stopper(acts, i - 1) == Some(k) && Heard(run, acts, k, i - 1))
  }

  lemma HistoryStep(s: State, a: Action, k: nat)
    requires Inv(s) && Enabled(s, a) && k < |s.owed|
    ensures var s' := Apply(s, a); var heard := a.Notify? && a.k == k && k < |s'.n.nc| && TakesEffect(s.n, a.a, s'.n, k);
      && k < |s'.owed|
      && s'.owed[k] == (if a.Publish? && a.k == k then s.owed[k] + {a.x} else if heard then {} else s.owed[k])
      && (s.stopper == Some(k) ==> (s'.drained <==> s.drained || heard))
  {
    hide N.Inv;
    hide N.Apply;
    hide N.Shape;
    hide N.Enabled;
    hide N.Defined;
    hide TakesEffect;
    hide Keep;
    hide Inv;
  }

  lemma NotDrainedYet(s: State, a: Action)
    requires Inv(s) && Enabled(s, a) && s.stopper.None?
    ensures !s.drained && !Apply(s, a).drained
  {
    hide N.Inv;
    hide N.Apply;
    hide N.Shape;
    hide N.Enabled;
    hide N.Defined;
    hide TakesEffect;
    hide Keep;
    assert StopOk(s);
    hide Inv;
  }

  /** In every run: what a publisher owes is what it has published since its latest notify took effect. */
  lemma {:induction false} OwedIsHistory(run: seq<State>, acts: seq<Action>, workers: nat, shards: nat, publishers: nat, i: nat, k: nat)
    requires IsRun(run, acts, workers, shards, publishers) && workers > 0 && i < |run| && k < publishers
    ensures k < |run[i].owed| && run[i].owed[k] == OwedSince(run, acts, k, i)
  {
    hide Inv;
    hide Apply;
    hide Enabled;
    hide TakesEffect;
    if i > 0 {
      OwedIsHistory(run, acts, workers, shards, publishers, i - 1, k);
      RunInv(run, acts, workers, shards, publishers, i - 1);
      HistoryStep(run[i - 1], acts[i - 1], k);
    }
  }

  lemma {:induction false} DrainedIsHistory(run: seq<State>, acts: seq<Action>, workers: nat, shards: nat, publishers: nat, i: nat)
    requires IsRun(run, acts, workers, shards, publishers) && workers > 0 && i < |run|
    ensures run[i].drained <==> DrainedSince(run, acts, i)
  {
    hide Inv;
    hide Apply;
    hide Enabled;
    hide TakesEffect;
    hide Heard;
    if i > 0 {
      DrainedIsHistory(run, acts, workers, shards, publishers, i - 1);
      RunInv(run, acts, workers, shards, publishers, i - 1);
      TerminatesIffShutdown(run, acts, workers, shards, publishers, i - 1, 0);
      match run[i - 1].stopper {
        case None => NotDrainedYet(run[i - 1], acts[i - 1]);
        case Some(k) =>
          StopperIsPublisher(run[i - 1], k);
          HistoryStep(run[i - 1], acts[i - 1], k);
          HeardIs(run, acts, k, i - 1);
      }
    }
  }

  lemma StopperIsPublisher(s: State, k: nat)
    requires Inv(s) && s.stopper == Some(k)
    ensures k < |s.owed|
  {
    hide N.Inv;
    assert StopOk(s);
  }

  lemma HeardIs(run: seq<State>, acts: seq<Action>, k: nat, i: nat)
    requires |run| == |acts| + 1 && i < |acts|
    ensures Heard(run, acts, k, i) <==>
      acts[i].Notify? && acts[i].k == k && k < |run[i + 1].n.nc| && TakesEffect(run[i].n, acts[i].a, run[i + 1].n, k)
  {
  }

  /** In every run: once a notify of the shutdown's has taken effect nobody ever sleeps for good again. */
  lemma ShutdownWakesEverybody(run: seq<State>, acts: seq<Action>, workers: nat, shards: nat, publishers: nat,
                               j: nat, i: nat, k: nat, v: nat)
    requires IsRun(run, acts, workers, shards, publishers) && workers > 0 && j < i < |run| && v < |run[i].pc|
    requires Stopper(acts, j) == Some(k) && Heard(run, acts, k, j)
    ensures !AsleepForGood(run[i], v)
  {
    hide Heard;
    StaysDrained(run, acts, j, i, k);
    DrainedIsHistory(run, acts, workers, shards, publishers, i);
    ShutdownLeavesNobodyAsleep(run, acts, workers, shards, publishers, i, v);
  }

  lemma {:induction false} StaysDrained(run: seq<State>, acts: seq<Action>, j: nat, i: nat, k: nat)
    requires |run| == |acts| + 1 && j < i < |run| && Stopper(acts, j) == Some(k) && Heard(run, acts, k, j)
    ensures DrainedSince(run, acts, i)
    decreases i
  {
    if j + 1 < i {
      StaysDrained(run, acts, j, i - 1, k);
    }
  }
}
