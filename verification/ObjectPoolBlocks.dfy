// The life of one block, step by step: how it moves between the free stack, a thread's hands and the application, that a
// constructor that throws gives it back, and when the pool allocates instead of reusing.

module ObjectPoolBlocks {
  import opened Common
  import opened ObjectPoolProtocol
  import opened ObjectPoolTheorems

  /** The only ways in which a block changes place. */
  ghost predicate Moves(s: State, a: Action, s': State, v: nat)
    requires v < |s.place| && v < |s'.place| && v < |s.home|
  {
    match s.place[v]
    case InStack(b) =>
      // taken from the top of its stack by a pop
      && a.TryPop? && !a.weak && IsThread(s, a.i) && s.threads[a.i].PopTry? && s.threads[a.i].b == b == s.home[v]
      && IsBucket(s, b) && s.buckets[b].stack != [] && s.buckets[b].stack[0] == v && s'.place[v] == InHand(a.i)
    case InHand(i) =>
      // constructed in, or pushed back onto the stack of its own bucket
      || (a == Construct(i, false) && IsThread(s, i) && s.threads[i] == Holding(v) && s'.place[v] == Live)
      || (a == TryPush(i, false) && IsThread(s, i) && s.threads[i].PushTry? && v in s.threads[i].chain && s'.place[v] == InStack(s.home[v]))
    case Live => a.Destroy? && a.v == v && s'.place[v] == InHand(a.i)
  }

  lemma PopMoves(s: State, i: nat, s': State, tags: nat, v: nat)
    requires Inv(s) && Step(s, TryPop(i, false), s', tags) && v < |s.place|
    ensures |s'.place| == |s.place| && v < |s.home| && (s'.place[v] == s.place[v] || Moves(s, TryPop(i, false), s', v))
  {
    hide Linked;
    var c := s.threads[i];
    if SameHead(s.buckets[c.b], Some(c.top), c.version, tags) {
      assert BucketOk(s, c.b) && PlaceOk(s, c.top);
    }
    hide ThreadOk;
    hide PlaceOk;
  }

  lemma PushMoves(s: State, i: nat, s': State, tags: nat, v: nat)
    requires Inv(s) && Step(s, TryPush(i, false), s', tags) && v < |s.place|
    ensures |s'.place| == |s.place| && v < |s.home| && (s'.place[v] == s.place[v] || Moves(s, TryPush(i, false), s', v))
  {
    hide Linked;
    hide BucketOk;
    var c := s.threads[i];
    assert ThreadOk(s, i) && PlaceOk(s, v);
    if v in c.chain { assert v in Hand(c); }
  }

  lemma OtherMoves(s: State, a: Action, s': State, tags: nat, v: nat)
    requires Inv(s) && Step(s, a, s', tags) && v < |s.place| && !a.TryPop? && !a.TryPush?
    ensures |s'.place| >= |s.place| && v < |s.home| && (s'.place[v] == s.place[v] || Moves(s, a, s', v))
  {
    hide Linked;
    hide BucketOk;
    if a.Construct? {
      assert PlaceOk(s, v);
      assert s.threads[a.i].v in Hand(s.threads[a.i]);
    }
    hide ThreadOk;
  }

  /** A block changes place only when it is popped, constructed in, destroyed, or pushed back where it belongs. */
  lemma BlockMoves(s: State, a: Action, s': State, tags: nat, v: nat)
    requires Inv(s) && Step(s, a, s', tags) && v < |s.place|
    ensures v < |s'.place| && v < |s.home| && (s'.place[v] == s.place[v] || Moves(s, a, s', v))
  {
    hide Inv;
    hide Moves;
    if a.TryPop? && !a.weak { PopMoves(s, a.i, s', tags, v); }
    else if a.TryPush? && !a.weak { PushMoves(s, a.i, s', tags, v); }
    else if a.TryPop? || a.TryPush? { WeakMoves(s, a, s', tags, v); }
    else { OtherMoves(s, a, s', tags, v); }
  }

  lemma WeakMoves(s: State, a: Action, s': State, tags: nat, v: nat)
    requires Inv(s) && Step(s, a, s', tags) && v < |s.place| && (a.TryPop? || a.TryPush?) && a.weak
    ensures v < |s'.place| && v < |s.home| && s'.place == s.place
  {
    hide ThreadOk;
    hide BucketOk;
    hide PlaceOk;
  }

  // ---------------------------------------------------------------------------------
  // Giving back
  // ---------------------------------------------------------------------------------

  /** Thread i is on its way to push block v, alone, back onto the stack of its bucket. */
  ghost predicate GivesBack(s: State, i: nat, v: nat) {
    && IsThread(s, i) && v < |s.home|
    && var c := s.threads[i];
       (c.PushLoad? || c.PushLink? || c.PushTry?) && c.b == s.home[v] && c.chain == [v] && c.keep.None?
  }

  /** A constructor that throws, and a destructor, leave the thread with the block in its hands, on the way back. */
  lemma ThrowGivesBack(s: State, a: Action, s': State, tags: nat)
    requires Inv(s) && Step(s, a, s', tags) && (a.Destroy? || (a.Construct? && a.throws))
    ensures var v := if a.Destroy? then a.v else s.threads[a.i].v;
      v < |s'.place| && GivesBack(s', a.i, v) && s'.place[v] == InHand(a.i)
  {
    hide BucketOk;
    hide Linked;
    assert ThreadOk(s, a.i);
    var v := if a.Destroy? then a.v else s.threads[a.i].v;
    assert a.Construct? ==> v in Hand(s.threads[a.i]);
    assert PlaceOk(s, v);
  }

  /** A constructor that returns leaves the block with the application. */
  lemma ConstructEnds(s: State, i: nat, s': State, tags: nat)
    requires Inv(s) && Step(s, Construct(i, false), s', tags)
    ensures var v := s.threads[i].v;
      && v < |s.place| && s.place[v] == InHand(i) && s' == s.(threads := s'.threads, place := s.place[v := Live])
      && IsThread(s', i) && s'.threads[i].Idle?
  {
    hide BucketOk;
    hide Linked;
    assert s.threads[i].v in Hand(s.threads[i]);
    assert PlaceOk(s, s.threads[i].v);
  }

  /** Each of the thread's own actions brings the end of the push nearer, unless the exchange fails. */
  lemma GivingBackNearer(s: State, a: Action, s': State, tags: nat, i: nat, v: nat)
    requires Step(s, a, s', tags) && GivesBack(s, i, v) && ByThread(a, i) && !ExchangeFails(s, a, tags)
    ensures IsThread(s', i) && CreateLeft(s'.threads[i]) < CreateLeft(s.threads[i])
  {
  }

  /** The thread stays on its way until the push succeeds, and then the block is on top of its stack. */
  lemma GivingBack(s: State, a: Action, s': State, tags: nat, i: nat, v: nat)
    requires Inv(s) && Step(s, a, s', tags) && GivesBack(s, i, v)
    ensures IsThread(s', i) && v < |s'.place|
    ensures GivesBack(s', i, v) ||
      (a == TryPush(i, false) && s'.threads[i].Idle? && s'.place[v] == InStack(s.home[v]) && s.home[v] < |s'.buckets|
       && s'.buckets[s.home[v]].stack == [v] + s.buckets[s.home[v]].stack)
  {
    hide BucketOk;
    hide PlaceOk;
    hide Linked;
    hide ThreadOk;
  }

  /**
   * In every run: after a constructor has thrown, or an object been destroyed, at n, the thread does nothing else until
   * the block is back on the free stack of its own bucket.
   */
  lemma {:induction false} GivenBack(run: seq<State>, acts: seq<Action>, tags: nat, n: nat, m: nat, i: nat, v: nat)
    requires IsRun(run, acts, tags) && n <= m < |run| && GivesBack(run[n], i, v)
    requires forall j :: n <= j < m ==> !(acts[j] == TryPush(i, false) && IsThread(run[j + 1], i) && run[j + 1].threads[i].Idle?)
    ensures GivesBack(run[m], i, v)
    decreases m
  {
    hide GivesBack;
    hide Inv;
    hide Step;
    if n < m {
      GivenBack(run, acts, tags, n, m - 1, i, v);
      RunInv(run, acts, tags, m - 1);
      GivingBack(run[m - 1], acts[m - 1], run[m], tags, i, v);
    }
  }

  // ---------------------------------------------------------------------------------
  // Reuse before allocation
  // ---------------------------------------------------------------------------------

  /**
   * A thread comes to allocate a slab only by seeing, inside its bucket's refill lock, a stack that is empty at that
   * moment; and it goes for the lock only by seeing an empty stack.
   */
  lemma RefillsOnlyWhenEmpty(s: State, a: Action, s': State, tags: nat, i: nat)
    requires Inv(s) && Step(s, a, s', tags) && IsThread(s, i) && IsThread(s', i)
    ensures s'.threads[i].Refilling? && !s.threads[i].Refilling? ==>
      var b := s'.threads[i].b; IsBucket(s, b) && s.buckets[b].stack == [] && s.buckets[b].locker == Some(i)
    ensures s'.threads[i].Locking? && !s.threads[i].Locking? ==>
      var b := s'.threads[i].b; IsBucket(s, b) && s.buckets[b].stack == []
  {
    hide PlaceOk;
    hide Linked;
    assert ThreadOk(s, i);
    if (s'.threads[i].Refilling? || s'.threads[i].Locking?) && IsBucket(s, s'.threads[i].b) { assert BucketOk(s, s'.threads[i].b); }
  }

  /** A load of the head leads to a pop exactly if the stack is not empty. */
  lemma PopsIffThereIsOne(s: State, i: nat, tags: nat)
    requires Inv(s) && tags > 0 && Enabled(s, LoadTop(i)) && Defined(s, LoadTop(i))
    ensures var b := s.threads[i].b; Apply(s, LoadTop(i), tags).threads[i].PopRead? <==> s.buckets[b].stack != []
  {
    assert BucketOk(s, s.threads[i].b);
    hide ThreadOk;
    hide PlaceOk;
  }

  /** An exchange fails exactly spuriously, or because the head has changed since it was seen. */
  lemma ExchangeSucceedsIff(s: State, i: nat, weak: bool, tags: nat)
    requires Inv(s) && tags > 0
    ensures Enabled(s, TryPop(i, weak)) && InWindow(s, TryPop(i, weak), tags) ==>
      && Defined(s, TryPop(i, weak))
      && var c, d := s.threads[i], Apply(s, TryPop(i, weak), tags).threads[i];
         (d.Holding? || d.Unlocking?) <==> !weak && s.buckets[c.b].version == c.version
    ensures Enabled(s, TryPush(i, weak)) ==>
      && Defined(s, TryPush(i, weak))
      && var c, d := s.threads[i], Apply(s, TryPush(i, weak), tags).threads[i];
         (d.Idle? || d.Unlocking?) <==> !weak && SameHead(s.buckets[c.b], c.snap, c.version, tags)
  {
    if Enabled(s, TryPop(i, weak)) && InWindow(s, TryPop(i, weak), tags) {
      AlwaysDefined(s, TryPop(i, weak));
      assert ThreadOk(s, i);
      SameTagInWindow(s.threads[i].version, s.buckets[s.threads[i].b].version, tags);
    }
    if Enabled(s, TryPush(i, weak)) { AlwaysDefined(s, TryPush(i, weak)); }
    hide BucketOk;
    hide PlaceOk;
  }

  // ---------------------------------------------------------------------------------
  // The way of a create
  // ---------------------------------------------------------------------------------

  /** Inside a create on bucket b, before a block is in hand for good. */
  predicate Creating(c: Pc, b: nat) {
    match c
    case PopLoad(d, _) => d == b
    case PopRead(d, _, _, _) => d == b
    case PopTry(d, _, _, _, _) => d == b
    case Locking(d) => d == b
    case Refilling(d) => d == b
    case PushLoad(d, _, keep) => d == b && keep.Some?
    case PushLink(d, _, keep, _, _) => d == b && keep.Some?
    case PushTry(d, _, keep, _, _) => d == b && keep.Some?
    case Unlocking(d, _) => d == b
    case _ => false
  }

  /** How many actions of its own a create or a push needs at most, if its exchanges succeed and it meets an empty stack. */
  function CreateLeft(c: Pc): nat {
    match c
    case PopLoad(_, locked) => if locked then 8 else 12
    case PopRead(_, locked, _, _) => if locked then 7 else 11
    case PopTry(_, locked, _, _, _) => if locked then 6 else 10
    case Locking(_) => 9
    case Refilling(_) => 5
    case PushLoad(_, _, _) => 4
    case PushLink(_, _, _, _, _) => 3
    case PushTry(_, _, _, _, _) => 2
    case Unlocking(_, _) => 1
    case _ => 0
  }

  predicate ByThread(a: Action, i: nat) {
    match a
    case Create(j, _) => j == i
    case LoadTop(j) => j == i
    case ReadNext(j) => j == i
    case TryPop(j, _) => j == i
    case Lock(j) => j == i
    case Refill(j, _) => j == i
    case LoadForPush(j) => j == i
    case LinkLast(j) => j == i
    case TryPush(j, _) => j == i
    case Unlock(j) => j == i
    case Construct(j, _) => j == i
    case Destroy(j, _) => j == i
  }

  /** The exchange finds another head than the one expected, or fails without a reason. */
  predicate ExchangeFails(s: State, a: Action, tags: nat)
    requires tags > 0
  {
    match a
    case TryPop(i, weak) =>
      IsThread(s, i) && s.threads[i].PopTry? && IsBucket(s, s.threads[i].b)
      && (weak || !SameHead(s.buckets[s.threads[i].b], Some(s.threads[i].top), s.threads[i].version, tags))
    case TryPush(i, weak) =>
      IsThread(s, i) && s.threads[i].PushTry? && IsBucket(s, s.threads[i].b)
      && (weak || !SameHead(s.buckets[s.threads[i].b], s.threads[i].snap, s.threads[i].version, tags))
    case _ => false
  }

  /** What block the thread would leave the refill lock with. */
  function Kept(c: Pc): Option<nat> {
    match c
    case PushLoad(_, _, keep) => keep
    case PushLink(_, _, keep, _, _) => keep
    case PushTry(_, _, keep, _, _) => keep
    case Unlocking(_, v) => Some(v)
    case Holding(v) => Some(v)
    case _ => None
  }

  /**
   * A create only ends with a block in hand: each of the thread's own actions keeps it inside the create on the same
   * bucket and brings the end nearer, unless an exchange fails; a block once kept is the one it ends with.
   */
  lemma CreateGoesOn(s: State, a: Action, s': State, tags: nat, i: nat, b: nat)
    requires Step(s, a, s', tags) && ByThread(a, i) && IsThread(s, i) && Creating(s.threads[i], b)
    ensures IsThread(s', i) && (Creating(s'.threads[i], b) || s'.threads[i].Holding?)
    ensures !ExchangeFails(s, a, tags) ==> CreateLeft(s'.threads[i]) < CreateLeft(s.threads[i])
    ensures Kept(s.threads[i]).Some? ==> Kept(s'.threads[i]) == Kept(s.threads[i])
    ensures s'.threads[i].Holding? ==> Kept(s.threads[i]).Some? || a.TryPop?
  {
  }

  lemma CreateBegins(s: State, i: nat, b: nat, s': State, tags: nat)
    requires Step(s, Create(i, b), s', tags)
    ensures IsThread(s', i) && Creating(s'.threads[i], b) && s' == s.(threads := s'.threads)
  {
  }

  /** Only the refill lock makes a create wait, and its holder is itself inside a create on that bucket. */
  lemma CreateCanGoOn(s: State, i: nat, b: nat)
    requires Inv(s) && IsThread(s, i) && Creating(s.threads[i], b)
    ensures (exists a :: ByThread(a, i) && Enabled(s, a) && Defined(s, a)) ||
      (s.threads[i].Locking? && IsBucket(s, b)
       && exists j: nat :: IsThread(s, j) && s.buckets[b].locker == Some(j) && Creating(s.threads[j], b) && !s.threads[j].Locking?)
  {
    hide PlaceOk;
    hide Linked;
    assert ThreadOk(s, i);
    var c := s.threads[i];
    var a := match c
      case PopLoad(_, _) => LoadTop(i)
      case PopRead(_, _, _, _) => ReadNext(i)
      case PopTry(_, _, _, _, _) => TryPop(i, true)
      case Locking(_) => Lock(i)
      case Refilling(_) => Refill(i, 1)
      case PushLoad(_, _, _) => LoadForPush(i)
      case PushLink(_, _, _, _, _) => LinkLast(i)
      case PushTry(_, _, _, _, _) => TryPush(i, true)
      case _ => Unlock(i);
    if Enabled(s, a) {
      AlwaysDefined(s, a);
      assert ByThread(a, i);
    } else {
      assert c == Locking(b) && BucketOk(s, b);
      var j := s.buckets[b].locker.value;
      assert Creating(s.threads[j], b);
    }
  }
}
