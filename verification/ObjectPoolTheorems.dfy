// The invariant of the object pool in every run, and what it gives to callers.

module ObjectPoolTheorems {
  import opened Common
  import opened ObjectPoolProtocol

  // ---------------------------------------------------------------------------------
  // Tags
  // ---------------------------------------------------------------------------------

  lemma MulRange(k: int, t: int)
    requires t > 0
    ensures k >= 1 ==> k * t >= t
    ensures k <= -1 ==> k * t <= -t
  {
    if k >= 1 {
      assert (k - 1) * t >= 0;
    } else if k <= -1 {
      assert (-k - 1) * t >= 0;
    }
  }

  lemma ModIs(x: int, q: int, r: int, t: int)
    requires t > 0 && x == q * t + r && 0 <= r < t
    ensures x % t == r && x / t == q
  {
    var d := q - x / t;
    assert x == (x / t) * t + x % t;
    assert d * t == q * t - (x / t) * t;
    MulRange(d, t);
  }

  /** Within one turn of the tag, equal tags mean equal versions. */
  lemma SameTagInWindow(v: nat, w: nat, tags: nat)
    requires tags > 0 && v <= w < v + tags
    ensures v % tags == w % tags <==> v == w
  {
    var k := w / tags - v / tags;
    assert v == (v / tags) * tags + v % tags && w == (w / tags) * tags + w % tags;
    assert k * tags == (w / tags) * tags - (v / tags) * tags;
    MulRange(k, tags);
  }

  /** The window is tight: after exactly one turn the tag is back. */
  lemma TagComesBack(v: nat, tags: nat)
    requires tags > 0
    ensures (v + tags) % tags == v % tags
  {
    var q := v / tags;
    assert (q + 1) * tags == q * tags + tags;
    ModIs(v + tags, q + 1, v % tags, tags);
  }

  // ---------------------------------------------------------------------------------
  // Frames
  // ---------------------------------------------------------------------------------

  /** What other threads may do to a bucket: replace the head under a new version; the lock of its holder stays. */
  ghost predicate Later(k: Bucket, l: Bucket) {
    k.version <= l.version && (k.version == l.version ==> k.top == l.top)
  }

  ghost predicate Unchanged(s: State, s': State, b: nat, top: nat)
    requires IsBucket(s, b) && IsBucket(s', b)
  {
    s.buckets[b].top == Some(top) && s'.buckets[b].version == s.buckets[b].version
  }

  lemma FrameThread(s: State, s': State, j: nat)
    requires IsThread(s, j) && IsThread(s', j) && s'.threads[j] == s.threads[j] && ThreadOk(s, j)
    requires |s'.buckets| == |s.buckets| && |s.next| <= |s'.next| && |s.home| <= |s'.home|
    requires forall v :: 0 <= v < |s.home| ==> s'.home[v] == s.home[v]
    requires forall b :: 0 <= b < |s.buckets| ==> Later(s.buckets[b], s'.buckets[b])
    requires forall b :: 0 <= b < |s.buckets| && InLock(s.threads[j], b) ==> s'.buckets[b].locker == s.buckets[b].locker
    requires forall v :: v in Hand(s.threads[j]) && IsBlock(s, v) ==> s'.next[v] == s.next[v]
    requires forall b: nat, top: nat :: IsBucket(s, b) && IsBlock(s, top) && Unchanged(s, s', b, top) ==>
      s'.next[top] == s.next[top]
    ensures ThreadOk(s', j)
  {
  }

  /** A block that changed place neither in a stack nor in a hand. */
  lemma FramePlace(s: State, s': State, v: nat)
    requires v < |s.place| && v < |s.home| && v < |s'.place| && v < |s'.home| && PlaceOk(s, v)
    requires s'.home[v] == s.home[v] && s'.place[v] == s.place[v]
    requires |s'.buckets| == |s.buckets| && |s'.threads| == |s.threads|
    requires forall b :: 0 <= b < |s.buckets| ==> (v in s'.buckets[b].stack <==> v in s.buckets[b].stack)
    requires forall i :: 0 <= i < |s.threads| ==> (v in Hand(s'.threads[i]) <==> v in Hand(s.threads[i]))
    ensures PlaceOk(s', v)
  {
    hide Hand;
  }

  /** Thread i moves on, keeping what it holds; no bucket, block or link changes. */
  lemma MoveKeeps(s: State, i: nat, c: Pc)
    requires Inv(s) && IsThread(s, i) && Hand(c) == Hand(s.threads[i]) && ThreadOk(Goto(s, i, c), i)
    requires forall b: nat :: InLock(s.threads[i], b) ==> InLock(c, b)
    ensures Inv(Goto(s, i, c))
  {
    var s' := Goto(s, i, c);
    hide Hand;
    hide ThreadOk;
    hide PlaceOk;
    forall j | 0 <= j < |s.threads| && j != i ensures ThreadOk(s', j) { MoveOther(s, i, c, j); }
    forall v | 0 <= v < |s.place| ensures PlaceOk(s', v) {
      assert PlaceOk(s, v);
      FramePlace(s, s', v);
    }
    forall b | 0 <= b < |s.buckets| ensures BucketOk(s', b) { assert BucketOk(s, b); }
    hide BucketOk;
    assert forall j: nat, v :: IsThread(s', j) && v in Hand(s'.threads[j]) ==> v in Hand(s.threads[j]);
  }

  lemma MoveOther(s: State, i: nat, c: Pc, j: nat)
    requires Inv(s) && IsThread(s, i) && IsThread(s, j) && j != i
    ensures ThreadOk(Goto(s, i, c), j)
  {
    assert ThreadOk(s, j);
    hide Hand;
    hide ThreadOk;
    hide PlaceOk;
    hide BucketOk;
    FrameThread(s, Goto(s, i, c), j);
  }

  lemma CreateKeeps(s: State, i: nat, b: nat)
    requires Inv(s) && IsThread(s, i) && s.threads[i].Idle? && IsBucket(s, b)
    ensures Inv(Goto(s, i, PopLoad(b, false)))
  {
    assert ThreadOk(s, i);
    MoveKeeps(s, i, PopLoad(b, false));
  }

  lemma LoadTopKeeps(s: State, i: nat)
    requires Inv(s) && IsThread(s, i) && s.threads[i].PopLoad? && IsBucket(s, s.threads[i].b)
    ensures Inv(DoLoadTop(s, i))
  {
    var PopLoad(b, locked) := s.threads[i];
    assert ThreadOk(s, i) && BucketOk(s, b);
    hide PlaceOk;
    MoveKeeps(s, i, AfterLoad(s.buckets[b], b, locked));
  }

  lemma ReadNextKeeps(s: State, i: nat)
    requires Inv(s) && IsThread(s, i) && s.threads[i].PopRead? && IsBlock(s, s.threads[i].top)
    ensures Inv(DoReadNext(s, i))
  {
    assert ThreadOk(s, i);
    hide PlaceOk;
    var PopRead(b, locked, top, version) := s.threads[i];
    MoveKeeps(s, i, PopTry(b, locked, top, version, s.next[top]));
  }

  lemma LoadForPushKeeps(s: State, i: nat)
    requires Inv(s) && IsThread(s, i) && s.threads[i].PushLoad? && IsBucket(s, s.threads[i].b)
    ensures Inv(DoLoadForPush(s, i))
  {
    assert ThreadOk(s, i);
    hide PlaceOk;
    var PushLoad(b, chain, keep) := s.threads[i];
    MoveKeeps(s, i, PushLink(b, chain, keep, s.buckets[b].top, s.buckets[b].version));
  }

  /**
   * A successful pop finds the stack as the thread saw it: the block is the top one, and the successor read
   * earlier is the true one.
   */
  lemma PopInstallsTrueSuccessor(s: State, i: nat, tags: nat)
    requires Inv(s) && Enabled(s, TryPop(i, false)) && tags > 0 && InWindow(s, TryPop(i, false), tags)
    ensures var PopTry(b, _, top, version, succ) := s.threads[i]; var k := s.buckets[b];
      SameHead(k, Some(top), version, tags) <==>
        version == k.version && k.stack != [] && k.stack[0] == top && succ == Head(k.stack[1..])
  {
    var PopTry(b, _, top, version, succ) := s.threads[i];
    var k := s.buckets[b];
    assert ThreadOk(s, i) && BucketOk(s, b);
    SameTagInWindow(version, k.version, tags);
    if version == k.version {
      LinkedTail(s.next, k.stack);
    }
  }

  lemma TryPopFails(s: State, i: nat)
    requires Inv(s) && IsThread(s, i) && s.threads[i].PopTry? && IsBucket(s, s.threads[i].b)
    ensures Inv(Goto(s, i, AfterLoad(s.buckets[s.threads[i].b], s.threads[i].b, s.threads[i].locked)))
  {
    assert ThreadOk(s, i) && BucketOk(s, s.threads[i].b);
    hide PlaceOk;
    MoveKeeps(s, i, AfterLoad(s.buckets[s.threads[i].b], s.threads[i].b, s.threads[i].locked));
  }

  lemma TryPopKeeps(s: State, i: nat, weak: bool, tags: nat)
    requires Inv(s) && Enabled(s, TryPop(i, weak)) && tags > 0 && InWindow(s, TryPop(i, weak), tags)
    requires s.threads[i].top < |s.place|
    ensures Inv(DoTryPop(s, i, weak, tags))
  {
    var PopTry(b, locked, top, version, succ) := s.threads[i];
    if weak || !SameHead(s.buckets[b], Some(top), version, tags) {
      TryPopFails(s, i);
    } else {
      PopInstallsTrueSuccessor(s, i, tags);
      PopKeeps(s, i, DoTryPop(s, i, weak, tags));
    }
  }

  /** The state in which the top block has left the stack of bucket b for the hands of thread i. */
  ghost predicate Popped(s: State, i: nat, s': State) {
    && IsThread(s, i) && s.threads[i].PopTry? && IsBucket(s, s.threads[i].b)
    && var PopTry(b, locked, top, version, succ) := s.threads[i];
       var k := s.buckets[b];
       && k.stack != [] && k.stack[0] == top && succ == Head(k.stack[1..]) && top < |s.place|
       && s' == Goto(SetBucket(s, b, k.(top := succ, version := k.version + 1, stack := k.stack[1..])), i,
                     if locked then Unlocking(b, top) else Holding(top)).(place := s.place[top := InHand(i)])
  }

  lemma PopKeeps(s: State, i: nat, s': State)
    requires Inv(s) && Popped(s, i, s')
    ensures Inv(s')
  {
    PopThreads(s, i, s');
    PopPlaces(s, i, s');
    var top := s.threads[i].top;
    assert Hand(s'.threads[i]) == [top];
    hide Hand;
    hide ThreadOk;
    hide BucketOk;
    hide PlaceOk;
    assert forall j: nat, v :: IsThread(s', j) && v in Hand(s'.threads[j]) ==> v in Hand(s.threads[j]) || v == top;
  }

  lemma PopThreads(s: State, i: nat, s': State)
    requires Inv(s) && Popped(s, i, s')
    ensures forall j :: 0 <= j < |s'.threads| ==> ThreadOk(s', j)
    ensures forall d :: 0 <= d < |s'.buckets| ==> BucketOk(s', d)
  {
    var PopTry(b, locked, top, version, succ) := s.threads[i];
    var k := s.buckets[b];
    hide PlaceOk;
    assert ThreadOk(s, i) && BucketOk(s, b);
    assert ThreadOk(s', i);
    LinkedTail(s.next, k.stack);
    forall j | 0 <= j < |s.threads| && j != i
      ensures ThreadOk(s', j)
    {
      assert ThreadOk(s, j);
      hide ThreadOk;
      FrameThread(s, s', j);
    }
    hide ThreadOk;
    forall d | 0 <= d < |s.buckets|
      ensures BucketOk(s', d)
    {
      assert BucketOk(s, d);
    }
  }

  lemma PopPlaces(s: State, i: nat, s': State)
    requires Inv(s) && Popped(s, i, s')
    ensures forall v :: 0 <= v < |s'.place| ==> PlaceOk(s', v)
  {
    hide ThreadOk;
    hide Hand;
    hide BucketOk;
    PopMovesTop(s, i, s');
    forall v | 0 <= v < |s.place|
      ensures PlaceOk(s', v)
    {
      assert PlaceOk(s, v);
      hide Inv;
      PopPlace(s, i, s', v);
    }
  }

  /** The top leaves the stack for the thread's hands, where it is alone. */
  lemma PopMovesTop(s: State, i: nat, s': State)
    requires Inv(s) && Popped(s, i, s')
    ensures |s'.place| == |s.place| == |s.home|
    ensures var PopTry(b, locked, top, version, succ) := s.threads[i]; var k := s.buckets[b];
      && top < |s.place| && PlaceOk(s, top)
      && k.stack == [top] + k.stack[1..] && top !in k.stack[1..]
      && Hand(s.threads[i]) == [] && Hand(s'.threads[i]) == [top]
  {
    var PopTry(b, locked, top, version, succ) := s.threads[i];
    assert BucketOk(s, b) && PlaceOk(s, top);
    LinkedDistinct(s.next, s.buckets[b].stack);
    hide ThreadOk;
  }

  lemma PopPlace(s: State, i: nat, s': State, v: nat)
    requires Popped(s, i, s') && v < |s.place| == |s'.place| == |s.home| && PlaceOk(s, v)
    requires var PopTry(b, locked, top, version, succ) := s.threads[i]; var k := s.buckets[b];
      && top < |s.place| && PlaceOk(s, top)
      && k.stack == [top] + k.stack[1..] && top !in k.stack[1..]
      && Hand(s.threads[i]) == [] && Hand(s'.threads[i]) == [top]
    ensures PlaceOk(s', v)
  {
    hide Hand;
    hide Linked;
    var k := s.buckets[s.threads[i].b];
    assert v in k.stack <==> v == s.threads[i].top || v in k.stack[1..];
  }

  lemma LockKeeps(s: State, i: nat)
    requires Inv(s) && Enabled(s, Lock(i))
    ensures Inv(DoLock(s, i))
  {
    var Locking(b) := s.threads[i];
    BucketMoveKeeps(s, i, PopLoad(b, true), b, Some(i));
  }

  lemma UnlockKeeps(s: State, i: nat)
    requires Inv(s) && IsThread(s, i) && s.threads[i].Unlocking? && IsBucket(s, s.threads[i].b)
    ensures Inv(DoUnlock(s, i))
  {
    var Unlocking(b, v) := s.threads[i];
    assert ThreadOk(s, i);
    BucketMoveKeeps(s, i, Holding(v), b, None);
  }

  /** Thread i takes or returns the refill lock of bucket b. */
  lemma BucketMoveKeeps(s: State, i: nat, c: Pc, b: nat, locker: Option<nat>)
    requires Inv(s) && IsThread(s, i) && IsBucket(s, b) && Hand(c) == Hand(s.threads[i])
    requires s.buckets[b].locker == (if locker.None? then Some(i) else None)
    requires if locker.None? then InLock(s.threads[i], b) && c.Holding?
             else locker == Some(i) && s.threads[i].Locking? && c == PopLoad(b, true)
    ensures Inv(Goto(SetBucket(s, b, s.buckets[b].(locker := locker)), i, c))
  {
    var s' := Goto(SetBucket(s, b, s.buckets[b].(locker := locker)), i, c);
    assert ThreadOk(s, i);
    assert forall d: nat :: InLock(s.threads[i], d) ==> locker.None? && d == b by {
      OneLock(s.threads[i], b);
    }
    assert ThreadOk(s', i);
    forall j | 0 <= j < |s.threads| && j != i
      ensures ThreadOk(s', j)
    {
      assert ThreadOk(s, j);
      assert !InLock(s.threads[j], b);
      hide ThreadOk;
      FrameThread(s, s', j);
    }
    hide ThreadOk;
    forall d | 0 <= d < |s.buckets|
      ensures BucketOk(s', d)
    {
      assert BucketOk(s, d);
    }
    hide BucketOk;
    forall v | 0 <= v < |s.place|
      ensures PlaceOk(s', v)
    {
      assert PlaceOk(s, v);
      hide PlaceOk;
      FramePlace(s, s', v);
    }
    hide PlaceOk;
    assert forall j: nat, v :: IsThread(s', j) && v in Hand(s'.threads[j]) ==> v in Hand(s.threads[j]);
  }

  lemma OneLock(c: Pc, b: nat)
    requires InLock(c, b) || c.Locking?
    ensures forall d: nat :: InLock(c, d) ==> d == b
  {
  }

  // ---------------------------------------------------------------------------------
  // Pushing
  // ---------------------------------------------------------------------------------

  /** A block in a thread's hands is in no stack and in nobody else's hands. */
  lemma HandIsExclusive(s: State, i: nat, v: nat)
    requires Inv(s) && IsThread(s, i) && v in Hand(s.threads[i])
    ensures v < |s.place| && s.place[v] == InHand(i)
    ensures forall b: nat :: IsBucket(s, b) ==> v !in s.buckets[b].stack
    ensures forall j: nat :: IsThread(s, j) && j != i ==> v !in Hand(s.threads[j])
  {
    assert PlaceOk(s, v);
    hide Hand;
  }

  lemma LinkLastKeeps(s: State, i: nat)
    requires Inv(s) && IsThread(s, i) && s.threads[i].PushLink?
    requires s.threads[i].chain != [] && IsBlock(s, Last(s.threads[i].chain))
    ensures Inv(DoLinkLast(s, i))
  {
    var s' := DoLinkLast(s, i);
    var PushLink(b, chain, keep, snap, version) := s.threads[i];
    var last := Last(chain);
    assert ThreadOk(s, i);
    assert last in Hand(s.threads[i]) && Hand(s'.threads[i]) == Hand(s.threads[i]);
    HandIsExclusive(s, i, last);
    LinkLastThread(s, i);
    hide Hand;
    forall j | 0 <= j < |s.threads| && j != i
      ensures ThreadOk(s', j)
    {
      assert ThreadOk(s, j);
      hide ThreadOk;
      forall d: nat, top: nat | IsBucket(s, d) && IsBlock(s, top) && Unchanged(s, s', d, top)
        ensures s'.next[top] == s.next[top]
      {
        assert BucketOk(s, d);
      }
      hide BucketOk;
      FrameThread(s, s', j);
    }
    hide ThreadOk;
    forall d | 0 <= d < |s.buckets|
      ensures BucketOk(s', d)
    {
      assert BucketOk(s, d);
      LinkedFrame(s.next, s'.next, s.buckets[d].stack);
    }
    hide BucketOk;
    forall v | 0 <= v < |s.place|
      ensures PlaceOk(s', v)
    {
      assert PlaceOk(s, v);
      hide PlaceOk;
      FramePlace(s, s', v);
    }
    hide PlaceOk;
    assert forall j: nat, v :: IsThread(s', j) && v in Hand(s'.threads[j]) ==> v in Hand(s.threads[j]);
  }

  lemma LinkLastThread(s: State, i: nat)
    requires IsThread(s, i) && s.threads[i].PushLink? && ThreadOk(s, i)
    requires s.threads[i].chain != [] && IsBlock(s, Last(s.threads[i].chain))
    ensures ThreadOk(DoLinkLast(s, i), i)
  {
    var chain := s.threads[i].chain;
    assert forall k :: 0 <= k < |chain| - 1 ==> chain[k] != chain[|chain| - 1];
  }

  lemma TryPushFails(s: State, i: nat)
    requires Inv(s) && IsThread(s, i) && s.threads[i].PushTry? && IsBucket(s, s.threads[i].b)
    ensures var PushTry(b, chain, keep, _, _) := s.threads[i];
      Inv(Goto(s, i, PushLink(b, chain, keep, s.buckets[b].top, s.buckets[b].version)))
  {
    var PushTry(b, chain, keep, _, _) := s.threads[i];
    assert ThreadOk(s, i);
    hide PlaceOk;
    hide BucketOk;
    MoveKeeps(s, i, PushLink(b, chain, keep, s.buckets[b].top, s.buckets[b].version));
  }

  lemma TryPushKeeps(s: State, i: nat, weak: bool, tags: nat)
    requires Inv(s) && Enabled(s, TryPush(i, weak)) && tags > 0 && IsBucket(s, s.threads[i].b)
    ensures Inv(DoTryPush(s, i, weak, tags))
  {
    var PushTry(b, chain, keep, snap, version) := s.threads[i];
    var k := s.buckets[b];
    if weak || !SameHead(k, snap, version, tags) {
      TryPushFails(s, i);
    } else {
      assert ThreadOk(s, i);
      hide Inv;
      hide ThreadOk;
      PushKeeps(s, i, DoTryPush(s, i, weak, tags));
    }
  }

  /** The chain of thread i has become the front of the stack of bucket b. */
  ghost predicate PushedOn(s: State, i: nat, s': State) {
    && IsThread(s, i) && s.threads[i].PushTry? && IsBucket(s, s.threads[i].b)
    && var PushTry(b, chain, keep, snap, version) := s.threads[i];
       var k := s.buckets[b];
       && snap == k.top && chain != []
       && s' == Goto(SetBucket(s, b, k.(top := Head(chain), version := k.version + 1, stack := chain + k.stack)), i,
                     if keep.Some? then Unlocking(b, keep.value) else Idle).(place := MoveChain(s.place, chain, b))
  }

  /** A chain whose last link denotes the old top makes one chain with the stack. */
  lemma LinkedPush(next: Links, chain: seq<nat>, stack: seq<nat>)
    requires Linked(next, stack) && chain != [] && forall k :: 0 <= k < |chain| ==> chain[k] < |next|
    requires forall k :: 0 <= k < |chain| - 1 ==> next[chain[k]] == Some(chain[k + 1])
    requires next[Last(chain)] == Head(stack)
    ensures Linked(next, chain + stack)
  {
    var c := chain + stack;
    forall k | 0 <= k < |c|
      ensures c[k] < |next| && next[c[k]] == LinkAt(c, k)
    {
      if k >= |chain| {
        assert next[stack[k - |chain|]] == LinkAt(stack, k - |chain|);
      }
    }
  }

  lemma PushKeeps(s: State, i: nat, s': State)
    requires Inv(s) && PushedOn(s, i, s')
    ensures Inv(s')
  {
    PushThreads(s, i, s');
    PushPlaces(s, i, s');
    assert forall v :: v in Hand(s'.threads[i]) ==> v in Hand(s.threads[i]);
    hide Hand;
    hide ThreadOk;
    hide BucketOk;
    hide PlaceOk;
    assert forall j: nat, v :: IsThread(s', j) && v in Hand(s'.threads[j]) ==> v in Hand(s.threads[j]);
  }

  lemma PushThreads(s: State, i: nat, s': State)
    requires Inv(s) && PushedOn(s, i, s')
    ensures forall j :: 0 <= j < |s'.threads| ==> ThreadOk(s', j)
    ensures forall d :: 0 <= d < |s'.buckets| ==> BucketOk(s', d)
  {
    var PushTry(b, chain, keep, snap, version) := s.threads[i];
    hide PlaceOk;
    assert ThreadOk(s, i) && BucketOk(s, b);
    assert ThreadOk(s', i);
    LinkedPush(s.next, chain, s.buckets[b].stack);
    assert (chain + s.buckets[b].stack)[0] == chain[0];
    forall j | 0 <= j < |s.threads| && j != i
      ensures ThreadOk(s', j)
    {
      assert ThreadOk(s, j);
      hide ThreadOk;
      FrameThread(s, s', j);
    }
    hide ThreadOk;
    hide Linked;
    forall d | 0 <= d < |s.buckets|
      ensures BucketOk(s', d)
    {
      assert BucketOk(s, d);
    }
  }

  /** The chain leaves the thread's hands, in which at most the block to keep remains. */
  ghost predicate ChainLeaves(s: State, i: nat, s': State)
    requires IsThread(s, i) && s.threads[i].PushTry? && IsThread(s', i)
  {
    var PushTry(b, chain, keep, snap, version) := s.threads[i];
    && (forall v: nat :: v in Hand(s.threads[i]) <==> v in chain || keep == Some(v))
    && (forall v: nat :: v in Hand(s'.threads[i]) <==> keep == Some(v))
    && (keep.Some? ==> keep.value !in chain)
    && (forall v :: v in chain ==> v < |s.home| && s.home[v] == b)
  }

  lemma PushHands(s: State, i: nat, s': State)
    requires Inv(s) && PushedOn(s, i, s')
    ensures IsThread(s', i) && ChainLeaves(s, i, s')
  {
    hide BucketOk;
    hide PlaceOk;
    hide Linked;
    assert ThreadOk(s, i);
    KeepApart(s.threads[i].keep, s.threads[i].chain);
  }

  lemma PushPlaces(s: State, i: nat, s': State)
    requires Inv(s) && PushedOn(s, i, s')
    ensures forall v :: 0 <= v < |s'.place| ==> PlaceOk(s', v)
  {
    hide ThreadOk;
    hide BucketOk;
    hide PlaceOk;
    PushHands(s, i, s');
    hide ChainLeaves;
    forall v | 0 <= v < |s.place|
      ensures PlaceOk(s', v)
    {
      assert PlaceOk(s, v);
      hide Inv;
      PushPlace(s, i, s', v);
    }
  }

  lemma PushPlace(s: State, i: nat, s': State, v: nat)
    requires PushedOn(s, i, s') && v < |s.place| == |s.home| && PlaceOk(s, v) && IsThread(s', i) && ChainLeaves(s, i, s')
    ensures v < |s'.place| && PlaceOk(s', v)
  {
    hide Hand;
    hide Linked;
    var chain, k := s.threads[i].chain, s.buckets[s.threads[i].b];
    assert v in chain + k.stack <==> v in chain || v in k.stack;
  }

  lemma KeepApart(keep: Option<nat>, chain: seq<nat>)
    requires Distinct(KeepFirst(keep) + chain)
    ensures keep.Some? ==> keep.value !in chain
  {
    if keep.Some? {
      var c := KeepFirst(keep) + chain;
      assert c[0] == keep.value && forall k :: 0 <= k < |chain| ==> c[k + 1] == chain[k];
    }
  }

  // ---------------------------------------------------------------------------------
  // Refill, construction and destruction
  // ---------------------------------------------------------------------------------

  lemma RefillKeeps(s: State, i: nat, size: nat)
    requires Inv(s) && IsThread(s, i) && s.threads[i].Refilling? && size > 0
    ensures Inv(DoRefill(s, i, size))
  {
    var s' := DoRefill(s, i, size);
    var n := |s.next|;
    assert ThreadOk(s, i);
    RefillThread(s, i, size);
    RefillPlaces(s, i, size);
    hide ThreadOk;
    hide BucketOk;
    hide PlaceOk;
    hide Hand;
    forall j | 0 <= j < |s.threads| && j != i ensures ThreadOk(s', j) { RefillOther(s, i, size, j); }
    forall d | 0 <= d < |s.buckets| ensures BucketOk(s', d) { RefillBucket(s, i, size, d); }
    assert forall j: nat, v :: IsThread(s', j) && v in Hand(s'.threads[j]) ==> v in Hand(s.threads[j]) || n <= v < n + size;
  }

  lemma RefillOther(s: State, i: nat, size: nat, j: nat)
    requires Inv(s) && IsThread(s, i) && s.threads[i].Refilling? && size > 0 && IsThread(s, j) && j != i
    ensures ThreadOk(DoRefill(s, i, size), j)
  {
    assert ThreadOk(s, j);
    hide ThreadOk;
    hide BucketOk;
    hide PlaceOk;
    hide Hand;
    FrameThread(s, DoRefill(s, i, size), j);
  }

  lemma RefillBucket(s: State, i: nat, size: nat, d: nat)
    requires Inv(s) && IsThread(s, i) && s.threads[i].Refilling? && size > 0 && IsBucket(s, d)
    ensures BucketOk(DoRefill(s, i, size), d)
  {
    assert ThreadOk(s, i) && BucketOk(s, d);
    RefillThread(s, i, size);
    hide ThreadOk;
    hide PlaceOk;
  }

  /** The refilling thread holds exactly the slab: its first block to keep, the others as a linked chain. */
  lemma RefillThread(s: State, i: nat, size: nat)
    requires IsThread(s, i) && s.threads[i].Refilling? && size > 0 && |s.home| == |s.next| && ThreadOk(s, i)
    ensures var s' := DoRefill(s, i, size);
      && ThreadOk(s', i)
      && (forall v: nat :: v in Hand(s'.threads[i]) <==> |s.next| <= v < |s.next| + size)
  {
    var s' := DoRefill(s, i, size);
    var Refilling(b) := s.threads[i];
    var n := |s.next|;
    var h := Hand(s'.threads[i]);
    assert |h| == size && forall k :: 0 <= k < size ==> h[k] == n + k;
    forall v: nat
      ensures v in h <==> n <= v < n + size
    {
      if n <= v < n + size {
        assert h[v - n] == v;
      }
    }
    if size > 1 {
      var chain := Range(n + 1, size - 1);
      assert forall k :: 0 <= k < |chain| - 1 ==> s'.next[chain[k]] == Some(chain[k + 1]);
    }
  }

  lemma RefillPlaces(s: State, i: nat, size: nat)
    requires Inv(s) && IsThread(s, i) && s.threads[i].Refilling? && size > 0
    ensures var s' := DoRefill(s, i, size); forall v :: 0 <= v < |s'.place| ==> PlaceOk(s', v)
  {
    var s' := DoRefill(s, i, size);
    var n := |s.next|;
    assert ThreadOk(s, i);
    RefillThread(s, i, size);
    assert Hand(s.threads[i]) == [];
    hide ThreadOk;
    hide Hand;
    forall v | 0 <= v < |s'.place|
      ensures PlaceOk(s', v)
    {
      if v < n {
        assert PlaceOk(s, v);
        hide PlaceOk;
        FramePlace(s, s', v);
      } else {
        forall b: nat | IsBucket(s, b)
          ensures v !in s.buckets[b].stack
        {
          assert BucketOk(s, b);
        }
      }
    }
  }

  /** Thread i hands one block over to the application, or takes one back from it. */
  lemma OneBlockKeeps(s: State, i: nat, v: nat, c: Pc, place: Place)
    requires Inv(s) && IsThread(s, i) && v < |s.place|
    requires Hand(s.threads[i]) == (if place.Live? then [v] else []) && Hand(c) == (if place.Live? then [] else [v])
    requires if place.Live? then s.place[v] == InHand(i) else s.place[v].Live? && place == InHand(i)
    requires forall b: nat :: !InLock(s.threads[i], b) && !InLock(c, b)
    requires ThreadOk(Goto(s, i, c), i)
    ensures Inv(Goto(s, i, c).(place := s.place[v := place]))
  {
    var s' := Goto(s, i, c).(place := s.place[v := place]);
    hide Hand;
    hide ThreadOk;
    hide BucketOk;
    hide PlaceOk;
    hide InLock;
    OneBlockThreads(s, i, v, c, place);
    OneBlockPlaces(s, i, v, c, place);
    assert v < |s'.place| && |s'.place| == |s.place|;
    assert forall j: nat, u :: IsThread(s', j) && u in Hand(s'.threads[j]) ==> u in Hand(s.threads[j]) || u == v;
  }

  lemma OneBlockThreads(s: State, i: nat, v: nat, c: Pc, place: Place)
    requires Inv(s) && IsThread(s, i) && v < |s.place| && ThreadOk(Goto(s, i, c), i)
    requires forall b: nat :: !InLock(s.threads[i], b) && !InLock(c, b)
    ensures var s' := Goto(s, i, c).(place := s.place[v := place]);
      && (forall j :: 0 <= j < |s'.threads| ==> ThreadOk(s', j))
      && (forall d :: 0 <= d < |s'.buckets| ==> BucketOk(s', d))
  {
    var s' := Goto(s, i, c).(place := s.place[v := place]);
    hide Hand;
    hide PlaceOk;
    assert ThreadOk(s', i);
    forall j | 0 <= j < |s.threads| && j != i
      ensures ThreadOk(s', j)
    {
      assert ThreadOk(s, j);
      hide ThreadOk;
      FrameThread(s, s', j);
    }
    hide ThreadOk;
    forall d | 0 <= d < |s.buckets|
      ensures BucketOk(s', d)
    {
      assert BucketOk(s, d);
    }
  }

  lemma OneBlockPlaces(s: State, i: nat, v: nat, c: Pc, place: Place)
    requires Inv(s) && IsThread(s, i) && v < |s.place|
    requires Hand(s.threads[i]) == (if place.Live? then [v] else []) && Hand(c) == (if place.Live? then [] else [v])
    requires if place.Live? then s.place[v] == InHand(i) else s.place[v].Live? && place == InHand(i)
    ensures var s' := Goto(s, i, c).(place := s.place[v := place]); forall u :: 0 <= u < |s'.place| ==> PlaceOk(s', u)
  {
    var s' := Goto(s, i, c).(place := s.place[v := place]);
    hide Hand;
    hide ThreadOk;
    hide BucketOk;
    forall u | 0 <= u < |s.place|
      ensures PlaceOk(s', u)
    {
      assert PlaceOk(s, u);
      hide PlaceOk;
      if u == v {
        HandedPlace(s, i, v, c, place);
      } else {
        FramePlace(s, s', u);
      }
    }
  }

  lemma HandedPlace(s: State, i: nat, v: nat, c: Pc, place: Place)
    requires IsThread(s, i) && v < |s.place| && v < |s.home| && PlaceOk(s, v)
    requires Hand(s.threads[i]) == (if place.Live? then [v] else []) && Hand(c) == (if place.Live? then [] else [v])
    requires if place.Live? then s.place[v] == InHand(i) else s.place[v].Live? && place == InHand(i)
    ensures PlaceOk(Goto(s, i, c).(place := s.place[v := place]), v)
  {
    hide Hand;
  }

  lemma ConstructKeeps(s: State, i: nat, throws: bool)
    requires Inv(s) && IsThread(s, i) && s.threads[i].Holding? && s.threads[i].v < |s.place| && s.threads[i].v < |s.home|
    ensures Inv(DoConstruct(s, i, throws))
  {
    var v := s.threads[i].v;
    assert v in Hand(s.threads[i]);
    HandIsExclusive(s, i, v);
    assert PlaceOk(s, v);
    hide PlaceOk;
    hide BucketOk;
    if throws {
      MoveKeeps(s, i, PushLoad(s.home[v], [v], None));
    } else {
      OneBlockKeeps(s, i, v, Idle, Live);
    }
  }

  lemma DestroyKeeps(s: State, i: nat, v: nat)
    requires Inv(s) && Enabled(s, Destroy(i, v)) && v < |s.home|
    ensures Inv(DoDestroy(s, i, v))
  {
    assert PlaceOk(s, v);
    hide PlaceOk;
    hide BucketOk;
    OneBlockKeeps(s, i, v, PushLoad(s.home[v], [v], None), InHand(i));
  }

  // ---------------------------------------------------------------------------------
  // Runs
  // ---------------------------------------------------------------------------------

  lemma AlwaysDefined(s: State, a: Action)
    requires Inv(s) && Enabled(s, a)
    ensures Defined(s, a)
  {
    if !a.Destroy? {
      assert ThreadOk(s, a.i);
      if a.Construct? {
        assert s.threads[a.i].v in Hand(s.threads[a.i]);
      }
    }
  }

  lemma StepInv(s: State, a: Action, tags: nat)
    requires Inv(s) && tags > 0 && Enabled(s, a) && InWindow(s, a, tags)
    ensures Defined(s, a) && Inv(Apply(s, a, tags))
  {
    AlwaysDefined(s, a);
    hide Inv;
    match a
    case Create(i, b) => CreateKeeps(s, i, b);
    case LoadTop(i) => LoadTopKeeps(s, i);
    case ReadNext(i) => ReadNextKeeps(s, i);
    case TryPop(i, weak) => TryPopKeeps(s, i, weak, tags);
    case Lock(i) => LockKeeps(s, i);
    case Refill(i, size) => RefillKeeps(s, i, size);
    case LoadForPush(i) => LoadForPushKeeps(s, i);
    case LinkLast(i) => LinkLastKeeps(s, i);
    case TryPush(i, weak) => TryPushKeeps(s, i, weak, tags);
    case Unlock(i) => UnlockKeeps(s, i);
    case Construct(i, throws) => ConstructKeeps(s, i, throws);
    case Destroy(i, v) => DestroyKeeps(s, i, v);
  }

  /** A run of a constructed pool in which no compare-exchange window sees a whole turn of the tag. */
  ghost predicate IsRun(run: seq<State>, acts: seq<Action>, tags: nat) {
    && |run| == |acts| + 1 && tags > 0
    && IsInit(run[0])
    && forall i :: 0 <= i < |acts| ==> Enabled(run[i], acts[i]) && InWindow(run[i], acts[i], tags) && Step(run[i], acts[i], run[i + 1], tags)
  }

  lemma {:induction false} RunInv(run: seq<State>, acts: seq<Action>, tags: nat, n: nat)
    requires IsRun(run, acts, tags) && n < |run|
    ensures Inv(run[n])
  {
    hide Inv;
    hide Apply;
    hide Defined;
    if n == 0 {
      InitInv(run[0]);
    } else {
      RunInv(run, acts, tags, n - 1);
      assert Step(run[n - 1], acts[n - 1], run[n], tags);
      StepInv(run[n - 1], acts[n - 1], tags);
    }
  }

  /** The constructed pool: bucket b owns the slab of blocks b * size .. (b + 1) * size, all of them free. */
  function Constructed(buckets: nat, size: nat, threads: nat): State
    requires size > 0
  {
    State(seq(buckets * size, v requires 0 <= v => if (v + 1) % size == 0 then None else Some(v + 1)),
          seq(buckets * size, v requires 0 <= v => v / size),
          seq(buckets, b requires 0 <= b => Bucket(Some(b * size), 0, None, Range(b * size, size))),
          seq(threads, _ => Idle),
          seq(buckets * size, v requires 0 <= v => InStack(v / size)))
  }

  lemma DivIs(b: int, k: int, size: int)
    requires size > 0 && 0 <= k < size
    ensures (b * size + k) / size == b && (b * size + k) % size == k
  {
    ModIs(b * size + k, b, k, size);
  }

  lemma InSlab(b: int, buckets: int, size: int, k: int)
    requires size > 0 && 0 <= b < buckets && 0 <= k < size
    ensures 0 <= b * size && b * size + k < buckets * size
  {
    var rest := buckets - b - 1;
    assert b * size >= 0 && rest * size >= 0;
    assert (b + 1 + rest) * size == b * size + size + rest * size;
  }

  lemma ConstructedIsInit(buckets: nat, size: nat, threads: nat)
    requires size > 0
    ensures IsInit(Constructed(buckets, size, threads))
  {
    var s := Constructed(buckets, size, threads);
    forall v | 0 <= v < |s.place|
      ensures s.home[v] < |s.buckets|
    {
      SlabOf(v, buckets, size);
    }
    forall b | 0 <= b < |s.buckets|
      ensures Linked(s.next, s.buckets[b].stack)
      ensures s.buckets[b].top == Head(s.buckets[b].stack)
      ensures forall v: nat :: v in s.buckets[b].stack <==> v < |s.home| && s.home[v] == b
    {
      SlabIsLinked(s, b, buckets, size, threads);
    }
  }

  lemma SlabOf(v: int, buckets: int, size: int)
    requires size > 0 && 0 <= v < buckets * size
    ensures 0 <= v / size < buckets && v == (v / size) * size + v % size
  {
    var q := v / size;
    assert v == q * size + v % size;
    assert q >= buckets ==> (q - buckets) * size >= 0;
    assert (q - buckets) * size == q * size - buckets * size;
  }

  lemma BlockOfSlab(s: State, b: nat, k: nat, buckets: nat, size: nat, threads: nat)
    requires size > 0 && b < buckets && k < size && s == Constructed(buckets, size, threads)
    ensures b * size + k < |s.next| && |s.home| == |s.next|
    ensures s.next[b * size + k] == (if k + 1 < size then Some(b * size + k + 1) else None) && s.home[b * size + k] == b
  {
    InSlab(b, buckets, size, k);
    DivIs(b, k, size);
    if k + 1 < size {
      DivIs(b, k + 1, size);
    } else {
      DivIs(b + 1, 0, size);
      assert (b + 1) * size == b * size + size;
    }
  }

  lemma SlabIsLinked(s: State, b: nat, buckets: nat, size: nat, threads: nat)
    requires size > 0 && b < buckets && s == Constructed(buckets, size, threads)
    ensures Linked(s.next, s.buckets[b].stack) && s.buckets[b].top == Head(s.buckets[b].stack)
    ensures forall v: nat :: v in s.buckets[b].stack <==> v < |s.home| && s.home[v] == b
  {
    var first := b * size;
    SlabStack(s, b, buckets, size, threads);
    hide Constructed;
    var stack := s.buckets[b].stack;
    forall k | 0 <= k < |stack|
      ensures stack[k] < |s.next| && s.next[stack[k]] == LinkAt(stack, k)
    {
      BlockOfSlab(s, b, k, buckets, size, threads);
      assert stack[k] == first + k;
    }
    assert Linked(s.next, stack);
    hide Linked;
    forall v: nat
      ensures v in stack <==> v < |s.home| && s.home[v] == b
    {
      SlabMembers(s, b, v, buckets, size, threads);
    }
  }

  lemma SlabStack(s: State, b: nat, buckets: nat, size: nat, threads: nat)
    requires size > 0 && b < buckets && s == Constructed(buckets, size, threads)
    ensures |s.buckets| == buckets && b * size >= 0
    ensures s.buckets[b].stack == Range(b * size, size) && s.buckets[b].top == Some(b * size)
  {
  }

  lemma SlabMembers(s: State, b: nat, v: nat, buckets: nat, size: nat, threads: nat)
    requires size > 0 && b < buckets && s == Constructed(buckets, size, threads)
    ensures v in Range(b * size, size) <==> v < |s.home| && s.home[v] == b
  {
    var stack := Range(b * size, size);
    assert |s.home| == buckets * size && (v < |s.home| ==> s.home[v] == v / size);
    if v in stack {
      BlockOfSlab(s, b, v - b * size, buckets, size, threads);
    }
    hide Constructed;
    if v < |s.home| && v / size == b {
      SlabOf(v, buckets, size);
      assert stack[v % size] == v;
    }
  }

  lemma InitInv(s: State)
    requires IsInit(s)
    ensures Inv(s)
  {
    forall b | 0 <= b < |s.buckets|
      ensures BucketOk(s, b)
    {
    }
    forall v | 0 <= v < |s.place|
      ensures PlaceOk(s, v)
    {
    }
  }

  /** The place recorded for block v is where it is, and it is nowhere else. */
  ghost predicate OnlyPlace(s: State, v: nat)
    requires v < |s.place| && v < |s.home|
  {
    match s.place[v]
    case InStack(b) =>
      && b == s.home[v] && b < |s.buckets| && v in s.buckets[b].stack
      && (forall d: nat :: IsBucket(s, d) && d != b ==> v !in s.buckets[d].stack)
      && (forall i: nat :: IsThread(s, i) ==> v !in Hand(s.threads[i]))
    case InHand(i) =>
      && IsThread(s, i) && v in Hand(s.threads[i])
      && (forall d: nat :: IsBucket(s, d) ==> v !in s.buckets[d].stack)
      && (forall j: nat :: IsThread(s, j) && j != i ==> v !in Hand(s.threads[j]))
    case Live =>
      && (forall d: nat :: IsBucket(s, d) ==> v !in s.buckets[d].stack)
      && (forall i: nat :: IsThread(s, i) ==> v !in Hand(s.threads[i]))
  }

  /** Every block is in exactly one of its own bucket's stack, one thread's hands, or a live object. */
  lemma EveryBlockHasOnePlace(run: seq<State>, acts: seq<Action>, tags: nat, n: nat, v: nat)
    requires IsRun(run, acts, tags) && n < |run| && IsBlock(run[n], v)
    ensures var s := run[n]; |s.place| == |s.home| == |s.next| && s.home[v] < |s.buckets| && OnlyPlace(s, v)
  {
    RunInv(run, acts, tags, n);
    assert PlaceOk(run[n], v);
    hide Hand;
  }

  /** create() never hands out a block that a live object, another thread or a stack still has. */
  lemma CreateReturnsFreshBlock(run: seq<State>, acts: seq<Action>, tags: nat, n: nat, i: nat)
    requires IsRun(run, acts, tags) && n < |run| && IsThread(run[n], i) && run[n].threads[i].Holding?
    ensures var s := run[n]; var v := s.threads[i].v;
      && v < |s.place| && s.place[v] == InHand(i)
      && (forall b: nat :: IsBucket(s, b) ==> v !in s.buckets[b].stack)
      && (forall j: nat :: IsThread(s, j) && j != i ==> v !in Hand(s.threads[j]))
  {
    RunInv(run, acts, tags, n);
    assert run[n].threads[i].v in Hand(run[n].threads[i]);
    HandIsExclusive(run[n], i, run[n].threads[i].v);
  }

  /** Inside the refill lock there is one thread, so of threads that find the stack empty one at a time refills. */
  lemma OneRefillAtATime(run: seq<State>, acts: seq<Action>, tags: nat, n: nat, i: nat, j: nat, b: nat)
    requires IsRun(run, acts, tags) && n < |run| && IsThread(run[n], i) && IsThread(run[n], j)
    requires InLock(run[n].threads[i], b) && InLock(run[n].threads[j], b)
    ensures i == j
  {
    RunInv(run, acts, tags, n);
    assert ThreadOk(run[n], i) && ThreadOk(run[n], j);
  }

  /** In every run the free stack is a null-terminated chain without repetition that the head points to. */
  lemma StackIsLinked(run: seq<State>, acts: seq<Action>, tags: nat, n: nat, b: nat)
    requires IsRun(run, acts, tags) && n < |run| && IsBucket(run[n], b)
    ensures var k := run[n].buckets[b];
      k.top == Head(k.stack) && Linked(run[n].next, k.stack) && Distinct(k.stack)
      && forall v :: v in k.stack ==> v < |run[n].home| && run[n].home[v] == b
  {
    var s := run[n];
    RunInv(run, acts, tags, n);
    assert BucketOk(s, b);
    LinkedDistinct(s.next, s.buckets[b].stack);
    forall v | v in s.buckets[b].stack
      ensures v < |s.home| && s.home[v] == b
    {
      var k :| 0 <= k < |s.buckets[b].stack| && s.buckets[b].stack[k] == v;
      assert v < |s.next|;
      assert PlaceOk(s, v);
    }
  }
}
