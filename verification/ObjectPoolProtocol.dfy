// The object pool: per bucket a lock-free stack of free blocks whose head carries a version tag, refilled a slab
// at a time under a lock. Threads interleave at every atomic access; compare-exchanges may fail at any time.

module ObjectPoolProtocol {
  import opened Common

  /** Where a block is. */
  datatype Place = InStack(b: nat) | InHand(i: nat) | Live

  datatype Bucket = Bucket(
    top: Option<nat>,         // the pointer of the head
    version: nat,             // how often the head was changed; the head stores it modulo the number of tags
    locker: Option<nat>,      // holder of refill_mutex
    // history
    stack: seq<nat>)

  /** Program counters; `locked` says that a pop runs inside the refill lock, `keep` is the block a refill takes. */
  datatype Pc =
    | Idle
    | PopLoad(b: nat, locked: bool)
    | PopRead(b: nat, locked: bool, top: nat, version: nat)
    | PopTry(b: nat, locked: bool, top: nat, version: nat, succ: Option<nat>)
    | Locking(b: nat)
    | Refilling(b: nat)
    | PushLoad(b: nat, chain: seq<nat>, keep: Option<nat>)
    | PushLink(b: nat, chain: seq<nat>, keep: Option<nat>, snap: Option<nat>, version: nat)
    | PushTry(b: nat, chain: seq<nat>, keep: Option<nat>, snap: Option<nat>, version: nat)
    | Unlocking(b: nat, v: nat)
    | Holding(v: nat)

  datatype State = State(
    next: Links,              // next_free of every block
    home: seq<nat>,           // the bucket each block is bound to
    buckets: seq<Bucket>,
    threads: seq<Pc>,
    // history
    place: seq<Place>)

  datatype Action =
    | Create(i: nat, b: nat)
    | LoadTop(i: nat)
    | ReadNext(i: nat)
    | TryPop(i: nat, weak: bool)
    | Lock(i: nat)
    | Refill(i: nat, size: nat)
    | LoadForPush(i: nat)
    | LinkLast(i: nat)
    | TryPush(i: nat, weak: bool)
    | Unlock(i: nat)
    | Construct(i: nat, throws: bool)
    | Destroy(i: nat, v: nat)

  predicate IsThread(s: State, i: nat) { i < |s.threads| }

  predicate IsBucket(s: State, b: nat) { b < |s.buckets| }

  predicate IsBlock(s: State, v: nat) { v < |s.next| }

  /** Equal heads: the same pointer and the same tag. */
  predicate SameHead(k: Bucket, top: Option<nat>, version: nat, tags: nat)
    requires tags > 0
  {
    k.top == top && k.version % tags == version % tags
  }

  predicate Enabled(s: State, a: Action) {
    match a
    case Create(i, b) => IsThread(s, i) && s.threads[i].Idle? && IsBucket(s, b)
    case LoadTop(i) => IsThread(s, i) && s.threads[i].PopLoad?
    case ReadNext(i) => IsThread(s, i) && s.threads[i].PopRead?
    case TryPop(i, _) => IsThread(s, i) && s.threads[i].PopTry?
    case Lock(i) =>
      IsThread(s, i) && s.threads[i].Locking? && IsBucket(s, s.threads[i].b) && s.buckets[s.threads[i].b].locker.None?
    case Refill(i, size) => IsThread(s, i) && s.threads[i].Refilling? && size > 0
    case LoadForPush(i) => IsThread(s, i) && s.threads[i].PushLoad?
    case LinkLast(i) => IsThread(s, i) && s.threads[i].PushLink?
    case TryPush(i, _) => IsThread(s, i) && s.threads[i].PushTry?
    case Unlock(i) => IsThread(s, i) && s.threads[i].Unlocking?
    case Construct(i, _) => IsThread(s, i) && s.threads[i].Holding?
    case Destroy(i, v) => IsThread(s, i) && s.threads[i].Idle? && v < |s.place| && s.place[v].Live?
  }

  /** Pointers followed are blocks of the pool, and no tag comes round again within one compare-exchange window. */
  predicate InWindow(s: State, a: Action, tags: nat)
    requires Enabled(s, a) && tags > 0
  {
    match a
    case TryPop(i, _) =>
      var c := s.threads[i];
      IsBucket(s, c.b) && s.buckets[c.b].version < c.version + tags
    case _ => true
  }

  /** The indices the action uses are in range. */
  predicate Defined(s: State, a: Action)
    requires Enabled(s, a)
  {
    match a
    case LoadTop(i) => IsBucket(s, s.threads[i].b)
    case ReadNext(i) => IsBlock(s, s.threads[i].top)
    case TryPop(i, _) => IsBucket(s, s.threads[i].b) && s.threads[i].top < |s.place|
    case Refill(i, _) => IsBucket(s, s.threads[i].b)
    case LoadForPush(i) => IsBucket(s, s.threads[i].b)
    case LinkLast(i) => s.threads[i].chain != [] && IsBlock(s, Last(s.threads[i].chain))
    case TryPush(i, _) => IsBucket(s, s.threads[i].b)
    case Unlock(i) => IsBucket(s, s.threads[i].b)
    case Construct(i, _) => s.threads[i].v < |s.place| && s.threads[i].v < |s.home|
    case Destroy(i, v) => v < |s.home|
    case _ => true
  }

  function Last(c: seq<nat>): nat
    requires c != []
  {
    c[|c| - 1]
  }

  // ---------------------------------------------------------------------------------
  // Actions
  // ---------------------------------------------------------------------------------

  function Goto(s: State, i: nat, c: Pc): State
    requires IsThread(s, i)
  {
    s.(threads := s.threads[i := c])
  }

  function SetBucket(s: State, b: nat, k: Bucket): State
    requires IsBucket(s, b)
  {
    s.(buckets := s.buckets[b := k])
  }

  /** With a head loaded: an empty stack sends the thread to the refill path, or, inside the lock, to the refill. */
  function AfterLoad(k: Bucket, b: nat, locked: bool): Pc {
    match k.top
    case Some(v) => PopRead(b, locked, v, k.version)
    case None => if locked then Refilling(b) else Locking(b)
  }

  function DoLoadTop(s: State, i: nat): State
    requires IsThread(s, i) && s.threads[i].PopLoad? && IsBucket(s, s.threads[i].b)
  {
    var PopLoad(b, locked) := s.threads[i];
    Goto(s, i, AfterLoad(s.buckets[b], b, locked))
  }

  function DoReadNext(s: State, i: nat): State
    requires IsThread(s, i) && s.threads[i].PopRead? && IsBlock(s, s.threads[i].top)
  {
    var PopRead(b, locked, top, version) := s.threads[i];
    Goto(s, i, PopTry(b, locked, top, version, s.next[top]))
  }

  /** A failed exchange carries the head it saw back to the loop. */
  function DoTryPop(s: State, i: nat, weak: bool, tags: nat): State
    requires IsThread(s, i) && s.threads[i].PopTry? && IsBucket(s, s.threads[i].b) && s.threads[i].top < |s.place| && tags > 0
  {
    var PopTry(b, locked, top, version, succ) := s.threads[i];
    var k := s.buckets[b];
    if weak || !SameHead(k, Some(top), version, tags) then Goto(s, i, AfterLoad(k, b, locked))
    else
      var u := SetBucket(s, b, k.(top := succ, version := k.version + 1, stack := if k.stack == [] then [] else k.stack[1..]));
      Goto(u, i, if locked then Unlocking(b, top) else Holding(top)).(place := s.place[top := InHand(i)])
  }

  function DoLock(s: State, i: nat): State
    requires IsThread(s, i) && s.threads[i].Locking? && IsBucket(s, s.threads[i].b)
  {
    var Locking(b) := s.threads[i];
    Goto(SetBucket(s, b, s.buckets[b].(locker := Some(i))), i, PopLoad(b, true))
  }

  /** The links of a slab's blocks n .. n + size: each to the following one, the last to null. */
  function SlabLinks(n: nat, size: nat): (r: Links)
    ensures |r| == size
    ensures forall k :: 0 <= k < size ==> r[k] == if k + 1 < size then Some(n + k + 1) else None
  {
    seq(size, k requires 0 <= k < size => if k + 1 < size then Some(n + k + 1) else None)
  }

  function Range(n: nat, size: nat): (r: seq<nat>)
    ensures |r| == size && forall k :: 0 <= k < size ==> r[k] == n + k
  {
    seq(size, k requires 0 <= k < size => n + k)
  }

  /** A new slab: its first block is taken, the others, already linked, are to be pushed as one chain. */
  function DoRefill(s: State, i: nat, size: nat): State
    requires IsThread(s, i) && s.threads[i].Refilling? && size > 0
  {
    var Refilling(b) := s.threads[i];
    var n := |s.next|;
    var u := s.(next := s.next + SlabLinks(n, size), home := s.home + seq(size, _ => b),
                place := s.place + seq(size, _ => InHand(i)));
    Goto(u, i, if size == 1 then Unlocking(b, n) else PushLoad(b, Range(n + 1, size - 1), Some(n)))
  }

  function DoLoadForPush(s: State, i: nat): State
    requires IsThread(s, i) && s.threads[i].PushLoad? && IsBucket(s, s.threads[i].b)
  {
    var PushLoad(b, chain, keep) := s.threads[i];
    Goto(s, i, PushLink(b, chain, keep, s.buckets[b].top, s.buckets[b].version))
  }

  function DoLinkLast(s: State, i: nat): State
    requires IsThread(s, i) && s.threads[i].PushLink?
    requires s.threads[i].chain != [] && IsBlock(s, Last(s.threads[i].chain))
  {
    var PushLink(b, chain, keep, snap, version) := s.threads[i];
    Goto(s.(next := s.next[Last(chain) := snap]), i, PushTry(b, chain, keep, snap, version))
  }

  /** Blocks of the chain move to the stack of bucket b. */
  function MoveChain(place: seq<Place>, chain: seq<nat>, b: nat): (r: seq<Place>)
    ensures |r| == |place|
    ensures forall v :: 0 <= v < |place| ==> r[v] == if v in chain then InStack(b) else place[v]
  {
    seq(|place|, v requires 0 <= v < |place| => if v in chain then InStack(b) else place[v])
  }

  function DoTryPush(s: State, i: nat, weak: bool, tags: nat): State
    requires IsThread(s, i) && s.threads[i].PushTry? && IsBucket(s, s.threads[i].b) && tags > 0
  {
    var PushTry(b, chain, keep, snap, version) := s.threads[i];
    var k := s.buckets[b];
    if weak || !SameHead(k, snap, version, tags) then Goto(s, i, PushLink(b, chain, keep, k.top, k.version))
    else
      var u := SetBucket(s, b, k.(top := Head(chain), version := k.version + 1, stack := chain + k.stack));
      Goto(u, i, if keep.Some? then Unlocking(b, keep.value) else Idle).(place := MoveChain(s.place, chain, b))
  }

  function DoUnlock(s: State, i: nat): State
    requires IsThread(s, i) && s.threads[i].Unlocking? && IsBucket(s, s.threads[i].b)
  {
    var Unlocking(b, v) := s.threads[i];
    Goto(SetBucket(s, b, s.buckets[b].(locker := None)), i, Holding(v))
  }

  /** A constructor that throws gives the block back. */
  function DoConstruct(s: State, i: nat, throws: bool): State
    requires IsThread(s, i) && s.threads[i].Holding? && s.threads[i].v < |s.place| && s.threads[i].v < |s.home|
  {
    var Holding(v) := s.threads[i];
    if throws then Goto(s, i, PushLoad(s.home[v], [v], None))
    else Goto(s, i, Idle).(place := s.place[v := Live])
  }

  function DoDestroy(s: State, i: nat, v: nat): State
    requires IsThread(s, i) && v < |s.place| && v < |s.home|
  {
    Goto(s, i, PushLoad(s.home[v], [v], None)).(place := s.place[v := InHand(i)])
  }

  function Apply(s: State, a: Action, tags: nat): State
    requires Enabled(s, a) && Defined(s, a) && tags > 0
  {
    match a
    case Create(i, b) => Goto(s, i, PopLoad(b, false))
    case LoadTop(i) => DoLoadTop(s, i)
    case ReadNext(i) => DoReadNext(s, i)
    case TryPop(i, weak) => DoTryPop(s, i, weak, tags)
    case Lock(i) => DoLock(s, i)
    case Refill(i, size) => DoRefill(s, i, size)
    case LoadForPush(i) => DoLoadForPush(s, i)
    case LinkLast(i) => DoLinkLast(s, i)
    case TryPush(i, weak) => DoTryPush(s, i, weak, tags)
    case Unlock(i) => DoUnlock(s, i)
    case Construct(i, throws) => DoConstruct(s, i, throws)
    case Destroy(i, v) => DoDestroy(s, i, v)
  }

  ghost predicate Step(s: State, a: Action, s': State, tags: nat) {
    tags > 0 && Enabled(s, a) && Defined(s, a) && InWindow(s, a, tags) && s' == Apply(s, a, tags)
  }

  // ---------------------------------------------------------------------------------
  // Invariant
  // ---------------------------------------------------------------------------------

  /** The blocks in a thread's hands. */
  function Hand(c: Pc): seq<nat> {
    match c
    case PushLoad(_, chain, keep) => KeepFirst(keep) + chain
    case PushLink(_, chain, keep, _, _) => KeepFirst(keep) + chain
    case PushTry(_, chain, keep, _, _) => KeepFirst(keep) + chain
    case Unlocking(_, v) => [v]
    case Holding(v) => [v]
    case _ => []
  }

  function KeepFirst(keep: Option<nat>): seq<nat> {
    match keep case None => [] case Some(v) => [v]
  }

  /** The chain is linked up to its last block, whose link is open. */
  ghost predicate ChainOk(s: State, chain: seq<nat>, b: nat) {
    && chain != [] && Distinct(chain)
    && (forall k :: 0 <= k < |chain| ==> IsBlock(s, chain[k]) && chain[k] < |s.home| && s.home[chain[k]] == b)
    && (forall k :: 0 <= k < |chain| - 1 ==> s.next[chain[k]] == Some(chain[k + 1]))
  }

  /** The thread is inside the refill lock of bucket b. */
  predicate InLock(c: Pc, b: nat) {
    match c
    case PopLoad(d, locked) => locked && d == b
    case PopRead(d, locked, _, _) => locked && d == b
    case PopTry(d, locked, _, _, _) => locked && d == b
    case Refilling(d) => d == b
    case PushLoad(d, _, keep) => keep.Some? && d == b
    case PushLink(d, _, keep, _, _) => keep.Some? && d == b
    case PushTry(d, _, keep, _, _) => keep.Some? && d == b
    case Unlocking(d, _) => d == b
    case _ => false
  }

  ghost predicate BucketOk(s: State, b: nat)
    requires IsBucket(s, b)
  {
    var k := s.buckets[b];
    && k.top == Head(k.stack) && Linked(s.next, k.stack)
    && (k.locker.Some? ==> IsThread(s, k.locker.value) && InLock(s.threads[k.locker.value], b))
  }

  /** A snapshot is of the past, and of the present head if the version is the same. */
  ghost predicate SnapshotOk(k: Bucket, top: Option<nat>, version: nat) {
    version <= k.version && (version == k.version ==> top == k.top)
  }

  ghost predicate ThreadOk(s: State, i: nat)
    requires IsThread(s, i)
  {
    var c := s.threads[i];
    && Distinct(Hand(c))
    && (forall b: nat :: InLock(c, b) ==> IsBucket(s, b) && s.buckets[b].locker == Some(i))
    && match c
       case Idle => true
       case PopLoad(b, _) => IsBucket(s, b)
       case PopRead(b, _, top, version) => IsBucket(s, b) && IsBlock(s, top) && SnapshotOk(s.buckets[b], Some(top), version)
       case PopTry(b, _, top, version, succ) =>
         && IsBucket(s, b) && IsBlock(s, top) && SnapshotOk(s.buckets[b], Some(top), version)
         && (version == s.buckets[b].version ==> succ == s.next[top])
       case Locking(b) => IsBucket(s, b)
       case Refilling(b) => IsBucket(s, b)
       case PushLoad(b, chain, keep) => IsBucket(s, b) && ChainOk(s, chain, b)
       case PushLink(b, chain, keep, snap, version) =>
         IsBucket(s, b) && ChainOk(s, chain, b) && SnapshotOk(s.buckets[b], snap, version)
       case PushTry(b, chain, keep, snap, version) =>
         IsBucket(s, b) && ChainOk(s, chain, b) && SnapshotOk(s.buckets[b], snap, version) && s.next[Last(chain)] == snap
       case Unlocking(b, _) => IsBucket(s, b)
       case Holding(_) => true
  }

  /** A block is in the stack of its own bucket, or in one thread's hands, or a live object: exactly one of these. */
  ghost predicate PlaceOk(s: State, v: nat)
    requires v < |s.place| && v < |s.home|
  {
    && s.home[v] < |s.buckets|
    && (forall b: nat :: IsBucket(s, b) ==> (v in s.buckets[b].stack <==> s.place[v] == InStack(b)))
    && (forall i: nat :: IsThread(s, i) ==> (v in Hand(s.threads[i]) <==> s.place[v] == InHand(i)))
    && (s.place[v].InStack? ==> s.place[v].b == s.home[v])
    && (s.place[v].InHand? ==> IsThread(s, s.place[v].i))
  }

  ghost predicate Inv(s: State) {
    && |s.home| == |s.next| && |s.place| == |s.next|
    && (forall b :: 0 <= b < |s.buckets| ==> BucketOk(s, b))
    && (forall i :: 0 <= i < |s.threads| ==> ThreadOk(s, i))
    && (forall v :: 0 <= v < |s.place| ==> PlaceOk(s, v))
    && (forall i: nat, v :: IsThread(s, i) && v in Hand(s.threads[i]) ==> v < |s.place|)
  }

  /** A constructed pool: every bucket holds one slab. */
  ghost predicate IsInit(s: State) {
    && |s.home| == |s.next| && |s.place| == |s.next|
    && (forall i :: 0 <= i < |s.threads| ==> s.threads[i].Idle?)
    && (forall v :: 0 <= v < |s.place| ==> s.home[v] < |s.buckets| && s.place[v] == InStack(s.home[v]))
    && (forall b :: 0 <= b < |s.buckets| ==>
          && s.buckets[b].version == 0 && s.buckets[b].locker.None? && s.buckets[b].top == Head(s.buckets[b].stack)
          && Linked(s.next, s.buckets[b].stack)
          && forall v: nat :: v in s.buckets[b].stack <==> v < |s.home| && s.home[v] == b)
  }
}
