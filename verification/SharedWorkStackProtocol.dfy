// The shared stack of shared_work_stack.hpp: producers count their nodes, then hang a private chain
// onto m_incoming; one thief at a time, the holder of the lock bit, consumes m_head and takes over
// the incoming chain when m_head runs out. Every atomic operation is one action; work that only
// touches a thread's private chain is one action too.

module SharedWorkStackProtocol {
  import opened Common

  datatype Producer =
    | Idle
    | Built(chain: seq<nat>)                        // private chain linked, will add its length to the count
    | Counted(chain: seq<nat>)                      // will load m_incoming
    | Trying(chain: seq<nat>, top: Option<nat>)     // will store top into the last node's m_next
    | Hooked(chain: seq<nat>, top: Option<nat>)     // will compare-exchange m_incoming from top

  datatype Thief =
    | Resting
    | Peeked                  // saw no lock and a non-zero count, will fetch_or the lock bit
    | Owning                  // holds the lock, will read m_head
    | Swapping                // m_head was null, will exchange m_incoming
    | Holding(work: nat)      // will move m_head to work's m_next
    | Detaching(work: nat)    // will clear work's m_next
    | Releasing(work: nat)    // will subtract lock and one
    | Unlocking               // found nothing, will clear the lock bit

  /** The one place a node is in. */
  datatype Loc = Free | Pending(p: nat) | InIncoming | InConsumer | Taken(k: nat)

  datatype State = State(
    locked: bool,             // bit 63 of m_state
    count: nat,               // bits 0..62 of m_state
    incoming: Option<nat>,
    head: Option<nat>,
    next: Links,              // m_next of every Work
    producers: seq<Producer>,
    thieves: seq<Thief>,
    // history
    inc: seq<nat>,            // the published chain
    cons: seq<nat>,           // the chain taken over by consumers
    holder: Option<nat>,
    loc: seq<Loc>,
    pushes: seq<nat>,
    steals: seq<nat>)

  const SIZE_MASK: nat := 0x7FFF_FFFF_FFFF_FFFF

  datatype Action =
    | Build(p: nat, chain: seq<nat>)
    | Count(p: nat)
    | LoadIncoming(p: nat)
    | Hook(p: nat)
    | Publish(p: nat, spurious: bool)
    | Peek(k: nat)
    | Lock(k: nat)
    | ReadHead(k: nat)
    | Swap(k: nat)
    | MoveHead(k: nat)
    | Clear(k: nat)
    | Release(k: nat)
    | Unlock(k: nat)

  predicate Shape(s: State) { |s.next| == |s.loc| == |s.pushes| == |s.steals| }

  /** What the i-th node of a chain that ends at `target` must hold. */
  function LinkTo(c: seq<nat>, i: nat, target: Option<nat>): Option<nat>
    requires i < |c|
  {
    if i + 1 < |c| then Some(c[i + 1]) else target
  }

  /** The chain from its first node, its last node's link denoting `target`. */
  ghost predicate LinkedTo(next: Links, c: seq<nat>, target: Option<nat>) {
    forall i :: 0 <= i < |c| ==> c[i] < |next| && next[c[i]] == LinkTo(c, i, target)
  }

  /** The links after a private chain has been connected, as the batch push's loop does. */
  function Connect(next: Links, c: seq<nat>, target: Option<nat>): (r: Links)
    requires forall i :: 0 <= i < |c| ==> c[i] < |next|
    ensures |r| == |next|
    ensures forall v :: 0 <= v < |next| && v !in c ==> r[v] == next[v]
    decreases |c|
  {
    if c == [] then next
    else
      var rest := Connect(next, c[1..], target);
      rest[c[0] := LinkTo(c, 0, target)]
  }

  predicate InCritical(t: Thief) { !t.Resting? && !t.Peeked? }

  predicate Enabled(s: State, a: Action) {
    && Shape(s)
    && match a
       case Build(p, c) =>
         && p < |s.producers| && s.producers[p].Idle? && c != []
         && (forall i, j :: 0 <= i < j < |c| ==> c[i] != c[j])
         && forall i :: 0 <= i < |c| ==> c[i] < |s.loc| && s.loc[c[i]].Free? && s.next[c[i]].None?
       case Count(p) => p < |s.producers| && s.producers[p].Built? && s.count + |s.producers[p].chain| <= SIZE_MASK
       case LoadIncoming(p) => p < |s.producers| && s.producers[p].Counted?
       case Hook(p) => p < |s.producers| && s.producers[p].Trying?
       case Publish(p, _) => p < |s.producers| && s.producers[p].Hooked?
       case Peek(k) => k < |s.thieves| && s.thieves[k].Resting?
       case Lock(k) => k < |s.thieves| && s.thieves[k].Peeked?
       case ReadHead(k) => k < |s.thieves| && s.thieves[k].Owning?
       case Swap(k) => k < |s.thieves| && s.thieves[k].Swapping?
       case MoveHead(k) => k < |s.thieves| && s.thieves[k].Holding?
       case Clear(k) => k < |s.thieves| && s.thieves[k].Detaching?
       case Release(k) => k < |s.thieves| && s.thieves[k].Releasing?
       case Unlock(k) => k < |s.thieves| && s.thieves[k].Unlocking?
  }

  /** Node indices are in range, and the single subtraction of lock and one does not borrow. */
  predicate Defined(s: State, a: Action)
    requires Enabled(s, a)
  {
    match a
    case Hook(p) => s.producers[p].chain != [] && Last(s.producers[p].chain) < |s.next|
    case Publish(p, _) => s.producers[p].chain != []
    case MoveHead(k) => s.thieves[k].work < |s.next| && s.cons != []
    case Clear(k) => s.thieves[k].work < |s.next|
    case Release(k) => s.thieves[k].work < |s.next| && s.locked && s.count >= 1
    case _ => true
  }

  function Last(c: seq<nat>): nat
    requires c != []
  {
    c[|c| - 1]
  }

  /** Every node of the chain is now at `place`. */
  function Moved(loc: seq<Loc>, c: seq<nat>, place: Loc): (r: seq<Loc>)
    ensures |r| == |loc|
    ensures forall v :: 0 <= v < |loc| ==> r[v] == if v in c then place else loc[v]
  {
    seq(|loc|, v requires 0 <= v < |loc| => if v in c then place else loc[v])
  }

  function Bumped(counts: seq<nat>, c: seq<nat>): (r: seq<nat>)
    ensures |r| == |counts|
    ensures forall v :: 0 <= v < |counts| ==> r[v] == counts[v] + if v in c then 1 else 0
  {
    seq(|counts|, v requires 0 <= v < |counts| => counts[v] + if v in c then 1 else 0)
  }

  function DoLock(s: State, k: nat): State
    requires Enabled(s, Lock(k))
  {
    if s.locked then s.(thieves := s.thieves[k := Resting])
    else s.(locked := true, holder := Some(k), thieves := s.thieves[k := if s.count == 0 then Unlocking else Owning])
  }

  function DoPublish(s: State, p: nat, spurious: bool): State
    requires Enabled(s, Publish(p, spurious)) && Defined(s, Publish(p, spurious))
  {
    var c := s.producers[p];
    if !spurious && s.incoming == c.top then
      s.(incoming := Some(c.chain[0]), inc := c.chain + s.inc, loc := Moved(s.loc, c.chain, InIncoming),
         producers := s.producers[p := Idle])
    else s.(producers := s.producers[p := Trying(c.chain, s.incoming)])
  }

  function DoSwap(s: State, k: nat): State
    requires Enabled(s, Swap(k))
  {
    match s.incoming
    case None => s.(thieves := s.thieves[k := Unlocking])
    case Some(w) =>
      s.(incoming := None, inc := [], cons := s.inc, loc := Moved(s.loc, s.inc, InConsumer),
         thieves := s.thieves[k := Holding(w)])
  }

  function Apply(s: State, a: Action): State
    requires Enabled(s, a) && Defined(s, a)
  {
    match a
    case Build(p, c) =>
      s.(next := Connect(s.next, c, None), loc := Moved(s.loc, c, Pending(p)), pushes := Bumped(s.pushes, c),
         producers := s.producers[p := Built(c)])
    case Count(p) =>
      var c := s.producers[p].chain;
      s.(count := s.count + |c|, producers := s.producers[p := Counted(c)])
    case LoadIncoming(p) => s.(producers := s.producers[p := Trying(s.producers[p].chain, s.incoming)])
    case Hook(p) =>
      var c := s.producers[p];
      s.(next := s.next[Last(c.chain) := c.top], producers := s.producers[p := Hooked(c.chain, c.top)])
    case Publish(p, spurious) => DoPublish(s, p, spurious)
    case Peek(k) => if s.locked || s.count == 0 then s else s.(thieves := s.thieves[k := Peeked])
    case Lock(k) => DoLock(s, k)
    case ReadHead(k) =>
      s.(thieves := s.thieves[k := match s.head case None => Swapping case Some(w) => Holding(w)])
    case Swap(k) => DoSwap(s, k)
    case MoveHead(k) =>
      var w := s.thieves[k].work;
      s.(head := s.next[w], cons := s.cons[1..], loc := Moved(s.loc, [w], Taken(k)), thieves := s.thieves[k := Detaching(w)])
    case Clear(k) =>
      var w := s.thieves[k].work;
      s.(next := s.next[w := None], thieves := s.thieves[k := Releasing(w)])
    case Release(k) =>
      var w := s.thieves[k].work;
      s.(locked := false, count := s.count - 1, holder := None, loc := Moved(s.loc, [w], Free),
         steals := Bumped(s.steals, [w]), thieves := s.thieves[k := Resting])
    case Unlock(k) => s.(locked := false, holder := None, thieves := s.thieves[k := Resting])
  }

  function InitState(works: nat, producers: nat, thieves: nat): State {
    State(false, 0, None, None, seq(works, _ => None), seq(producers, _ => Idle), seq(thieves, _ => Resting),
          [], [], None, seq(works, _ => Free), seq(works, _ => 0), seq(works, _ => 0))
  }

  // ---------------------------------------------------------------------------------
  // Invariant
  // ---------------------------------------------------------------------------------

  function Announced(p: Producer): nat {
    if p.Counted? || p.Trying? || p.Hooked? then |p.chain| else 0
  }

  /** Nodes that are counted but not published yet. */
  function TotalAnnounced(ps: seq<Producer>): nat {
    if ps == [] then 0 else Announced(ps[0]) + TotalAnnounced(ps[1..])
  }

  function InFlight(s: State): nat {
    match s.holder
    case None => 0
    case Some(k) => if k < |s.thieves| && (s.thieves[k].Detaching? || s.thieves[k].Releasing?) then 1 else 0
  }

  /** The count is what is announced, published, taken over, or taken off but not yet subtracted. */
  ghost predicate CountOk(s: State) {
    s.count == TotalAnnounced(s.producers) + |s.inc| + |s.cons| + InFlight(s)
  }

  ghost predicate ChainOk(s: State, c: seq<nat>, place: Loc)
    requires Shape(s)
  {
    Distinct(c) && forall i :: 0 <= i < |c| ==> c[i] < |s.loc| && s.loc[c[i]] == place
  }

  ghost predicate ProducerOk(s: State, p: nat)
    requires Shape(s) && p < |s.producers|
  {
    match s.producers[p]
    case Idle => true
    case Built(c) => c != [] && ChainOk(s, c, Pending(p)) && LinkedTo(s.next, c, None)
    case Counted(c) => c != [] && ChainOk(s, c, Pending(p)) && LinkedTo(s.next, c, None)
    case Trying(c, _) =>
      c != [] && ChainOk(s, c, Pending(p)) && LinkedTo(s.next, c[..|c| - 1], Some(Last(c)))
    case Hooked(c, top) => c != [] && ChainOk(s, c, Pending(p)) && LinkedTo(s.next, c, top)
  }

  function ChainOf(p: Producer): seq<nat> { if p.Idle? then [] else p.chain }

  /** Exactly the holder is inside the critical section. */
  ghost predicate ThiefOk(s: State, k: nat)
    requires Shape(s) && k < |s.thieves|
  {
    && (InCritical(s.thieves[k]) <==> s.holder == Some(k))
    && match s.thieves[k]
       case Swapping => s.cons == []
       case Holding(w) => s.cons != [] && w == s.cons[0]
       case Detaching(w) => w < |s.loc| && s.loc[w] == Taken(k)
       case Releasing(w) => w < |s.loc| && s.loc[w] == Taken(k) && s.next[w] == None
       case _ => true
  }

  /** m_head denotes the consumer chain, except while its holder is about to set it. */
  ghost predicate HeadOk(s: State) {
    s.head == Head(s.cons) || (s.head == None && s.holder.Some? && s.holder.value < |s.thieves| && s.thieves[s.holder.value].Holding?)
  }

  ghost predicate NodeOk(s: State, v: nat)
    requires Shape(s) && v < |s.loc|
  {
    && s.pushes[v] == s.steals[v] + (if s.loc[v].Free? then 0 else 1)
    && match s.loc[v]
       case Free => true
       case Pending(p) => p < |s.producers| && v in ChainOf(s.producers[p])
       case InIncoming => v in s.inc
       case InConsumer => v in s.cons
       case Taken(k) => s.holder == Some(k) && k < |s.thieves|
                        && (s.thieves[k].Detaching? || s.thieves[k].Releasing?) && s.thieves[k].work == v
  }

  ghost predicate Inv(s: State) {
    && Shape(s)
    && (s.locked <==> s.holder.Some?)
    && (s.holder.Some? ==> s.holder.value < |s.thieves|)
    && CountOk(s)
    && s.incoming == Head(s.inc) && Linked(s.next, s.inc) && ChainOk(s, s.inc, InIncoming)
    && HeadOk(s) && Linked(s.next, s.cons) && ChainOk(s, s.cons, InConsumer)
    && (forall p :: 0 <= p < |s.producers| ==> ProducerOk(s, p))
    && (forall k :: 0 <= k < |s.thieves| ==> ThiefOk(s, k))
    && (forall v :: 0 <= v < |s.loc| ==> NodeOk(s, v))
  }
}
