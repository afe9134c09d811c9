// The shared stack object: one 64-bit word with the lock in bit 63 and the count below it, the
// atomic m_incoming, the plain m_head and the nodes' m_next fields. One method per atomic action,
// each proved to be the action of SharedWorkStackProtocol; the linking loop of the batch push is a loop here.

module SharedWorkStackObject {
  import opened Common
  import opened SharedWorkStackProtocol
  import opened SharedWorkStackTheorems

  const LOCKED: nat := 0x8000_0000_0000_0000
  const WORD: nat := 0x1_0000_0000_0000_0000

  /** m_state.fetch_or(LOCKED) */
  function OrLocked(x: nat): nat { if x < LOCKED then x + LOCKED else x }

  /** m_state.fetch_and(SIZE_MASK) */
  function AndMask(x: nat): nat { x % LOCKED }

  function Packed(locked: bool, count: nat): nat { (if locked then LOCKED else 0) + count }

  /** Subtracting lock and one together clears the bit, decrements the count and borrows nothing. */
  lemma ReleaseNeverBorrows(count: nat)
    requires 1 <= count <= SIZE_MASK
    ensures Packed(true, count) - (LOCKED + 1) == Packed(false, count - 1)
    ensures (Packed(true, count) - (LOCKED + 1)) % WORD == Packed(false, count - 1)
  {
  }

  lemma PackedReads(locked: bool, count: nat)
    requires count <= SIZE_MASK
    ensures Packed(locked, count) < LOCKED <==> !locked
    ensures Packed(locked, count) % LOCKED == count
  {
  }

  /** The links after connecting a chain are determined by the chain. */
  lemma ConnectUnique(next: Links, r: Links, c: seq<nat>)
    requires Distinct(c) && |r| == |next| && forall i :: 0 <= i < |c| ==> c[i] < |next|
    requires LinkedTo(r, c, None) && forall v :: 0 <= v < |next| && v !in c ==> r[v] == next[v]
    ensures r == Connect(next, c, None)
  {
    ConnectLinks(next, c, None);
    var d := Connect(next, c, None);
    forall v | 0 <= v < |next| ensures r[v] == d[v] {
      if v in c { var i :| 0 <= i < |c| && c[i] == v; }
    }
  }

  class SharedWorkStack {
    var m_state: nat
    var m_incoming: Option<nat>
    var m_head: Option<nat>
    var m_next: Links
    ghost var s: State

    ghost predicate Valid()
      reads this
    {
      && Inv(s)
      && s.count <= SIZE_MASK && m_state == Packed(s.locked, s.count)
      && m_incoming == s.incoming && m_head == s.head && m_next == s.next
    }

    constructor (works: nat, ghost producers: nat, ghost thieves: nat)
      ensures Valid() && s == InitState(works, producers, thieves)
    {
      m_state, m_incoming, m_head := 0, None, None;
      m_next := seq(works, _ => None);
      s := InitState(works, producers, thieves);
      new;
      InitInv(works, producers, thieves);
    }

    ghost method Advance(a: Action)
      requires Inv(s) && Enabled(s, a)
      modifies this`s
      ensures Defined(old(s), a) && s == Apply(old(s), a) && Inv(s)
    {
      hide Inv;
      StepInv(s, a);
      s := Apply(s, a);
    }

    // -------------------------------------------------------------------------------
    // Producers
    // -------------------------------------------------------------------------------

    /** The batch push connects its nodes, one link per turn. */
    method Link(works: seq<nat>) returns (head: nat, tail: nat)
      requires works != [] && Distinct(works)
      requires forall j :: 0 <= j < |works| ==> works[j] < |m_next| && m_next[works[j]] == None
      modifies this`m_next
      ensures m_next == Connect(old(m_next), works, None)
      ensures head == works[0] && tail == Last(works)
    {
      head := works[0];
      tail := head;
      var i := 1;
      while i < |works|
        invariant 1 <= i <= |works| && tail == works[i - 1]
        invariant |m_next| == |old(m_next)|
        invariant LinkedTo(m_next, works[..i], None)
        invariant forall j :: i <= j < |works| ==> m_next[works[j]] == None
        invariant forall v :: 0 <= v < |m_next| && v !in works ==> m_next[v] == old(m_next)[v]
      {
        ExtendLinked(m_next, works, i);
        m_next := m_next[tail := Some(works[i])];
        tail := works[i];
        i := i + 1;
      }
      assert works[..i] == works;
      ConnectUnique(old(m_next), m_next, works);
    }

    /** A batch is connected before anything is published. */
    method LinkBatch(p: nat, works: seq<nat>) returns (head: nat, tail: nat)
      requires Valid() && Enabled(s, Build(p, works))
      modifies this
      ensures Valid() && s == Apply(old(s), Build(p, works))
      ensures head == works[0] && tail == Last(works)
    {
      hide Inv;
      head, tail := Link(works);
      Advance(Build(p, works));
    }

    lemma ExtendLinked(next: Links, c: seq<nat>, i: nat)
      requires 1 <= i < |c| && LinkedTo(next, c[..i], None)
      requires forall j, k :: 0 <= j < k < |c| ==> c[j] != c[k]
      requires forall j :: 0 <= j < |c| ==> c[j] < |next|
      requires next[c[i]] == None
      ensures LinkedTo(next[c[i - 1] := Some(c[i])], c[..i + 1], None)
    {
      var next' := next[c[i - 1] := Some(c[i])];
      var d := c[..i + 1];
      forall j | 0 <= j < |d| ensures d[j] < |next| && next'[d[j]] == LinkTo(d, j, None) {
        assert d[j] == c[j];
        if j < i - 1 { assert c[..i][j] == c[j]; assert LinkTo(d, j, None) == LinkTo(c[..i], j, None); }
      }
    }

    /** m_state.fetch_add(n): only the count moves. */
    method AddCount(p: nat, n: nat)
      requires Valid() && Enabled(s, Count(p)) && n == |s.producers[p].chain|
      modifies this
      ensures Valid() && s == Apply(old(s), Count(p))
    {
      m_state := m_state + n;
      Advance(Count(p));
    }

    method LoadTop(p: nat) returns (top: Option<nat>)
      requires Valid() && Enabled(s, LoadIncoming(p))
      modifies this
      ensures Valid() && s == Apply(old(s), LoadIncoming(p)) && s.producers[p] == Trying(old(s.producers[p].chain), top)
    {
      top := m_incoming;
      Advance(LoadIncoming(p));
    }

    method StoreTail(p: nat, tail: nat, top: Option<nat>)
      requires Valid() && Enabled(s, Hook(p)) && s.producers[p].top == top
      requires s.producers[p].chain != [] && tail == Last(s.producers[p].chain)
      modifies this
      ensures Valid() && Defined(old(s), Hook(p)) && s == Apply(old(s), Hook(p))
    {
      Advance(Hook(p));
      m_next := m_next[tail := top];
    }

    method ExchangeIncoming(p: nat, head: nat, top: Option<nat>, weak: bool) returns (ok: bool, now: Option<nat>)
      requires Valid() && Enabled(s, Publish(p, weak)) && s.producers[p].top == top
      requires s.producers[p].chain != [] && head == s.producers[p].chain[0]
      modifies this
      ensures Valid() && Defined(old(s), Publish(p, weak)) && s == Apply(old(s), Publish(p, weak))
      ensures ok <==> s.producers[p].Idle?
      ensures ok <==> !weak && old(m_incoming) == top
      ensures !ok ==> s.producers[p] == Trying(old(s.producers[p].chain), now)
    {
      Advance(Publish(p, weak));
      now := m_incoming;
      ok := !weak && m_incoming == top;
      if ok { m_incoming := Some(head); }
    }

    // -------------------------------------------------------------------------------
    // Thieves
    // -------------------------------------------------------------------------------

    method PeekState(k: nat) returns (go: bool)
      requires Valid() && Enabled(s, Peek(k))
      modifies this
      ensures Valid() && s == Apply(old(s), Peek(k)) && (go <==> s.thieves[k].Peeked?)
      ensures go <==> !old(s.locked) && old(s.count) > 0
    {
      hide Inv;
      PackedReads(s.locked, s.count);
      go := !(m_state >= LOCKED || m_state % LOCKED == 0);
      Advance(Peek(k));
    }

    /** fetch_or of the lock bit: the winner is whoever saw it clear. */
    method TakeLock(k: nat) returns (won: bool, some: bool)
      requires Valid() && Enabled(s, Lock(k))
      modifies this
      ensures Valid() && s == Apply(old(s), Lock(k))
      ensures won <==> !old(s.locked)
      ensures won ==> s.holder == Some(k) && (some <==> old(s.count) > 0)
      ensures won ==> s.thieves[k] == if some then Owning else Unlocking
    {
      hide Inv;
      PackedReads(s.locked, s.count);
      won := m_state < LOCKED;
      some := m_state % LOCKED != 0;
      m_state := OrLocked(m_state);
      Advance(Lock(k));
    }

    method ReadConsumerHead(k: nat) returns (work: Option<nat>)
      requires Valid() && Enabled(s, ReadHead(k))
      modifies this
      ensures Valid() && s == Apply(old(s), ReadHead(k))
      ensures s.thieves[k] == match work case None => Swapping case Some(w) => Holding(w)
    {
      work := m_head;
      Advance(ReadHead(k));
    }

    method TakeIncoming(k: nat) returns (work: Option<nat>)
      requires Valid() && Enabled(s, Swap(k))
      modifies this
      ensures Valid() && s == Apply(old(s), Swap(k))
      ensures s.thieves[k] == match work case None => Unlocking case Some(w) => Holding(w)
      ensures work == Head(old(s.inc))
    {
      work := m_incoming;
      m_incoming := None;
      Advance(Swap(k));
    }

    method AdvanceHead(k: nat, work: nat)
      requires Valid() && Enabled(s, MoveHead(k)) && s.thieves[k].work == work
      modifies this
      ensures Valid() && Defined(old(s), MoveHead(k)) && s == Apply(old(s), MoveHead(k))
    {
      Advance(MoveHead(k));
      m_head := m_next[work];
    }

    method ClearNext(k: nat, work: nat)
      requires Valid() && Enabled(s, Clear(k)) && s.thieves[k].work == work
      modifies this
      ensures Valid() && Defined(old(s), Clear(k)) && s == Apply(old(s), Clear(k))
    {
      Advance(Clear(k));
      m_next := m_next[work := None];
    }

    /** fetch_sub(LOCKED + 1) ends the steal. */
    method ReleaseWith(k: nat, work: nat) returns (r: nat)
      requires Valid() && Enabled(s, Release(k)) && s.thieves[k].work == work
      modifies this
      ensures Valid() && Defined(old(s), Release(k)) && s == Apply(old(s), Release(k)) && r == work
      ensures r < |m_next| && m_next[r] == None && s.thieves[k].Resting?
    {
      StolenOnce(s, k);
      Advance(Release(k));
      ReleaseNeverBorrows(old(s.count));
      m_state := (m_state - (LOCKED + 1)) % WORD;
      r := work;
    }

    lemma UnlockerIsLocked(t: State, k: nat)
      requires Inv(t) && Enabled(t, Unlock(k))
      ensures t.locked
    {
      assert ThiefOk(t, k);
    }

    /** fetch_and(SIZE_MASK) ends a steal that found nothing. */
    method ReleaseEmpty(k: nat)
      requires Valid() && Enabled(s, Unlock(k))
      modifies this
      ensures Valid() && s == Apply(old(s), Unlock(k)) && s.thieves[k].Resting?
    {
      UnlockerIsLocked(s, k);
      hide Inv;
      PackedReads(s.locked, s.count);
      m_state := AndMask(m_state);
      Advance(Unlock(k));
    }

    /** Inside the lock: the first node of the consumer's chain, for which the incoming one is taken over if need be. */
    method FindNode(k: nat) returns (work: Option<nat>)
      requires Valid() && Enabled(s, ReadHead(k))
      modifies this
      ensures Valid() && k < |s.thieves| && Shape(s) && work == Head(old(s.cons + s.inc)) && s.cons + s.inc == old(s.cons + s.inc)
      ensures s.thieves[k] == match work case None => Unlocking case Some(w) => Holding(w)
    {
      hide Inv;
      HeadShows(s, k);
      work := ReadConsumerHead(k);
      if work == None {
        SwapShows(s, k);
        work := TakeIncoming(k);
      }
    }

    /** The node found is taken off the consumer's chain. */
    method TakeOff(k: nat, work: nat) returns (r: nat)
      requires Valid() && Enabled(s, MoveHead(k)) && s.thieves[k] == Holding(work)
      modifies this
      ensures Valid() && r == work && old(s.cons) != [] && s.cons == old(s.cons)[1..] && s.inc == old(s.inc)
      ensures k < |s.thieves| && s.thieves[k].Resting?
    {
      hide Inv;
      FrontShows(s, k);
      AdvanceHead(k, work);
      ClearNext(k, work);
      r := ReleaseWith(k, work);
    }

    /**
     * A steal when nobody else happens to act in between: the first node of the consumer's chain, or, when that is used
     * up, of the incoming one; nothing exactly if nothing is published, or somebody holds the lock.
     */
    method Steal(k: nat) returns (r: Option<nat>)
      requires Valid() && k < |s.thieves| && s.thieves[k].Resting?
      modifies this
      ensures Valid() && k < |s.thieves| && s.thieves[k].Resting?
      ensures r == if old(s.locked) then None else Head(old(s.cons + s.inc))
      ensures r.Some? ==> s.cons + s.inc == old(s.cons + s.inc)[1..]
    {
      hide Inv;
      StealShape(s, k);
      var go := PeekState(k);
      if !go {
        return None;
      }
      var won, some := TakeLock(k);
      var work := FindNode(k);
      if work == None {
        ReleaseEmpty(k);
        return None;
      }
      var w := TakeOff(k, work.value);
      r := Some(w);
    }

    lemma SwapShows(t: State, k: nat)
      requires Inv(t) && Enabled(t, Swap(k))
      ensures t.cons == []
    {
      assert ThiefOk(t, k);
    }

    lemma StealShape(t: State, k: nat)
      requires Inv(t)
      ensures Shape(t) && (t.count == 0 ==> t.inc == [] && t.cons == [])
    {
      if t.count == 0 { EmptyMeansNothingPublished(t); }
    }

    lemma HeadShows(t: State, k: nat)
      requires Inv(t) && Enabled(t, ReadHead(k))
      ensures t.head == Head(t.cons) && t.incoming == Head(t.inc)
    {
      assert ThiefOk(t, k);
    }

    lemma FrontShows(t: State, k: nat)
      requires Inv(t) && Enabled(t, MoveHead(k))
      ensures t.cons != [] && t.cons[0] == t.thieves[k].work
    {
      assert ThiefOk(t, k);
    }
  }
}
