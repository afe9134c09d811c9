// The bounded deque object: a fixed ring of slots and the two indices, updated one atomic action
// at a time. What a thread keeps in registers travels through parameters. Each method is proved
// to be the action of BoundedQueueProtocol of the same name.

module BoundedQueueObject {
  import opened Common
  import opened BoundedQueueProtocol
  import opened BoundedQueueTheorems

  class BoundedQueue<T> {
    const cap: nat
    const buf: array<Option<T>>
    var m_top: int
    var m_bottom: int
    ghost var s: State<T>

    ghost predicate Valid()
      reads this, buf
    {
      && Inv(s)
      && s.cap == cap == buf.Length
      && buf[..] == s.buf
      && m_top == s.top && m_bottom == s.bottom
    }

    constructor (capacity: nat, ghost thieves: nat)
      requires capacity > 1
      ensures Valid() && fresh(buf) && cap == capacity && s == InitState(capacity, thieves)
    {
      cap := capacity;
      buf := new Option<T>[capacity](_ => None);
      m_top, m_bottom := 0, 0;
      s := InitState(capacity, thieves);
    }

    ghost method Advance(a: Action<T>)
      requires Inv(s) && Enabled(s, a)
      modifies this`s
      ensures Defined(old(s), a) && s == Apply(old(s), a) && Inv(s) && s.cap == old(s.cap)
    {
      hide Slot;
      hide Inv;
      StepInv(s, a);
      s := Apply(s, a);
    }

    // -------------------------------------------------------------------------------
    // Owner: push
    // -------------------------------------------------------------------------------

    /** Loads both indices and decides how many of the values fit. */
    method PushBegin(vals: seq<T>) returns (bottom: int, count: nat)
      requires Valid() && s.owner.Idle?
      modifies this
      ensures Valid() && s == Apply(old(s), PushLoad(vals))
      ensures bottom == m_bottom && count == s.owner.count
    {
      bottom := m_bottom;
      var top := m_top;
      var available := cap - (bottom - top);
      count := if available > 0 then (if |vals| < available then |vals| else available) else 0;
      Advance(PushLoad(vals));
    }

    /** Stores one value into its slot, not yet visible to thieves. */
    method PushStore(bottom: int, i: nat, val: T)
      requires Valid() && s.owner.Pushing? && bottom == m_bottom && i == s.owner.done < s.owner.count
      requires i < |s.owner.vals| && val == s.owner.vals[i]
      modifies this, buf
      ensures Valid() && Enabled(old(s), PushSlot) && s == Apply(old(s), PushSlot)
    {
      buf[Slot(bottom + i, cap)] := Some(val);
      Advance(PushSlot);
    }

    /** One store of bottom publishes the whole prefix. */
    method PushPublishAll(bottom: int, count: nat)
      requires Valid() && s.owner.Pushing? && bottom == m_bottom && count == s.owner.count == s.owner.done
      modifies this
      ensures Valid() && Enabled(old(s), PushPublish) && s == Apply(old(s), PushPublish)
    {
      if count != 0 { m_bottom := bottom + count; }
      Advance(PushPublish);
    }

    /**
     * The batch push when no thief happens to act in between: exactly the prefix that fits is
     * enqueued in order, and exactly the rest goes to the overflow callback.
     */
    method Push(vals: seq<T>) returns (overflow: seq<T>)
      requires Valid() && s.owner.Idle?
      modifies this, buf
      ensures Valid() && s.owner.Idle?
      ensures var d := old(s.deq);
              var count := if |d| + |vals| <= cap then |vals| else cap - |d|;
              s.deq == d + vals[..count] && overflow == vals[count..]
    {
      PushTakesWhatFits(s, vals);
      var bottom, count := PushBegin(vals);
      var i := 0;
      while i < count
        invariant 0 <= i <= count <= |vals|
        invariant Valid() && s.owner.Pushing? && s.owner == Pushing(s.owner.top, vals, count, i)
        invariant m_bottom == bottom && s.deq == old(s.deq)
      {
        PushStore(bottom, i, vals[i]);
        i := i + 1;
      }
      PushPublishAll(bottom, count);
      overflow := vals[count..];
    }

    // -------------------------------------------------------------------------------
    // Owner: pop
    // -------------------------------------------------------------------------------

    method PopBegin() returns (bottom: int)
      requires Valid() && s.owner.Idle?
      modifies this
      ensures Valid() && s == Apply(old(s), PopStore) && bottom == s.owner.b
    {
      bottom := m_bottom - 1;
      m_bottom := bottom;
      Advance(PopStore);
    }

    method PopLoadTop(bottom: int) returns (top: int)
      requires Valid() && s.owner == PopLoading(bottom)
      modifies this
      ensures Valid() && Defined(old(s), PopLoad) && s == Apply(old(s), PopLoad)
      ensures top <= bottom <==> s.owner.PopReading?
      ensures top <= bottom ==> s.owner.b == bottom && s.owner.top == top
      ensures top > bottom ==> s.owner == PopRestoring(bottom, None)
    {
      top := m_top;
      Advance(PopLoad);
    }

    method PopReadSlot(bottom: int, top: int) returns (val: T)
      requires Valid() && s.owner.PopReading? && s.owner.b == bottom && s.owner.top == top
      modifies this
      ensures Valid() && Defined(old(s), PopRead) && s == Apply(old(s), PopRead)
      ensures if top == bottom then s.owner == PopRacing(bottom, val)
              else s.owner.Idle? && s.popped != [] && val == Last(s.popped)
    {
      val := buf[Slot(bottom, cap)].value;
      Advance(PopRead);
    }

    method PopExchange(bottom: int, val: T) returns (got: Option<T>)
      requires Valid() && s.owner == PopRacing(bottom, val)
      modifies this
      ensures Valid() && Defined(old(s), PopCas) && s == Apply(old(s), PopCas)
      ensures s.owner == PopRestoring(bottom, got)
    {
      if m_top == bottom {
        m_top := bottom + 1;
        got := Some(val);
      } else {
        got := None;
      }
      Advance(PopCas);
    }

    method PopEnd(bottom: int, got: Option<T>) returns (r: Option<T>)
      requires Valid() && s.owner == PopRestoring(bottom, got)
      modifies this
      ensures Valid() && s == Apply(old(s), PopRestore) && r == got
      ensures r.Some? ==> s.popped != [] && r.value == Last(s.popped)
    {
      m_bottom := bottom + 1;
      r := got;
      Advance(PopRestore);
    }

    /** A pop when no thief happens to act in between: the back element, or null from an empty deque. */
    method Pop() returns (r: Option<T>)
      requires Valid() && s.owner.Idle?
      modifies this
      ensures Valid() && s.owner.Idle?
      ensures var d := old(s.deq);
              if d == [] then r == None && s.deq == [] else r == Some(Last(d)) && s.deq == d[..|d| - 1]
    {
      hide Inv;
      hide Slot;
      ghost var d := s.deq;
      SizeIs(s);
      var bottom := PopBegin();
      var top := PopLoadTop(bottom);
      var got: Option<T> := None;
      if top <= bottom {
        var val := PopReadSlot(bottom, top);
        if top < bottom {
          return Some(val);
        }
        got := PopExchange(bottom, val);
      }
      r := PopEnd(bottom, got);
    }

    /** With the owner between operations the deque holds what lies between the two indices. */
    lemma SizeIs(t: State<T>)
      requires Inv(t)
      ensures t.owner.Idle? ==> |t.deq| == t.bottom - t.top
    {
    }

    // -------------------------------------------------------------------------------
    // Thieves
    // -------------------------------------------------------------------------------

    method StealLoadTop(k: nat) returns (top: int)
      requires Valid() && k < |s.thieves| && s.thieves[k].Resting?
      modifies this
      ensures Valid() && s == Apply(old(s), StealLoad(k)) && s.thieves[k] == Loaded(top)
    {
      top := m_top;
      Advance(StealLoad(k));
    }

    method StealLoadBottom(k: nat, top: int) returns (present: bool)
      requires Valid() && k < |s.thieves| && s.thieves[k] == Loaded(top)
      modifies this
      ensures Valid() && s == Apply(old(s), StealCheck(k))
      ensures s.thieves[k] == if present then Checked(top) else Resting
      ensures present <==> top < old(m_bottom)
    {
      present := top < m_bottom;
      Advance(StealCheck(k));
    }

    method StealReadSlot(k: nat, top: int) returns (val: Option<T>)
      requires Valid() && k < |s.thieves| && s.thieves[k] == Checked(top)
      modifies this
      ensures Valid() && s == Apply(old(s), StealRead(k)) && s.thieves[k] == Ready(top, val)
    {
      val := buf[Slot(top, cap)];
      Advance(StealRead(k));
    }

    method StealExchange(k: nat, top: int, val: Option<T>) returns (got: Option<T>)
      requires Valid() && k < |s.thieves| && s.thieves[k] == Ready(top, val)
      modifies this
      ensures Valid() && Defined(old(s), StealCas(k)) && s == Apply(old(s), StealCas(k))
      ensures got.Some? ==> old(s.deq) != [] && got.value == old(s.deq)[0]
      ensures got.Some? <==> top == old(m_top)
    {
      AlwaysDefined(s, StealCas(k));
      got := None;
      if m_top == top {
        StealReturnsFront(s, k);
        m_top := top + 1;
        got := val;
      }
      Advance(StealCas(k));
    }

    /** A steal when nobody else happens to act in between: the front element, or null from an empty deque. */
    method Steal(k: nat) returns (r: Option<T>)
      requires Valid() && s.owner.Idle? && k < |s.thieves| && s.thieves[k].Resting?
      modifies this
      ensures Valid() && s.owner.Idle?
      ensures var d := old(s.deq);
              if d == [] then r == None && s.deq == [] else r == Some(d[0]) && s.deq == d[1..]
    {
      hide Inv;
      hide Slot;
      SizeIs(s);
      var top := StealLoadTop(k);
      var present := StealLoadBottom(k, top);
      r := None;
      if present {
        var val := StealReadSlot(k, top);
        r := StealExchange(k, top, val);
      }
    }

    // -------------------------------------------------------------------------------
    // Observers
    // -------------------------------------------------------------------------------

    /** empty(), first load. */
    method EmptyLoadBottom() returns (bottom: int)
      requires Valid()
      ensures bottom == s.bottom
    {
      bottom := m_bottom;
    }

    /** empty(), second load: the answer that BoundedQueueObserver interprets. */
    method EmptyLoadTop(bottom: int) returns (empty: bool)
      requires Valid()
      ensures empty <==> s.top >= bottom
    {
      empty := m_top >= bottom;
    }
  }
}
