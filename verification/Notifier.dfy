// The notifier object of notifier.hpp over its real memory: one packed 64-bit word, and per waiter
// a link, a snapshot word and a park state. One method per atomic action; a thread's local copy of
// m_state travels through `state`. Each method is proved to be the action of NotifierProtocol.
//
// A method that compares packed words asks that the copy be fewer than 2^32 epochs old, and one
// that compares epochs asks that the lag be one that 32-bit serial numbers can order.

module NotifierObject {
  import opened Common
  import opened NotifierProtocol
  import opened NotifierInvariant
  import opened NotifierQuota
  import opened NotifierTheorems
  import opened NotifierWord

  /** Outcome of comparing the loaded epoch with the caller's ticket. */
  datatype Turn = Early | Mine | Late

  /** Outcome of one round of a notify loop. */
  datatype Round =
    | Empty                        // no waiters: return
    | Served(left: nat)            // prewaiters consumed, so many left to serve
    | ReadLink(link: Option<nat>)  // the top's next was read, a pop will be tried
    | Detached(first: Option<nat>) // notify_all took the whole chain
    | Again(state: Word64)         // compare-exchange failed, m_state was reloaded

  /** Two waiters never share a place in the queue, so no more are queued than exist. */
  lemma QueueNoLongerThanWaiters(s: State)
    requires Inv(s)
    ensures s.word.pre <= |s.pc|
  {
    forall i, j | 0 <= i < j < |s.queue| ensures s.queue[i] != s.queue[j] {
      assert s.pc[s.queue[i]].ticket == s.word.epoch + i;
      assert s.pc[s.queue[j]].ticket == s.word.epoch + j;
    }
    DistinctBelow(s.queue, |s.pc|);
  }

  lemma AlwaysFits(s: State)
    requires Inv(s) && |s.pc| < EMPTY
    ensures Fits(s.word)
  {
    QueueNoLongerThanWaiters(s);
    assert s.stack != [] ==> s.stack[0] < |s.pc|;
  }

  function Code(p: Park): nat {
    match p case NotSignaled => 0 case Waiting => 1 case Signaled => 2
  }

  /** `state` is the packed form of the copy a thread took. */
  ghost predicate Copy(state: Word64, x: Word) { Fits(x) && state == Pack(x) }

  /** A waiter whose turn is over looks while the serial numbers still show it. */
  ghost predicate InTime(x: Word, ticket: nat) { x.epoch > ticket ==> InSerialRange(x.epoch - ticket) }

  /** A waiter whose turn is still to come is fewer than 2^16 tickets behind: the test is always right about it. */
  lemma NeverFarAhead(s: State, w: nat)
    requires Inv(s) && IsWaiter(s, w) && (s.pc[w].Committing? || s.pc[w].Cancelling?) && Fits(s.pc[w].snap.word)
    ensures s.pc[w].ticket - s.pc[w].snap.word.epoch < FIELD
    ensures s.pc[w].snap.word.epoch <= s.pc[w].ticket ==> InSerialRange(s.pc[w].snap.word.epoch - s.pc[w].ticket)
  {
    assert WaiterOk(s, w) && PcOk(s, w);
  }

  /** The copy is recent enough for a packed comparison. */
  ghost predicate InWindow(s: State, x: Word) { x.epoch <= s.word.epoch < x.epoch + HALF }

  class Notifier {
    const size: nat
    var m_state: Word64
    var next: Links
    var epoch: seq<Word64>
    var park: seq<nat>
    ghost var s: State

    ghost predicate Valid()
      reads this
    {
      && |s.pc| == size < EMPTY
      && Inv(s)
      && Copy(m_state, s.word)
      && next == s.next
      && |park| == |epoch| == size
      && (forall w :: 0 <= w < size ==> park[w] == Code(s.park[w]))
      && (forall w :: 0 <= w < size && InProtocol(s.pc[w]) ==> Target(epoch[w]) == s.pc[w].ticket % HALF * HALF)
    }

    constructor (n: nat, ghost notifiers: nat)
      requires n < EMPTY
      ensures Valid() && size == n && s == InitState(n, notifiers)
    {
      size := n;
      m_state := EMPTY;
      next := seq(n, _ => None);
      epoch := seq(n, _ => 0);
      park := seq(n, _ => 0);
      s := InitState(n, notifiers);
    }

    /** The step that every method takes on the history side. */
    ghost method Advance(a: Action)
      requires |s.pc| == size < EMPTY && Inv(s) && Enabled(s, a)
      modifies this`s
      ensures Defined(old(s), a) && s == Apply(old(s), a) && |s.pc| == size && Inv(s) && Fits(s.word)
    {
      hide Inv;
      StepInv(s, a);
      SamePeople(s, a);
      hide Apply;
      s := Apply(s, a);
      AlwaysFits(s);
    }

    // -------------------------------------------------------------------------------
    // Waiters
    // -------------------------------------------------------------------------------

    method PrepareWait(w: nat)
      requires Valid() && w < size && s.pc[w].Out?
      modifies this
      ensures Valid() && s == Apply(old(s), Prepare(w))
    {
      AddPrewaiterNeverCarries();
      AddPrewaiter(s.word);
      TargetIsTicket(s.word);
      epoch := epoch[w := m_state];
      m_state := Wrap(m_state + FIELD);
      Advance(Prepare(w));
    }

    lemma AddPrewaiterNeverCarries()
      requires Valid()
      ensures s.word.pre + 1 < FIELD
    {
      QueueNoLongerThanWaiters(s);
    }

    method CommitStart(w: nat)
      requires Valid() && w < size && s.pc[w].Prepared?
      modifies this
      ensures Valid() && s == Apply(old(s), CommitReset(w))
    {
      park := park[w := 0];
      Advance(CommitReset(w));
    }

    method CommitLoadState(w: nat) returns (state: Word64)
      requires Valid() && w < size && s.pc[w].Reset?
      modifies this
      ensures Valid() && s == Apply(old(s), CommitLoad(w)) && Copy(state, s.pc[w].snap.word)
    {
      state := m_state;
      Advance(CommitLoad(w));
    }

    /** One turn of commit_wait's loop up to the compare-exchange. */
    method CommitTurn(w: nat, state: Word64) returns (turn: Turn, now: Word64)
      requires Valid() && w < size && s.pc[w].Committing? && Copy(state, s.pc[w].snap.word)
      requires InTime(s.pc[w].snap.word, s.pc[w].ticket)
      modifies this
      ensures Valid()
      ensures turn == Early ==> Enabled(old(s), CommitSpin(w)) && s == Apply(old(s), CommitSpin(w)) && Copy(now, s.pc[w].snap.word)
      ensures turn == Late ==> Enabled(old(s), CommitOvertaken(w)) && s == Apply(old(s), CommitOvertaken(w))
      ensures turn == Mine ==> Enabled(old(s), CommitLink(w)) && s == Apply(old(s), CommitLink(w)) && Copy(state, s.pc[w].snap.word)
    {
      now := state;
      var target := Target(epoch[w]);
      TestIsRight(state, target, w);
      PackFields(s.pc[w].snap.word);
      hide Ahead;
      hide Target;
      hide Inv;
      if Ahead(state, target) < 0 {
        turn, now := Early, m_state;
        Advance(CommitSpin(w));
      } else if Ahead(state, target) > 0 {
        turn := Late;
        Advance(CommitOvertaken(w));
      } else {
        turn := Mine;
        if StackField(state) == EMPTY {
          next := next[w := None];
        } else {
          next := next[w := Some(StackField(state))];
        }
        Advance(CommitLink(w));
      }
    }

    /** The compare-exchange that pushes the caller; `weak` says that it fails for no reason. */
    method CommitExchange(w: nat, state: Word64, weak: bool) returns (ok: bool, now: Word64)
      requires Valid() && w < size && s.pc[w].Linking? && Copy(state, s.pc[w].snap.word)
      requires InWindow(s, s.pc[w].snap.word)
      modifies this
      ensures Valid() && Defined(old(s), CommitCas(w, weak)) && s == Apply(old(s), CommitCas(w, weak))
      ensures ok == s.pc[w].Pushed? && (ok <==> !weak && old(m_state) == state)
      ensures !ok ==> Copy(now, s.pc[w].snap.word)
    {
      SameWordInWindow(s.pc[w].snap.word, s.word);
      WaiterCasDefined(s, w);
      PushWord(s.pc[w].snap.word, w);
      if !weak && m_state == state {
        var settled := Wrap(state - FIELD + HALF);
        m_state := settled / FIELD * FIELD + w;
        ok, now := true, state;
      } else {
        ok, now := false, m_state;
      }
      Advance(CommitCas(w, weak));
    }

    /** _park: NotSignaled becomes Waiting and the caller blocks, otherwise it returns at once. */
    method ParkEnter(w: nat) returns (blocked: bool)
      requires Valid() && w < size && s.pc[w].Pushed?
      modifies this
      ensures Valid() && s == Apply(old(s), ParkCas(w)) && blocked == s.pc[w].Asleep?
    {
      blocked := park[w] == 0;
      if blocked { park := park[w := 1]; }
      Advance(ParkCas(w));
    }

    /** The blocked caller wakes once the state is no longer Waiting. */
    method ParkLeave(w: nat)
      requires Valid() && w < size && s.pc[w].Asleep? && park[w] != 1
      modifies this
      ensures Valid() && Enabled(old(s), ParkReturn(w)) && s == Apply(old(s), ParkReturn(w))
    {
      Advance(ParkReturn(w));
    }

    method CancelLoadState(w: nat) returns (state: Word64)
      requires Valid() && w < size && s.pc[w].Prepared?
      modifies this
      ensures Valid() && s == Apply(old(s), CancelLoad(w)) && Copy(state, s.pc[w].snap.word)
    {
      state := m_state;
      Advance(CancelLoad(w));
    }

    /** One turn of cancel_wait's loop. */
    method CancelTurn(w: nat, state: Word64, weak: bool) returns (done: bool, now: Word64)
      requires Valid() && w < size && s.pc[w].Cancelling? && Copy(state, s.pc[w].snap.word)
      requires InTime(s.pc[w].snap.word, s.pc[w].ticket) && InWindow(s, s.pc[w].snap.word)
      modifies this
      ensures Valid() && done == s.pc[w].Out?
      ensures !done ==> s.pc[w].Cancelling? && Copy(now, s.pc[w].snap.word)
      ensures var c := old(s.pc[w]);
              var a := if c.snap.word.epoch < c.ticket then CancelSpin(w)
                       else if c.snap.word.epoch > c.ticket then CancelOvertaken(w) else CancelCas(w, weak);
              Enabled(old(s), a) && Defined(old(s), a) && s == Apply(old(s), a)
    {
      var target := Target(epoch[w]);
      TestIsRight(state, target, w);
      hide Ahead;
      hide Target;
      hide Inv;
      done, now := false, m_state;
      if Ahead(state, target) < 0 {
        Advance(CancelSpin(w));
      } else if Ahead(state, target) > 0 {
        done := true;
        Advance(CancelOvertaken(w));
      } else {
        done, now := CancelExchange(w, state, weak);
      }
    }

    /** The sign of the packed difference is that of the tickets. */
    lemma TestIsRight(state: Word64, target: Word64, w: nat)
      requires Valid() && w < size && (s.pc[w].Cancelling? || s.pc[w].Committing?) && Copy(state, s.pc[w].snap.word)
      requires target == Target(epoch[w]) && InTime(s.pc[w].snap.word, s.pc[w].ticket)
      ensures SameSign(Ahead(state, target), s.pc[w].snap.word.epoch - s.pc[w].ticket)
    {
      NeverFarAhead(s, w);
      TestAgreesIff(s.pc[w].snap.word, s.pc[w].ticket);
    }

    /** The exchange that settles the caller's ticket without a push. */
    method CancelExchange(w: nat, state: Word64, weak: bool) returns (done: bool, now: Word64)
      requires Valid() && w < size && s.pc[w].Cancelling? && Copy(state, s.pc[w].snap.word)
      requires s.pc[w].snap.word.epoch == s.pc[w].ticket && InWindow(s, s.pc[w].snap.word)
      modifies this
      ensures Valid() && done == s.pc[w].Out? && (done <==> !weak && old(m_state) == state)
      ensures !done ==> s.pc[w].Cancelling? && Copy(now, s.pc[w].snap.word)
      ensures Enabled(old(s), CancelCas(w, weak)) && Defined(old(s), CancelCas(w, weak)) && s == Apply(old(s), CancelCas(w, weak))
    {
      WaiterCasDefined(s, w);
      hide Inv;
      SameWordInWindow(s.pc[w].snap.word, s.word);
      ConsumeWord(s.pc[w].snap.word, 1);
      done, now := false, m_state;
      if !weak && m_state == state {
        m_state := Wrap(state - FIELD + HALF);
        done := true;
      }
      Advance(CancelCas(w, weak));
    }

    // -------------------------------------------------------------------------------
    // Notifiers
    // -------------------------------------------------------------------------------

    method NotifyLoadState(k: nat, req: Request) returns (state: Word64)
      requires Valid() && k < |s.nc| && s.nc[k].Idle? && req != Quota(0)
      modifies this
      ensures Valid() && s == Apply(old(s), NotifyLoad(k, req)) && Copy(state, s.nc[k].snap.word)
    {
      state := m_state;
      Advance(NotifyLoad(k, req));
    }

    /** One round of notify_one (n == 1) or notify_n, up to a pop's compare-exchange. */
    method NotifyRound(k: nat, state: Word64, n: nat, weak: bool) returns (r: Round)
      requires Valid() && k < |s.nc| && s.nc[k].Testing? && s.nc[k].req == Quota(n)
      requires Copy(state, s.nc[k].snap.word) && InWindow(s, s.nc[k].snap.word)
      modifies this
      ensures Valid()
      ensures var x := old(s.nc[k].snap.word);
              var a := if NoWaiters(x) then NotifyNone(k) else if x.pre > 0 then NotifyFast(k, weak) else NotifyReadNext(k);
              Enabled(old(s), a) && Defined(old(s), a) && s == Apply(old(s), a)
      ensures r.Empty? ==> s.nc[k].Idle?
      ensures r.Empty? <==> NoWaiters(old(s.nc[k].snap.word))
      ensures r.Served? ==> r.left <= n && |Unblocked(old(s), s)| == n - r.left
      ensures r.Served? ==> if r.left == 0 then s.nc[k].Idle? else s.nc[k] == Testing(Quota(r.left), old(s.nc[k].snap))
      ensures r.ReadLink? ==> s.nc[k].Popping? && s.nc[k].link == r.link
      ensures r.Again? ==> s.nc[k].Testing? && Copy(r.state, s.nc[k].snap.word)
      ensures !r.Detached?
    {
      PackFields(s.nc[k].snap.word);
      if StackField(state) == EMPTY && PreField(state) == 0 {
        Advance(NotifyNone(k));
        r := Empty;
      } else if PreField(state) != 0 {
        r := FastExchange(k, state, n, weak);
      } else {
        TopInRange(s, k);
        var link := next[StackField(state)];
        Advance(NotifyReadNext(k));
        r := ReadLink(link);
      }
    }

    /** The compare-exchange that consumes min(n, prewaiters) tickets. */
    method FastExchange(k: nat, state: Word64, n: nat, weak: bool) returns (r: Round)
      requires Valid() && k < |s.nc| && s.nc[k].Testing? && s.nc[k].req == Quota(n) && s.nc[k].snap.word.pre > 0
      requires Copy(state, s.nc[k].snap.word) && InWindow(s, s.nc[k].snap.word)
      modifies this
      ensures Valid() && Defined(old(s), NotifyFast(k, weak)) && s == Apply(old(s), NotifyFast(k, weak))
      ensures r.Served? ==> r.left == (if n <= old(s.word.pre) then 0 else n - old(s.word.pre))
      ensures r.Served? ==> |Unblocked(old(s), s)| == n - r.left
      ensures r.Served? ==> if r.left == 0 then s.nc[k].Idle? else s.nc[k] == Testing(Quota(r.left), old(s.nc[k].snap))
      ensures r.Again? ==> s.nc[k].Testing? && Copy(r.state, s.nc[k].snap.word)
      ensures r.Served? || r.Again?
      ensures r.Served? <==> !weak && old(m_state) == state
    {
      hide Inv;
      hide Unblocked;
      ghost var x := s.nc[k].snap.word;
      PackFields(x);
      SameWordInWindow(x, s.word);
      var consumed := Min(n, PreField(state));
      ConsumeWord(x, consumed);
      if !weak && m_state == state {
        m_state := Wrap(state + HALF * consumed - FIELD * consumed);
        r := Served(n - consumed);
      } else {
        r := Again(m_state);
      }
      Advance(NotifyFast(k, weak));
      UnblockedCount(old(s), NotifyFast(k, weak), s, k);
    }

    lemma TopInRange(t: State, k: nat)
      requires Inv(t) && k < |t.nc| && t.nc[k].Testing? && t.nc[k].snap.word.top.Some?
      ensures t.nc[k].snap.word.top.value < |t.next|
    {
      assert NotifierOk(t, k);
    }

    /** The compare-exchange that pops the top. */
    method PopExchange(k: nat, state: Word64, link: Option<nat>, weak: bool) returns (popped: Option<nat>, now: Word64)
      requires Valid() && k < |s.nc| && s.nc[k].Popping? && s.nc[k].link == link
      requires Copy(state, s.nc[k].snap.word) && InWindow(s, s.nc[k].snap.word)
      modifies this
      ensures Valid() && Defined(old(s), NotifyPop(k, weak)) && s == Apply(old(s), NotifyPop(k, weak))
      ensures popped.Some? <==> !weak && old(m_state) == state
      ensures popped.Some? ==> s.nc[k].Unlinking? && s.nc[k].cur == popped.value && |Unblocked(old(s), s)| == 1
      ensures popped.None? ==> s.nc[k].Testing? && Copy(now, s.nc[k].snap.word)
    {
      ghost var x := s.nc[k].snap.word;
      PackFields(x);
      SameWordInWindow(x, s.word);
      PopFacts(s, k);
      now := m_state;
      if !weak && m_state == state {
        PopWord(x, link);
        m_state := EpochPart(state) + (if link.Some? then link.value else EMPTY);
        popped := Some(StackField(state));
      } else {
        popped := None;
      }
      Advance(NotifyPop(k, weak));
      UnblockedCount(old(s), NotifyPop(k, weak), s, k);
    }

    lemma PopFacts(t: State, k: nat)
      requires Inv(t) && k < |t.nc| && t.nc[k].Popping? && |t.pc| < EMPTY
      ensures t.nc[k].snap.word.pre == 0 && t.nc[k].snap.word.top.Some?
      ensures t.word == t.nc[k].snap.word && t.nc[k].link.Some? ==> t.nc[k].link.value < EMPTY
    {
      assert NotifierOk(t, k);
      if t.word == t.nc[k].snap.word { SameWordSameStack(t, t.nc[k].snap); }
    }

    /** One round of notify_all. */
    method NotifyAllRound(k: nat, state: Word64, weak: bool) returns (r: Round)
      requires Valid() && k < |s.nc| && s.nc[k].Testing? && s.nc[k].req == All
      requires Copy(state, s.nc[k].snap.word) && InWindow(s, s.nc[k].snap.word)
      modifies this
      ensures Valid()
      ensures var a := if NoWaiters(old(s.nc[k].snap.word)) then NotifyNone(k) else NotifyAllCas(k, weak);
              Enabled(old(s), a) && Defined(old(s), a) && s == Apply(old(s), a)
      ensures r.Empty? ==> s.nc[k].Idle?
      ensures r.Empty? <==> NoWaiters(old(s.nc[k].snap.word))
      ensures r.Detached? ==> if r.first.None? then s.nc[k].Idle? else s.nc[k].Waking? && s.nc[k].cur == r.first.value
      ensures r.Again? ==> s.nc[k].Testing? && Copy(r.state, s.nc[k].snap.word)
      ensures !r.Served? && !r.ReadLink?
    {
      PackFields(s.nc[k].snap.word);
      if StackField(state) == EMPTY && PreField(state) == 0 {
        Advance(NotifyNone(k));
        r := Empty;
      } else {
        r := AllExchange(k, state, weak);
      }
    }

    /** The compare-exchange that consumes every prewaiter and detaches the whole stack. */
    method AllExchange(k: nat, state: Word64, weak: bool) returns (r: Round)
      requires Valid() && k < |s.nc| && s.nc[k].Testing? && s.nc[k].req == All && !NoWaiters(s.nc[k].snap.word)
      requires Copy(state, s.nc[k].snap.word) && InWindow(s, s.nc[k].snap.word)
      modifies this
      ensures Valid() && Defined(old(s), NotifyAllCas(k, weak)) && s == Apply(old(s), NotifyAllCas(k, weak))
      ensures r.Detached? ==> if r.first.None? then s.nc[k].Idle? else s.nc[k].Waking? && s.nc[k].cur == r.first.value
      ensures r.Again? ==> s.nc[k].Testing? && Copy(r.state, s.nc[k].snap.word)
      ensures r.Detached? || r.Again?
      ensures r.Detached? <==> !weak && old(m_state) == state
    {
      hide Inv;
      ghost var x := s.nc[k].snap.word;
      PackFields(x);
      SameWordInWindow(x, s.word);
      AllWord(x);
      if !weak && m_state == state {
        m_state := Wrap(EpochPart(state) + HALF * PreField(state)) + EMPTY;
        r := Detached(if StackField(state) == EMPTY then None else Some(StackField(state)));
      } else {
        r := Again(m_state);
      }
      Advance(NotifyAllCas(k, weak));
    }

    /** w->next.store(nullptr) after a pop. */
    method Unlink(k: nat, w: nat)
      requires Valid() && k < |s.nc| && s.nc[k].Unlinking? && s.nc[k].cur == w
      modifies this
      ensures Valid() && Defined(old(s), NotifyUnlink(k)) && s == Apply(old(s), NotifyUnlink(k))
    {
      AlwaysDefined(s, NotifyUnlink(k));
      next := next[w := None];
      Advance(NotifyUnlink(k));
    }

    /** _unpark reads the next sleeper before it signals the current one. */
    method UnparkNext(k: nat, w: nat) returns (link: Option<nat>)
      requires Valid() && k < |s.nc| && s.nc[k].Waking? && s.nc[k].cur == w
      modifies this
      ensures Valid() && Defined(old(s), UnparkRead(k)) && s == Apply(old(s), UnparkRead(k)) && s.nc[k].link == link
    {
      AlwaysDefined(s, UnparkRead(k));
      link := next[w];
      Advance(UnparkRead(k));
    }

    /** _unpark exchanges the park state; a futex wake is due exactly if the sleeper was blocked. */
    method UnparkExchange(k: nat, w: nat, link: Option<nat>) returns (wake: bool)
      requires Valid() && k < |s.nc| && s.nc[k].Signalling? && s.nc[k].cur == w && s.nc[k].link == link
      modifies this
      ensures Valid() && Defined(old(s), UnparkSignal(k)) && s == Apply(old(s), UnparkSignal(k))
      ensures w < size && (wake <==> s.pc[w].Asleep?)
    {
      AlwaysDefined(s, UnparkSignal(k));
      SignalledNode(s, k);
      wake := park[w] == 1;
      park := park[w := 2];
      Advance(UnparkSignal(k));
    }

    /** The node about to be signalled is blocked or on its way into _park, never anything else. */
    lemma SignalledNode(t: State, k: nat)
      requires Inv(t) && k < |t.nc| && t.nc[k].Signalling?
      ensures var w := t.nc[k].cur; w < |t.pc| && (t.pc[w].Pushed? || t.pc[w].Asleep?)
                                     && (t.park[w] == Waiting <==> t.pc[w].Asleep?)
    {
      assert NotifierOk(t, k);
      assert WaiterOk(t, t.nc[k].cur);
    }
  }
}
