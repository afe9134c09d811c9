// Every action of the event count keeps its invariant; hence every reachable state has it.

module NotifierInvariant {
  import opened Common
  import opened NotifierProtocol

  // ---------------------------------------------------------------------------------
  // What the source asserts holds
  // ---------------------------------------------------------------------------------

  /** Before each settling compare-exchange that can succeed, the caller heads the queue. */
  lemma WaiterCasDefined(s: State, w: nat)
    requires Inv(s) && IsWaiter(s, w)
    requires s.pc[w].Linking? || (s.pc[w].Cancelling? && s.pc[w].snap.word.epoch == s.pc[w].ticket)
    ensures s.pc[w].snap.word.pre > 0
    ensures s.word == s.pc[w].snap.word ==> s.queue != [] && s.queue[0] == w && s.pc[w].ticket == s.word.epoch
  {
    assert WaiterOk(s, w);
  }

  /** Assertions never fail and node indices are always in range. */
  lemma AlwaysDefined(s: State, a: Action)
    requires Inv(s) && Enabled(s, a)
    ensures Defined(s, a)
  {
    if a.CommitCas? || a.CancelCas? { WaiterCasDefined(s, a.w); }
    if a.NotifyReadNext? || a.NotifyPop? || a.NotifyUnlink? || a.UnparkRead? || a.UnparkSignal? {
      assert NotifierOk(s, a.k);
    }
  }

  /** A notifier is undisturbed while its chain is left alone and the stack changes only with the epoch. */
  lemma NotifierFrame(s: State, s': State, j: nat)
    requires Shape(s) && Shape(s') && |s'.pc| == |s.pc| && j < |s.nc| == |s'.nc|
    requires NotifierOk(s, j) && s'.nc[j] == s.nc[j]
    requires s.word.epoch < s'.word.epoch || (s'.word.epoch == s.word.epoch && s'.stack == s.stack)
    requires forall i :: 0 <= i < |Hand(s.nc[j])| && Hand(s.nc[j])[i] < |s.pc| ==>
               s'.loc[Hand(s.nc[j])[i]] == s.loc[Hand(s.nc[j])[i]] && s'.next[Hand(s.nc[j])[i]] == s.next[Hand(s.nc[j])[i]]
    ensures NotifierOk(s', j)
  {
    var hand := Hand(s.nc[j]);
    assert forall i :: 0 <= i < |hand| ==> s'.loc[hand[i]] == s.loc[hand[i]] && s'.next[hand[i]] == s.next[hand[i]];
    if s.nc[j].Waking? || s.nc[j].Signalling? { LinkedFrame(s.next, s'.next, hand); }
  }

  // ---------------------------------------------------------------------------------
  // Two frames: a step local to one waiter, a step local to one notifier.
  // ---------------------------------------------------------------------------------

  /** Only waiter w's own pc, park state, link and release count may differ. */
  ghost predicate OnlyWaiter(s: State, s': State, w: nat)
    requires IsWaiter(s, w)
  {
    && IsWaiter(s', w) && |s'.pc| == |s.pc|
    && s' == s.(pc := s.pc[w := s'.pc[w]], park := s.park[w := s'.park[w]], next := s.next[w := s'.next[w]],
                releases := s.releases[w := s'.releases[w]])
  }

  lemma LocalWaiterStep(s: State, s': State, w: nat)
    requires Inv(s) && IsWaiter(s, w) && OnlyWaiter(s, s', w)
    requires WaiterOk(s', w)
    requires s'.next[w] != s.next[w] ==> s.loc[w] == Nowhere
    requires w in s.queue ==> InProtocol(s.pc[w]) && InProtocol(s'.pc[w]) && s'.pc[w].ticket == s.pc[w].ticket
    ensures Inv(s')
  {
    forall v | 0 <= v < |s'.pc| ensures WaiterOk(s', v) {
      if v != w { assert WaiterOk(s, v); }
    }
    if s'.next[w] != s.next[w] { NotInChains(s, w); }
    LinkedFrame(s.next, s'.next, s.stack);
    forall k | 0 <= k < |s'.nc| ensures NotifierOk(s', k) {
      assert NotifierOk(s, k);
      NotifierFrame(s, s', k);
    }
    assert QueueOk(s') by {
      forall i | 0 <= i < |s'.queue|
        ensures s'.queue[i] < |s'.pc| && InProtocol(s'.pc[s'.queue[i]]) && s'.pc[s'.queue[i]].ticket == s'.word.epoch + i
      {
        assert s.queue[i] in s.queue;
      }
    }
  }

  lemma NotInChains(s: State, w: nat)
    requires Inv(s) && IsWaiter(s, w) && s.loc[w] == Nowhere
    ensures w !in s.stack
    ensures forall k :: 0 <= k < |s.nc| ==> w !in Hand(s.nc[k])
  {
    forall k | 0 <= k < |s.nc| ensures w !in Hand(s.nc[k]) { assert NotifierOk(s, k); }
  }

  /** Only notifier k's own program counter may differ, and it still holds the same chain. */
  lemma LocalNotifierStep(s: State, s': State, k: nat)
    requires Inv(s) && IsNotifier(s, k) && |s'.nc| == |s.nc|
    requires s' == s.(nc := s.nc[k := s'.nc[k]])
    requires NotifierOk(s', k)
    requires Hand(s'.nc[k]) == Hand(s.nc[k])
    ensures Inv(s')
  {
    forall v | 0 <= v < |s'.pc| ensures WaiterOk(s', v) { assert WaiterOk(s, v); }
    forall j | 0 <= j < |s'.nc| ensures NotifierOk(s', j) {
      if j != k { assert NotifierOk(s, j); }
    }
  }

  // ---------------------------------------------------------------------------------
  // Waiter actions
  // ---------------------------------------------------------------------------------

  lemma LoadIsFresh(s: State, w: nat)
    requires Inv(s) && IsWaiter(s, w) && InProtocol(s.pc[w])
    ensures TicketOk(s, w, s.pc[w].ticket) && WaiterSnapOk(s, s.pc[w].ticket, Load(s))
  {
    assert WaiterOk(s, w);
  }

  /** Who is queued is exactly who is in the protocol with a ticket that is still ahead. */
  lemma QueuedIffAhead(s: State, w: nat)
    requires Inv(s) && IsWaiter(s, w)
    ensures w in s.queue <==> InProtocol(s.pc[w]) && s.pc[w].ticket >= s.word.epoch
  {
    assert WaiterOk(s, w);
    if w in s.queue {
      var i :| 0 <= i < |s.queue| && s.queue[i] == w;
      assert s.pc[s.queue[i]].ticket == s.word.epoch + i;
    }
    if InProtocol(s.pc[w]) && s.pc[w].ticket >= s.word.epoch {
      assert TicketOk(s, w, s.pc[w].ticket);
      assert s.queue[s.pc[w].ticket - s.word.epoch] == w;
    }
  }

  lemma PrepareInv(s: State, w: nat)
    requires Inv(s) && Enabled(s, Prepare(w))
    ensures Inv(DoPrepare(s, w))
  {
    var s' := DoPrepare(s, w);
    QueuedIffAhead(s, w);
    assert WaiterOk(s, w);
    forall v | 0 <= v < |s'.pc| ensures WaiterOk(s', v) { assert WaiterOk(s, v); }
    forall i | 0 <= i < |s'.queue|
      ensures s'.queue[i] < |s'.pc| && InProtocol(s'.pc[s'.queue[i]]) && s'.pc[s'.queue[i]].ticket == s'.word.epoch + i
    {
      if i < |s.queue| { assert s'.queue[i] == s.queue[i]; assert s.queue[i] in s.queue; }
    }
    forall k | 0 <= k < |s'.nc| ensures NotifierOk(s', k) { assert NotifierOk(s, k); NotifierFrame(s, s', k); }
  }

  lemma LeaveInv(s: State, w: nat)
    requires Inv(s) && IsWaiter(s, w) && InProtocol(s.pc[w]) && s.pc[w].ticket < s.word.epoch
    ensures Inv(DoLeave(s, w))
  {
    assert WaiterOk(s, w);
    QueuedIffAhead(s, w);
    LocalWaiterStep(s, DoLeave(s, w), w);
  }

  lemma WaiterLocalInv(s: State, a: Action)
    requires Inv(s) && Enabled(s, a)
    requires a.CommitReset? || a.CommitLoad? || a.CommitSpin? || a.CommitLink? || a.CancelLoad? || a.CancelSpin?
    ensures Inv(Apply(s, a))
  {
    LoadIsFresh(s, a.w);
    assert WaiterOk(s, a.w);
    hide Inv;
    LocalWaiterStep(s, Apply(s, a), a.w);
  }

  lemma ParkInv(s: State, a: Action)
    requires Inv(s) && Enabled(s, a) && (a.ParkCas? || a.ParkReturn?)
    ensures Defined(s, a) && Inv(Apply(s, a))
  {
    AlwaysDefined(s, a);
    var s' := Apply(s, a);
    assert WaiterOk(s, a.w);
    QueuedIffAhead(s, a.w);
    LocalWaiterStep(s, s', a.w);
  }

  /** A failed or spurious compare-exchange only refreshes the snapshot. */
  lemma RetryInv(s: State, w: nat)
    requires Inv(s) && IsWaiter(s, w) && InProtocol(s.pc[w])
    ensures !s.pc[w].Prepared? && !s.pc[w].Cancelling? ==> Inv(DoCommitLoad(s, w))
    ensures s.pc[w].Cancelling? ==> Inv(DoCancelLoad(s, w))
  {
    assert WaiterOk(s, w);
    LoadIsFresh(s, w);
    if s.pc[w].Cancelling? { LocalWaiterStep(s, DoCancelLoad(s, w), w); }
    else if !s.pc[w].Prepared? { LocalWaiterStep(s, DoCommitLoad(s, w), w); }
  }

  /** Waiters other than the settling one: the queue and the epoch move together. */
  lemma OthersAfterSettle(s: State, s': State, w: nat, v: nat)
    requires Inv(s) && IsWaiter(s, w) && Shape(s') && |s'.pc| == |s.pc| && v < |s.pc| && v != w
    requires s.queue != [] && s.queue[0] == w
    requires s'.word.epoch == s.word.epoch + 1 && s'.queue == s.queue[1..] && s'.settled == s.settled + [BySelf]
    requires s'.pc[v] == s.pc[v] && s'.loc[v] == s.loc[v] && s'.park[v] == s.park[v] && s'.next[v] == s.next[v]
    requires s'.pushes[v] == s.pushes[v] && s'.signals == s.signals && s'.releases == s.releases
    requires s'.stack == s.stack || s'.stack == [w] + s.stack
    requires s'.nc == s.nc
    ensures WaiterOk(s', v)
  {
    assert WaiterOk(s, v);
    if InProtocol(s.pc[v]) {
      var t := s.pc[v].ticket;
      assert TicketOk(s, v, t);
      assert t != s.word.epoch;
      assert TicketOk(s', v, t);
    }
  }

  lemma QueueAfterSettle(s: State, s': State, w: nat)
    requires Inv(s) && IsWaiter(s, w) && Shape(s') && |s'.pc| == |s.pc|
    requires s.queue != [] && s.queue[0] == w
    requires s'.word.epoch == s.word.epoch + 1 && s'.word.pre == s.word.pre - 1
    requires s'.queue == s.queue[1..] && s'.settled == s.settled + [BySelf]
    requires forall v :: 0 <= v < |s.pc| && v != w ==> s'.pc[v] == s.pc[v]
    ensures QueueOk(s')
  {
    forall i | 0 <= i < |s'.queue|
      ensures s'.queue[i] < |s'.pc| && InProtocol(s'.pc[s'.queue[i]]) && s'.pc[s'.queue[i]].ticket == s'.word.epoch + i
    {
      assert s'.queue[i] == s.queue[i + 1];
      assert s.pc[s.queue[i + 1]].ticket == s.word.epoch + i + 1;
      assert s.pc[s.queue[0]].ticket == s.word.epoch;
    }
  }

  lemma CommitCasInv(s: State, w: nat, spurious: bool)
    requires Inv(s) && Enabled(s, CommitCas(w, spurious))
    ensures Defined(s, CommitCas(w, spurious)) && Inv(Apply(s, CommitCas(w, spurious)))
  {
    WaiterCasDefined(s, w);
    if !spurious && s.word == s.pc[w].snap.word { PushInv(s, w); } else { RetryInv(s, w); }
  }

  lemma PushInv(s: State, w: nat)
    requires Inv(s) && IsWaiter(s, w) && s.pc[w].Linking? && s.word == s.pc[w].snap.word
    requires s.queue != [] && s.queue[0] == w && s.word.pre > 0
    ensures Inv(DoPush(s, w))
  {
    var s' := DoPush(s, w);
    assert WaiterOk(s, w);
    QueueAfterSettle(s, s', w);
    PushStack(s, w);
    assert WaiterOk(s', w);
    forall v | 0 <= v < |s'.pc| ensures WaiterOk(s', v) {
      if v != w { OthersAfterSettle(s, s', w, v); }
    }
    hide WaiterOk;
    forall k | 0 <= k < |s'.nc| ensures NotifierOk(s', k) {
      assert NotifierOk(s, k);
      hide NotifierOk;
      NotifierFrame(s, s', k);
    }
  }

  lemma PushStack(s: State, w: nat)
    requires Inv(s) && IsWaiter(s, w) && s.pc[w].Linking? && s.word == s.pc[w].snap.word
    requires s.queue != [] && s.queue[0] == w && s.word.pre > 0
    ensures var s' := DoPush(s, w); Shape(s') && StackOk(s') && s'.stack != [] && s'.stack[0] == w
  {
    var s' := DoPush(s, w);
    assert WaiterOk(s, w);
    hide NotifierOk;
    LinkedCons(s.next, w, s.stack);
    forall i | 0 <= i < |s'.stack| ensures s'.stack[i] < |s'.pc| && s'.loc[s'.stack[i]] == InStack {
      if i > 0 { assert s'.stack[i] == s.stack[i - 1]; }
    }
  }

  lemma CancelCasInv(s: State, w: nat, spurious: bool)
    requires Inv(s) && Enabled(s, CancelCas(w, spurious))
    ensures Defined(s, CancelCas(w, spurious)) && Inv(Apply(s, CancelCas(w, spurious)))
  {
    WaiterCasDefined(s, w);
    if !spurious && s.word == s.pc[w].snap.word {
      var s' := DoCancelCas(s, w, spurious);
      assert WaiterOk(s, w);
      QueueAfterSettle(s, s', w);
      forall v | 0 <= v < |s'.pc| ensures WaiterOk(s', v) {
        if v != w { OthersAfterSettle(s, s', w, v); }
      }
      forall k | 0 <= k < |s'.nc| ensures NotifierOk(s', k) { assert NotifierOk(s, k); NotifierFrame(s, s', k); }
    } else {
      RetryInv(s, w);
    }
  }

  // ---------------------------------------------------------------------------------
  // Notifier actions
  // ---------------------------------------------------------------------------------

  lemma ReloadInv(s: State, k: nat, req: Request)
    requires Inv(s) && IsNotifier(s, k) && Hand(s.nc[k]) == [] && req != Quota(0)
    ensures Inv(Reload(s, k, req))
  {
    FreshSnapOk(s);
    LocalNotifierStep(s, Reload(s, k, req), k);
  }

  lemma FreshSnapOk(s: State)
    requires Inv(s)
    ensures SnapOk(s, Load(s))
  {
    LinkedDistinct(s.next, s.stack);
  }

  lemma NotifierLocalInv(s: State, a: Action)
    requires Inv(s) && Enabled(s, a)
    requires a.NotifyLoad? || a.NotifyNone? || a.NotifyReadNext? || a.UnparkRead?
    ensures Defined(s, a) && Inv(Apply(s, a))
  {
    AlwaysDefined(s, a);
    var s' := Apply(s, a);
    assert NotifierOk(s, a.k);
    match a {
      case NotifyLoad(k, req) => hide Inv; ReloadInv(s, k, req);
      case NotifyNone(k) => hide Inv; LocalNotifierStep(s, s', k);
      case NotifyReadNext(k) =>
        if s.stack == s.nc[k].snap.stack { LinkedTail(s.next, s.stack); }
        hide Inv;
        LocalNotifierStep(s, s', k);
      case UnparkRead(k) =>
        LinkedTail(s.next, s.nc[k].hand);
        hide Inv;
        LocalNotifierStep(s, s', k);
    }
  }

  /** Consuming the n oldest prewaiters moves their tickets behind the epoch, on the notifier's account. */
  lemma ConsumedTickets(s: State, n: nat, v: nat)
    requires Inv(s) && n <= s.word.pre && IsWaiter(s, v) && InProtocol(s.pc[v])
    ensures TicketOk(ConsumePre(s, n), v, s.pc[v].ticket)
  {
    var t := s.pc[v].ticket;
    assert WaiterOk(s, v);
    assert TicketOk(s, v, t);
    if s.word.epoch <= t && s.word.epoch + n <= t {
      assert s.queue[n..][t - s.word.epoch - n] == s.queue[t - s.word.epoch];
    }
  }

  lemma ConsumedQueue(s: State, n: nat)
    requires Inv(s) && n <= s.word.pre
    ensures QueueOk(ConsumePre(s, n))
  {
    var s' := ConsumePre(s, n);
    forall i | 0 <= i < |s'.queue|
      ensures s'.queue[i] < |s'.pc| && InProtocol(s'.pc[s'.queue[i]]) && s'.pc[s'.queue[i]].ticket == s'.word.epoch + i
    {
      assert s'.queue[i] == s.queue[i + n];
    }
  }

  lemma NotifyFastInv(s: State, k: nat, spurious: bool)
    requires Inv(s) && Enabled(s, NotifyFast(k, spurious))
    ensures Defined(s, NotifyFast(k, spurious)) && Inv(Apply(s, NotifyFast(k, spurious)))
  {
    var c := s.nc[k];
    assert NotifierOk(s, k);
    if !spurious && s.word == c.snap.word {
      FastInv(s, k);
    } else {
      ReloadInv(s, k, c.req);
    }
  }

  /** The CAS that consumes prewaiters only. */
  lemma FastInv(s: State, k: nat)
    requires Inv(s) && IsNotifier(s, k) && s.nc[k].Testing? && s.nc[k].req.Quota? && s.word == s.nc[k].snap.word
    requires FastCount(s.nc[k]) <= s.word.pre
    ensures Inv(DoNotifyFast(s, k, false))
  {
    var s' := DoNotifyFast(s, k, false);
    ConsumedQueue(s, FastCount(s.nc[k]));
    forall v | 0 <= v < |s'.pc| ensures WaiterOk(s', v) { FastWaiter(s, k, v); }
    forall j | 0 <= j < |s'.nc| ensures NotifierOk(s', j) { FastNotifier(s, k, j); }
    hide WaiterOk;
    hide NotifierOk;
  }

  lemma FastWaiter(s: State, k: nat, v: nat)
    requires Inv(s) && IsNotifier(s, k) && s.nc[k].Testing? && s.nc[k].req.Quota? && s.word == s.nc[k].snap.word
    requires FastCount(s.nc[k]) <= s.word.pre && IsWaiter(s, v)
    ensures WaiterOk(DoNotifyFast(s, k, false), v)
  {
    var n := FastCount(s.nc[k]);
    assert WaiterOk(s, v);
    if InProtocol(s.pc[v]) { ConsumedTickets(s, n, v); }
    FastLoc(s, k, v);
    hide Inv;
    hide LocOk;
    var s' := DoNotifyFast(s, k, false);
    assert InProtocol(s.pc[v]) ==> TicketOk(s', v, s.pc[v].ticket);
  }

  lemma FastLoc(s: State, k: nat, v: nat)
    requires Shape(s) && IsNotifier(s, k) && s.nc[k].Testing? && s.nc[k].req.Quota? && s.word.pre <= |s.queue|
    requires FastCount(s.nc[k]) <= s.word.pre && IsWaiter(s, v) && LocOk(s, v)
    ensures LocOk(DoNotifyFast(s, k, false), v)
  {
  }

  lemma FastNotifier(s: State, k: nat, j: nat)
    requires Inv(s) && IsNotifier(s, k) && s.nc[k].Testing? && s.nc[k].req.Quota? && s.word == s.nc[k].snap.word
    requires FastCount(s.nc[k]) <= s.word.pre && IsNotifier(s, j)
    ensures NotifierOk(DoNotifyFast(s, k, false), j)
  {
    hide WaiterOk;
    assert NotifierOk(s, j);
    if j != k { hide NotifierOk; NotifierFrame(s, DoNotifyFast(s, k, false), j); }
  }

  /** The heart of the ABA argument: equal words mean an unchanged stack. */
  lemma SameWordSameStack(s: State, snap: Snap)
    requires Inv(s) && SnapOk(s, snap) && s.word == snap.word
    ensures s.stack == snap.stack
  {
    SuffixSameHead(s.stack, snap.stack);
  }

  lemma NotifyPopInv(s: State, k: nat, spurious: bool)
    requires Inv(s) && Enabled(s, NotifyPop(k, spurious))
    ensures Defined(s, NotifyPop(k, spurious)) && Inv(Apply(s, NotifyPop(k, spurious)))
  {
    var c := s.nc[k];
    assert NotifierOk(s, k);
    AlwaysDefined(s, NotifyPop(k, spurious));
    if !spurious && s.word == c.snap.word { PopInv(s, k); } else { ReloadInv(s, k, c.req); }
  }

  lemma PopInv(s: State, k: nat)
    requires Inv(s) && IsNotifier(s, k) && s.nc[k].Popping? && s.word == s.nc[k].snap.word && s.stack != []
    requires s.word.top.Some?
    ensures Inv(DoNotifyPop(s, k, false))
  {
    var c := s.nc[k];
    var s' := DoNotifyPop(s, k, false);
    var w := s.word.top.value;
    assert NotifierOk(s, k);
    SameWordSameStack(s, c.snap);
    LinkedDistinct(s.next, s.stack);
    LinkedTail(s.next, s.stack);
    assert StackOk(s') by {
      forall i | 0 <= i < |s'.stack| ensures s'.stack[i] < |s'.pc| && s'.loc[s'.stack[i]] == InStack {
        assert s'.stack[i] == s.stack[i + 1];
      }
    }
    forall v | 0 <= v < |s'.pc| ensures WaiterOk(s', v) {
      assert WaiterOk(s, v);
      if s.loc[v] == InStack && v != w { assert v in s.stack && v in s.stack[1..]; }
      assert s.loc[v] != InHand(k);
    }
    forall j | 0 <= j < |s'.nc| ensures NotifierOk(s', j) {
      assert NotifierOk(s, j);
      if j != k { OtherNotifierAfterTake(s, s', [w], k, j); }
      else { SuffixTail(s.stack, c.snap.stack); }
    }
  }

  /** Taking nodes off the stack disturbs no other notifier. */
  lemma OtherNotifierAfterTake(s: State, s': State, taken: seq<nat>, k: nat, j: nat)
    requires Inv(s) && Shape(s') && |s'.pc| == |s.pc| && j < |s.nc| == |s'.nc| && j != k
    requires s'.nc[j] == s.nc[j] && s'.next == s.next && s'.loc == Taken(s.loc, taken, k)
    requires forall v :: v in taken ==> v in s.stack
    requires s.word.epoch <= s'.word.epoch
    requires s'.stack == [] || (s.stack != [] && s'.stack == s.stack[1..])
    ensures NotifierOk(s', j)
  {
    hide WaiterOk;
    hide QueueOk;
    hide Linked;
    hide Distinct;
    assert NotifierOk(s, j);
    var hand := Hand(s.nc[j]);
    assert forall i :: 0 <= i < |hand| ==> s.loc[hand[i]] == InHand(j) && hand[i] !in taken;
    if !s.nc[j].Idle? { SnapAfterTake(s, s', s.nc[j].snap); }
    hide Suffix;
    hide SnapOk;
    if s.nc[j].Popping? && s.nc[j].snap.word.epoch == s'.word.epoch { assert |s'.stack| < |s.nc[j].snap.stack|; }
  }

  /** A snapshot stays one of a stack that has only been popped since, or emptied. */
  lemma SnapAfterTake(s: State, s': State, snap: Snap)
    requires SnapOk(s, snap) && |s'.pc| == |s.pc| && s.word.epoch <= s'.word.epoch
    requires s'.stack == [] || (s.stack != [] && s'.stack == s.stack[1..])
    ensures SnapOk(s', snap)
    ensures snap.stack != [] && snap.word.epoch == s'.word.epoch ==> |s'.stack| < |snap.stack|
  {
    if snap.word.epoch == s'.word.epoch {
      if s'.stack == [] { assert Suffix(s'.stack, snap.stack); } else { SuffixTail(s.stack, snap.stack); }
    }
  }

  lemma NotifyUnlinkInv(s: State, k: nat)
    requires Inv(s) && Enabled(s, NotifyUnlink(k))
    ensures Defined(s, NotifyUnlink(k)) && Inv(Apply(s, NotifyUnlink(k)))
  {
    AlwaysDefined(s, NotifyUnlink(k));
    assert NotifierOk(s, k);
    var s' := DoNotifyUnlink(s, k);
    var w := s.nc[k].cur;
    assert s.loc[w] == InHand(k);
    LinkedFrame(s.next, s'.next, s.stack);
    UnlinkNotifiers(s, k);
    forall v | 0 <= v < |s'.pc| ensures WaiterOk(s', v) { assert WaiterOk(s, v); }
    hide WaiterOk;
    hide NotifierOk;
  }

  lemma UnlinkNotifiers(s: State, k: nat)
    requires Inv(s) && Enabled(s, NotifyUnlink(k)) && Defined(s, NotifyUnlink(k))
    ensures var s' := DoNotifyUnlink(s, k); Shape(s') && forall j :: 0 <= j < |s'.nc| ==> NotifierOk(s', j)
  {
    assert NotifierOk(s, k);
    var s' := DoNotifyUnlink(s, k);
    assert s.loc[s.nc[k].cur] == InHand(k);
    hide WaiterOk;
    forall j | 0 <= j < |s'.nc| ensures NotifierOk(s', j) {
      assert NotifierOk(s, j);
      if j != k { NotifierFrame(s, s', j); }
    }
  }

  lemma NotifyAllCasInv(s: State, k: nat, spurious: bool)
    requires Inv(s) && Enabled(s, NotifyAllCas(k, spurious))
    ensures Defined(s, NotifyAllCas(k, spurious)) && Inv(Apply(s, NotifyAllCas(k, spurious)))
  {
    var c := s.nc[k];
    assert NotifierOk(s, k);
    if !spurious && s.word == c.snap.word { DetachInv(s, k); } else { ReloadInv(s, k, c.req); }
  }

  lemma DetachInv(s: State, k: nat)
    requires Inv(s) && IsNotifier(s, k) && s.nc[k].Testing? && s.nc[k].req.All? && s.word == s.nc[k].snap.word
    ensures Inv(DoNotifyAllCas(s, k, false))
  {
    var s' := DoNotifyAllCas(s, k, false);
    DetachShape(s, k);
    ConsumedQueue(s, s.word.pre);
    forall v | 0 <= v < |s'.pc| ensures WaiterOk(s', v) { DetachWaiter(s, k, v); }
    forall j | 0 <= j < |s'.nc| ensures NotifierOk(s', j) { DetachNotifier(s, k, j); }
    hide WaiterOk;
    hide NotifierOk;
  }

  lemma DetachShape(s: State, k: nat)
    requires Inv(s) && IsNotifier(s, k) && s.nc[k].Testing? && s.nc[k].req.All? && s.word == s.nc[k].snap.word
    ensures Shape(DoNotifyAllCas(s, k, false)) && StackOk(DoNotifyAllCas(s, k, false))
  {
    hide WaiterOk;
    hide NotifierOk;
  }

  lemma DetachWaiter(s: State, k: nat, v: nat)
    requires Inv(s) && IsNotifier(s, k) && s.nc[k].Testing? && s.nc[k].req.All? && s.word == s.nc[k].snap.word
    requires IsWaiter(s, v)
    ensures WaiterOk(DoNotifyAllCas(s, k, false), v)
  {
    assert NotifierOk(s, k) && WaiterOk(s, v);
    assert Hand(s.nc[k]) == [];
    assert s.loc[v] != InHand(k);
    DetachLoc(s, k, v);
    hide NotifierOk;
    hide LocOk;
    if InProtocol(s.pc[v]) { ConsumedTickets(s, s.word.pre, v); }
    DetachPc(s, k, v);
  }

  lemma DetachLoc(s: State, k: nat, v: nat)
    requires Inv(s) && IsNotifier(s, k) && s.nc[k].Testing? && s.nc[k].req.All? && s.word == s.nc[k].snap.word
    requires IsWaiter(s, v) && s.loc[v] != InHand(k)
    ensures var s' := DoNotifyAllCas(s, k, false); LocOk(s', v) && (s'.loc[v] == Nowhere <==> s.loc[v] == Nowhere)
  {
    assert LocOk(s, v) by { assert WaiterOk(s, v); }
    assert v in s.stack ==> s.loc[v] == InStack;
    hide NotifierOk;
    hide WaiterOk;
    hide QueueOk;
  }

  lemma DetachPc(s: State, k: nat, v: nat)
    requires IsNotifier(s, k) && s.nc[k].Testing? && s.word == s.nc[k].snap.word && s.word.pre <= |s.queue|
    requires IsWaiter(s, v) && PcOk(s, v) && CountOk(s, v) && |s.loc| == |s.pc|
    requires (DoNotifyAllCas(s, k, false).loc[v] == Nowhere <==> s.loc[v] == Nowhere)
    requires InProtocol(s.pc[v]) ==> TicketOk(ConsumePre(s, s.word.pre), v, s.pc[v].ticket)
    requires |s.settled| == s.word.epoch
    ensures PcOk(DoNotifyAllCas(s, k, false), v) && CountOk(DoNotifyAllCas(s, k, false), v)
  {
    var s' := DoNotifyAllCas(s, k, false);
    assert InProtocol(s.pc[v]) ==> TicketOk(s', v, s.pc[v].ticket);
  }

  lemma DetachNotifier(s: State, k: nat, j: nat)
    requires Inv(s) && IsNotifier(s, k) && s.nc[k].Testing? && s.nc[k].req.All? && s.word == s.nc[k].snap.word
    requires IsNotifier(s, j)
    ensures NotifierOk(DoNotifyAllCas(s, k, false), j)
  {
    DetachShape(s, k);
    if j != k {
      var s' := DoNotifyAllCas(s, k, false);
      hide WaiterOk;
      hide NotifierOk;
      OtherNotifierAfterTake(s, s', s.stack, k, j);
    } else {
      DetachSelf(s, k);
    }
  }

  lemma DetachSelf(s: State, k: nat)
    requires Inv(s) && IsNotifier(s, k) && s.nc[k].Testing? && s.nc[k].req.All? && s.word == s.nc[k].snap.word
    ensures Shape(DoNotifyAllCas(s, k, false)) && NotifierOk(DoNotifyAllCas(s, k, false), k)
  {
    DetachShape(s, k);
    var s', c := DoNotifyAllCas(s, k, false), s.nc[k];
    assert SnapOk(s, c.snap) by { assert NotifierOk(s, k); }
    EmptySnap(s, s', c.snap);
    if s.stack != [] { DetachedHand(s, s', k); }
    hide WaiterOk;
    hide QueueOk;
    hide SnapOk;
    hide HandOk;
  }

  /** Any snapshot is consistent with an empty stack. */
  lemma EmptySnap(s: State, s': State, snap: Snap)
    requires SnapOk(s, snap) && s'.stack == [] && s'.word.epoch >= s.word.epoch && |s'.pc| == |s.pc|
    ensures SnapOk(s', snap)
  {
    assert snap.stack[|snap.stack|..] == [];
  }

  lemma DetachedHand(s: State, s': State, k: nat)
    requires Shape(s) && Shape(s') && StackOk(s) && |s'.pc| == |s.pc| && s'.loc == Taken(s.loc, s.stack, k) && s.stack != []
    ensures HandOk(s', k, s.stack, s.stack[0]) && s.word.top == Some(s.stack[0])
  {
    LinkedDistinct(s.next, s.stack);
  }

  lemma UnparkSignalInv(s: State, k: nat)
    requires Inv(s) && Enabled(s, UnparkSignal(k))
    ensures Defined(s, UnparkSignal(k)) && Inv(Apply(s, UnparkSignal(k)))
  {
    AlwaysDefined(s, UnparkSignal(k));
    var s' := DoUnparkSignal(s, k);
    assert NotifierOk(s, k);
    forall v | 0 <= v < |s'.pc| ensures WaiterOk(s', v) { WaiterAfterSignal(s, k, v); }
    forall j | 0 <= j < |s'.nc| ensures NotifierOk(s', j) {
      if j == k { SignallerAfterSignal(s, k); } else { assert NotifierOk(s, j); NotifierFrame(s, s', j); }
    }
  }

  lemma WaiterAfterSignal(s: State, k: nat, v: nat)
    requires Inv(s) && Enabled(s, UnparkSignal(k)) && IsWaiter(s, v)
    requires s.nc[k].cur < |s.pc| && s.nc[k].hand != []
    ensures WaiterOk(DoUnparkSignal(s, k), v)
  {
    var c := s.nc[k];
    assert NotifierOk(s, k) && WaiterOk(s, v);
    assert s.loc[c.cur] == InHand(k);
    if v != c.cur && s.loc[v] == InHand(k) { assert v in c.hand && v in c.hand[1..]; }
  }

  lemma SignallerAfterSignal(s: State, k: nat)
    requires Inv(s) && Enabled(s, UnparkSignal(k))
    requires s.nc[k].cur < |s.pc| && s.nc[k].hand != []
    ensures NotifierOk(DoUnparkSignal(s, k), k)
  {
    var c := s.nc[k];
    assert NotifierOk(s, k);
    LinkedTail(s.next, c.hand);
    var s' := DoUnparkSignal(s, k);
    forall i | 0 <= i < |c.hand[1..]|
      ensures c.hand[1..][i] < |s'.pc| && s'.loc[c.hand[1..][i]] == InHand(k)
    {
      assert c.hand[1..][i] == c.hand[i + 1];
    }
  }

  // ---------------------------------------------------------------------------------
  // Whole runs
  // ---------------------------------------------------------------------------------

  lemma InitInv(waiters: nat, notifiers: nat)
    ensures Inv(InitState(waiters, notifiers))
  {
  }

  lemma OvertakenInv(s: State, a: Action)
    requires Inv(s) && Enabled(s, a) && (a.CommitOvertaken? || a.CancelOvertaken?)
    ensures Defined(s, a) && Inv(Apply(s, a))
  {
    assert WaiterOk(s, a.w);
    LeaveInv(s, a.w);
  }

  lemma PrepareStepInv(s: State, a: Action)
    requires Inv(s) && Enabled(s, a) && a.Prepare?
    ensures Defined(s, a) && Inv(Apply(s, a))
  {
    hide Inv;
    PrepareInv(s, a.w);
  }

  lemma WaiterStepInv(s: State, a: Action)
    requires Inv(s) && Enabled(s, a)
    requires a.Prepare? || a.CommitCas? || a.CancelCas? || a.ParkCas? || a.ParkReturn? || a.CommitReset? || a.CommitLoad?
          || a.CommitSpin? || a.CommitOvertaken? || a.CommitLink? || a.CancelLoad? || a.CancelSpin? || a.CancelOvertaken?
    ensures Defined(s, a) && Inv(Apply(s, a))
  {
    AlwaysDefined(s, a);
    hide *;
    if a.CommitOvertaken? || a.CancelOvertaken? {
      OvertakenInv(s, a);
    } else if a.Prepare? {
      PrepareStepInv(s, a);
    } else if a.CommitCas? {
      CommitCasInv(s, a.w, a.spurious);
    } else if a.CancelCas? {
      CancelCasInv(s, a.w, a.spurious);
    } else if a.ParkCas? || a.ParkReturn? {
      ParkInv(s, a);
    } else {
      WaiterLocalInv(s, a);
    }
  }

  lemma NotifierStepInv(s: State, a: Action)
    requires Inv(s) && Enabled(s, a)
    requires a.NotifyFast? || a.NotifyPop? || a.NotifyUnlink? || a.NotifyAllCas? || a.UnparkSignal?
          || a.NotifyLoad? || a.NotifyNone? || a.NotifyReadNext? || a.UnparkRead?
    ensures Defined(s, a) && Inv(Apply(s, a))
  {
    hide *;
    if a.NotifyFast? {
      NotifyFastInv(s, a.k, a.spurious);
    } else if a.NotifyPop? {
      NotifyPopInv(s, a.k, a.spurious);
    } else if a.NotifyUnlink? {
      NotifyUnlinkInv(s, a.k);
    } else if a.NotifyAllCas? {
      NotifyAllCasInv(s, a.k, a.spurious);
    } else if a.UnparkSignal? {
      UnparkSignalInv(s, a.k);
    } else {
      NotifierLocalInv(s, a);
    }
  }

  lemma StepInv(s: State, a: Action)
    requires Inv(s) && Enabled(s, a)
    ensures Defined(s, a) && Inv(Apply(s, a))
  {
    hide *;
    if a.NotifyFast? || a.NotifyPop? || a.NotifyUnlink? || a.NotifyAllCas? || a.UnparkSignal?
       || a.NotifyLoad? || a.NotifyNone? || a.NotifyReadNext? || a.UnparkRead? {
      NotifierStepInv(s, a);
    } else {
      WaiterStepInv(s, a);
    }
  }
}
