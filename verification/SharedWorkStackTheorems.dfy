// The shared stack loses no node, hands none out twice, lets one thief at a time touch m_head, and
// counts exactly what it holds.

module SharedWorkStackTheorems {
  import opened Common
  import opened SharedWorkStackProtocol

  // ---------------------------------------------------------------------------------
  // Chains
  // ---------------------------------------------------------------------------------

  lemma {:induction false} ConnectLinks(next: Links, c: seq<nat>, target: Option<nat>)
    requires Distinct(c) && forall i :: 0 <= i < |c| ==> c[i] < |next|
    ensures LinkedTo(Connect(next, c, target), c, target)
  {
    if c != [] {
      var d := c[1..];
      ConnectLinks(next, d, target);
      var r := Connect(next, c, target);
      forall i | 0 <= i < |c| ensures r[c[i]] == LinkTo(c, i, target) {
        if i > 0 {
          assert d[i - 1] == c[i] && c[i] != c[0];
          assert LinkTo(d, i - 1, target) == LinkTo(c, i, target);
        }
      }
    }
  }

  /** Hanging a chain that ends at the old front gives the chain of both. */
  lemma ChainsJoin(next: Links, c: seq<nat>, d: seq<nat>)
    requires LinkedTo(next, c, Head(d)) && Linked(next, d)
    ensures Linked(next, c + d)
  {
    var e := c + d;
    forall i | 0 <= i < |e| ensures e[i] < |next| && next[e[i]] == LinkAt(e, i) {
      if i >= |c| {
        assert e[i] == d[i - |c|];
        assert LinkAt(e, i) == LinkAt(d, i - |c|);
      } else {
        assert e[i] == c[i];
        assert LinkAt(e, i) == LinkTo(c, i, Head(d));
      }
    }
  }

  /** Only the nodes of the chain matter. */

  // ---------------------------------------------------------------------------------
  // The announced total
  // ---------------------------------------------------------------------------------

  lemma {:induction false} TotalUpdate(ps: seq<Producer>, p: nat, x: Producer)
    requires p < |ps|
    ensures TotalAnnounced(ps[p := x]) == TotalAnnounced(ps) - Announced(ps[p]) + Announced(x)
  {
    if p == 0 {
      assert ps[p := x][1..] == ps[1..];
    } else {
      assert ps[p := x][1..] == ps[1..][p - 1 := x];
      TotalUpdate(ps[1..], p - 1, x);
    }
  }

  lemma {:induction false} TotalAtLeast(ps: seq<Producer>, p: nat)
    requires p < |ps|
    ensures TotalAnnounced(ps) >= Announced(ps[p])
  {
    if p > 0 { TotalAtLeast(ps[1..], p - 1); }
  }

  lemma {:induction false} TotalOfIdle(n: nat)
    ensures TotalAnnounced(seq(n, _ => Idle)) == 0
  {
    if n > 0 {
      assert seq<Producer>(n, _ => Idle)[1..] == seq(n - 1, _ => Idle);
      TotalOfIdle(n - 1);
    }
  }

  // ---------------------------------------------------------------------------------
  // Frames
  // ---------------------------------------------------------------------------------

  /** A producer whose nodes were left alone is still fine. */
  lemma ProducerFrame(s: State, s': State, p: nat)
    requires Shape(s) && Shape(s') && |s'.loc| == |s.loc|
    requires p < |s.producers| == |s'.producers| && s'.producers[p] == s.producers[p] && ProducerOk(s, p)
    requires forall v :: 0 <= v < |s.loc| && s.loc[v] == Pending(p) ==> s'.loc[v] == s.loc[v] && s'.next[v] == s.next[v]
    ensures ProducerOk(s', p)
  {
    if !s.producers[p].Idle? {
      var c := s.producers[p].chain;
      assert forall i :: 0 <= i < |c| ==> s'.next[c[i]] == s.next[c[i]];
    }
  }

  /** A list whose nodes were left alone is still linked and in place. */
  lemma ListFrame(s: State, s': State, c: seq<nat>, place: Loc)
    requires Shape(s) && Shape(s') && |s'.loc| == |s.loc| && Linked(s.next, c) && ChainOk(s, c, place)
    requires forall v :: 0 <= v < |s.loc| && s.loc[v] == place ==> s'.loc[v] == s.loc[v] && s'.next[v] == s.next[v]
    ensures Linked(s'.next, c) && ChainOk(s', c, place)
  {
    assert forall i :: 0 <= i < |c| ==> s.loc[c[i]] == place && s'.loc[c[i]] == place && s'.next[c[i]] == s.next[c[i]];
    LinkedFrame(s.next, s'.next, c);
  }

  /** A step of producer p: the other threads and every place it did not touch stay as they were. */
  ghost predicate ByProducer(s: State, s': State, p: nat) {
    && Shape(s) && Shape(s') && |s'.loc| == |s.loc| && p < |s.producers| == |s'.producers|
    && s'.producers == s.producers[p := s'.producers[p]]
    && s'.thieves == s.thieves && s'.holder == s.holder && s'.locked == s.locked && s'.head == s.head && s'.cons == s.cons
    && (forall v :: 0 <= v < |s.loc| && s'.next[v] != s.next[v] ==> s.loc[v] == Free || s.loc[v] == Pending(p))
    && (forall v :: 0 <= v < |s.loc| && s'.loc[v] != s.loc[v] ==> s.loc[v] == Free || s.loc[v] == Pending(p))
  }

  lemma ProducerStep(s: State, s': State, p: nat)
    requires Inv(s) && ByProducer(s, s', p)
    requires ProducerOk(s', p)
    requires s'.count - s.count == Announced(s'.producers[p]) - Announced(s.producers[p]) + |s'.inc| - |s.inc|
    requires s'.incoming == Head(s'.inc) && Linked(s'.next, s'.inc) && ChainOk(s', s'.inc, InIncoming)
    requires forall v :: 0 <= v < |s.loc| ==> NodeOk(s', v)
    ensures Inv(s')
  {
    TotalUpdate(s.producers, p, s'.producers[p]);
    hide TotalAnnounced;
    ListFrame(s, s', s.cons, InConsumer);
    forall q | 0 <= q < |s'.producers| ensures ProducerOk(s', q) {
      assert ProducerOk(s, q);
      if q != p { ProducerFrame(s, s', q); }
    }
    forall k | 0 <= k < |s'.thieves| ensures ThiefOk(s', k) { ThiefFrame(s, s', k); }
  }

  lemma ThiefFrame(s: State, s': State, k: nat)
    requires Inv(s) && k < |s.thieves| && Shape(s') && |s'.loc| == |s.loc|
    requires s'.thieves == s.thieves && s'.holder == s.holder && s'.cons == s.cons
    requires forall v :: 0 <= v < |s.loc| && s.loc[v] == Taken(k) ==> s'.loc[v] == s.loc[v] && s'.next[v] == s.next[v]
    ensures ThiefOk(s', k)
  {
    assert ThiefOk(s, k);
  }

  // ---------------------------------------------------------------------------------
  // Producer actions
  // ---------------------------------------------------------------------------------

  lemma NodeAfterBuild(s: State, p: nat, c: seq<nat>, v: nat)
    requires Inv(s) && Enabled(s, Build(p, c)) && v < |s.loc|
    ensures v in c ==> s.loc[v] == Free
    ensures NodeOk(Apply(s, Build(p, c)), v)
  {
    hide TotalAnnounced;
    assert NodeOk(s, v);
  }

  lemma BuildInv(s: State, p: nat, c: seq<nat>)
    requires Inv(s) && Enabled(s, Build(p, c))
    ensures Inv(Apply(s, Build(p, c)))
  {
    hide TotalAnnounced;
    hide ThiefOk;
    hide NodeOk;
    var s' := Apply(s, Build(p, c));
    ConnectLinks(s.next, c, None);
    forall v | 0 <= v < |s'.loc| ensures (v in c ==> s.loc[v] == Free) && NodeOk(s', v) { NodeAfterBuild(s, p, c, v); }
    ListFrame(s, s', s.inc, InIncoming);
    ProducerStep(s, s', p);
  }

  lemma ProducerLocalInv(s: State, a: Action)
    requires Inv(s) && Enabled(s, a) && (a.Count? || a.LoadIncoming?)
    ensures Inv(Apply(s, a))
  {
    hide TotalAnnounced;
    var s' := Apply(s, a);
    assert ProducerOk(s, a.p);
    if a.LoadIncoming? { PrefixLinked(s.next, s.producers[a.p].chain, None); }
    forall v | 0 <= v < |s'.loc| ensures NodeOk(s', v) { assert NodeOk(s, v); }
    ProducerStep(s, s', a.p);
  }

  lemma PrefixLinked(next: Links, c: seq<nat>, target: Option<nat>)
    requires c != [] && LinkedTo(next, c, target)
    ensures LinkedTo(next, c[..|c| - 1], Some(Last(c)))
  {
    var d := c[..|c| - 1];
    forall i | 0 <= i < |d| ensures d[i] < |next| && next[d[i]] == LinkTo(d, i, Some(Last(c))) {
      assert d[i] == c[i];
      assert LinkTo(d, i, Some(Last(c))) == LinkTo(c, i, target);
    }
  }

  /** Storing the last link completes the chain. */
  lemma HookedChain(next: Links, c: seq<nat>, target: Option<nat>)
    requires c != [] && Distinct(c) && Last(c) < |next| && LinkedTo(next, c[..|c| - 1], Some(Last(c)))
    ensures LinkedTo(next[Last(c) := target], c, target)
  {
    var next' := next[Last(c) := target];
    forall i | 0 <= i < |c| ensures c[i] < |next| && next'[c[i]] == LinkTo(c, i, target) {
      if i + 1 < |c| {
        assert c[..|c| - 1][i] == c[i];
        assert LinkTo(c[..|c| - 1], i, Some(Last(c))) == LinkTo(c, i, target);
      }
    }
  }

  lemma HookInv(s: State, p: nat)
    requires Inv(s) && Enabled(s, Hook(p))
    ensures Defined(s, Hook(p)) && Inv(Apply(s, Hook(p)))
  {
    hide TotalAnnounced;
    assert ProducerOk(s, p);
    var c := s.producers[p].chain;
    assert s.loc[Last(c)] == Pending(p);
    var s' := Apply(s, Hook(p));
    ListFrame(s, s', s.inc, InIncoming);
    HookedChain(s.next, c, s.producers[p].top);
    forall v | 0 <= v < |s'.loc| ensures NodeOk(s', v) { assert NodeOk(s, v); }
    ProducerStep(s, s', p);
  }

  lemma PublishInv(s: State, p: nat, spurious: bool)
    requires Inv(s) && Enabled(s, Publish(p, spurious))
    ensures Defined(s, Publish(p, spurious)) && Inv(DoPublish(s, p, spurious))
  {
    hide TotalAnnounced;
    assert ProducerOk(s, p);
    forall v | 0 <= v < |s.loc| ensures NodeOk(DoPublish(s, p, spurious), v) { NodeAfterPublish(s, p, spurious, v); }
    if !spurious && s.incoming == s.producers[p].top { PublishedInv(s, p); } else { RetryInv(s, p, spurious); }
  }

  lemma PublishedInv(s: State, p: nat)
    requires Inv(s) && Enabled(s, Publish(p, false)) && Defined(s, Publish(p, false)) && s.incoming == s.producers[p].top
    requires forall v :: 0 <= v < |s.loc| ==> NodeOk(DoPublish(s, p, false), v)
    ensures Inv(DoPublish(s, p, false))
  {
    hide NodeOk;
    PublishedShape(s, p);
    hide *;
    ProducerStep(s, DoPublish(s, p, false), p);
  }

  /** What ProducerStep asks of a successful attempt. */
  lemma PublishedShape(s: State, p: nat)
    requires Inv(s) && Enabled(s, Publish(p, false)) && Defined(s, Publish(p, false)) && s.incoming == s.producers[p].top
    ensures var s' := DoPublish(s, p, false);
      && ByProducer(s, s', p) && ProducerOk(s', p)
      && s'.count - s.count == Announced(s'.producers[p]) - Announced(s.producers[p]) + |s'.inc| - |s.inc|
      && s'.incoming == Head(s'.inc) && Linked(s'.next, s'.inc) && ChainOk(s', s'.inc, InIncoming)
  {
    PublishedChain(s, p);
    PendingChain(s, p);
    hide TotalAnnounced;
    hide NodeOk;
    hide ThiefOk;
    hide ChainOk;
    hide Linked;
    hide LinkedTo;
    assert ProducerOk(s, p);
  }

  lemma PendingChain(s: State, p: nat)
    requires Inv(s) && p < |s.producers| && !s.producers[p].Idle?
    ensures forall v :: 0 <= v < |s.loc| && v in s.producers[p].chain ==> s.loc[v] == Pending(p)
  {
    hide TotalAnnounced;
    hide NodeOk;
    hide ThiefOk;
    assert ProducerOk(s, p);
  }

  lemma PublishedChain(s: State, p: nat)
    requires Inv(s) && Enabled(s, Publish(p, false)) && Defined(s, Publish(p, false)) && s.incoming == s.producers[p].top
    ensures var s' := DoPublish(s, p, false);
      s'.incoming == Head(s'.inc) && Linked(s'.next, s'.inc) && ChainOk(s', s'.inc, InIncoming)
  {
    hide TotalAnnounced;
    hide NodeOk;
    hide ThiefOk;
    assert ProducerOk(s, p);
    var c := s.producers[p].chain;
    ChainsJoin(s.next, c, s.inc);
    PublishedInPlace(s, c, p);
    assert DoPublish(s, p, false).inc[0] == c[0];
  }

  lemma RetryInv(s: State, p: nat, spurious: bool)
    requires Inv(s) && Enabled(s, Publish(p, spurious)) && Defined(s, Publish(p, spurious))
    requires spurious || s.incoming != s.producers[p].top
    requires forall v :: 0 <= v < |s.loc| ==> NodeOk(DoPublish(s, p, spurious), v)
    ensures Inv(DoPublish(s, p, spurious))
  {
    hide NodeOk;
    RetryShape(s, p, spurious);
    hide *;
    ProducerStep(s, DoPublish(s, p, spurious), p);
  }

  /** What ProducerStep asks of a failed attempt. */
  lemma RetryShape(s: State, p: nat, spurious: bool)
    requires Inv(s) && Enabled(s, Publish(p, spurious)) && Defined(s, Publish(p, spurious))
    requires spurious || s.incoming != s.producers[p].top
    ensures var s' := DoPublish(s, p, spurious);
      && ByProducer(s, s', p) && ProducerOk(s', p)
      && s'.count - s.count == Announced(s'.producers[p]) - Announced(s.producers[p]) + |s'.inc| - |s.inc|
      && s'.incoming == Head(s'.inc) && Linked(s'.next, s'.inc) && ChainOk(s', s'.inc, InIncoming)
  {
    RetryProducer(s, p, spurious);
    assert Shape(s);
    assert s.incoming == Head(s.inc) && Linked(s.next, s.inc) && ChainOk(s, s.inc, InIncoming);
    hide Inv;
    hide ProducerOk;
    hide Linked;
  }

  lemma RetryProducer(s: State, p: nat, spurious: bool)
    requires Inv(s) && Enabled(s, Publish(p, spurious)) && Defined(s, Publish(p, spurious))
    requires spurious || s.incoming != s.producers[p].top
    ensures var s' := DoPublish(s, p, spurious); Shape(s') && p < |s'.producers| && ProducerOk(s', p)
  {
    assert Shape(s) && ProducerOk(s, p);
    hide Inv;
    PrefixLinked(s.next, s.producers[p].chain, s.producers[p].top);
  }

  lemma NodeAfterPublish(s: State, p: nat, spurious: bool, v: nat)
    requires Inv(s) && Enabled(s, Publish(p, spurious)) && Defined(s, Publish(p, spurious)) && v < |s.loc|
    ensures NodeOk(DoPublish(s, p, spurious), v)
  {
    PendingChain(s, p);
    assert NodeOk(s, v) && Shape(s);
    hide Inv;
    NodeMoves(s, p, spurious, v);
  }

  lemma NodeMoves(s: State, p: nat, spurious: bool, v: nat)
    requires Shape(s) && Enabled(s, Publish(p, spurious)) && Defined(s, Publish(p, spurious)) && v < |s.loc| && NodeOk(s, v)
    requires v in s.producers[p].chain ==> s.loc[v] == Pending(p)
    ensures NodeOk(DoPublish(s, p, spurious), v)
  {
    if !spurious && s.incoming == s.producers[p].top {
      if v in s.producers[p].chain { assert v in DoPublish(s, p, spurious).inc; }
    }
  }

  lemma PublishedInPlace(s: State, c: seq<nat>, p: nat)
    requires Shape(s) && ChainOk(s, c, Pending(p)) && ChainOk(s, s.inc, InIncoming)
    ensures ChainOk(s.(loc := Moved(s.loc, c, InIncoming)), c + s.inc, InIncoming)
  {
    var d := c + s.inc;
    forall i, j | 0 <= i < j < |d| ensures d[i] != d[j] {
      if i < |c| <= j { assert s.loc[c[i]] == Pending(p) && s.loc[s.inc[j - |c|]] == InIncoming; }
    }
  }

  // ---------------------------------------------------------------------------------
  // Thief actions
  // ---------------------------------------------------------------------------------

  /** A step that only moves one thief's program counter, and perhaps takes or gives back the lock. */
  lemma ThiefStep(s: State, s': State, k: nat)
    requires Inv(s) && k < |s.thieves| == |s'.thieves|
    requires s' == s.(locked := s'.locked, holder := s'.holder, thieves := s.thieves[k := s'.thieves[k]])
    requires !s.thieves[k].Detaching? && !s.thieves[k].Releasing? && !s'.thieves[k].Detaching? && !s'.thieves[k].Releasing?
    requires s'.holder == s.holder || (s.holder == None && s'.holder == Some(k)) || (s.holder == Some(k) && s'.holder == None)
    requires ThiefOk(s', k) && HeadOk(s') && (s'.locked <==> s'.holder.Some?)
    ensures Inv(s')
  {
    hide TotalAnnounced;
    forall q | 0 <= q < |s'.producers| ensures ProducerOk(s', q) { assert ProducerOk(s, q); }
    forall j | 0 <= j < |s'.thieves| ensures ThiefOk(s', j) { assert ThiefOk(s, j); }
    forall v | 0 <= v < |s'.loc| ensures NodeOk(s', v) { assert NodeOk(s, v); }
  }

  lemma ThiefLocalInv(s: State, a: Action)
    requires Inv(s) && Enabled(s, a) && (a.Peek? || a.Lock? || a.ReadHead? || a.Unlock?)
    ensures Inv(Apply(s, a))
  {
    hide TotalAnnounced;
    hide ProducerOk;
    hide NodeOk;
    assert ThiefOk(s, a.k);
    ThiefStep(s, Apply(s, a), a.k);
  }

  lemma SwapInv(s: State, k: nat)
    requires Inv(s) && Enabled(s, Swap(k))
    ensures Inv(DoSwap(s, k))
  {
    hide TotalAnnounced;
    var s' := DoSwap(s, k);
    assert ThiefOk(s, k);
    SwapProducers(s, k);
    hide ProducerOk;
    forall j | 0 <= j < |s'.thieves| ensures ThiefOk(s', j) { assert ThiefOk(s, j); }
    forall v | 0 <= v < |s'.loc| ensures NodeOk(s', v) { assert NodeOk(s, v); }
  }

  lemma SwapProducers(s: State, k: nat)
    requires Inv(s) && Enabled(s, Swap(k))
    ensures var s' := DoSwap(s, k); forall q :: 0 <= q < |s'.producers| ==> ProducerOk(s', q)
  {
    hide TotalAnnounced;
    hide NodeOk;
    var s' := DoSwap(s, k);
    assert ThiefOk(s, k);
    hide ThiefOk;
    forall q | 0 <= q < |s'.producers| ensures ProducerOk(s', q) { assert ProducerOk(s, q); ProducerFrame(s, s', q); }
  }

  lemma MoveHeadInv(s: State, k: nat)
    requires Inv(s) && Enabled(s, MoveHead(k))
    ensures Defined(s, MoveHead(k)) && Inv(Apply(s, MoveHead(k)))
  {
    hide TotalAnnounced;
    assert ThiefOk(s, k);
    var w := s.thieves[k].work;
    LinkedTail(s.next, s.cons);
    var s' := Apply(s, MoveHead(k));
    ListFrame(s, s', s.inc, InIncoming);
    forall i | 0 <= i < |s'.cons| ensures s'.loc[s'.cons[i]] == InConsumer { assert s'.cons[i] == s.cons[i + 1]; }
    forall q | 0 <= q < |s'.producers| ensures ProducerOk(s', q) { assert ProducerOk(s, q); ProducerFrame(s, s', q); }
    forall j | 0 <= j < |s'.thieves| ensures ThiefOk(s', j) { assert ThiefOk(s, j); }
    MoveHeadNodes(s, k);
    hide NodeOk;
    hide ProducerOk;
  }

  lemma MoveHeadNodes(s: State, k: nat)
    requires Inv(s) && Enabled(s, MoveHead(k)) && Defined(s, MoveHead(k))
    ensures var s' := Apply(s, MoveHead(k)); Shape(s') && forall v :: 0 <= v < |s'.loc| ==> NodeOk(s', v)
  {
    hide TotalAnnounced;
    hide ProducerOk;
    assert ThiefOk(s, k);
    var s', w := Apply(s, MoveHead(k)), s.thieves[k].work;
    forall v | 0 <= v < |s'.loc| ensures NodeOk(s', v) {
      assert NodeOk(s, v);
      if s.loc[v] == InConsumer && v != w { assert v in s.cons && v in s.cons[1..]; }
    }
  }

  lemma ClearInv(s: State, k: nat)
    requires Inv(s) && Enabled(s, Clear(k))
    ensures Defined(s, Clear(k)) && Inv(Apply(s, Clear(k)))
  {
    hide TotalAnnounced;
    assert ThiefOk(s, k);
    var s' := Apply(s, Clear(k));
    ListFrame(s, s', s.inc, InIncoming);
    ListFrame(s, s', s.cons, InConsumer);
    forall q | 0 <= q < |s'.producers| ensures ProducerOk(s', q) { assert ProducerOk(s, q); ProducerFrame(s, s', q); }
    forall j | 0 <= j < |s'.thieves| ensures ThiefOk(s', j) { assert ThiefOk(s, j); }
    forall v | 0 <= v < |s'.loc| ensures NodeOk(s', v) { assert NodeOk(s, v); }
  }

  lemma ReleaseInv(s: State, k: nat)
    requires Inv(s) && Enabled(s, Release(k))
    ensures Defined(s, Release(k)) && Inv(Apply(s, Release(k)))
  {
    hide TotalAnnounced;
    assert ThiefOk(s, k);
    var s' := Apply(s, Release(k));
    ListFrame(s, s', s.inc, InIncoming);
    ListFrame(s, s', s.cons, InConsumer);
    forall q | 0 <= q < |s'.producers| ensures ProducerOk(s', q) { assert ProducerOk(s, q); ProducerFrame(s, s', q); }
    forall j | 0 <= j < |s'.thieves| ensures ThiefOk(s', j) { assert ThiefOk(s, j); }
    forall v | 0 <= v < |s'.loc| ensures NodeOk(s', v) { assert NodeOk(s, v); }
  }

  lemma StepInv(s: State, a: Action)
    requires Inv(s) && Enabled(s, a)
    ensures Defined(s, a) && Inv(Apply(s, a))
  {
    hide Inv;
    match a {
      case Build(p, c) => BuildInv(s, p, c);
      case Count(_) => ProducerLocalInv(s, a);
      case LoadIncoming(_) => ProducerLocalInv(s, a);
      case Hook(p) => HookInv(s, p);
      case Publish(p, b) => PublishInv(s, p, b);
      case Swap(k) => SwapInv(s, k);
      case MoveHead(k) => MoveHeadInv(s, k);
      case Clear(k) => ClearInv(s, k);
      case Release(k) => ReleaseInv(s, k);
      case _ => ThiefLocalInv(s, a);
    }
  }

  ghost predicate Step(s: State, a: Action, s': State) {
    Enabled(s, a) && Defined(s, a) && s' == Apply(s, a)
  }

  ghost predicate IsRun(run: seq<State>, acts: seq<Action>, works: nat, producers: nat, thieves: nat) {
    && |run| == |acts| + 1
    && run[0] == InitState(works, producers, thieves)
    && forall i :: 0 <= i < |acts| ==> Step(run[i], acts[i], run[i + 1])
  }

  lemma InitInv(works: nat, producers: nat, thieves: nat)
    ensures Inv(InitState(works, producers, thieves))
  {
    TotalOfIdle(producers);
  }

  lemma {:induction false} RunInv(run: seq<State>, acts: seq<Action>, works: nat, producers: nat, thieves: nat, i: nat)
    requires IsRun(run, acts, works, producers, thieves) && i < |run|
    ensures Inv(run[i])
  {
    hide Inv;
    if i == 0 {
      InitInv(works, producers, thieves);
    } else {
      RunInv(run, acts, works, producers, thieves, i - 1);
      assert Step(run[i - 1], acts[i - 1], run[i]);
      StepInv(run[i - 1], acts[i - 1]);
    }
  }

  // ---------------------------------------------------------------------------------
  // Main results
  // ---------------------------------------------------------------------------------

  /**
   * In every run the count is exactly what producers have counted but not published, plus what is incoming, plus
   * the consumer's chain, plus the one node taken but not yet subtracted; and only the lock's holder can have one.
   */
  lemma CountIsConserved(run: seq<State>, acts: seq<Action>, works: nat, producers: nat, thieves: nat, i: nat)
    requires IsRun(run, acts, works, producers, thieves) && i < |run|
    ensures var s := run[i];
      && s.count == TotalAnnounced(s.producers) + |s.inc| + |s.cons| + InFlight(s)
      && InFlight(s) <= 1 && (InFlight(s) == 1 ==> s.locked && s.count > 0)
  {
    RunInv(run, acts, works, producers, thieves, i);
  }

  /** At most one thief is inside the section in which m_head is read and written. */
  lemma OneConsumer(s: State, j: nat, k: nat)
    requires Inv(s) && j < |s.thieves| && k < |s.thieves| && InCritical(s.thieves[j]) && InCritical(s.thieves[k])
    ensures j == k && s.locked
  {
    assert ThiefOk(s, j) && ThiefOk(s, k);
  }

  /** Every node is in exactly one place, and each push of it is answered by at most one steal. */
  lemma NothingLostOrDoubled(s: State, v: nat)
    requires Inv(s) && v < |s.loc|
    ensures s.pushes[v] == s.steals[v] || s.pushes[v] == s.steals[v] + 1
    ensures s.pushes[v] == s.steals[v] + 1 ==>
              v in s.inc || v in s.cons
              || (exists p :: 0 <= p < |s.producers| && v in ChainOf(s.producers[p]))
              || (s.holder.Some? && s.loc[v] == Taken(s.holder.value))
  {
    assert NodeOk(s, v);
  }

  /** What a thief returns was pushed and not returned since, and its m_next has been cleared. */
  lemma StolenOnce(s: State, k: nat)
    requires Inv(s) && Enabled(s, Release(k))
    ensures var w := s.thieves[k].work;
            w < |s.loc| && s.pushes[w] == s.steals[w] + 1 && s.next[w] == None && w !in s.inc && w !in s.cons
  {
    assert ThiefOk(s, k);
    assert NodeOk(s, s.thieves[k].work);
  }

  /** While a node has been published and not been taken, the observed count is not zero. */
  lemma EmptyMeansNothingPublished(s: State)
    requires Inv(s) && s.count == 0
    ensures s.inc == [] && s.cons == []
    ensures forall p :: 0 <= p < |s.producers| ==> Announced(s.producers[p]) == 0
  {
    forall p | 0 <= p < |s.producers| ensures Announced(s.producers[p]) == 0 { TotalAtLeast(s.producers, p); }
  }

  /** The next action of a thief inside the section. */
  function OwnAction(c: Thief, k: nat): Action {
    match c
    case Owning => ReadHead(k)
    case Swapping => Swap(k)
    case Holding(_) => MoveHead(k)
    case Detaching(_) => Clear(k)
    case Releasing(_) => Release(k)
    case _ => Unlock(k)
  }

  /** How many actions of its own a thief inside the section is away from releasing the lock, at most. */
  function Steps(c: Thief): nat {
    match c
    case Owning => 5
    case Swapping => 4
    case Holding(_) => 3
    case Detaching(_) => 2
    case _ => 1
  }

  predicate ByThief(a: Action, k: nat) {
    (a.Peek? || a.Lock? || a.ReadHead? || a.Swap? || a.MoveHead? || a.Clear? || a.Release? || a.Unlock?) && a.k == k
  }

  /** The holder of the lock can always act, and its action releases the lock or brings it nearer to that. */
  lemma HolderCanMove(s: State)
    requires Inv(s) && s.locked
    ensures s.holder.Some? && s.holder.value < |s.thieves|
    ensures var k := s.holder.value; var a := OwnAction(s.thieves[k], k);
      && Enabled(s, a) && Defined(s, a)
      && var s' := Apply(s, a);
         !s'.locked || (s'.holder == Some(k) && |s'.thieves| == |s.thieves| && Steps(s'.thieves[k]) < Steps(s.thieves[k]))
  {
    var k := s.holder.value;
    assert ThiefOk(s, k);
    hide ThiefOk;
    StepInv(s, OwnAction(s.thieves[k], k));
    hide Inv;
  }

  /** What another thread does leaves a thief where it is. */
  lemma OthersLeaveThief(s: State, a: Action, k: nat)
    requires Shape(s) && Enabled(s, a) && Defined(s, a) && k < |s.thieves| && !ByThief(a, k)
    ensures |Apply(s, a).thieves| == |s.thieves| && Apply(s, a).thieves[k] == s.thieves[k]
  {
    hide Linked;
  }

  /** What another thread does leaves the holder where it is; what the holder does brings it nearer to the release. */
  lemma NearerToRelease(s: State, a: Action, k: nat)
    requires Inv(s) && Enabled(s, a) && Defined(s, a) && s.holder == Some(k) && Apply(s, a).holder == Some(k)
    ensures k < |s.thieves| == |Apply(s, a).thieves| && s.locked
    ensures Steps(Apply(s, a).thieves[k]) + (if ByThief(a, k) then 1 else 0) <= Steps(s.thieves[k]) <= 5
  {
    assert Shape(s) && s.locked && ThiefOk(s, k);
    hide Inv;
    if ByThief(a, k) {
      hide Linked;
    } else {
      OthersLeaveThief(s, a, k);
      hide Apply;
    }
  }

  lemma HolderSteps(s: State, k: nat)
    requires Inv(s) && s.holder == Some(k)
    ensures k < |s.thieves| && Steps(s.thieves[k]) <= 5
  {
    assert ThiefOk(s, k);
  }

  function OwnActions(acts: seq<Action>, k: nat): nat {
    if acts == [] then 0 else OwnActions(acts[..|acts| - 1], k) + if ByThief(acts[|acts| - 1], k) then 1 else 0
  }

  /**
   * In every run, a thief that holds the lock from state i to state j has done at most four actions of its own in
   * between (Steps is never 0); as it always has one to do, the fifth at the latest releases the lock.
   */
  lemma {:induction false} ReleasedWithinFive(run: seq<State>, acts: seq<Action>, works: nat, producers: nat, thieves: nat,
                                              i: nat, j: nat, k: nat)
    requires IsRun(run, acts, works, producers, thieves) && i <= j < |run|
    requires forall m :: i <= m <= j ==> run[m].holder == Some(k)
    ensures k < |run[i].thieves| && k < |run[j].thieves|
    ensures OwnActions(acts[i..j], k) + Steps(run[j].thieves[k]) <= Steps(run[i].thieves[k]) <= 5
    decreases j
  {
    hide Inv;
    hide Apply;
    hide Enabled;
    hide Defined;
    hide Steps;
    hide ByThief;
    RunInv(run, acts, works, producers, thieves, i);
    RunInv(run, acts, works, producers, thieves, j);
    HolderSteps(run[i], k);
    HolderSteps(run[j], k);
    if i < j {
      ReleasedWithinFive(run, acts, works, producers, thieves, i, j - 1, k);
      RunInv(run, acts, works, producers, thieves, j - 1);
      assert Step(run[j - 1], acts[j - 1], run[j]);
      NearerToRelease(run[j - 1], acts[j - 1], k);
      assert acts[i..j][..j - 1 - i] == acts[i..j - 1] && acts[i..j][j - 1 - i] == acts[j - 1];
    }
  }

  // ---------------------------------------------------------------------------------
  // When a steal comes back without a node
  // ---------------------------------------------------------------------------------

  /**
   * A steal goes on from its first look exactly if it sees no lock and a count above zero; it wins the lock exactly if
   * nobody holds it; inside, it finds a node exactly if one is published, in the consumer's chain or the incoming one;
   * with the release it is over.
   */
  lemma ThiefGoesOnIff(s: State, a: Action, k: nat)
    requires Inv(s) && Enabled(s, a) && Defined(s, a) && ByThief(a, k) && k < |s.thieves|
    ensures k < |Apply(s, a).thieves|
    ensures var c := Apply(s, a).thieves[k];
      && (a.Peek? ==> (c.Peeked? <==> !s.locked && s.count > 0) && (!c.Peeked? ==> c.Resting?))
      && (a.Lock? ==> (c.Resting? <==> s.locked) && (c.Owning? <==> !s.locked && s.count > 0))
      && (a.ReadHead? ==> (c.Holding? <==> s.cons != []) && (!c.Holding? ==> c.Swapping?))
      && (a.Swap? ==> (c.Holding? <==> s.inc != []) && (!c.Holding? ==> c.Unlocking? && s.cons == []))
      && (a.Release? || a.Unlock? ==> c.Resting?)
  {
    hide NodeOk;
    hide ProducerOk;
    hide CountOk;
    assert ThiefOk(s, k);
  }

  /** In particular, a steal that holds the lock leaves it without a node only if, when it looked, nothing was published. */
  lemma EmptyHandedMeansNothingPublished(s: State, a: Action, k: nat)
    requires Inv(s) && Enabled(s, a) && Defined(s, a) && ByThief(a, k) && k < |s.thieves| && s.holder == Some(k)
    requires k < |Apply(s, a).thieves| && Apply(s, a).thieves[k].Unlocking?
    ensures s.inc == [] && s.cons == []
  {
    ThiefGoesOnIff(s, a, k);
    assert ThiefOk(s, k);
  }

  // ---------------------------------------------------------------------------------
  // The way of a push
  // ---------------------------------------------------------------------------------

  predicate IsPushBy(a: Action, p: nat) {
    match a
    case Build(q, _) => q == p
    case Count(q) => q == p
    case LoadIncoming(q) => q == p
    case Hook(q) => q == p
    case Publish(q, _) => q == p
    case _ => false
  }

  /** How many actions of its own a push needs at most, if its exchange succeeds. */
  function PushLeft(c: Producer): nat {
    match c
    case Idle => 0
    case Built(_) => 4
    case Counted(_) => 3
    case Trying(_, _) => 2
    case Hooked(_, _) => 1
  }

  predicate PublishFails(s: State, a: Action) {
    a.Publish? && a.p < |s.producers| && s.producers[a.p].Hooked? && (a.spurious || s.incoming != s.producers[a.p].top)
  }

  /**
   * A push begins with the batch it was given and ends, with that batch in front of the incoming chain, exactly when its
   * exchange succeeds; until then each of its own actions brings the end nearer, unless the exchange fails.
   */
  lemma PushGoesOn(s: State, a: Action, p: nat)
    requires Inv(s) && Enabled(s, a) && Defined(s, a) && IsPushBy(a, p)
    ensures p < |s.producers| && p < |Apply(s, a).producers|
    ensures var c, d, s' := s.producers[p], Apply(s, a).producers[p], Apply(s, a);
      && (a.Build? ==> c.Idle? && d == Built(a.chain) && LinkedTo(s'.next, a.chain, None))
      && (!a.Build? ==> !c.Idle? && (d.Idle? || d.chain == c.chain))
      && (!a.Build? && !PublishFails(s, a) ==> PushLeft(d) < PushLeft(c))
      && (PublishFails(s, a) ==> d.Trying? && d.top == s.incoming)
      && (d.Idle? ==> a.Publish? && c.Hooked? && s'.inc == c.chain + s.inc)
      && s'.count == s.count + if a.Count? then |c.chain| else 0
  {
    hide NodeOk;
    hide ThiefOk;
    hide CountOk;
    if a.Build? { ConnectLinks(s.next, a.chain, None); }
    hide ProducerOk;
    hide ChainOk;
    hide Connect;
  }

  lemma PushCanGoOn(s: State, p: nat)
    requires Inv(s) && p < |s.producers| && !s.producers[p].Idle?
    ensures var c := s.producers[p];
      match c
      case Idle => false
      case Built(chain) => s.count + |chain| <= SIZE_MASK ==> Enabled(s, Count(p))
      case Counted(_) => Enabled(s, LoadIncoming(p))
      case Trying(_, _) => Enabled(s, Hook(p))
      case Hooked(_, _) => Enabled(s, Publish(p, false))
  {
    hide NodeOk;
    hide ThiefOk;
    hide CountOk;
    hide ProducerOk;
  }
}
