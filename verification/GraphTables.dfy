// The loops that set up a graph run, reset it, and compact the ready successors in place. They work on the
// graph's node table, the nodes' edge tables and their join counters, all updated in place.

module GraphTables {
  import opened Common
  import opened GraphProtocol

  predicate AllNodes(g: Graph, works: seq<nat>) { forall w :: w in works ==> IsNode(g, w) }

  // ---------------------------------------------------------------------------------
  // Setting up a run
  // ---------------------------------------------------------------------------------

  /** The nodes of the table that have no predecessor, in table order. */
  function Sources(g: Graph, works: seq<nat>): (r: seq<nat>)
    requires ValidGraph(g) && AllNodes(g, works)
  {
    if works == [] then []
    else
      var rest, w := works[..|works| - 1], works[|works| - 1];
      assert w in works && AllNodes(g, rest);
      Sources(g, rest) + if g.preds[w] == [] then [w] else []
  }

  /** The table after i entries: sources gathered in [0, n), then the other processed entries, then the rest. */
  ghost predicate Parted(g: Graph, was: seq<nat>, works: seq<nat>, i: nat, n: nat)
    requires ValidGraph(g) && AllNodes(g, was)
  {
    && |works| == |was| && n <= i <= |was| && works[i..] == was[i..]
    && multiset(works[..i]) == multiset(was[..i])
    && AllNodes(g, was[..i]) && works[..n] == Sources(g, was[..i])
    && (forall k :: n <= k < i ==> IsNode(g, works[k]) && g.preds[works[k]] != [])
  }

  lemma SourcesNext(g: Graph, was: seq<nat>, i: nat)
    requires ValidGraph(g) && AllNodes(g, was) && i < |was|
    ensures AllNodes(g, was[..i]) && AllNodes(g, was[..i + 1]) && was[i] < |g.preds|
    ensures Sources(g, was[..i + 1]) == Sources(g, was[..i]) + if g.preds[was[i]] == [] then [was[i]] else []
  {
    assert was[i] in was;
    assert was[..i + 1][..i] == was[..i];
  }

  /** The entry swapped out of the way of a source is not one. */
  lemma SwapOthers(g: Graph, works: seq<nat>, i: nat, n: nat)
    requires ValidGraph(g) && n <= i < |works|
    requires forall k :: n <= k < i ==> IsNode(g, works[k]) && g.preds[works[k]] != []
    ensures var r := works[i := works[n]][n := works[i]];
      forall k :: n + 1 <= k < i + 1 ==> IsNode(g, r[k]) && g.preds[r[k]] != []
  {
  }

  lemma SwapEnds(works: seq<nat>, i: nat, n: nat)
    requires n <= i < |works|
    ensures var r := works[i := works[n]][n := works[i]];
      |r| == |works| && r[i + 1..] == works[i + 1..] && r[..n + 1] == works[..n] + [works[i]]
  {
  }

  lemma SourceSwaps(g: Graph, was: seq<nat>, works: seq<nat>, i: nat, n: nat)
    requires ValidGraph(g) && AllNodes(g, was) && Parted(g, was, works, i, n) && i < |works|
    requires IsNode(g, works[i]) && g.preds[works[i]] == []
    ensures Parted(g, was, works[i := works[n]][n := works[i]], i + 1, n + 1)
  {
    PartedNext(g, was, works, i, n);
    SourcesNext(g, was, i);
    SwapOthers(g, works, i, n);
    SwapEnds(works, i, n);
    SwapKeeps(works, i, n);
    var r := works[i := works[n]][n := works[i]];
    assert works[i + 1..] == was[i + 1..] by {
      assert works[i + 1..] == works[i..][1..] && was[i + 1..] == was[i..][1..];
    }
    assert multiset(r[..i + 1]) == multiset(was[..i + 1]);
    hide ValidGraph;
    hide Sources;
    hide AllNodes;
    hide IsNode;
    PartedIs(g, was, r, i + 1, n + 1);
  }

  lemma PartedIs(g: Graph, was: seq<nat>, works: seq<nat>, i: nat, n: nat)
    requires ValidGraph(g) && AllNodes(g, was) && |works| == |was| && n <= i <= |was| && works[i..] == was[i..]
    requires multiset(works[..i]) == multiset(was[..i])
    requires AllNodes(g, was[..i]) && works[..n] == Sources(g, was[..i])
    requires forall k :: n <= k < i ==> IsNode(g, works[k]) && g.preds[works[k]] != []
    ensures Parted(g, was, works, i, n)
  {
    hide ValidGraph;
    hide Sources;
    hide AllNodes;
    hide IsNode;
  }

  lemma SwapKeeps(works: seq<nat>, i: nat, n: nat)
    requires n <= i < |works|
    ensures var r := works[i := works[n]][n := works[i]];
      multiset(r[..i + 1]) == multiset(works[..i]) + multiset{works[i]}
  {
    var r := works[i := works[n]][n := works[i]];
    if n < i {
      assert works[..i] == works[..n] + [works[n]] + works[n + 1..i];
      assert r[..i + 1] == works[..n] + [works[i]] + works[n + 1..i] + [works[n]];
    } else {
      assert r[..i + 1] == works[..i] + [works[i]];
    }
  }

  lemma OtherStays(g: Graph, was: seq<nat>, works: seq<nat>, i: nat, n: nat)
    requires ValidGraph(g) && AllNodes(g, was) && Parted(g, was, works, i, n) && i < |works|
    requires IsNode(g, works[i]) && g.preds[works[i]] != []
    ensures Parted(g, was, works, i + 1, n)
  {
    var w := works[i];
    assert was[i] == works[i..][0] == w;
    assert was[..i + 1] == was[..i] + [w] && was[..i + 1][..i] == was[..i];
    assert works[..i + 1] == works[..i] + [w];
    assert works[i + 1..] == works[i..][1..] && was[i + 1..] == was[i..][1..];
  }

  lemma {:induction false} SourcesOnly(g: Graph, works: seq<nat>, v: nat)
    requires ValidGraph(g) && AllNodes(g, works)
    ensures v in Sources(g, works) <==> v in works && g.preds[v] == []
    ensures Distinct(works) ==> Distinct(Sources(g, works))
  {
    if works != [] {
      var rest, w := works[..|works| - 1], works[|works| - 1];
      assert works == rest + [w] && AllNodes(g, rest);
      SourcesOnly(g, rest, v);
      SourcesOnly(g, rest, w);
    }
  }

  /** std::swap of two entries of a table. */
  method Swap(table: array<nat>, i: nat, n: nat)
    requires i < table.Length && n < table.Length
    modifies table
    ensures table[..] == old(table[..])[i := old(table[n])][n := old(table[i])]
  {
    table[i], table[n] := table[n], table[i];
  }

  /** A store to one join counter. */
  method Store(joins: array<int>, w: nat, value: int)
    requires w < joins.Length
    modifies joins
    ensures joins[..] == old(joins[..])[w := value]
  {
    joins[w] := value;
  }

  /** _compute_join_weight: a loop over the predecessors that counts the strong ones. */
  method ComputeJoinWeight(g: Graph, w: nat) returns (sum: nat)
    requires ValidGraph(g) && IsNode(g, w)
    ensures sum == Weight(g, w)
  {
    var preds := g.preds[w];
    sum := 0;
    var i := 0;
    while i < |preds|
      invariant i <= |preds| && sum + StrongCount(g, preds[i..]) == StrongCount(g, preds)
    {
      assert preds[i] in preds && IsNode(g, preds[i]) && preds[i..][1..] == preds[i + 1..];
      sum := sum + if Strong(g.kinds[preds[i]]) then 1 else 0;
      i := i + 1;
    }
  }

  /**
   * _set_up_graph: the sources are gathered at the front of the node table, in their order, and the join counter
   * of every other node is set to its weight; the table is permuted and no other counter is touched.
   */
  method SetUpGraph(g: Graph, works: array<nat>, joins: array<int>) returns (n: nat)
    requires ValidGraph(g) && joins.Length == |g.kinds| && AllNodes(g, works[..])
    modifies works, joins
    ensures multiset(works[..]) == multiset(old(works[..]))
    ensures n <= works.Length && works[..n] == Sources(g, old(works[..]))
    ensures forall k :: n <= k < works.Length ==> IsNode(g, works[..][k]) && g.preds[works[..][k]] != []
    ensures forall v: nat :: IsNode(g, v) ==>
      joins[..][v] == if v in old(works[..]) && g.preds[v] != [] then Weight(g, v) else old(joins[..])[v]
  {
    hide *;
    n := 0;
    var i := 0;
    ghost var was, before := works[..], joins[..];
    ProgressStart(g, was, before);
    while i < works.Length
      invariant n <= i <= works.Length && ValidGraph(g)
      invariant Progress(g, was, before, works[..], joins[..], i, n)
    {
      var w := works[i];
      ProgressNext(g, was, before, works[..], joins[..], i, n);
      var weight := ComputeJoinWeight(g, w);
      if g.preds[w] == [] {
        Swap(works, i, n);
        n := n + 1;
      } else {
        Store(joins, w, weight);
      }
      i := i + 1;
    }
    ProgressEnd(g, was, before, works[..], joins[..], n);
  }

  /** The tables after i entries of the node table have been processed. */
  ghost predicate Progress(g: Graph, was: seq<nat>, before: seq<int>, works: seq<nat>, joins: seq<int>, i: nat, n: nat)
    requires ValidGraph(g)
  {
    AllNodes(g, was) && Parted(g, was, works, i, n) && Weighed(g, was[..i], before, joins)
  }

  lemma ProgressStart(g: Graph, was: seq<nat>, before: seq<int>)
    requires ValidGraph(g) && AllNodes(g, was) && |before| == |g.kinds|
    ensures Progress(g, was, before, was, before, 0, 0)
  {
    PartedStart(g, was);
    WeighedStart(g, before);
  }

  lemma ProgressNext(g: Graph, was: seq<nat>, before: seq<int>, works: seq<nat>, joins: seq<int>, i: nat, n: nat)
    requires ValidGraph(g) && Progress(g, was, before, works, joins, i, n) && i < |works|
    ensures IsNode(g, works[i]) && works[i] < |g.preds| && works[i] < |joins| && n <= i
    ensures g.preds[works[i]] == [] ==>
      Progress(g, was, before, works[i := works[n]][n := works[i]], joins, i + 1, n + 1)
    ensures g.preds[works[i]] != [] ==>
      Progress(g, was, before, works, joins[works[i] := Weight(g, works[i])], i + 1, n)
  {
    PartedNext(g, was, works, i, n);
    WeighedNext(g, was[..i], before, joins, works[i]);
    if g.preds[works[i]] == [] {
      SourceSwaps(g, was, works, i, n);
    } else {
      OtherStays(g, was, works, i, n);
    }
    hide ValidGraph;
    hide Weighed;
    hide AllNodes;
    hide Sources;
  }

  lemma ProgressEnd(g: Graph, was: seq<nat>, before: seq<int>, works: seq<nat>, joins: seq<int>, n: nat)
    requires ValidGraph(g) && Progress(g, was, before, works, joins, |works|, n)
    ensures |works| == |was| && |joins| == |before| == |g.kinds| == |g.preds| && n <= |works|
    ensures AllNodes(g, was) && multiset(works) == multiset(was) && works[..n] == Sources(g, was)
    ensures forall k :: n <= k < |works| ==> IsNode(g, works[k]) && g.preds[works[k]] != []
    ensures forall v: nat :: IsNode(g, v) ==>
      joins[v] == if v in was && g.preds[v] != [] then Weight(g, v) else before[v]
  {
    PartedEnd(g, was, works, n);
    assert was == was[..|works|];
    WeighedEnd(g, was, before, joins);
  }

  /** The counters after some entries of the table: non-sources among them have their weight. */
  ghost predicate Weighed(g: Graph, seen: seq<nat>, was: seq<int>, joins: seq<int>)
    requires ValidGraph(g)
  {
    && |joins| == |was| == |g.kinds|
    && forall v: nat :: IsNode(g, v) ==> joins[v] == if v in seen && g.preds[v] != [] then Weight(g, v) else was[v]
  }

  lemma WeighedStart(g: Graph, joins: seq<int>)
    requires ValidGraph(g) && |joins| == |g.kinds|
    ensures Weighed(g, [], joins, joins)
  {
  }

  lemma WeighedNext(g: Graph, seen: seq<nat>, was: seq<int>, joins: seq<int>, w: nat)
    requires ValidGraph(g) && IsNode(g, w) && Weighed(g, seen, was, joins)
    ensures |joins| == |g.kinds| && w < |g.preds|
    ensures Weighed(g, seen + [w], was, if g.preds[w] == [] then joins else joins[w := Weight(g, w)])
  {
    assert forall v: nat :: v in seen + [w] <==> v in seen || v == w;
  }

  lemma WeighedEnd(g: Graph, seen: seq<nat>, was: seq<int>, joins: seq<int>)
    requires ValidGraph(g) && Weighed(g, seen, was, joins)
    ensures |joins| == |was| == |g.kinds|
    ensures forall v: nat :: IsNode(g, v) ==> joins[v] == if v in seen && g.preds[v] != [] then Weight(g, v) else was[v]
  {
  }

  lemma PartedStart(g: Graph, was: seq<nat>)
    requires ValidGraph(g) && AllNodes(g, was)
    ensures Parted(g, was, was, 0, 0)
  {
  }

  lemma PartedNext(g: Graph, was: seq<nat>, works: seq<nat>, i: nat, n: nat)
    requires ValidGraph(g) && AllNodes(g, was) && Parted(g, was, works, i, n) && i < |works|
    ensures |was| == |works| && works[i] == was[i] && was[..i + 1] == was[..i] + [works[i]]
    ensures IsNode(g, works[i]) && works[i] < |g.kinds| == |g.preds|
  {
    assert works[i..][0] == was[i..][0];
    assert was[i] in was;
  }

  lemma PartedEnd(g: Graph, was: seq<nat>, works: seq<nat>, n: nat)
    requires ValidGraph(g) && AllNodes(g, was) && |works| == |was| && Parted(g, was, works, |works|, n)
    ensures multiset(works) == multiset(was) && works[..n] == Sources(g, was)
    ensures forall k :: n <= k < |works| ==> IsNode(g, works[k]) && g.preds[works[k]] != []
  {
    assert works[..|works|] == works && was[..|works|] == was;
  }

  /** The set-up leaves what the protocol expects of a run: each source once, and exactly the sources. */
  lemma SetUpIsExact(g: Graph, works: seq<nat>, v: nat)
    requires ValidGraph(g) && Distinct(works) && forall w: nat :: w in works <==> IsNode(g, w)
    ensures AllNodes(g, works) && Distinct(Sources(g, works))
    ensures v in Sources(g, works) <==> IsNode(g, v) && g.preds[v] == []
  {
    SourcesOnly(g, works, v);
  }

  /** _reset_graph_join_counters: after a run that ended early the counters of all non-sources are put right. */
  method ResetJoinCounters(g: Graph, works: array<nat>, joins: array<int>, n: nat)
    requires ValidGraph(g) && joins.Length == |g.kinds| && AllNodes(g, works[..]) && n <= works.Length
    modifies joins
    ensures forall v: nat :: IsNode(g, v) ==> joins[v] == if v in works[n..] then Weight(g, v) else old(joins[v])
  {
    var i := n;
    while i < works.Length
      invariant n <= i <= works.Length
      invariant forall v: nat :: IsNode(g, v) ==> joins[v] == if v in works[n..i] then Weight(g, v) else old(joins[v])
    {
      var w := works[i];
      assert w in works[..];
      assert works[n..i + 1] == works[n..i] + [w];
      if joins[w] != Weight(g, w) {
        joins[w] := Weight(g, w);
      }
      i := i + 1;
    }
    assert works[n..] == works[n..i];
  }

  // ---------------------------------------------------------------------------------
  // Compacting the ready successors in place
  // ---------------------------------------------------------------------------------

  /** The successors whose counter this node brought to 0; zero[i] is what the decrement of entry i observed. */
  function ReadyOf(edges: seq<nat>, zero: seq<bool>): (r: seq<nat>)
    requires |edges| == |zero|
    ensures |r| <= |edges|
  {
    if edges == [] then []
    else
      var n := |edges| - 1;
      ReadyOf(edges[..n], zero[..n]) + if zero[n] then [edges[n]] else []
  }

  lemma ReadyStep(edges: seq<nat>, zero: seq<bool>, i: nat)
    requires |edges| == |zero| && i < |edges|
    ensures ReadyOf(edges[..i + 1], zero[..i + 1]) == ReadyOf(edges[..i], zero[..i]) + if zero[i] then [edges[i]] else []
  {
    assert edges[..i + 1][..i] == edges[..i] && zero[..i + 1][..i] == zero[..i];
  }

  /** The edge table after i arrivals: the ready entries but the first are at the front, the rest is still to be read. */
  ghost predicate Scanned(was: seq<nat>, edges: seq<nat>, zero: seq<bool>, i: nat, cache: Option<nat>, numReady: nat) {
    && |edges| == |was| && numReady <= i <= |zero| <= |was|
    && edges[i..] == was[i..] && multiset(edges[..i]) == multiset(was[..i])
    && (cache.None? ==> numReady == 0)
    && (if cache.None? then [] else [cache.value]) + edges[..numReady] == ReadyOf(was[..i], zero[..i])
  }

  lemma ScanNext(was: seq<nat>, edges: seq<nat>, zero: seq<bool>, i: nat, cache: Option<nat>, numReady: nat)
    requires Scanned(was, edges, zero, i, cache, numReady) && i < |zero|
    ensures edges[i] == was[i] && numReady <= i < |edges| && (cache.None? ==> numReady == 0)
    ensures was[..i + 1] == was[..i] + [was[i]]
    ensures !zero[i] ==> Scanned(was, edges, zero, i + 1, cache, numReady)
    ensures zero[i] && cache.None? ==> Scanned(was, edges, zero, i + 1, Some(edges[i]), 0)
    ensures zero[i] && cache.Some? ==>
      Scanned(was, edges[i := edges[numReady]][numReady := edges[i]], zero, i + 1, cache, numReady + 1)
  {
    assert edges[i] == edges[i..][0] == was[i];
    ReadyNext(was, zero, i);
    assert edges[i + 1..] == was[i + 1..] by {
      assert edges[i + 1..] == edges[i..][1..] && was[i + 1..] == was[i..][1..];
    }
    hide ReadyOf;
    if zero[i] && cache.Some? {
      ScanSwaps(was, edges, zero, i, cache, numReady);
    } else {
      assert edges[..i + 1] == edges[..i] + [edges[i]];
      assert edges[..0] == [];
    }
  }

  lemma ReadyNext(was: seq<nat>, zero: seq<bool>, i: nat)
    requires i < |zero| <= |was|
    ensures ReadyOf(was[..i + 1], zero[..i + 1]) == ReadyOf(was[..i], zero[..i]) + if zero[i] then [was[i]] else []
    ensures was[..i + 1] == was[..i] + [was[i]]
  {
    assert was[..i + 1][..i] == was[..i] && zero[..i + 1][..i] == zero[..i];
  }

  lemma ScanSwaps(was: seq<nat>, edges: seq<nat>, zero: seq<bool>, i: nat, cache: Option<nat>, numReady: nat)
    requires Scanned(was, edges, zero, i, cache, numReady) && i < |zero| && zero[i] && cache.Some?
    requires edges[i] == was[i] && edges[i + 1..] == was[i + 1..]
    ensures Scanned(was, edges[i := edges[numReady]][numReady := edges[i]], zero, i + 1, cache, numReady + 1)
  {
    var r := edges[i := edges[numReady]][numReady := edges[i]];
    ReadyNext(was, zero, i);
    SwapEnds(edges, i, numReady);
    SwapKeeps(edges, i, numReady);
    hide ReadyOf;
    assert multiset(r[..i + 1]) == multiset(was[..i + 1]);
  }

  /**
   * The scan of _tear_down_task: every successor is signalled once, in table order, although entries are swapped
   * on the way; the first ready one goes on in this worker, the others are gathered at the front of the table,
   * in order. The table is permuted within the successors and its predecessors are left alone.
   */
  method ScanSuccessors(edges: array<nat>, size: nat, zero: seq<bool>)
    returns (cache: Option<nat>, numReady: nat, ghost signalled: seq<nat>)
    requires size <= edges.Length && |zero| == size
    modifies edges
    ensures signalled == old(edges[..size])
    ensures multiset(edges[..size]) == multiset(old(edges[..size])) && edges[size..] == old(edges[size..])
    ensures numReady <= size
    ensures (if cache.None? then [] else [cache.value]) + edges[..numReady] == ReadyOf(old(edges[..size]), zero)
    ensures cache.None? ==> numReady == 0
  {
    hide *;
    ghost var was := edges[..];
    cache, numReady, signalled := ScanLoop(edges, size, zero);
    ghost var now := edges[..];
    ScanEnd(was, now, zero, cache, numReady);
    assert edges[size..] == now[size..] && edges[..size] == now[..size] && edges[..numReady] == now[..numReady];
    assert old(edges[..size]) == was[..size] && old(edges[size..]) == was[size..];
  }

  /** The loop of the scan. */
  method ScanLoop(edges: array<nat>, size: nat, zero: seq<bool>)
    returns (cache: Option<nat>, numReady: nat, ghost signalled: seq<nat>)
    requires size <= edges.Length && |zero| == size
    modifies edges
    ensures Scanned(old(edges[..]), edges[..], zero, size, cache, numReady) && signalled == old(edges[..])[..size]
  {
    hide *;
    cache, numReady, signalled := None, 0, [];
    var i := 0;
    ghost var was := edges[..];
    ScanStart(was, zero);
    while i < size
      invariant i <= size && signalled == was[..i] && Scanned(was, edges[..], zero, i, cache, numReady)
    {
      ScanNext(was, edges[..], zero, i, cache, numReady);
      var suc := edges[i];
      signalled := signalled + [suc];
      if zero[i] {
        if cache.Some? {
          Swap(edges, i, numReady);
          numReady := numReady + 1;
        } else {
          cache := Some(suc);
        }
      }
      i := i + 1;
    }
  }

  lemma ScanStart(was: seq<nat>, zero: seq<bool>)
    requires |zero| <= |was|
    ensures Scanned(was, was, zero, 0, None, 0)
  {
  }

  lemma ScanEnd(was: seq<nat>, edges: seq<nat>, zero: seq<bool>, cache: Option<nat>, numReady: nat)
    requires Scanned(was, edges, zero, |zero|, cache, numReady)
    ensures var size := |zero|;
      && |edges| == |was| && numReady <= size <= |was| && (cache.None? ==> numReady == 0)
      && multiset(edges[..size]) == multiset(was[..size]) && edges[size..] == was[size..]
      && (if cache.None? then [] else [cache.value]) + edges[..numReady] == ReadyOf(was[..size], zero)
  {
    assert zero[..|zero|] == zero;
  }

  /**
   * The scan of _tear_down_multi_branch_task: the ready targets but the first overwrite the front of the selection
   * while it is still being read; no target is missed or signalled twice.
   */
  method ScanTargets(targets: array<nat>, zero: seq<bool>)
    returns (cache: Option<nat>, numReady: nat, ghost signalled: seq<nat>)
    requires |zero| == targets.Length
    modifies targets
    ensures signalled == old(targets[..])
    ensures numReady <= targets.Length
    ensures (if cache.None? then [] else [cache.value]) + targets[..numReady] == ReadyOf(old(targets[..]), zero)
    ensures cache.None? ==> numReady == 0
  {
    cache, numReady, signalled := None, 0, [];
    var i := 0;
    ghost var was := targets[..];
    while i < targets.Length
      invariant i <= targets.Length && numReady <= i
      invariant signalled == was[..i] && targets[i..] == was[i..]
      invariant cache.None? ==> numReady == 0
      invariant (if cache.None? then [] else [cache.value]) + targets[..numReady] == ReadyOf(was[..i], zero[..i])
    {
      ReadyStep(was, zero, i);
      var target := targets[i];
      assert target == targets[i..][0] == was[i];
      signalled := signalled + [target];
      if zero[i] {
        if cache.Some? {
          ghost var before := targets[..numReady];
          targets[numReady] := target;
          assert targets[..numReady + 1] == before + [target];
          numReady := numReady + 1;
        } else {
          cache := Some(target);
        }
      }
      i := i + 1;
      assert targets[i..] == was[i - 1..][1..];
    }
    assert was == was[..i] && zero == zero[..i];
  }
}
