// How the callable of a selecting node chooses its targets: branch.hpp and, with the same code, jump.hpp. One target at
// most for a Branch or Jump, a list without repetition for a MultiBranch or MultiJump. What can be chosen is exactly
// what the graph protocol lets such a node choose.

module BranchSelection {
  import opened Common
  import opened GraphProtocol

  /** The index of a successor, or of none. */
  function Entry(edges: seq<nat>, i: nat): Option<nat> { if i < |edges| then Some(edges[i]) else None }

  /** Inserting w: at the end, unless it is there. */
  function Inserted(targets: seq<nat>, w: nat): seq<nat> { if w in targets then targets else targets + [w] }

  function InsertedAll(targets: seq<nat>, ws: seq<nat>): seq<nat> {
    if ws == [] then targets else Inserted(InsertedAll(targets, ws[..|ws| - 1]), ws[|ws| - 1])
  }

  lemma InsertedNext(targets: seq<nat>, ws: seq<nat>, w: nat)
    ensures InsertedAll(targets, ws + [w]) == Inserted(InsertedAll(targets, ws), w)
  {
    assert (ws + [w])[..|ws|] == ws;
  }

  /** Inserting a list adds exactly its members, and those that were there stay in front, in order. */
  lemma {:induction false} InsertedAllIs(targets: seq<nat>, ws: seq<nat>, v: nat)
    ensures v in InsertedAll(targets, ws) <==> v in targets || v in ws
    ensures Distinct(targets) ==> Distinct(InsertedAll(targets, ws))
    ensures targets <= InsertedAll(targets, ws)
  {
    if ws != [] {
      var n := |ws| - 1;
      assert ws == ws[..n] + [ws[n]];
      InsertedAllIs(targets, ws[..n], v);
      InsertedAllIs(targets, ws[..n], ws[n]);
    }
  }

  /** A list without repetition, inserted from the beginning, is the selection. */
  lemma {:induction false} InsertedFresh(ws: seq<nat>)
    requires Distinct(ws)
    ensures InsertedAll([], ws) == ws
  {
    if ws != [] {
      var n := |ws| - 1;
      assert ws == ws[..n] + [ws[n]];
      InsertedFresh(ws[..n]);
    }
  }

  function Last(c: seq<nat>): nat
    requires c != []
  {
    c[|c| - 1]
  }

  /** The last element has taken the place of w. */
  ghost predicate SwappedOut(was: seq<nat>, now: seq<nat>, w: nat) {
    exists i :: 0 <= i < |was| && was[i] == w && now == was[i := Last(was)][..|was| - 1]
  }

  function SetOf(c: seq<nat>): set<nat> { set x | x in c }

  lemma {:induction false} SetSize(c: seq<nat>)
    ensures |SetOf(c)| <= |c| && (Distinct(c) ==> |SetOf(c)| == |c|)
  {
    if c == [] {
      assert SetOf(c) == {};
    } else {
      var n := |c| - 1;
      SetSize(c[..n]);
      assert SetOf(c) == SetOf(c[..n]) + {c[n]} by {
        assert c == c[..n] + [c[n]];
      }
      assert Distinct(c) ==> c[n] !in c[..n];
    }
  }

  /** Why a full selection needs no search: it has every successor already, even if some edge is doubled. */
  lemma FullHasAll(targets: seq<nat>, edges: seq<nat>, w: nat)
    requires Distinct(targets) && (forall v :: v in targets ==> v in edges) && |targets| >= |edges| && w in edges
    ensures w in targets
  {
    SetSize(targets);
    SetSize(edges);
    if w !in targets {
      SubsetSize(SetOf(targets), SetOf(edges) - {w});
    }
  }

  lemma {:induction false} SubsetSize(a: set<nat>, b: set<nat>)
    requires a <= b
    ensures |a| <= |b|
  {
    if a != {} {
      var x :| x in a;
      SubsetSize(a - {x}, b - {x});
    }
  }

  /** The single choice. */
  class Branch {
    const edges: seq<nat>
    var m_target: Option<nat>

    ghost predicate Valid()
      reads this
    {
      m_target.Some? ==> m_target.value in edges
    }

    constructor (edges: seq<nat>)
      ensures Valid() && this.edges == edges && m_target == None
    {
      this.edges := edges;
      m_target := None;
    }

    /** An index out of range clears the choice. */
    method Select(i: nat)
      requires Valid()
      modifies this
      ensures Valid() && m_target == Entry(edges, i)
    {
      m_target := if i < |edges| then Some(edges[i]) else None;
    }

    /** The first successor that satisfies the predicate, or none if none does. */
    method SelectIf(pred: nat -> bool)
      requires Valid()
      modifies this
      ensures Valid()
      ensures m_target.None? <==> forall i :: 0 <= i < |edges| ==> !pred(edges[i])
      ensures m_target.Some? ==>
        exists i :: 0 <= i < |edges| && m_target.value == edges[i] && pred(edges[i]) && forall j :: 0 <= j < i ==> !pred(edges[j])
    {
      m_target := None;
      var i := 0;
      while i < |edges|
        invariant i <= |edges| && m_target == None && forall j :: 0 <= j < i ==> !pred(edges[j])
      {
        if pred(edges[i]) {
          m_target := Some(edges[i]);
          return;
        }
        i := i + 1;
      }
    }

    /** Only the present choice can be taken back. */
    method Unselect(i: nat)
      requires Valid()
      modifies this
      ensures Valid() && m_target == if old(m_target).Some? && Entry(edges, i) == old(m_target) then None else old(m_target)
    {
      if i < |edges| && m_target == Some(edges[i]) {
        m_target := None;
      }
    }

    method Reset()
      modifies this
      ensures Valid() && m_target == None
    {
      m_target := None;
    }
  }

  /** The list of choices. */
  class MultiBranch {
    const edges: seq<nat>
    var m_targets: seq<nat>

    ghost predicate Valid()
      reads this
    {
      Distinct(m_targets) && forall v :: v in m_targets ==> v in edges
    }

    constructor (edges: seq<nat>)
      ensures Valid() && this.edges == edges && m_targets == []
    {
      this.edges := edges;
      m_targets := [];
    }

    method Insert(w: nat)
      requires Valid() && w in edges
      modifies this
      ensures Valid() && m_targets == Inserted(old(m_targets), w)
    {
      if |m_targets| >= |edges| {
        FullHasAll(m_targets, edges, w);
        return;
      }
      var i := 0;
      while i < |m_targets|
        invariant i <= |m_targets| && m_targets == old(m_targets) && w !in m_targets[..i]
      {
        if m_targets[i] == w {
          return;
        }
        i := i + 1;
      }
      assert m_targets[..i] == m_targets;
      m_targets := m_targets + [w];
    }

    /** The last target takes the place of the one that is removed. */
    method Erase(w: nat)
      requires Valid()
      modifies this
      ensures Valid() && SetOf(m_targets) == SetOf(old(m_targets)) - {w}
      ensures w !in old(m_targets) ==> m_targets == old(m_targets)
      ensures w in old(m_targets) ==> SwappedOut(old(m_targets), m_targets, w)
    {
      var i := 0;
      while i < |m_targets|
        invariant i <= |m_targets| && m_targets == old(m_targets) && w !in m_targets[..i]
      {
        if m_targets[i] == w {
          var n := |m_targets| - 1;
          ghost var was := m_targets;
          m_targets := m_targets[i := m_targets[n]][..n];
          assert forall k :: 0 <= k < n ==> m_targets[k] == if k == i then was[n] else was[k];
          SwapAndPop(was, m_targets, i);
          return;
        }
        i := i + 1;
      }
      assert m_targets[..i] == m_targets;
    }

    lemma SwapAndPop(was: seq<nat>, now: seq<nat>, i: nat)
      requires Distinct(was) && i < |was| && |now| == |was| - 1
      requires forall k :: 0 <= k < |now| ==> now[k] == if k == i then was[|was| - 1] else was[k]
      ensures Distinct(now) && SetOf(now) == SetOf(was) - {was[i]}
    {
      forall v
        ensures v in SetOf(now) <==> v in SetOf(was) - {was[i]}
      {
        if v in was && v != was[i] {
          var k :| 0 <= k < |was| && was[k] == v;
          assert now[if k == |was| - 1 then i else k] == v;
        }
      }
    }

    /** One index after the other; those out of range are ignored. */
    method Select(indices: seq<nat>)
      requires Valid()
      modifies this
      ensures Valid() && m_targets == InsertedAll(old(m_targets), Chosen(indices))
    {
      var k := 0;
      while k < |indices|
        invariant k <= |indices| && Valid() && m_targets == InsertedAll(old(m_targets), Chosen(indices[..k]))
      {
        assert indices[..k + 1][..k] == indices[..k];
        if indices[k] < |edges| {
          ghost var before := Chosen(indices[..k]);
          Insert(edges[indices[k]]);
          assert Chosen(indices[..k + 1]) == before + [edges[indices[k]]];
          InsertedNext(old(m_targets), before, edges[indices[k]]);
        } else {
          assert Chosen(indices[..k + 1]) == Chosen(indices[..k]);
        }
        k := k + 1;
      }
      assert indices[..k] == indices;
    }

    /** The successors that a list of indices denotes. */
    function Chosen(indices: seq<nat>): (r: seq<nat>)
      ensures forall v :: v in r ==> v in edges
    {
      if indices == [] then []
      else
        var n := |indices| - 1;
        Chosen(indices[..n]) + if indices[n] < |edges| then [edges[indices[n]]] else []
    }

    method Unselect(indices: seq<nat>)
      requires Valid()
      modifies this
      ensures Valid() && SetOf(m_targets) == SetOf(old(m_targets)) - SetOf(Chosen(indices))
    {
      var k := 0;
      while k < |indices|
        invariant k <= |indices| && Valid() && SetOf(m_targets) == SetOf(old(m_targets)) - SetOf(Chosen(indices[..k]))
      {
        assert indices[..k + 1][..k] == indices[..k];
        if indices[k] < |edges| {
          Erase(edges[indices[k]]);
        }
        k := k + 1;
      }
      assert indices[..k] == indices;
    }

    method SelectAll()
      requires Valid()
      modifies this
      ensures Valid() && m_targets == InsertedAll(old(m_targets), edges) && SetOf(m_targets) == SetOf(edges)
    {
      var i := 0;
      while i < |edges|
        invariant i <= |edges| && Valid() && m_targets == InsertedAll(old(m_targets), edges[..i])
      {
        assert edges[..i + 1] == edges[..i] + [edges[i]];
        InsertedNext(old(m_targets), edges[..i], edges[i]);
        Insert(edges[i]);
        i := i + 1;
      }
      assert edges[..i] == edges;
      forall v ensures v in m_targets <==> v in old(m_targets) || v in edges {
        InsertedAllIs(old(m_targets), edges, v);
      }
    }

    method SelectIf(pred: nat -> bool)
      requires Valid()
      modifies this
      ensures Valid() && SetOf(m_targets) == SetOf(old(m_targets)) + set v | v in edges && pred(v)
    {
      var i := 0;
      while i < |edges|
        invariant i <= |edges| && Valid() && SetOf(m_targets) == SetOf(old(m_targets)) + set v | v in edges[..i] && pred(v)
      {
        assert forall v :: v in edges[..i + 1] <==> v in edges[..i] || v == edges[i];
        ghost var before := SetOf(m_targets);
        assert SetOf(Inserted(m_targets, edges[i])) == before + {edges[i]};
        if pred(edges[i]) {
          Insert(edges[i]);
        }
        i := i + 1;
      }
      assert edges[..i] == edges;
    }

    method Reset()
      modifies this
      ensures Valid() && m_targets == []
    {
      m_targets := [];
    }
  }

  /** What a node of a selecting kind may choose to continue with: its one choice, or its list, as it stands. */
  ghost predicate Chooses(g: Graph, n: nat, targets: seq<nat>)
    requires ValidGraph(g) && IsNode(g, n)
  {
    match g.kinds[n]
    case Task => targets == g.succ[n]
    case Branch => exists i: nat :: targets == (match Entry(g.succ[n], i) case None => [] case Some(v) => [v])
    case Jump => exists i: nat :: targets == (match Entry(g.succ[n], i) case None => [] case Some(v) => [v])
    case MultiBranch => targets == InsertedAll([], targets) && forall v :: v in targets ==> v in g.succ[n]
    case MultiJump => targets == InsertedAll([], targets) && forall v :: v in targets ==> v in g.succ[n]
  }

  /** The protocol lets a node continue with exactly what its callable can choose. */
  lemma SelectsWhatCanBeChosen(g: Graph, n: nat, targets: seq<nat>)
    requires ValidGraph(g) && IsNode(g, n)
    ensures Selects(g, n, targets) <==> Chooses(g, n, targets)
  {
    var edges := g.succ[n];
    if Distinct(targets) {
      InsertedFresh(targets);
    } else {
      InsertedAllIs([], targets, 0);
    }
    if |targets| <= 1 && forall v :: v in targets ==> v in edges {
      if targets == [] {
        assert Entry(edges, |edges|).None?;
      } else {
        assert targets[0] in edges;
        var i: nat :| i < |edges| && edges[i] == targets[0];
        assert Entry(edges, i) == Some(targets[0]) && targets == [targets[0]];
      }
    }
  }
}
