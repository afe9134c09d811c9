// Shared vocabulary: optional values and intrusive singly linked chains.

module Common {

  datatype Option<+T> = None | Some(value: T)

  /** The element a pointer to the front of `c` denotes: its first element, or null. */
  function Head<T>(c: seq<T>): Option<T> {
    if c == [] then None else Some(c[0])
  }

  /** No element occurs twice. */
  ghost predicate Distinct<T>(c: seq<T>) {
    forall i, j :: 0 <= i < j < |c| ==> c[i] != c[j]
  }

  /** `a` is what remains of `b` after dropping some front elements. */
  ghost predicate Suffix<T>(a: seq<T>, b: seq<T>) {
    |a| <= |b| && a == b[|b| - |a|..]
  }

  lemma SuffixTail<T>(a: seq<T>, b: seq<T>)
    requires Suffix(a, b) && a != []
    ensures Suffix(a[1..], b)
  {
    assert a[1..] == b[|b| - |a[1..]|..];
  }

  /** Two suffixes of a repetition-free sequence with the same front are the same. */
  lemma SuffixSameHead<T>(a: seq<T>, b: seq<T>)
    requires Suffix(a, b) && Distinct(b) && Head(a) == Head(b)
    ensures a == b
  {
  }

  // ---------------------------------------------------------------------------------
  // Intrusive chains. `next[v]` is the link field of node `v`; nodes are table indices.
  // ---------------------------------------------------------------------------------

  type Links = seq<Option<nat>>

  /** What the link field of the i-th element must hold for `c` to be a null-terminated chain. */
  function LinkAt(c: seq<nat>, i: nat): Option<nat>
    requires i < |c|
  {
    if i + 1 < |c| then Some(c[i + 1]) else None
  }

  /** Following the links from c[0] visits exactly c and then ends at null. */
  ghost predicate Linked(next: Links, c: seq<nat>) {
    forall i :: 0 <= i < |c| ==> c[i] < |next| && next[c[i]] == LinkAt(c, i)
  }

  /** A null-terminated chain never meets itself: chains are acyclic. */
  lemma LinkedDistinct(next: Links, c: seq<nat>)
    requires Linked(next, c)
    ensures Distinct(c)
  {
    forall i, j | 0 <= i < j < |c| ensures c[i] != c[j] {
      if c[i] == c[j] { SameNodeSameDepth(next, c, i, j); }
    }
  }

  lemma {:induction false} SameNodeSameDepth(next: Links, c: seq<nat>, i: nat, j: nat)
    requires Linked(next, c) && i <= j < |c| && c[i] == c[j]
    ensures i == j
    decreases |c| - j
  {
    assert LinkAt(c, i) == LinkAt(c, j);
    if j + 1 < |c| { SameNodeSameDepth(next, c, i + 1, j + 1); }
  }

  lemma LinkedTail(next: Links, c: seq<nat>)
    requires Linked(next, c) && c != []
    ensures Linked(next, c[1..]) && next[c[0]] == Head(c[1..])
  {
    forall i | 0 <= i < |c[1..]| ensures c[1..][i] < |next| && next[c[1..][i]] == LinkAt(c[1..], i) {
      assert c[1..][i] == c[i + 1];
      assert LinkAt(c[1..], i) == LinkAt(c, i + 1);
    }
    assert next[c[0]] == LinkAt(c, 0);
  }

  /** Writing the link of a node outside the chain leaves the chain alone. */
  lemma LinkedFrame(next: Links, next': Links, c: seq<nat>)
    requires Linked(next, c) && |next'| == |next|
    requires forall i :: 0 <= i < |c| ==> next'[c[i]] == next[c[i]]
    ensures Linked(next', c)
  {
  }

  /** Pushing a node whose link denotes the old front extends the chain. */
  lemma LinkedCons(next: Links, v: nat, c: seq<nat>)
    requires Linked(next, c) && v < |next| && next[v] == Head(c)
    ensures Linked(next, [v] + c)
  {
    var d := [v] + c;
    forall i | 0 <= i < |d| ensures d[i] < |next| && next[d[i]] == LinkAt(d, i) {
      if i > 0 {
        assert d[i] == c[i - 1];
        assert LinkAt(d, i) == LinkAt(c, i - 1);
      }
    }
  }

  lemma {:induction false} DistinctBelow(c: seq<nat>, n: nat)
    requires Distinct(c) && forall i :: 0 <= i < |c| ==> c[i] < n
    ensures |c| <= n
  {
    if c != [] { assert c[0] < n; }
    if c == [] {
    } else if i :| 0 <= i < |c| && c[i] == n - 1 {
      var d := c[..i] + c[i + 1..];
      assert forall j :: 0 <= j < |d| ==> d[j] == if j < i then c[j] else c[j + 1];
      DistinctBelow(d, n - 1);
    } else {
      DistinctBelow(c[1..], n - 1);
    }
  }
}
