// Spreading a batch of work over the shared stacks: from a random-access range, and by cutting up an intrusive
// linked chain in place. Both give every stack the same share.

module PushShared {
  import opened Common
  import opened Random

  // ---------------------------------------------------------------------------------
  // The shares
  // ---------------------------------------------------------------------------------

  /** What every stack receives of a large batch at least, and how many stacks receive one item more. */
  function Base(n: nat, size: nat): nat
    requires size > 0
  {
    n / size
  }

  function Extra(n: nat, size: nat): (r: nat)
    requires size > 0
    ensures r < size
  {
    n % size
  }

  lemma BaseExtra(n: nat, size: nat)
    requires size > 0
    ensures Extra(n, size) == n - Base(n, size) * size
  {
  }

  /** The stack that is served first: a scattered one for a small batch, else the first that gets no extra item. */
  function Pivot(n: nat, size: nat, index: nat): nat
    requires size > 0 && index < size
  {
    if n <= size then index else Extra(n, size)
  }

  /** When stack j is served. */
  function Turn(n: nat, size: nat, index: nat, j: nat): (r: nat)
    requires size > 0 && index < size && j < size
    ensures r < size
  {
    var p := Pivot(n, size, index);
    if j >= p then j - p else j + size - p
  }

  /** How many items the first r stacks served receive together. */
  function Cut(n: nat, size: nat, r: nat): nat
    requires size > 0 && r <= size
  {
    if n <= size then (if r <= n then r else n)
    else
      var base, extra := Base(n, size), Extra(n, size);
      if r <= size - extra then r * base else (size - extra) * base + (r - (size - extra)) * (base + 1)
  }

  lemma CutStep(n: nat, size: nat, r: nat)
    requires size > 0 && r < size
    ensures var base, extra := Base(n, size), Extra(n, size);
      Cut(n, size, r + 1) == Cut(n, size, r) +
        if n <= size then (if r < n then 1 else 0) else if r < size - extra then base else base + 1
  {
    if n > size {
      var base, extra := Base(n, size), Extra(n, size);
      assert (r + 1) * base == r * base + base;
      assert (r + 1 - (size - extra)) * (base + 1) == (r - (size - extra)) * (base + 1) + base + 1;
    }
  }

  lemma CutEnds(n: nat, size: nat)
    requires size > 0
    ensures Cut(n, size, 0) == 0 && Cut(n, size, size) == n
  {
    if n > size {
      var base, extra := Base(n, size), Extra(n, size);
      assert n == size * base + extra;
      assert (size - extra) * base + extra * (base + 1) == size * base + extra;
      assert extra == 0 ==> size * base == n;
    }
  }

  lemma {:induction false} CutMonotone(n: nat, size: nat, r: nat, q: nat)
    requires size > 0 && r <= q <= size
    ensures Cut(n, size, r) <= Cut(n, size, q)
    decreases q - r
  {
    if r < q {
      CutMonotone(n, size, r, q - 1);
      CutStep(n, size, q - 1);
    }
  }

  lemma CutGrows(n: nat, size: nat, r: nat, q: nat)
    requires size > 0 && r <= q <= size
    ensures Cut(n, size, r) <= Cut(n, size, q) <= n
  {
    CutMonotone(n, size, r, q);
    CutMonotone(n, size, q, size);
    CutEnds(n, size);
  }

  /** What the r-th stack served receives. */
  function Piece(items: seq<nat>, size: nat, r: nat): seq<nat>
    requires size > 0 && r < size
  {
    CutGrows(|items|, size, r, r + 1);
    items[Cut(|items|, size, r)..Cut(|items|, size, r + 1)]
  }

  /** What stack j receives. */
  function Share(items: seq<nat>, size: nat, index: nat, j: nat): seq<nat>
    requires size > 0 && index < size && j < size
  {
    Piece(items, size, Turn(|items|, size, index, j))
  }

  /** Shares differ in size by at most one item. */
  lemma LoadsAreEven(items: seq<nat>, size: nat, index: nat, j: nat)
    requires size > 0 && index < size && j < size
    ensures |items| / size <= |Share(items, size, index, j)| <= |items| / size + 1
  {
    var n, r := |items|, Turn(|items|, size, index, j);
    CutStep(n, size, r);
    CutGrows(n, size, r, r + 1);
    hide Turn;
    hide Cut;
    if n <= size {
      SmallQuotient(n, size);
    }
  }

  lemma SmallQuotient(n: nat, size: nat)
    requires 0 < size && n <= size
    ensures n / size == if n == size then 1 else 0
  {
  }

  /** The items of stacks a .. b together. */
  function Together(items: seq<nat>, size: nat, index: nat, a: nat, b: nat): multiset<nat>
    requires size > 0 && index < size && a <= b <= size
    decreases b - a
  {
    if a == b then multiset{} else Together(items, size, index, a, b - 1) + multiset(Share(items, size, index, b - 1))
  }

  /** Stacks served one after the other receive one stretch of the items. */
  lemma {:induction false} Stretch(items: seq<nat>, size: nat, index: nat, a: nat, b: nat)
    requires size > 0 && index < size && a < b <= size
    requires var p := Pivot(|items|, size, index); a >= p || b <= p
    ensures var r, q := Turn(|items|, size, index, a), Turn(|items|, size, index, b - 1) + 1;
      && r <= q && Cut(|items|, size, r) <= Cut(|items|, size, q) <= |items|
      && Together(items, size, index, a, b) == multiset(items[Cut(|items|, size, r)..Cut(|items|, size, q)])
    decreases b - a
  {
    hide *;
    var n := |items|;
    var r, q := Turn(n, size, index, a), Turn(n, size, index, b - 1) + 1;
    TurnsFollow(n, size, index, a, b - 1);
    CutGrows(n, size, r, q - 1);
    CutGrows(n, size, q - 1, q);
    TogetherLast(items, size, index, a, b);
    var x, y, z := Cut(n, size, r), Cut(n, size, q - 1), Cut(n, size, q);
    if a + 1 < b {
      TurnsFollow(n, size, index, a, b - 2);
      assert Turn(n, size, index, b - 2) + 1 == q - 1;
      Stretch(items, size, index, a, b - 1);
      assert Together(items, size, index, a, b - 1) == multiset(items[x..y]);
    } else {
      assert x == y;
      assert Together(items, size, index, a, b - 1) == multiset(items[x..y]);
    }
    Joined(items, x, y, z);
  }

  lemma TogetherLast(items: seq<nat>, size: nat, index: nat, a: nat, b: nat)
    requires size > 0 && index < size && a < b <= size
    ensures var n, q := |items|, Turn(|items|, size, index, b - 1) + 1;
      && Cut(n, size, q - 1) <= Cut(n, size, q) <= n
      && Together(items, size, index, a, b)
         == Together(items, size, index, a, b - 1) + multiset(items[Cut(n, size, q - 1)..Cut(n, size, q)])
    ensures Together(items, size, index, a, a) == multiset{}
  {
    CutGrows(|items|, size, Turn(|items|, size, index, b - 1), Turn(|items|, size, index, b - 1) + 1);
    hide Cut;
    hide Turn;
  }

  lemma Joined(items: seq<nat>, x: nat, y: nat, z: nat)
    requires x <= y <= z <= |items|
    ensures multiset(items[x..z]) == multiset(items[x..y]) + multiset(items[y..z])
  {
    assert items[x..z] == items[x..y] + items[y..z];
  }

  lemma TurnsFollow(n: nat, size: nat, index: nat, a: nat, b: nat)
    requires size > 0 && index < size && a <= b < size
    requires a >= Pivot(n, size, index) || b < Pivot(n, size, index)
    ensures Turn(n, size, index, b) == Turn(n, size, index, a) + (b - a)
  {
  }

  lemma {:induction false} TogetherSplits(items: seq<nat>, size: nat, index: nat, a: nat, b: nat)
    requires size > 0 && index < size && a <= b <= size
    ensures Together(items, size, index, 0, b) == Together(items, size, index, 0, a) + Together(items, size, index, a, b)
    decreases b
  {
    if a < b {
      TogetherSplits(items, size, index, a, b - 1);
    }
  }

  /** Every item goes to exactly one stack, exactly once. */
  lemma SharesAreAll(items: seq<nat>, size: nat, index: nat)
    requires size > 0 && index < size
    ensures Together(items, size, index, 0, size) == multiset(items)
  {
    hide *;
    var n, p := |items|, Pivot(|items|, size, index);
    PivotTurns(n, size, index);
    TogetherSplits(items, size, index, p, size);
    Stretch(items, size, index, p, size);
    CutEnds(n, size);
    CutGrows(n, size, size - p, size);
    var x := Cut(n, size, size - p);
    assert Together(items, size, index, p, size) == multiset(items[0..x]);
    if p > 0 {
      Stretch(items, size, index, 0, p);
      assert Together(items, size, index, 0, p) == multiset(items[x..n]);
    } else {
      TogetherNone(items, size, index, 0);
      assert items[x..n] == [];
    }
    Joined(items, 0, x, n);
    assert items[0..n] == items;
  }

  lemma TogetherNone(items: seq<nat>, size: nat, index: nat, a: nat)
    requires size > 0 && index < size && a <= size
    ensures Together(items, size, index, a, a) == multiset{}
  {
  }

  lemma PivotTurns(n: nat, size: nat, index: nat)
    requires size > 0 && index < size
    ensures var p := Pivot(n, size, index);
      && p < size && Turn(n, size, index, p) == 0 && Turn(n, size, index, size - 1) == size - 1 - p
      && (p > 0 ==> Turn(n, size, index, 0) == size - p && Turn(n, size, index, p - 1) == size - 1)
  {
  }

  // ---------------------------------------------------------------------------------
  // The random-access form
  // ---------------------------------------------------------------------------------

  /** The stack at which a small batch begins: the scattered address of the first item, mapped to the stacks. */
  function FirstStack(scattered: U64, size: nat): (index: nat)
    requires 0 < size < 0x1_0000_0000_0000_0000
    ensures index < size && index == scattered * size / W64
  {
    BelowBound(scattered, size);
    MulHi64Soft(scattered, size)
  }

  /** Scattered addresses are spread evenly: any two stacks are first for numbers of them that differ by at most one. */
  lemma FirstStackIsEven(size: nat, j: nat, k: nat)
    requires 0 < size < 0x1_0000_0000_0000_0000 && j < size && k < size
    ensures forall x: U64 :: FirstStack(x, size) == j <==> x in Bucket(size, j)
    ensures -1 <= |Bucket(size, j)| - |Bucket(size, k)| <= 1
  {
    BucketsAreEven(size, j, k);
  }

  /** What stack j holds when the first r stacks have been served. */
  function Served(was: seq<nat>, items: seq<nat>, size: nat, index: nat, j: nat, r: nat): seq<nat>
    requires size > 0 && index < size && j < size
  {
    if Turn(|items|, size, index, j) < r then was + Share(items, size, index, j) else was
  }

  /** Exactly one stack is served at each turn; it receives that turn's piece. */
  lemma StackAtTurn(items: seq<nat>, size: nat, index: nat, r: nat, at: nat)
    requires size > 0 && index < size && r < size && at < size
    requires var p := Pivot(|items|, size, index); at == if p + r < size then p + r else p + r - size
    ensures forall j: nat :: j < size ==> (Turn(|items|, size, index, j) == r <==> j == at)
    ensures Share(items, size, index, at) == Piece(items, size, r)
  {
  }

  lemma SmallPiece(items: seq<nat>, size: nat, r: nat)
    requires 0 < size && |items| <= size && r < size
    ensures Piece(items, size, r) == if r < |items| then [items[r]] else []
  {
  }

  lemma LargePiece(items: seq<nat>, size: nat, r: nat)
    requires 0 < size < |items| && r < size
    ensures var n, base, extra := |items|, Base(|items|, size), Extra(|items|, size);
      && Cut(n, size, r + 1) == Cut(n, size, r) + (if r < size - extra then base else base + 1) <= n
      && Piece(items, size, r) == items[Cut(n, size, r)..Cut(n, size, r + 1)]
  {
    CutStep(|items|, size, r);
    CutGrows(|items|, size, r, r + 1);
  }

  /** In a small batch the stacks whose turn comes after the items are used up receive nothing. */
  lemma SmallRest(items: seq<nat>, size: nat, index: nat)
    requires size > 0 && index < size && |items| <= size
    ensures forall j: nat :: j < size && Turn(|items|, size, index, j) >= |items| ==> Share(items, size, index, j) == []
  {
    forall j: nat | j < size && Turn(|items|, size, index, j) >= |items|
      ensures Share(items, size, index, j) == []
    {
      SmallPiece(items, size, Turn(|items|, size, index, j));
    }
  }

  /** A batch no larger than the number of stacks: one item each, round and round from the scattered stack. */
  method PushFew(items: seq<nat>, first: nat, shards: array<seq<nat>>)
    requires |items| <= shards.Length && first < shards.Length
    modifies shards
    ensures forall j :: 0 <= j < shards.Length ==> shards[j] == old(shards[j]) + Share(items, shards.Length, first, j)
  {
    hide Cut;
    hide Turn;
    hide Share;
    hide Piece;
    var size, n := shards.Length, |items|;
    var index := first;
    var i := 0;
    while i < n
      invariant i <= n && index == if first + i < size then first + i else first + i - size
      invariant forall j :: 0 <= j < size ==> shards[j] == Served(old(shards[j]), items, size, first, j, i)
    {
      StackAtTurn(items, size, first, i, index);
      SmallPiece(items, size, i);
      shards[index] := shards[index] + [items[i]];
      index := if index + 1 == size then 0 else index + 1;
      i := i + 1;
    }
    SmallRest(items, size, first);
  }

  /** A larger batch: the stacks from `extra` on receive base items each, then the first `extra` ones base + 1. */
  method PushMany(items: seq<nat>, ghost first: nat, shards: array<seq<nat>>)
    requires 0 < shards.Length < |items| && first < shards.Length
    modifies shards
    ensures forall j :: 0 <= j < shards.Length ==> shards[j] == old(shards[j]) + Share(items, shards.Length, first, j)
  {
    hide Cut;
    hide Turn;
    hide Share;
    hide Piece;
    var size, n := shards.Length, |items|;
    var base := Base(n, size);
    var extra := n - base * size;
    BaseExtra(n, size);
    CutEnds(n, size);
    hide Base;
    hide Extra;
    var current := 0;
    var i := extra;
    while i < size
      invariant extra <= i <= size && current == Cut(n, size, i - extra)
      invariant forall j :: 0 <= j < size ==> shards[j] == Served(old(shards[j]), items, size, first, j, i - extra)
    {
      StackAtTurn(items, size, first, i - extra, i);
      LargePiece(items, size, i - extra);
      shards[i] := shards[i] + items[current..current + base];
      current := current + base;
      i := i + 1;
    }
    i := 0;
    while i < extra
      invariant i <= extra && current == Cut(n, size, size - extra + i)
      invariant forall j :: 0 <= j < size ==> shards[j] == Served(old(shards[j]), items, size, first, j, size - extra + i)
    {
      StackAtTurn(items, size, first, size - extra + i, i);
      LargePiece(items, size, size - extra + i);
      shards[i] := shards[i] + items[current..current + base + 1];
      current := current + base + 1;
      i := i + 1;
    }
  }

  /** _push_shared(first, n): every stack receives its share, appended to what it holds. */
  method PushBatch(items: seq<nat>, scattered: U64, shards: array<seq<nat>>)
    requires items != [] && 0 < shards.Length < 0x1_0000_0000_0000_0000
    modifies shards
    ensures var size := shards.Length; var index := FirstStack(scattered, size);
      forall j :: 0 <= j < size ==> shards[j] == old(shards[j]) + Share(items, size, index, j)
  {
    var first := FirstStack(scattered, shards.Length);
    if |items| <= shards.Length {
      PushFew(items, first, shards);
    } else {
      PushMany(items, first, shards);
    }
  }

  // ---------------------------------------------------------------------------------
  // The linked-chain form
  // ---------------------------------------------------------------------------------

  /** One push to a shared stack: a null-terminated chain given by its ends and its length. */
  datatype Pushed = Pushed(head: nat, tail: nat, count: nat)

  function Record(piece: seq<nat>): seq<Pushed> {
    if piece == [] then [] else [Pushed(piece[0], piece[|piece| - 1], |piece|)]
  }

  function Recorded(was: seq<Pushed>, chain: seq<nat>, size: nat, index: nat, j: nat, r: nat): seq<Pushed>
    requires size > 0 && index < size && j < size
  {
    if Turn(|chain|, size, index, j) < r then was + Record(Share(chain, size, index, j)) else was
  }

  /** The links when the first r pieces have been cut off: each is a chain of its own, and so is the rest. */
  ghost predicate CutUp(was: Links, next: Links, chain: seq<nat>, size: nat, r: nat)
    requires 0 < size && r <= size && Cut(|chain|, size, r) <= |chain|
  {
    && |next| == |was| && Distinct(chain)
    && (forall k :: 0 <= k < r ==> Linked(next, Piece(chain, size, k)))
    && Linked(next, chain[Cut(|chain|, size, r)..])
    && (forall v :: 0 <= v < |next| && v !in chain ==> next[v] == was[v])
  }

  lemma CutUpStart(next: Links, chain: seq<nat>, size: nat)
    requires Linked(next, chain) && size > 0
    ensures Cut(|chain|, size, 0) == 0 && CutUp(next, next, chain, size, 0)
  {
    CutEnds(|chain|, size);
    LinkedDistinct(next, chain);
    assert chain[0..] == chain;
  }

  lemma LinkedSuffix(next: Links, c: seq<nat>, m: nat)
    requires Linked(next, c) && m <= |c|
    ensures Linked(next, c[m..])
  {
    var d := c[m..];
    forall i | 0 <= i < |d|
      ensures d[i] < |next| && next[d[i]] == LinkAt(d, i)
    {
      assert d[i] == c[m + i] && next[c[m + i]] == LinkAt(c, m + i);
      assert i + 1 < |d| ==> d[i + 1] == c[m + i + 1];
    }
  }

  /** A prefix of a chain is one once its last link is null. */
  lemma LinkedPrefix(next: Links, c: seq<nat>, m: nat)
    requires Linked(next, c) && Distinct(c) && 0 < m <= |c|
    ensures c[m - 1] < |next| && Linked(next[c[m - 1] := None], c[..m])
  {
    var d, tail := c[..m], c[m - 1];
    assert next[c[m - 1]] == LinkAt(c, m - 1);
    var r := next[tail := None];
    forall i | 0 <= i < |d|
      ensures d[i] < |r| && r[d[i]] == LinkAt(d, i)
    {
      assert d[i] == c[i] && next[c[i]] == LinkAt(c, i);
      assert i + 1 < m ==> d[i + 1] == c[i + 1] && c[i] != tail;
    }
  }

  lemma LinkedApart(next: Links, c: seq<nat>, v: nat)
    requires Linked(next, c) && v < |next| && forall i :: 0 <= i < |c| ==> c[i] != v
    ensures Linked(next[v := None], c)
  {
    LinkedFrame(next, next[v := None], c);
  }

  /** Cutting a chain after its m-th node leaves two chains. */
  lemma LinkedSplits(next: Links, c: seq<nat>, m: nat)
    requires Linked(next, c) && Distinct(c) && 0 < m <= |c|
    ensures c[m - 1] < |next| && next[c[m - 1]] == Head(c[m..])
    ensures Linked(next[c[m - 1] := None], c[..m]) && Linked(next[c[m - 1] := None], c[m..])
  {
    LinkedPrefix(next, c, m);
    LinkedSuffix(next, c, m);
    assert next[c[m - 1]] == LinkAt(c, m - 1);
    var d := c[m..];
    forall i | 0 <= i < |d|
      ensures d[i] != c[m - 1]
    {
      assert d[i] == c[m + i];
    }
    LinkedApart(next, d, c[m - 1]);
  }

  /** Cutting after the last node of the r-th piece. */
  lemma CutOff(was: Links, next: Links, chain: seq<nat>, size: nat, r: nat)
    requires 0 < size && r < size && Cut(|chain|, size, r) < Cut(|chain|, size, r + 1) <= |chain|
    requires CutUp(was, next, chain, size, r)
    ensures var tail := chain[Cut(|chain|, size, r + 1) - 1];
      && tail < |next| && CutUp(was, next[tail := None], chain, size, r + 1)
      && next[tail] == Head(chain[Cut(|chain|, size, r + 1)..])
  {
    hide Cut;
    hide Linked;
    var x, y := Cut(|chain|, size, r), Cut(|chain|, size, r + 1);
    var rest := chain[x..];
    var tail := chain[y - 1];
    assert Distinct(rest);
    LinkedSplits(next, rest, y - x);
    assert rest[y - x - 1] == tail && rest[..y - x] == chain[x..y] && rest[y - x..] == chain[y..];
    assert Linked(next[tail := None], Piece(chain, size, r));
    forall k | 0 <= k < r
      ensures Linked(next[tail := None], Piece(chain, size, k))
    {
      EarlierPiece(chain, size, k, r, y - 1);
      hide Piece;
      assert Linked(next, Piece(chain, size, k));
      LinkedApart(next, Piece(chain, size, k), tail);
    }
  }

  /** An earlier piece does not contain a later node. */
  lemma EarlierPiece(chain: seq<nat>, size: nat, k: nat, r: nat, at: nat)
    requires size > 0 && k < r < size && Distinct(chain) && Cut(|chain|, size, r) <= at < |chain|
    ensures forall i :: 0 <= i < |Piece(chain, size, k)| ==> Piece(chain, size, k)[i] != chain[at]
  {
    CutGrows(|chain|, size, k, k + 1);
    CutGrows(|chain|, size, k + 1, r);
    hide Cut;
  }

  /** The inner loop: from the head of a stretch of the chain to its last node. */
  method WalkTo(next: array<Option<nat>>, ghost rest: seq<nat>, head: nat, len: nat) returns (tail: nat)
    requires Linked(next[..], rest) && 0 < len <= |rest| && head == rest[0]
    ensures tail == rest[len - 1]
  {
    tail := head;
    var j := 1;
    while j < len
      invariant 1 <= j <= len && tail == rest[j - 1]
    {
      assert next[..][rest[j - 1]] == LinkAt(rest, j - 1);
      tail := next[tail].value;
      j := j + 1;
    }
  }

  /** One piece: walk to its end, remember where the rest begins, cut, and push. */
  method CutAndPush(next: array<Option<nat>>, ghost was: Links, ghost chain: seq<nat>, ghost r: nat,
                    shards: array<seq<Pushed>>, at: nat, current: nat, len: nat)
    returns (rest: Option<nat>)
    requires at < shards.Length && r < shards.Length && len > 0
    requires Cut(|chain|, shards.Length, r + 1) == Cut(|chain|, shards.Length, r) + len <= |chain|
    requires CutUp(was, next[..], chain, shards.Length, r) && current == chain[Cut(|chain|, shards.Length, r)]
    modifies next, shards
    ensures CutUp(was, next[..], chain, shards.Length, r + 1)
    ensures rest == Head(chain[Cut(|chain|, shards.Length, r + 1)..])
    ensures shards[..] == old(shards[..])[at := old(shards[at]) + Record(Piece(chain, shards.Length, r))]
  {
    hide Cut;
    ghost var x := Cut(|chain|, shards.Length, r);
    assert Piece(chain, shards.Length, r) == chain[x..x + len];
    CutOff(was, next[..], chain, shards.Length, r);
    var tail := WalkTo(next, chain[x..], current, len);
    assert tail == chain[x + len - 1] && next[tail] == next[..][tail];
    rest := next[tail];
    ghost var before := next[..];
    next[tail] := None;
    assert next[..] == before[tail := None];
    shards[at] := shards[at] + [Pushed(current, tail, len)];
  }

  /** What the last push of a cut-up chain leaves: the final piece ends with the chain's own last node. */
  lemma LastPiece(was: Links, next: Links, chain: seq<nat>, size: nat)
    requires 0 < size && chain != [] && Cut(|chain|, size, size - 1) < |chain| && CutUp(was, next, chain, size, size - 1)
    ensures Cut(|chain|, size, size) == |chain| && CutUp(was, next, chain, size, size)
    ensures var piece := Piece(chain, size, size - 1); piece != [] && piece[|piece| - 1] == chain[|chain| - 1]
  {
    CutEnds(|chain|, size);
    hide Cut;
    var x := Cut(|chain|, size, size - 1);
    assert Piece(chain, size, size - 1) == chain[x..];
    assert Linked(next, []);
  }

  /** The chain form of a small batch: single nodes, unlinked one after the other. */
  method ChainFew(next: array<Option<nat>>, ghost chain: seq<nat>, first: nat, n: nat, index: nat, shards: array<seq<Pushed>>)
    requires chain != [] && first == chain[0] && n == |chain| && Linked(next[..], chain)
    requires n <= shards.Length && index < shards.Length
    modifies next, shards
    ensures CutUp(old(next[..]), next[..], chain, shards.Length, n)
    ensures forall j :: 0 <= j < shards.Length ==>
      shards[j] == old(shards[j]) + Record(Share(chain, shards.Length, index, j))
  {
    hide Turn;
    hide Share;
    hide CutUp;
    ghost var was := next[..];
    ghost var size := shards.Length;
    CutUpStart(was, chain, size);
    var at := index;
    var current := Some(first);
    var i := 0;
    while i < n
      invariant i <= n && at == if index + i < size then index + i else index + i - size
      invariant current == Head(chain[i..]) && CutUp(was, next[..], chain, size, i)
      invariant forall j :: 0 <= j < size ==> shards[j] == Recorded(old(shards[j]), chain, size, index, j, i)
    {
      StackAtTurn(chain, size, index, i, at);
      assert chain[i..][0] == chain[i];
      ghost var before := shards[..];
      current := CutAndPush(next, was, chain, i, shards, at, current.value, 1);
      assert forall j :: 0 <= j < size ==> shards[j] == shards[..][j] && before[j] == Recorded(old(shards[j]), chain, size, index, j, i);
      at := if at + 1 == shards.Length then 0 else at + 1;
      i := i + 1;
    }
    SmallRest(chain, size, index);
  }

  /** The ends of a piece of a large batch: it has base or base + 1 nodes, and there are nodes left for it. */
  lemma LargeCut(chain: seq<nat>, size: nat, r: nat)
    requires 0 < size < |chain| && r < size
    ensures var n, base, extra := |chain|, Base(|chain|, size), Extra(|chain|, size);
      && base > 0 && Cut(n, size, r + 1) == Cut(n, size, r) + (if r < size - extra then base else base + 1) <= n
  {
    LargePiece(chain, size, r);
    assert Base(|chain|, size) >= 1 by {
      assert |chain| / size >= 1;
    }
  }

  /** The last push of the chain form: the rest of the chain, whose last node is known, goes to the last stack served. */
  method PushRest(next: array<Option<nat>>, ghost was: Links, ghost chain: seq<nat>, shards: array<seq<Pushed>>,
                  at: nat, current: nat, last: nat, count: nat)
    requires at < shards.Length < |chain| && last == chain[|chain| - 1]
    requires Cut(|chain|, shards.Length, shards.Length - 1) + count == |chain| && count > 0
    requires CutUp(was, next[..], chain, shards.Length, shards.Length - 1)
    requires current == chain[Cut(|chain|, shards.Length, shards.Length - 1)]
    modifies shards
    ensures Cut(|chain|, shards.Length, shards.Length) == |chain| && CutUp(was, next[..], chain, shards.Length, shards.Length)
    ensures shards[..] == old(shards[..])[at := old(shards[at]) + Record(Piece(chain, shards.Length, shards.Length - 1))]
  {
    LastPiece(was, next[..], chain, shards.Length);
    hide Cut;
    shards[at] := shards[at] + [Pushed(current, last, count)];
  }

  /** A turn that is not the last: what it serves, to whom, and that something is left. */
  lemma TurnFacts(chain: seq<nat>, size: nat, index: nat, r: nat, at: nat)
    requires 0 < size < |chain| && r + 1 < size && index < size && at < size
    requires var p := Extra(|chain|, size); at == if p + r < size then p + r else p + r - size
    ensures forall j: nat :: j < size ==> (Turn(|chain|, size, index, j) == r <==> j == at)
    ensures Share(chain, size, index, at) == Piece(chain, size, r)
    ensures var base, extra := Base(|chain|, size), Extra(|chain|, size);
      && base > 0 && Cut(|chain|, size, r + 1) == Cut(|chain|, size, r) + (if r < size - extra then base else base + 1)
      && Cut(|chain|, size, r + 1) < |chain|
  {
    StackAtTurn(chain, size, index, r, at);
    LargeCut(chain, size, r);
    LargeCut(chain, size, r + 1);
  }

  /** One turn that is not the last. */
  method ChainTurn(next: array<Option<nat>>, ghost was: Links, ghost chain: seq<nat>, ghost r: nat,
                   shards: array<seq<Pushed>>, ghost index: nat, at: nat, current: nat, len: nat,
                   ghost before: seq<seq<Pushed>>)
    returns (rest: nat)
    requires 0 < shards.Length < |chain| && r + 1 < shards.Length && index < shards.Length && at < shards.Length
    requires var p := Extra(|chain|, shards.Length); at == if p + r < shards.Length then p + r else p + r - shards.Length
    requires var base, extra := Base(|chain|, shards.Length), Extra(|chain|, shards.Length);
      len == if r < shards.Length - extra then base else base + 1
    requires Cut(|chain|, shards.Length, r) < |chain| && CutUp(was, next[..], chain, shards.Length, r)
    requires current == chain[Cut(|chain|, shards.Length, r)] && |before| == shards.Length
    requires forall j :: 0 <= j < shards.Length ==>
      shards[j] == Recorded(before[j], chain, shards.Length, index, j, r)
    modifies next, shards
    ensures Cut(|chain|, shards.Length, r + 1) < |chain| && CutUp(was, next[..], chain, shards.Length, r + 1)
    ensures rest == chain[Cut(|chain|, shards.Length, r + 1)]
    ensures forall j :: 0 <= j < shards.Length ==>
      shards[j] == Recorded(before[j], chain, shards.Length, index, j, r + 1)
  {
    TurnFacts(chain, shards.Length, index, r, at);
    hide Cut;
    hide Turn;
    hide Share;
    hide CutUp;
    hide Base;
    hide Extra;
    hide Pivot;
    hide Piece;
    var left := CutAndPush(next, was, chain, r, shards, at, current, len);
    rest := left.value;
    assert forall j :: 0 <= j < shards.Length ==> shards[j] == shards[..][j];
  }

  /** The last turn. */
  method FinalTurn(next: array<Option<nat>>, ghost was: Links, ghost chain: seq<nat>,
                   shards: array<seq<Pushed>>, ghost index: nat, at: nat, current: nat, last: nat, len: nat,
                   ghost before: seq<seq<Pushed>>)
    requires 0 < shards.Length < |chain| && index < shards.Length && at < shards.Length && last == chain[|chain| - 1]
    requires var p := Extra(|chain|, shards.Length); at == if p == 0 then shards.Length - 1 else p - 1
    requires len == Base(|chain|, shards.Length) + if Extra(|chain|, shards.Length) == 0 then 0 else 1
    requires Cut(|chain|, shards.Length, shards.Length - 1) < |chain|
    requires CutUp(was, next[..], chain, shards.Length, shards.Length - 1)
    requires current == chain[Cut(|chain|, shards.Length, shards.Length - 1)] && |before| == shards.Length
    requires forall j :: 0 <= j < shards.Length ==>
      shards[j] == Recorded(before[j], chain, shards.Length, index, j, shards.Length - 1)
    modifies shards
    ensures Cut(|chain|, shards.Length, shards.Length) == |chain|
    ensures CutUp(was, next[..], chain, shards.Length, shards.Length)
    ensures forall j :: 0 <= j < shards.Length ==>
      shards[j] == before[j] + Record(Share(chain, shards.Length, index, j))
  {
    ghost var r := shards.Length - 1;
    StackAtTurn(chain, shards.Length, index, r, at);
    LargeCut(chain, shards.Length, r);
    CutEnds(|chain|, shards.Length);
    hide Cut;
    hide Turn;
    hide Share;
    hide CutUp;
    hide Base;
    hide Extra;
    ghost var was1 := shards[..];
    PushRest(next, was, chain, shards, at, current, last, len);
    assert forall j :: 0 <= j < shards.Length ==> shards[j] == shards[..][j];
  }

  /** The first `extra` stacks, which are served last and receive one node more. */
  method ChainWrapped(next: array<Option<nat>>, ghost was: Links, ghost chain: seq<nat>, start: nat, last: nat,
                      ghost index: nat, shards: array<seq<Pushed>>, base: nat, extra: nat, ghost before: seq<seq<Pushed>>)
    requires 0 < shards.Length < |chain| && index < shards.Length && last == chain[|chain| - 1]
    requires base == Base(|chain|, shards.Length) && 0 < extra == Extra(|chain|, shards.Length)
    requires Cut(|chain|, shards.Length, shards.Length - extra) < |chain|
    requires start == chain[Cut(|chain|, shards.Length, shards.Length - extra)] && |before| == shards.Length
    requires CutUp(was, next[..], chain, shards.Length, shards.Length - extra)
    requires forall j :: 0 <= j < shards.Length ==>
      shards[j] == Recorded(before[j], chain, shards.Length, index, j, shards.Length - extra)
    modifies next, shards
    ensures Cut(|chain|, shards.Length, shards.Length) == |chain|
    ensures CutUp(was, next[..], chain, shards.Length, shards.Length)
    ensures forall j :: 0 <= j < shards.Length ==>
      shards[j] == before[j] + Record(Share(chain, shards.Length, index, j))
  {
    hide Turn;
    hide Share;
    hide CutUp;
    hide Cut;
    hide Base;
    hide Extra;
    ghost var n := |chain|;
    var size := shards.Length;
    var current := start;
    var i := 0;
    while i + 1 < extra
      invariant i + 1 <= extra
      invariant Cut(n, size, size - extra + i) < n && current == chain[Cut(n, size, size - extra + i)]
      invariant CutUp(was, next[..], chain, size, size - extra + i)
      invariant forall j :: 0 <= j < size ==> shards[j] == Recorded(before[j], chain, size, index, j, size - extra + i)
    {
      current := ChainTurn(next, was, chain, size - extra + i, shards, index, i, current, base + 1, before);
      i := i + 1;
    }
    FinalTurn(next, was, chain, shards, index, extra - 1, current, last, base + 1, before);
  }

  /** The chain form of a larger batch; the last stack served gets what is left, without walking it. */
  method ChainMany(next: array<Option<nat>>, ghost chain: seq<nat>, first: nat, last: nat, n: nat, ghost index: nat,
                   shards: array<seq<Pushed>>)
    requires chain != [] && first == chain[0] && last == chain[|chain| - 1] && n == |chain| && Linked(next[..], chain)
    requires 0 < shards.Length < n && index < shards.Length
    modifies next, shards
    ensures Cut(n, shards.Length, shards.Length) == n && CutUp(old(next[..]), next[..], chain, shards.Length, shards.Length)
    ensures forall j :: 0 <= j < shards.Length ==>
      shards[j] == old(shards[j]) + Record(Share(chain, shards.Length, index, j))
  {
    hide Turn;
    hide Share;
    hide CutUp;
    hide Cut;
    ghost var was := next[..];
    var size := shards.Length;
    var base := Base(n, size);
    var extra := n - base * size;
    BaseExtra(n, size);
    hide Base;
    hide Extra;
    CutUpStart(was, chain, size);
    var current := first;
    var i := extra;
    var stop := if extra == 0 then size - 1 else size;
    while i < stop
      invariant extra <= i <= stop
      invariant Cut(n, size, i - extra) < n && current == chain[Cut(n, size, i - extra)]
      invariant CutUp(was, next[..], chain, size, i - extra)
      invariant forall j :: 0 <= j < size ==> shards[j] == Recorded(old(shards[j]), chain, size, index, j, i - extra)
    {
      current := ChainTurn(next, was, chain, i - extra, shards, index, i, current, base, old(shards[..]));
      i := i + 1;
    }
    if extra == 0 {
      FinalTurn(next, was, chain, shards, index, size - 1, current, last, base, old(shards[..]));
      return;
    }
    ChainWrapped(next, was, chain, current, last, index, shards, base, extra, old(shards[..]));
  }

  lemma CutUpMeans(was: Links, next: Links, chain: seq<nat>, size: nat, index: nat, r: nat)
    requires size > 0 && index < size && r <= size && Cut(|chain|, size, r) <= |chain| && CutUp(was, next, chain, size, r)
    requires r == size || (|chain| <= size && r == |chain|)
    ensures forall j: nat :: j < size ==> Linked(next, Share(chain, size, index, j))
    ensures |next| == |was| && forall v :: 0 <= v < |next| && v !in chain ==> next[v] == was[v]
  {
    forall j: nat | j < size
      ensures Linked(next, Share(chain, size, index, j))
    {
      var k := Turn(|chain|, size, index, j);
      if k >= r {
        SmallPiece(chain, size, k);
      }
    }
  }

  /**
   * _push_shared(first, last, n): the same shares as the random-access form, each handed over as a null-terminated
   * chain with its own head, tail and length; nodes outside the chain keep their links.
   */
  method PushChain(next: array<Option<nat>>, ghost chain: seq<nat>, first: nat, last: nat, n: nat, scattered: U64,
                   shards: array<seq<Pushed>>)
    requires chain != [] && first == chain[0] && last == chain[|chain| - 1] && n == |chain| && Linked(next[..], chain)
    requires 0 < shards.Length < 0x1_0000_0000_0000_0000
    modifies next, shards
    ensures var size := shards.Length; var index := FirstStack(scattered, size);
      forall j :: 0 <= j < size ==>
        && shards[j] == old(shards[j]) + Record(Share(chain, size, index, j))
        && Linked(next[..], Share(chain, size, index, j))
    ensures forall v :: 0 <= v < next.Length && v !in chain ==> next[v] == old(next[v])
  {
    hide Cut;
    hide Turn;
    hide Share;
    hide CutUp;
    var index := FirstStack(scattered, shards.Length);
    ghost var was := next[..];
    if n <= shards.Length {
      ChainFew(next, chain, first, n, index, shards);
      CutGrows(n, shards.Length, n, n);
      CutUpMeans(was, next[..], chain, shards.Length, index, n);
    } else {
      ChainMany(next, chain, first, last, n, index, shards);
      CutUpMeans(was, next[..], chain, shards.Length, index, shards.Length);
    }
    assert forall v :: 0 <= v < next.Length ==> next[v] == next[..][v] && old(next[v]) == was[v];
  }
}
