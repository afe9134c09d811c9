// In-place insertion into a small vector, with the lifetime of every element accounted for. A slot of the buffer is
// raw storage or holds an object; constructing needs raw storage, destroying and assigning need an object.
//
// Allocation, element constructors and assignments may throw at any point. When, is a parameter: of the operations that
// may throw, the first `calm` of a call go well and the next one throws. Every method says exactly how many it needs.

module SmallVectorBuffer {
  /** Raw storage, an object with a value, or an object that has been moved from. */
  datatype Slot<T> = Raw | Value(v: T) | Moved

  /**
   * How an element is carried over: byte by byte, or, by std::move_if_noexcept, with a move that cannot throw, a
   * copy, or, for a type that cannot be copied, a move that may throw.
   */
  datatype Relocation = Bytes | NothrowMove | Copying | ThrowingMove

  predicate CannotThrow(how: Relocation) { how.Bytes? || how.NothrowMove? }

  /** Of n constructions of elements from values, how many may throw: none for bytes. */
  function Copies(how: Relocation, n: nat): nat { if how.Bytes? then 0 else n }

  /** Of n elements carried over, how many may throw on the way. */
  function Moves(how: Relocation, n: nat): nat { if CannotThrow(how) then 0 else n }

  /** What carrying an element over leaves in its old slot. */
  function Leaves<T>(how: Relocation, x: Slot<T>): Slot<T> {
    if how.Bytes? || how.Copying? then x else Moved
  }

  predicate AllRaw<T>(s: seq<Slot<T>>) { forall k :: 0 <= k < |s| ==> s[k].Raw? }

  /** Exactly the first n slots hold objects. */
  predicate LivePrefix<T>(s: seq<Slot<T>>, n: nat) {
    n <= |s| && forall k :: 0 <= k < |s| ==> (s[k].Raw? <==> k >= n)
  }

  /** Slots from `at` on hold objects, whatever their values; the others are as in `was`. */
  ghost predicate SameBut<T>(s: seq<Slot<T>>, was: seq<Slot<T>>, at: nat, count: nat) {
    |s| == |was| && forall k :: 0 <= k < |s| ==> if at <= k < at + count then !s[k].Raw? else s[k] == was[k]
  }

  /** From `at` on there are objects with the values of `items`. */
  ghost predicate Holds<T>(s: seq<Slot<T>>, at: nat, items: seq<T>) {
    at + |items| <= |s| && forall k :: at <= k < at + |items| ==> s[k] == Value(items[k - at])
  }

  /** Everything from the index on has been carried up by `count`. */
  ghost predicate Shifted<T>(s: seq<Slot<T>>, was: seq<Slot<T>>, index: nat, count: nat, size: nat) {
    && |s| == |was| && index <= size && size + count <= |s|
    && (forall k :: 0 <= k < index ==> s[k] == was[k])
    && (forall k :: index <= k < size ==> s[k + count] == was[k])
  }

  // ---------------------------------------------------------------------------------
  // Elementary operations on a buffer
  // ---------------------------------------------------------------------------------

  method DestroyN<T>(buf: array<Slot<T>>, at: nat, count: nat)
    requires at + count <= buf.Length && forall k :: at <= k < at + count ==> !buf[k].Raw?
    modifies buf
    ensures forall k :: 0 <= k < buf.Length ==> buf[k] == if at <= k < at + count then Raw else old(buf[k])
  {
    var n := count;
    while n != 0
      invariant 0 <= n <= count
      invariant forall k :: 0 <= k < buf.Length ==> buf[k] == if at + n <= k < at + count then Raw else old(buf[k])
    {
      n := n - 1;
      buf[at + n] := Raw;
    }
  }

  /** _copy_construct_n and _fill_construct_n: all the objects, or none. */
  method CopyConstructN<T>(buf: array<Slot<T>>, at: nat, items: seq<T>, how: Relocation, calm: nat) returns (ok: bool)
    requires at + |items| <= buf.Length && forall k :: at <= k < at + |items| ==> buf[k].Raw?
    modifies buf
    ensures ok <==> Copies(how, |items|) <= calm
    ensures ok ==> forall k :: 0 <= k < buf.Length ==>
      buf[k] == if at <= k < at + |items| then Value(items[k - at]) else old(buf[k])
    ensures !ok ==> forall k :: 0 <= k < buf.Length ==> buf[k] == old(buf[k])
  {
    var constructed := 0;
    while constructed < |items|
      invariant constructed <= |items| && Copies(how, constructed) <= calm
      invariant forall k :: 0 <= k < buf.Length ==>
        buf[k] == if at <= k < at + constructed then Value(items[k - at]) else old(buf[k])
    {
      if Copies(how, constructed + 1) > calm {
        DestroyN(buf, at, constructed);
        return false;
      }
      buf[at + constructed] := Value(items[constructed]);
      constructed := constructed + 1;
    }
    ok := true;
  }

  /** One element constructed from another one. */
  method Carry<T>(dst: array<Slot<T>>, to: nat, src: array<Slot<T>>, from: nat, how: Relocation)
    requires to < dst.Length && from < src.Length && dst[to].Raw? && !src[from].Raw?
    modifies dst, src
    ensures dst[to] == old(src[from]) && src[from] == Leaves(how, old(src[from]))
    ensures forall k :: 0 <= k < dst.Length && k != to && (dst != src || k != from) ==> dst[k] == old(dst[k])
    ensures forall k :: 0 <= k < src.Length && k != from && (dst != src || k != to) ==> src[k] == old(src[k])
  {
    dst[to] := src[from];
    src[from] := Leaves(how, src[from]);
  }

  /** _relocate_construct_n, from one buffer to another or within one: all the objects, or none. */
  method RelocateConstructN<T>(dst: array<Slot<T>>, d: nat, src: array<Slot<T>>, s: nat, count: nat, how: Relocation,
                               calm: nat)
    returns (ok: bool)
    requires d + count <= dst.Length && s + count <= src.Length
    requires forall k :: d <= k < d + count ==> dst[k].Raw?
    requires forall k :: s <= k < s + count ==> !src[k].Raw?
    requires dst == src ==> s + count <= d || d + count <= s
    modifies dst, src
    ensures ok <==> Moves(how, count) <= calm
    ensures ok ==> forall k :: s <= k < s + count ==> dst[d + (k - s)] == old(src[k])
    ensures ok ==> forall k :: d <= k < d + count ==> !dst[k].Raw?
    ensures ok ==> forall k :: s <= k < s + count ==> src[k] == Leaves(how, old(src[k]))
    ensures !ok ==> forall k :: d <= k < d + count ==> dst[k].Raw?
    ensures !ok ==> forall k :: s <= k < s + count ==> src[k] == old(src[k]) || (how.ThrowingMove? && src[k] == Moved)
    ensures forall k :: 0 <= k < dst.Length && !(d <= k < d + count) && (dst != src || !(s <= k < s + count)) ==>
      dst[k] == old(dst[k])
    ensures forall k :: 0 <= k < src.Length && !(s <= k < s + count) && (dst != src || !(d <= k < d + count)) ==>
      src[k] == old(src[k])
  {
    ghost var dst0, src0 := dst[..], src[..];
    var constructed := 0;
    ok := true;
    while constructed < count && ok
      invariant constructed <= count && Moves(how, constructed) <= calm
      invariant !ok ==> Moves(how, constructed + 1) > calm && constructed < count
      invariant forall k :: d + constructed <= k < d + count ==> dst[k].Raw?
      invariant forall k :: d <= k < d + constructed ==> !dst[k].Raw? && dst[k] == src0[s + (k - d)]
      invariant forall k :: s <= k < s + count ==> src[k] == if k < s + constructed then Leaves(how, src0[k]) else src0[k]
      invariant forall k :: 0 <= k < dst.Length && !(d <= k < d + count) && (dst != src || !(s <= k < s + count)) ==>
        dst[k] == dst0[k]
      invariant forall k :: 0 <= k < src.Length && !(s <= k < s + count) && (dst != src || !(d <= k < d + count)) ==>
        src[k] == src0[k]
      decreases count - constructed, ok
    {
      ok := Moves(how, constructed + 1) <= calm;
      if ok {
        Carry(dst, d + constructed, src, s + constructed, how);
        constructed := constructed + 1;
      }
    }
    if !ok { DestroyN(dst, d, constructed); }
  }

  /** Assignment by move from one object to another, or to itself. */
  method MoveAssign<T>(buf: array<Slot<T>>, from: nat, to: nat)
    requires from < buf.Length && to < buf.Length && !buf[from].Raw? && !buf[to].Raw?
    modifies buf
    ensures buf[to] == old(buf[from]) && (from != to ==> buf[from] == Moved)
    ensures forall k :: 0 <= k < buf.Length && k != from && k != to ==> buf[k] == old(buf[k])
  {
    var x := buf[from];
    buf[from] := Moved;
    buf[to] := x;
  }

  /** std::move_backward within a buffer: from the last element down, over objects that are already there. */
  method MoveBackward<T>(buf: array<Slot<T>>, first: nat, last: nat, dlast: nat, calm: nat) returns (ok: bool)
    requires first <= last <= dlast <= buf.Length && forall k :: first <= k < dlast ==> !buf[k].Raw?
    modifies buf
    ensures ok <==> last - first <= calm
    ensures ok ==> forall k :: first <= k < last ==> buf[k + (dlast - last)] == old(buf[k])
    ensures forall k :: first <= k < dlast ==> !buf[k].Raw?
    ensures forall k :: 0 <= k < buf.Length && !(first <= k < dlast) ==> buf[k] == old(buf[k])
  {
    var n := last;
    var gap := dlast - last;
    while n > first
      invariant first <= n <= last && last - n <= calm
      invariant forall k :: n <= k < last ==> buf[k + gap] == old(buf[k])
      invariant forall k :: first <= k < n ==> buf[k] == old(buf[k])
      invariant forall k :: first <= k < dlast ==> !buf[k].Raw?
      invariant forall k :: 0 <= k < buf.Length && !(first <= k < dlast) ==> buf[k] == old(buf[k])
    {
      if last - n == calm {
        return false;
      }
      n := n - 1;
      MoveAssign(buf, n, n + gap);
    }
    ok := true;
  }

  /** std::fill_n and the assignment loops: over objects that are already there. */
  method AssignN<T>(buf: array<Slot<T>>, at: nat, items: seq<T>, calm: nat) returns (ok: bool)
    requires at + |items| <= buf.Length && forall k :: at <= k < at + |items| ==> !buf[k].Raw?
    modifies buf
    ensures ok <==> |items| <= calm
    ensures ok ==> Holds(buf[..], at, items)
    ensures SameBut(buf[..], old(buf[..]), at, |items|)
  {
    var i := 0;
    while i < |items|
      invariant i <= |items| && i <= calm
      invariant forall k :: at <= k < at + i ==> buf[k] == Value(items[k - at])
      invariant SameBut(buf[..], old(buf[..]), at, |items|)
    {
      if i == calm {
        return false;
      }
      buf[at + i] := Value(items[i]);
      i := i + 1;
    }
    ok := true;
  }

  /** std::memmove of elements within a buffer. */
  method Memmove<T>(buf: array<Slot<T>>, to: nat, from: nat, count: nat)
    requires to + count <= buf.Length && from + count <= buf.Length
    modifies buf
    ensures forall k :: to <= k < to + count ==> buf[k] == old(buf[from + (k - to)])
    ensures forall k :: 0 <= k < buf.Length && !(to <= k < to + count) ==> buf[k] == old(buf[k])
  {
    forall k | to <= k < to + count {
      buf[k] := buf[from + k - to];
    }
  }

  /** Writing elements of a type whose objects need no construction. */
  method WriteN<T>(buf: array<Slot<T>>, at: nat, items: seq<T>)
    requires at + |items| <= buf.Length
    modifies buf
    ensures forall k :: 0 <= k < buf.Length ==> buf[k] == if at <= k < at + |items| then Value(items[k - at]) else old(buf[k])
  {
    forall k | at <= k < at + |items| {
      buf[k] := Value(items[k - at]);
    }
  }
}

module SmallVectorObject {
  import opened SmallVectorBuffer

  /** The elements of a range, as objects. */
  function Objects<T>(items: seq<T>): (r: seq<Slot<T>>)
    ensures |r| == |items| && forall k :: 0 <= k < |r| ==> r[k] == Value(items[k])
  {
    seq(|items|, k requires 0 <= k < |items| => Value(items[k]))
  }

  /** Insertion as a splice. */
  function Splice<T>(s: seq<T>, index: nat, items: seq<T>): (r: seq<T>)
    requires index <= |s|
    ensures |r| == |s| + |items|
  {
    s[..index] + items + s[index..]
  }

  function Repeat<T>(count: nat, v: T): seq<T> { seq(count, _ => v) }

  /** A parameter passed by reference: to something outside the vector, or to one of its elements. */
  datatype Argument<T> = Outside(v: T) | Element(at: nat)

  /**
   * Why the copy comes first: once the elements have been carried up, the slot of an element behind the gap holds
   * the element that was `count` places before it, so a late read is right exactly if the two are equal.
   */
  lemma LateReadIsAnother<T>(s: seq<Slot<T>>, was: seq<Slot<T>>, index: nat, count: nat, size: nat, at: nat)
    requires Shifted(s, was, index, count, size) && index + count <= at < size
    ensures at < |s| && at < |was| && s[at] == was[at - count]
    ensures s[at] == was[at] <==> was[at - count] == was[at]
  {
    assert s[(at - count) + count] == was[at - count];
  }

  /** Storage in which every object of `was` is still there, moved from at most if relocation may throw halfway. */
  ghost predicate Kept<T>(s: seq<Slot<T>>, was: seq<Slot<T>>, how: Relocation) {
    |s| == |was| && forall k :: 0 <= k < |s| ==> s[k] == was[k] || (how.ThrowingMove? && !was[k].Raw? && s[k] == Moved)
  }

  lemma SpliceIs<T>(s: seq<Slot<T>>, was: seq<Slot<T>>, index: nat, items: seq<Slot<T>>)
    requires index <= |was| && |s| == |was| + |items|
    requires forall k :: 0 <= k < index ==> s[k] == was[k]
    requires forall k :: index <= k < index + |items| ==> s[k] == items[k - index]
    requires forall k :: index <= k < |was| ==> s[k + |items|] == was[k]
    ensures s == Splice(was, index, items)
  {
    var r := Splice(was, index, items);
    forall k | 0 <= k < |s|
      ensures s[k] == r[k]
    {
      if k >= index + |items| {
        assert s[(k - |items|) + |items|] == was[k - |items|];
      }
    }
  }

  /** Old elements on both sides of the gap [index, index + count) of a new buffer: all of them, or none. */
  method RelocateAround<T>(dst: array<Slot<T>>, src: array<Slot<T>>, index: nat, count: nat, size: nat, how: Relocation,
                           calm: nat)
    returns (ok: bool)
    requires dst != src && index <= size && size + count <= dst.Length && LivePrefix(src[..], size)
    requires forall k :: 0 <= k < dst.Length && !(index <= k < index + count) ==> dst[k].Raw?
    modifies dst, src
    ensures ok <==> Moves(how, size) <= calm
    ensures forall k :: index <= k < index + count ==> dst[k] == old(dst[k])
    ensures ok ==> (forall k :: 0 <= k < index ==> dst[k] == old(src[k]))
    ensures ok ==> (forall k :: index <= k < size ==> dst[k + count] == old(src[k]))
    ensures ok ==> (forall k :: size + count <= k < dst.Length ==> dst[k].Raw?)
    ensures ok ==> LivePrefix(src[..], size)
    ensures !ok ==> (forall k :: 0 <= k < dst.Length && !(index <= k < index + count) ==> dst[k].Raw?)
    ensures !ok ==> Kept(src[..], old(src[..]), how)
  {
    ok := RelocateConstructN(dst, 0, src, 0, index, how, calm);
    if !ok {
      return;
    }
    ok := RelocateConstructN(dst, index + count, src, index, size - index, how, calm - Moves(how, index));
    if !ok {
      DestroyN(dst, 0, index);
      return;
    }
    forall k | index <= k < size
      ensures dst[k + count] == old(src[k])
    {
      assert index + count + (k - index) == k + count;
    }
  }

  /** The new elements first, so that arguments in the old storage stay valid; then the old ones around them. */
  method BuildGrown<T>(dst: array<Slot<T>>, src: array<Slot<T>>, index: nat, items: seq<T>, size: nat, how: Relocation,
                       calm: nat)
    returns (ok: bool)
    requires dst != src && index <= size && size + |items| <= dst.Length && LivePrefix(src[..], size) && AllRaw(dst[..])
    modifies dst, src
    ensures ok <==> Copies(how, |items|) + Moves(how, size) <= calm
    ensures ok ==> LivePrefix(dst[..], size + |items|) && AllRaw(src[..])
    ensures ok ==> dst[..size + |items|] == Splice(old(src[..size]), index, Objects(items))
    ensures !ok ==> AllRaw(dst[..]) && Kept(src[..], old(src[..]), how)
  {
    ok := CopyConstructN(dst, index, items, how, calm);
    if !ok {
      return;
    }
    ok := RelocateAround(dst, src, index, |items|, size, how, calm - Copies(how, |items|));
    if !ok {
      DestroyN(dst, index, |items|);
      return;
    }
    ghost var objects, was := Objects(items), old(src[..size]);
    SpliceIs(dst[..size + |items|], was, index, objects);
    GrownIsLive(dst[..], was, index, objects);
    DestroyN(src, 0, size);
  }

  lemma GrownIsLive<T>(s: seq<Slot<T>>, was: seq<Slot<T>>, index: nat, items: seq<Slot<T>>)
    requires index <= |was| && |was| + |items| <= |s| && s[..|was| + |items|] == Splice(was, index, items)
    requires (forall k :: 0 <= k < |was| ==> !was[k].Raw?) && (forall k :: 0 <= k < |items| ==> !items[k].Raw?)
    requires forall k :: |was| + |items| <= k < |s| ==> s[k].Raw?
    ensures LivePrefix(s, |was| + |items|)
  {
    forall k | 0 <= k < |was| + |items|
      ensures !s[k].Raw?
    {
      assert s[k] == s[..|was| + |items|][k];
    }
  }

  /** The last `count` objects are carried beyond the end. */
  method CarryOver<T>(buf: array<Slot<T>>, count: nat, size: nat, how: Relocation, calm: nat) returns (ok: bool)
    requires count <= size && size + count <= buf.Length && LivePrefix(buf[..], size)
    modifies buf
    ensures ok <==> Moves(how, count) <= calm
    ensures ok ==> LivePrefix(buf[..], size + count)
    ensures ok ==> forall k :: size - count <= k < size ==> buf[k + count] == old(buf[k])
    ensures ok ==> forall k :: 0 <= k < size - count ==> buf[k] == old(buf[k])
    ensures !ok ==> LivePrefix(buf[..], size) && Kept(buf[..], old(buf[..]), how)
  {
    ok := RelocateConstructN(buf, size, buf, size - count, count, how, calm);
    if ok {
      forall k | size - count <= k < size
        ensures buf[k + count] == old(buf[k])
      {
        assert size + (k - (size - count)) == k + count;
      }
    }
  }

  /** Everything from the index on is carried up by `count`: the last objects beyond the end, the others over objects. */
  method ShiftUp<T>(buf: array<Slot<T>>, index: nat, count: nat, size: nat, how: Relocation, calm: nat)
    returns (ok: bool, now: nat)
    requires count > 0 && index + count <= size && size + count <= buf.Length && LivePrefix(buf[..], size)
    modifies buf
    ensures ok <==> Moves(how, count) + (size - count - index) <= calm
    ensures now == (if Moves(how, count) <= calm then size + count else size) && LivePrefix(buf[..], now)
    ensures ok ==> now == size + count && Shifted(buf[..], old(buf[..]), index, count, size)
    ensures now == size ==> !ok && Kept(buf[..], old(buf[..]), how)
  {
    hide Kept;
    hide Shifted;
    hide LivePrefix;
    ghost var was := buf[..];
    now := size;
    ok := CarryOver(buf, count, size, how, calm);
    if !ok {
      return;
    }
    now := size + count;
    ghost var moved := buf[..];
    LiveBelow(moved, now);
    ok := MoveBackward(buf, index, size - count, size, calm - Moves(how, count));
    LiveStays(buf[..], moved, index, size, now);
    if ok {
      forall k | index <= k < size - count
        ensures buf[..][k + count] == moved[k]
      {
        assert buf[k + (size - (size - count))] == moved[k];
      }
      ShiftedIs(was, moved, buf[..], index, count, size);
    }
  }

  lemma LiveBelow<T>(s: seq<Slot<T>>, n: nat)
    requires LivePrefix(s, n)
    ensures n <= |s| && forall k :: 0 <= k < n ==> !s[k].Raw?
  {
  }

  lemma LiveStays<T>(s: seq<Slot<T>>, was: seq<Slot<T>>, from: nat, to: nat, n: nat)
    requires LivePrefix(was, n) && |s| == |was| && to <= n
    requires forall k :: 0 <= k < |s| ==> if from <= k < to then !s[k].Raw? else s[k] == was[k]
    ensures LivePrefix(s, n)
  {
  }

  /** The last `count` objects went beyond the end, the others followed over objects. */
  lemma ShiftedIs<T>(was: seq<Slot<T>>, moved: seq<Slot<T>>, fin: seq<Slot<T>>, index: nat, count: nat, size: nat)
    requires index + count <= size && size + count <= |was| == |moved| == |fin|
    requires forall k :: size - count <= k < size ==> moved[k + count] == was[k]
    requires forall k :: 0 <= k < size - count ==> moved[k] == was[k]
    requires forall k :: index <= k < size - count ==> fin[k + count] == moved[k]
    requires forall k :: 0 <= k < |fin| && !(index <= k < size) ==> fin[k] == moved[k]
    ensures Shifted(fin, was, index, count, size)
  {
    forall k | index <= k < size
      ensures fin[k + count] == was[k]
    {
      if k >= size - count { assert fin[k + count] == moved[k + count]; }
    }
  }

  /** In place, with at most as many new elements as there are after the index: the gap is opened and assigned. */
  method InsertWithin<T>(buf: array<Slot<T>>, index: nat, items: seq<T>, size: nat, how: Relocation, calm: nat)
    returns (ok: bool, now: nat)
    requires |items| > 0 && index + |items| <= size && size + |items| <= buf.Length && LivePrefix(buf[..], size)
    modifies buf
    ensures ok <==> Moves(how, |items|) + (size - index) <= calm
    ensures now == (if Moves(how, |items|) <= calm then size + |items| else size) && LivePrefix(buf[..], now)
    ensures ok ==> now == size + |items| && buf[..now] == Splice(old(buf[..size]), index, Objects(items))
    ensures !ok && now == size ==> Kept(buf[..], old(buf[..]), how)
  {
    ok, now := ShiftUp(buf, index, |items|, size, how, calm);
    if !ok {
      return;
    }
    ghost var shifted := buf[..];
    hide Kept;
    hide Splice;
    hide Shifted;
    hide Holds;
    ok := AssignN(buf, index, items, calm - Moves(how, |items|) - (size - |items| - index));
    StillLive(buf[..], shifted, index, |items|, now);
    hide SameBut;
    hide LivePrefix;
    if ok {
      WithinIs(old(buf[..]), shifted, buf[..], index, size, items);
    }
  }

  /** Assigning over objects leaves the lifetimes as they are. */
  lemma StillLive<T>(s: seq<Slot<T>>, was: seq<Slot<T>>, at: nat, count: nat, n: nat)
    requires SameBut(s, was, at, count) && LivePrefix(was, n) && at + count <= n
    ensures LivePrefix(s, n)
  {
  }

  lemma WithinIs<T>(was: seq<Slot<T>>, shifted: seq<Slot<T>>, fin: seq<Slot<T>>, index: nat, size: nat, items: seq<T>)
    requires Shifted(shifted, was, index, |items|, size) && Holds(fin, index, items)
    requires SameBut(fin, shifted, index, |items|)
    ensures fin[..size + |items|] == Splice(was[..size], index, Objects(items))
  {
    var count := |items|;
    var r, w, objects := fin[..size + count], was[..size], Objects(items);
    forall k | index <= k < size
      ensures r[k + count] == w[k]
    {
      assert fin[k + count] == shifted[k + count];
    }
    hide Splice;
    hide SameBut;
    SpliceIs(r, w, index, objects);
  }

  /**
   * In place, with more new elements than there are after the index: the surplus and then the old tail are
   * constructed beyond the end, and the rest is assigned over the tail's old objects.
   */
  method InsertBeyond<T>(buf: array<Slot<T>>, index: nat, items: seq<T>, size: nat, how: Relocation, calm: nat)
    returns (ok: bool, now: nat)
    requires index <= size < index + |items| && size + |items| <= buf.Length && LivePrefix(buf[..], size) && !how.Bytes?
    modifies buf
    ensures ok <==> |items| + Moves(how, size - index) <= calm
    ensures now == (if |items| - (size - index) + Moves(how, size - index) <= calm then size + |items| else size)
    ensures LivePrefix(buf[..], now)
    ensures ok ==> now == size + |items| && buf[..now] == Splice(old(buf[..size]), index, Objects(items))
    ensures !ok && now == size ==> Kept(buf[..], old(buf[..]), how)
  {
    var count, tail := |items|, size - index;
    var extra := count - tail;
    ghost var was := buf[..];
    now := size;
    ok := CopyConstructN(buf, size, items[tail..], how, calm);
    if !ok {
      return;
    }
    ok := RelocateConstructN(buf, size + extra, buf, index, tail, how, calm - extra);
    if !ok {
      DestroyN(buf, size, extra);
      return;
    }
    now := size + count;
    ghost var moved := buf[..];
    forall k | index <= k < size
      ensures moved[k + count] == was[k]
    {
      assert size + extra + (k - index) == k + count;
    }
    ok := AssignN(buf, index, items[..tail], calm - extra - Moves(how, tail));
    if ok {
      BeyondIs(was, moved, buf[..], index, size, items);
    }
  }

  /** The surplus stands beyond the end, the old tail behind it, and the rest has been assigned over the tail. */
  lemma BeyondIs<T>(was: seq<Slot<T>>, moved: seq<Slot<T>>, fin: seq<Slot<T>>, index: nat, size: nat, items: seq<T>)
    requires index <= size < index + |items| && size + |items| <= |was| == |moved|
    requires forall k :: 0 <= k < index ==> moved[k] == was[k]
    requires forall k :: size <= k < index + |items| ==> moved[k] == Value(items[k - index])
    requires forall k :: index <= k < size ==> moved[k + |items|] == was[k]
    requires Holds(fin, index, items[..size - index]) && SameBut(fin, moved, index, size - index)
    ensures fin[..size + |items|] == Splice(was[..size], index, Objects(items))
  {
    forall k | index <= k < size
      ensures fin[..size + |items|][k + |items|] == was[k]
    {
      assert fin[k + |items|] == moved[k + |items|];
    }
    SpliceIs(fin[..size + |items|], was[..size], index, Objects(items));
  }

  /** In place, for elements that are relocated byte by byte: nothing can throw. */
  method InsertBytes<T>(buf: array<Slot<T>>, index: nat, items: seq<T>, size: nat)
    requires index <= size && size + |items| <= buf.Length && LivePrefix(buf[..], size)
    modifies buf
    ensures LivePrefix(buf[..], size + |items|)
    ensures buf[..size + |items|] == Splice(old(buf[..size]), index, Objects(items))
  {
    var count := |items|;
    ghost var was := buf[..];
    Memmove(buf, index + count, index, size - index);
    ghost var moved := buf[..];
    forall k | index <= k < size
      ensures moved[k + count] == was[k]
    {
      assert index + (k + count - (index + count)) == k;
    }
    WriteN(buf, index, items);
    SpliceIs(buf[..size + count], was[..size], index, Objects(items));
  }

  /** std::move of [from, size) down to [to, ...), over existing objects, then the end of the vector is destroyed. */
  method EraseWithin<T>(buf: array<Slot<T>>, to: nat, from: nat, size: nat, calm: nat) returns (ok: bool)
    requires to < from <= size <= buf.Length && LivePrefix(buf[..], size)
    modifies buf
    ensures ok <==> size - from <= calm
    ensures LivePrefix(buf[..], if ok then size - (from - to) else size)
    ensures ok ==> buf[..size - (from - to)] == old(buf[..to]) + old(buf[from..size])
  {
    var gap := from - to;
    var k := from;
    while k < size
      invariant from <= k <= size && k - from <= calm
      invariant LivePrefix(buf[..], size)
      invariant forall j :: 0 <= j < to ==> buf[j] == old(buf[j])
      invariant forall j :: from <= j < k ==> buf[j - gap] == old(buf[j])
      invariant forall j :: k <= j < size ==> buf[j] == old(buf[j])
    {
      if k - from == calm {
        return false;
      }
      MoveAssign(buf, k, k - gap);
      k := k + 1;
    }
    ok := true;
    ghost var moved := buf[..];
    DestroyN(buf, size - gap, gap);
    ghost var tail := old(buf[from..size]);
    forall j | 0 <= j < size - gap
      ensures buf[j] == (old(buf[..to]) + tail)[j]
    {
      assert j >= to ==> moved[(j + gap) - gap] == old(buf[j + gap]) && tail[j - to] == old(buf[j + gap]);
    }
  }

  /** std::memmove of [from, size) down to [to, ...): the objects at the end of the vector need no destruction. */
  method EraseBytes<T>(buf: array<Slot<T>>, to: nat, from: nat, size: nat)
    requires to < from <= size <= buf.Length && LivePrefix(buf[..], size)
    modifies buf
    ensures LivePrefix(buf[..], size - (from - to))
    ensures buf[..size - (from - to)] == old(buf[..to]) + old(buf[from..size])
  {
    var gap := from - to;
    ghost var was, tail := buf[..], buf[from..size];
    Memmove(buf, to, from, size - from);
    ghost var moved := buf[..];
    DestroyN(buf, size - gap, gap);   // what is there is storage again, without a call
    forall j | 0 <= j < size - gap
      ensures buf[j] == (was[..to] + tail)[j]
    {
      assert j >= to ==> moved[j] == was[from + (j - to)] && tail[j - to] == was[from + (j - to)];
    }
  }

  /** All the objects of one buffer carried over to an empty one, and then destroyed. */
  method RelocateAll<T>(dst: array<Slot<T>>, src: array<Slot<T>>, count: nat, how: Relocation, calm: nat) returns (ok: bool)
    requires dst != src && count <= dst.Length && AllRaw(dst[..]) && LivePrefix(src[..], count)
    modifies dst, src
    ensures ok <==> Moves(how, count) <= calm
    ensures ok ==> LivePrefix(dst[..], count) && dst[..count] == old(src[..count]) && AllRaw(src[..])
    ensures !ok ==> AllRaw(dst[..]) && LivePrefix(src[..], count)
  {
    ok := RelocateConstructN(dst, 0, src, 0, count, how, calm);
    if ok {
      assert forall k :: 0 <= k < count ==> dst[0 + (k - 0)] == old(src[k]);
      DestroyN(src, 0, count);
    }
  }

  /** How many operations that may throw an insertion of `count` elements takes. */
  function InsertRisks(how: Relocation, index: nat, count: nat, size: nat, capacity: nat): nat
    requires index <= size
  {
    if count == 0 then 0
    else if size + count > capacity then 1 + Copies(how, count) + Moves(how, size)
    else if how.Bytes? then 0
    else if index + count <= size then Moves(how, count) + (size - index)
    else count + Moves(how, size - index)
  }

  /** How many of them come before the vector has its new size. */
  function CommitRisks(how: Relocation, index: nat, count: nat, size: nat, capacity: nat): nat
    requires index <= size
  {
    if count == 0 || size + count > capacity || how.Bytes? then InsertRisks(how, index, count, size, capacity)
    else if index + count <= size then Moves(how, count)
    else count - (size - index) + Moves(how, size - index)
  }

  /** emplace: one construction, at the end, in the new buffer, or of the temporary; then that of an insertion in place. */
  function EmplaceRisks(how: Relocation, index: nat, size: nat, capacity: nat): nat
    requires index <= size
  {
    if index == size || size >= capacity then (if size < capacity then 0 else 1 + Moves(how, size)) + Copies(how, 1)
    else Copies(how, 1) + InsertRisks(how, index, 1, size, capacity)
  }

  /** For a type that is relocated byte by byte only growth can fail, and only because there is no memory. */
  lemma BytesOnlyAllocate(index: nat, count: nat, size: nat, capacity: nat)
    requires index <= size
    ensures InsertRisks(Bytes, index, count, size, capacity) == if count > 0 && size + count > capacity then 1 else 0
  {
  }

  predicate Adequate(capacity: nat, current: nat, required: nat, maximum: nat) {
    required <= capacity <= maximum && (capacity >= 2 * current + 1 || capacity == maximum)
  }

  /** _next_capacity: the least capacity that is enough, more than double, and not beyond the maximum. */
  function NextCapacity(current: nat, required: nat, maximum: nat): (r: nat)
    requires required <= maximum && current <= maximum && maximum > 0
    ensures Adequate(r, current, required, maximum)
    ensures forall x :: Adequate(x, current, required, maximum) ==> r <= x
  {
    var grown := if current > (maximum - 1) / 2 then maximum else current * 2 + 1;
    if grown >= required then grown else required
  }

  class SmallVector<T> {
    const inlineData: array<Slot<T>>
    const maximum: nat
    const how: Relocation
    var data: array<Slot<T>>
    var size: nat

    /** Exactly slots [0, size) of the current buffer hold objects, and none elsewhere. */
    ghost predicate Valid()
      reads this, data, inlineData
    {
      && LivePrefix(data[..], size) && data.Length <= maximum && inlineData.Length <= maximum
      && (data != inlineData ==> AllRaw(inlineData[..]))
    }

    ghost function Contents(): seq<Slot<T>>
      requires Valid()
      reads this, data, inlineData
    {
      data[..size]
    }

    constructor (inlineCapacity: nat, maximum: nat, how: Relocation)
      requires inlineCapacity <= maximum
      ensures Valid() && fresh(data) && data == inlineData && this.maximum == maximum && this.how == how && Contents() == []
    {
      var buffer := new Slot<T>[inlineCapacity](_ => Raw);
      inlineData := buffer;
      data := buffer;
      size := 0;
      this.maximum := maximum;
      this.how := how;
    }

    /**
     * _grow_and_insert_fill and _grow_and_insert_forward: the new elements first, then the prefix and the suffix, all
     * in a new buffer that is given up whole when anything throws. Unless relocation is by a throwing move, a
     * failure leaves the contents as they were.
     */
    method GrowAndInsert(index: nat, items: seq<T>, calm: nat) returns (ok: bool)
      requires Valid() && index <= size && data.Length < size + |items| <= maximum
      modifies this, data, inlineData
      ensures Valid() && (data == old(data) || fresh(data))
      ensures ok <==> 1 + Copies(how, |items|) + Moves(how, old(size)) <= calm
      ensures ok ==> Contents() == Splice(old(Contents()), index, Objects(items))
      ensures ok ==> data.Length == NextCapacity(old(data.Length), old(size) + |items|, maximum)
      ensures !ok ==> data == old(data) && size == old(size)
      ensures !ok && !how.ThrowingMove? ==> Contents() == old(Contents())
    {
      var oldSize, count := size, |items|;
      if calm == 0 {
        return false;   // allocation failed
      }
      var capacity := NextCapacity(data.Length, oldSize + count, maximum);
      var buffer := new Slot<T>[capacity](_ => Raw);
      ok := BuildGrown(buffer, data, index, items, oldSize, how, calm - 1);
      if !ok {
        return;
      }
      data := buffer;
      size := oldSize + count;
    }

    /**
     * _insert_fill and _insert_forward, for every index and count, in both overlap cases and on growth: on success
     * the new elements are spliced in. Whenever anything throws, exactly [0, size) holds objects, at the old or the
     * new size; at the old size the contents are as before, unless a throwing move was under way.
     */
    method Insert(index: nat, items: seq<T>, calm: nat) returns (ok: bool)
      requires Valid() && index <= size && size + |items| <= maximum
      modifies this, data, inlineData
      ensures Valid() && (data == old(data) || fresh(data))
      ensures ok <==> InsertRisks(how, index, |items|, old(size), old(data.Length)) <= calm
      ensures ok ==> Contents() == Splice(old(Contents()), index, Objects(items))
      ensures size == old(size) + if CommitRisks(how, index, |items|, old(size), old(data.Length)) <= calm then |items| else 0
      ensures !ok && size == old(size) && !how.ThrowingMove? ==> Contents() == old(Contents())
    {
      if |items| == 0 {
        assert Splice(Contents(), index, Objects(items)) == Contents();
        ok := true;
        return;
      }
      if size + |items| > data.Length {
        ok := GrowAndInsert(index, items, calm);
        return;
      }
      ok := InsertInPlace(index, items, calm);
    }

    /** The capacity suffices. */
    method InsertInPlace(index: nat, items: seq<T>, calm: nat) returns (ok: bool)
      requires Valid() && index <= size && 0 < |items| && size + |items| <= data.Length
      modifies this`size, data
      ensures Valid()
      ensures ok <==> InsertRisks(how, index, |items|, old(size), data.Length) <= calm
      ensures ok ==> Contents() == Splice(old(Contents()), index, Objects(items))
      ensures size == old(size) + if CommitRisks(how, index, |items|, old(size), data.Length) <= calm then |items| else 0
      ensures size == old(size) && !how.ThrowingMove? ==> Contents() == old(Contents())
    {
      if how.Bytes? {
        InsertBytes(data, index, items, size);
        size := size + |items|;
        ok := true;
      } else {
        var now;
        if index + |items| <= size {
          ok, now := InsertWithin(data, index, items, size, how, calm);
        } else {
          ok, now := InsertBeyond(data, index, items, size, how, calm);
        }
        size := now;
      }
    }

    /** The argument is a value outside the vector, or one of its elements that still has its value. */
    ghost predicate Readable(arg: Argument<T>)
      requires Valid()
      reads this, data, inlineData
    {
      arg.Element? ==> arg.at < size && data[arg.at].Value?
    }

    /** What the argument denotes as long as no element has moved. */
    ghost function Denoted(arg: Argument<T>): T
      requires Valid() && Readable(arg)
      reads this, data, inlineData
    {
      match arg case Outside(v) => v case Element(at) => data[at].v
    }

    /** The copy that is made of an element of this vector. */
    function CopyOf(arg: Argument<T>): nat { if arg.Element? then Copies(how, 1) else 0 }

    /** Reading the argument now. */
    method Read(arg: Argument<T>) returns (value: T)
      requires Valid() && Readable(arg)
      ensures value == Denoted(arg)
    {
      match arg
      case Outside(v) => value := v;
      case Element(at) => value := data[at].v;
    }

    /**
     * insert(pos, count, value): if the value is an element of this vector (_contains_address) a copy is made before
     * anything moves. What is inserted is the value the argument had at the call.
     */
    method InsertFill(index: nat, count: nat, arg: Argument<T>, calm: nat) returns (ok: bool)
      requires Valid() && index <= size && size + count <= maximum && Readable(arg)
      modifies this, data, inlineData
      ensures Valid() && (data == old(data) || fresh(data))
      ensures ok <==> count == 0 || CopyOf(arg) + InsertRisks(how, index, count, old(size), old(data.Length)) <= calm
      ensures ok ==> Contents() == Splice(old(Contents()), index, Objects(Repeat(count, old(Denoted(arg)))))
      ensures !ok ==> size == old(size) || size == old(size) + count
      ensures !ok && size == old(size) && !how.ThrowingMove? ==> Contents() == old(Contents())
    {
      if count == 0 {
        assert Splice(Contents(), index, Objects(Repeat(count, Denoted(arg)))) == Contents();
        ok := true;
        return;
      }
      if CopyOf(arg) > calm {
        return false;   // the copy could not be constructed
      }
      var value := Read(arg);
      ok := Insert(index, Repeat(count, value), calm - CopyOf(arg));
    }

    /** _append_constructed and emplace_back: the new elements first; nothing changes if that fails. */
    method Append(items: seq<T>, calm: nat) returns (ok: bool)
      requires Valid() && size + |items| <= maximum
      modifies this, data, inlineData
      ensures Valid() && (data == old(data) || fresh(data))
      ensures ok <==> (if old(size) + |items| <= old(data.Length) then 0 else 1 + Moves(how, old(size))) + Copies(how, |items|) <= calm
      ensures ok ==> Contents() == old(Contents()) + Objects(items)
      ensures !ok ==> size == old(size) && (!how.ThrowingMove? ==> Contents() == old(Contents()))
    {
      if size + |items| <= data.Length {
        ok := CopyConstructN(data, size, items, how, calm);
        if ok {
          assert data[..size + |items|] == old(data[..size]) + Objects(items);
          size := size + |items|;
        }
        return;
      }
      assert Splice(Contents(), size, Objects(items)) == Contents() + Objects(items);
      ok := GrowAndInsert(size, items, calm);
    }

    /**
     * emplace: at the end and on growth the new object is constructed before any other is carried over, in place a
     * temporary is built first; each time the argument is read while every element is where it was.
     */
    method Emplace(index: nat, arg: Argument<T>, calm: nat) returns (ok: bool)
      requires Valid() && index <= size < maximum && Readable(arg)
      modifies this, data, inlineData
      ensures Valid() && (data == old(data) || fresh(data))
      ensures ok <==> EmplaceRisks(how, index, old(size), old(data.Length)) <= calm
      ensures ok ==> Contents() == Splice(old(Contents()), index, [Value(old(Denoted(arg)))])
      ensures !ok ==> size == old(size) || size == old(size) + 1
      ensures !ok && size == old(size) && !how.ThrowingMove? ==> Contents() == old(Contents())
    {
      var value;
      if index == size {
        value := Read(arg);
        assert Splice(Contents(), index, [Value(value)]) == Contents() + [Value(value)] && Objects([value]) == [Value(value)];
        ok := Append([value], calm);
        return;
      }
      if size == data.Length {
        value := Read(arg);
        assert Objects([value]) == [Value(value)];
        ok := GrowAndInsert(index, [value], calm);
        return;
      }
      if Copies(how, 1) > calm {
        return false;   // the temporary could not be constructed
      }
      value := Read(arg);
      assert Objects([value]) == [Value(value)];
      ok := Insert(index, [value], calm - Copies(how, 1));
    }

    /** erase of a range: what follows moves down; nothing is lost but the range, and the freed slots are raw. */
    method Erase(first: nat, last: nat, calm: nat) returns (ok: bool)
      requires Valid() && first <= last <= size
      modifies this`size, data
      ensures Valid() && data == old(data)
      ensures ok <==> first == last || how.Bytes? || old(size) - last <= calm
      ensures ok ==> Contents() == old(Contents())[..first] + old(Contents())[last..]
      ensures !ok ==> size == old(size)
    {
      if first == last {
        assert Contents() == Contents()[..first] + Contents()[last..];
        return true;
      }
      ghost var was := Contents();
      if how.Bytes? {
        EraseBytes(data, first, last, size);
        ok := true;
      } else {
        ok := EraseWithin(data, first, last, size, calm);
      }
      if ok {
        assert was[..first] == old(data[..first]) && was[last..] == old(data[last..size]);
        size := size - (last - first);
      }
    }

    /** The buffers of two vectors are different objects. */
    ghost predicate Apart(rhs: SmallVector<T>)
      reads this, rhs
    {
      data != rhs.data && data != rhs.inlineData && inlineData != rhs.data && inlineData != rhs.inlineData
    }

    /**
     * _move_assign_from: a heap buffer changes owner, inline elements are relocated one by one; either way the
     * source is left empty. If relocation throws, this vector is empty and the source still has its objects.
     */
    method MoveAssign(rhs: SmallVector<T>, calm: nat) returns (ok: bool)
      requires Valid() && rhs.Valid() && rhs != this && Apart(rhs) && maximum == rhs.maximum && how == rhs.how
      modifies this, data, inlineData, rhs, rhs.data, rhs.inlineData
      ensures Valid() && rhs.Valid() && Apart(rhs)
      ensures ok <==> old(rhs.data != rhs.inlineData) || Moves(how, old(rhs.size)) + Needs(old(rhs.size), old(data.Length)) <= calm
      ensures ok ==> Contents() == old(rhs.Contents()) && rhs.Contents() == []
      ensures !ok ==> Contents() == [] && rhs.size == old(rhs.size)
    {
      DestroyN(data, 0, size);
      assert AllRaw(data[..]);
      size := 0;
      if rhs.data != rhs.inlineData {
        assert AllRaw(rhs.inlineData[..]);
        data, size := rhs.data, rhs.size;
        rhs.data, rhs.size := rhs.inlineData, 0;
        return true;
      }
      ok := TakeInline(rhs, calm);
    }

    /** An allocation is needed for elements that fit neither the buffer there is nor the inline one. */
    function Needs(count: nat, capacity: nat): nat { if count > capacity && count > inlineData.Length then 1 else 0 }

    /** The inline half of _move_assign_from: this vector is empty, and so is the source afterwards. */
    method TakeInline(rhs: SmallVector<T>, calm: nat) returns (ok: bool)
      requires Valid() && rhs.Valid() && rhs != this && Apart(rhs) && maximum == rhs.maximum && how == rhs.how
      requires size == 0 && rhs.data == rhs.inlineData
      modifies this, data, inlineData, rhs, rhs.data
      ensures Valid() && rhs.Valid() && Apart(rhs)
      ensures ok ==> Contents() == old(rhs.Contents()) && rhs.Contents() == []
      ensures !ok ==> size == 0 && rhs.size == old(rhs.size)
      ensures ok <==> Moves(how, old(rhs.size)) + Needs(old(rhs.size), old(data.Length)) <= calm
    {
      var count := rhs.size;
      var left := calm;
      if count > data.Length {
        data := inlineData;
        if count > data.Length {
          if calm == 0 {
            return false;   // allocation failed
          }
          left := calm - 1;
          data := new Slot<T>[count](_ => Raw);
        }
      }
      ok := RelocateAll(data, rhs.data, count, how, left);
      if ok {
        size := count;
        rhs.size := 0;
      }
    }
  }
}
