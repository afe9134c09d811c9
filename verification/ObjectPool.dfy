// The pool at the level of its words: a 64-bit head packs a 48-bit pointer below a 16-bit tag, and the free-stack
// and refill routines work on heads and links in place. Every method is one atomic action of the protocol.

module TaggedHead {
  import opened Common

  const POINTERS: int := 0x1_0000_0000_0000   // 2 to the 48
  const TAGS: nat := 0x1_0000                 // 2 to the 16

  /** TaggedHead64: the pointer in the low 48 bits, the tag above it. */
  function Head64(pointer: nat, tag: nat): nat { pointer % POINTERS + (tag % TAGS) * POINTERS }

  function PointerOf(word: nat): nat { word % POINTERS }

  function TagOf(word: nat): nat { (word / POINTERS) % TAGS }

  /** can_encode: the high bits of the address are zero. */
  predicate CanEncode(pointer: nat) { pointer < POINTERS }

  /** next_tag: one more, in 16 bits. */
  function NextTag(tag: nat): nat { (tag + 1) % TAGS }

  /** The word fits 64 bits; it keeps the pointer exactly if that can be encoded, and the tag modulo its range. */
  lemma HeadKeeps(pointer: nat, tag: nat)
    ensures Head64(pointer, tag) < POINTERS * TAGS
    ensures PointerOf(Head64(pointer, tag)) == pointer <==> CanEncode(pointer)
    ensures TagOf(Head64(pointer, tag)) == tag % TAGS
  {
  }

  /** Two heads of encodable pointers are the same word exactly if pointer and tag are. */
  lemma SameWordIff(p: nat, v: nat, q: nat, w: nat)
    requires CanEncode(p) && CanEncode(q)
    ensures Head64(p, v) == Head64(q, w) <==> p == q && v % TAGS == w % TAGS
  {
    HeadKeeps(p, v);
    HeadKeeps(q, w);
  }

  /** Advancing the stored tag advances the version it stands for. */
  lemma NextTagIs(version: nat)
    ensures NextTag(version % TAGS) == (version + 1) % TAGS
    ensures Head64(0, NextTag(version % TAGS)) == Head64(0, version + 1)
  {
  }

  /** Null is address 0; block v lies at a nonzero address. */
  function Address(p: Option<nat>): nat {
    match p case None => 0 case Some(v) => v + 1
  }
}

module ObjectPoolObject {
  import opened Common
  import opened TaggedHead
  import opened ObjectPoolProtocol
  import opened ObjectPoolTheorems

  class ObjectPool {
    var heads: seq<nat>      // the packed head of every bucket
    var nextFree: Links
    var freeStack: seq<nat>  // the bucket every block is bound to
    ghost var s: State

    ghost predicate Valid()
      reads this
    {
      && Inv(s) && |s.next| < POINTERS - 1
      && nextFree == s.next && freeStack == s.home
      && |heads| == |s.buckets|
      && forall b :: 0 <= b < |heads| ==> heads[b] == Head64(Address(s.buckets[b].top), s.buckets[b].version)
    }

    /** Every bucket starts with one slab of free blocks. */
    constructor (buckets: nat, size: nat, ghost threads: nat)
      requires size > 0 && buckets * size < POINTERS - 1
      ensures Valid() && s == Constructed(buckets, size, threads) && IsInit(s)
    {
      heads := seq(buckets, b requires 0 <= b => Head64(b * size + 1, 0));
      nextFree := seq(buckets * size, v requires 0 <= v => if (v + 1) % size == 0 then None else Some(v + 1));
      freeStack := seq(buckets * size, v requires 0 <= v => v / size);
      s := Constructed(buckets, size, threads);
      new;
      ConstructedIsInit(buckets, size, threads);
      InitInv(s);
    }

    ghost method Advance(a: Action)
      requires Inv(s) && Enabled(s, a) && InWindow(s, a, TAGS)
      modifies this`s
      ensures Defined(old(s), a) && s == Apply(old(s), a, TAGS) && Inv(s)
    {
      hide Inv;
      StepInv(s, a, TAGS);
      s := Apply(s, a, TAGS);
    }

    /** The pointer of a bucket's head denotes a block that can be encoded. */
    lemma TopFits(b: nat)
      requires Inv(s) && |s.next| < POINTERS - 1 && b < |s.buckets|
      ensures CanEncode(Address(s.buckets[b].top))
    {
      assert BucketOk(s, b);
    }

    /** A thread's snapshot and the successor it read can be encoded. */
    lemma SnapshotFits(i: nat)
      requires Inv(s) && |s.next| < POINTERS - 1 && IsThread(s, i) && s.threads[i].PopTry?
      requires IsBucket(s, s.threads[i].b)
      ensures CanEncode(Address(Some(s.threads[i].top)))
    {
      assert ThreadOk(s, i);
    }

    method LoadHead(i: nat, b: nat) returns (word: nat)
      requires Valid() && Enabled(s, LoadTop(i)) && b == s.threads[i].b
      modifies this
      ensures Valid() && Defined(old(s), LoadTop(i)) && s == Apply(old(s), LoadTop(i), TAGS)
      ensures s.threads[i].PopRead? ==>
        PointerOf(word) == Address(Some(s.threads[i].top)) && TagOf(word) == s.threads[i].version % TAGS
      ensures !s.threads[i].PopRead? <==> PointerOf(word) == 0
      ensures b < |old(heads)| && word == old(heads)[b]
    {
      hide Inv;
      Advance(LoadTop(i));
      TopFits(b);
      hide Head64;
      hide PointerOf;
      hide TagOf;
      word := heads[b];
      HeadKeeps(Address(s.buckets[b].top), s.buckets[b].version);
    }

    method ReadSuccessor(i: nat, block: nat) returns (next: Option<nat>)
      requires Valid() && Enabled(s, ReadNext(i)) && block == s.threads[i].top
      modifies this
      ensures Valid() && Defined(old(s), ReadNext(i)) && s == Apply(old(s), ReadNext(i), TAGS)
      ensures s.threads[i].PopTry? && s.threads[i].succ == next
    {
      hide Inv;
      Advance(ReadNext(i));
      next := nextFree[block];
    }

    /** The pop's compare-exchange on the packed head. */
    method PopExchange(i: nat, b: nat, word: nat, next: Option<nat>, weak: bool) returns (ok: bool, seen: nat)
      requires Valid() && Enabled(s, TryPop(i, weak)) && InWindow(s, TryPop(i, weak), TAGS)
      requires b == s.threads[i].b && next == s.threads[i].succ
      requires word == Head64(Address(Some(s.threads[i].top)), s.threads[i].version)
      modifies this
      ensures Valid() && Defined(old(s), TryPop(i, weak)) && s == Apply(old(s), TryPop(i, weak), TAGS)
      ensures ok <==> s.threads[i].Holding? || s.threads[i].Unlocking?
      ensures ok <==> !weak && old(heads[b]) == word
      ensures !ok ==> heads == old(heads)
      ensures seen == old(heads[b])
    {
      hide Inv;
      seen := heads[b];
      ghost var c, k := s.threads[i], s.buckets[b];
      TopFits(b);
      SnapshotFits(i);
      SameWordIff(Address(k.top), k.version, Address(Some(c.top)), c.version);
      ok := !weak && heads[b] == word;
      if ok {
        PopInstallsTrueSuccessor(s, i, TAGS);
        WordAfter(word, c.version, Address(Some(c.top)));
        hide Head64;
        hide TagOf;
        heads := heads[b := Head64(Address(next), NextTag(TagOf(word)))];
        NextHead(Address(next), k.version);
      }
      Advance(TryPop(i, weak));
    }

    lemma WordAfter(word: nat, version: nat, address: nat)
      requires word == Head64(address, version)
      ensures TagOf(word) == version % TAGS
    {
      HeadKeeps(address, version);
    }

    lemma NextHead(address: nat, version: nat)
      ensures Head64(address, NextTag(version % TAGS)) == Head64(address, version + 1)
    {
    }

    /** The push's first load of the head. */
    method LoadHeadForPush(i: nat, b: nat) returns (word: nat)
      requires Valid() && Enabled(s, LoadForPush(i)) && b == s.threads[i].b
      modifies this
      ensures Valid() && Defined(old(s), LoadForPush(i)) && s == Apply(old(s), LoadForPush(i), TAGS)
      ensures s.threads[i].PushLink? && word == Head64(Address(s.threads[i].snap), s.threads[i].version)
      ensures b < |old(heads)| && word == old(heads)[b]
    {
      hide Inv;
      Advance(LoadForPush(i));
      word := heads[b];
    }

    /** Before every try the chain's last link is set to the head's pointer. */
    method StoreLast(i: nat, last: nat, current: Option<nat>)
      requires Valid() && Enabled(s, LinkLast(i)) && s.threads[i].chain != []
      requires last == Last(s.threads[i].chain) && current == s.threads[i].snap
      modifies this
      ensures Valid() && Defined(old(s), LinkLast(i)) && s == Apply(old(s), LinkLast(i), TAGS)
    {
      hide Inv;
      Advance(LinkLast(i));
      nextFree := nextFree[last := current];
    }

    /** The push's compare-exchange publishes the whole chain. */
    method PushExchange(i: nat, b: nat, first: nat, word: nat, weak: bool) returns (ok: bool, seen: nat)
      requires Valid() && Enabled(s, TryPush(i, weak)) && InWindow(s, TryPush(i, weak), TAGS)
      requires b == s.threads[i].b && s.threads[i].chain != [] && first == s.threads[i].chain[0]
      requires CanEncode(Address(s.threads[i].snap)) && word == Head64(Address(s.threads[i].snap), s.threads[i].version)
      modifies this
      ensures Valid() && Defined(old(s), TryPush(i, weak)) && s == Apply(old(s), TryPush(i, weak), TAGS)
      ensures ok <==> !s.threads[i].PushLink?
      ensures ok <==> !weak && old(heads[b]) == word
      ensures seen == old(heads[b])
      ensures !ok ==> seen == Head64(Address(s.threads[i].snap), s.threads[i].version)
    {
      hide Inv;
      ghost var c := s.threads[i];
      Advance(TryPush(i, weak));
      seen := heads[b];
      ghost var k := old(s).buckets[b];
      ok := !weak && heads[b] == word;
      assert CanEncode(Address(k.top)) by { HeadOf(old(s), b); }
      SameWordIff(Address(k.top), k.version, Address(c.snap), c.version);
      if ok {
        WordAfter(word, c.version, Address(c.snap));
        assert NextTag(TagOf(word)) == NextTag(k.version % TAGS);
        NextHead(Address(Some(first)), k.version);
        hide Head64;
        hide TagOf;
        heads := heads[b := Head64(Address(Some(first)), NextTag(TagOf(word)))];
      }
    }

    lemma HeadOf(s: State, b: nat)
      requires Inv(s) && |s.next| < POINTERS - 1 && b < |s.buckets|
      ensures CanEncode(Address(s.buckets[b].top))
    {
      assert BucketOk(s, b);
    }

    /**
     * The constructor of a slab: every block is bound to the bucket and linked to the one after it; the first
     * block is taken by the caller, and the chain to be published is exactly the remaining ones.
     */
    method AllocateSlab(i: nat, b: nat, size: nat) returns (first: nat)
      requires Valid() && Enabled(s, Refill(i, size)) && b == s.threads[i].b && |nextFree| + size < POINTERS - 1
      modifies this
      ensures Valid() && Defined(old(s), Refill(i, size)) && s == Apply(old(s), Refill(i, size), TAGS)
      ensures first == |old(nextFree)|
      ensures size == 1 ==> s.threads[i] == Unlocking(b, first)
      ensures size > 1 ==> s.threads[i] == PushLoad(b, Range(first + 1, size - 1), Some(first))
      ensures size > 1 ==> nextFree[first] == Some(first + 1)
    {
      hide Inv;
      first := |nextFree|;
      ghost var before := nextFree;
      var links := BuildSlab(first, size);
      nextFree := nextFree + links;
      freeStack := freeStack + seq(size, _ => b);
      Advance(Refill(i, size));
    }

    method BuildSlab(first: nat, size: nat) returns (links: Links)
      requires size > 0
      ensures links == SlabLinks(first, size)
    {
      links := [None];
      var k := 1;
      while k < size
        invariant 1 <= k <= size && |links| == k
        invariant forall j :: 0 <= j < k ==> links[j] == if j + 1 < k then Some(first + j + 1) else None
      {
        links := links[k - 1 := Some(first + k)] + [None];
        k := k + 1;
      }
    }
  }
}
