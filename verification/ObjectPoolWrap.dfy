// Runs in which a compare-exchange may see any number of turns of the tag: which actions keep the invariant then,
// and a run that shows what goes wrong otherwise.

module ObjectPoolWrap {
  import opened Common
  import opened ObjectPoolProtocol
  import opened ObjectPoolTheorems

  /** A step in or out of the window. */
  ghost predicate FreeStep(s: State, a: Action, s': State, tags: nat) {
    tags > 0 && Enabled(s, a) && Defined(s, a) && s' == Apply(s, a, tags)
  }

  ghost predicate IsFreeRun(run: seq<State>, acts: seq<Action>, tags: nat) {
    && |run| == |acts| + 1 && tags > 0
    && IsInit(run[0])
    && forall i :: 0 <= i < |acts| ==> FreeStep(run[i], acts[i], run[i + 1], tags)
  }

  // ---------------------------------------------------------------------------------
  // When an exchange is harmless
  // ---------------------------------------------------------------------------------

  /** The exchange fails, or the successor it is about to install is still the top block's. */
  predicate Harmless(s: State, a: Action, tags: nat)
    requires tags > 0 && Enabled(s, a)
  {
    match a
    case TryPop(i, weak) =>
      var PopTry(b, _, top, version, succ) := s.threads[i];
      !weak && IsBucket(s, b) && SameHead(s.buckets[b], Some(top), version, tags) ==> IsBlock(s, top) && s.next[top] == succ
    case _ => true
  }

  /** A pop's exchange keeps the invariant if and only if it fails or installs the top block's present successor. */
  lemma PopKeepsIff(s: State, i: nat, tags: nat)
    requires Inv(s) && tags > 0 && Enabled(s, TryPop(i, false))
    ensures Defined(s, TryPop(i, false))
    ensures Inv(Apply(s, TryPop(i, false), tags)) <==> Harmless(s, TryPop(i, false), tags)
  {
    AlwaysDefined(s, TryPop(i, false));
    var PopTry(b, locked, top, version, succ) := s.threads[i];
    var k := s.buckets[b];
    if !SameHead(k, Some(top), version, tags) {
      TryPopFails(s, i);
    } else {
      assert ThreadOk(s, i) && BucketOk(s, b);
      LinkedTail(s.next, k.stack);
      var s' := Apply(s, TryPop(i, false), tags);
      if s.next[top] == succ {
        PopKeeps(s, i, s');
      } else {
        BadTop(s, i, tags);
      }
    }
  }

  lemma BadTop(s: State, i: nat, tags: nat)
    requires Inv(s) && tags > 0 && Enabled(s, TryPop(i, false)) && Defined(s, TryPop(i, false))
    requires !Harmless(s, TryPop(i, false), tags)
    ensures !Inv(Apply(s, TryPop(i, false), tags))
  {
    var PopTry(b, locked, top, version, succ) := s.threads[i];
    var k := s.buckets[b];
    assert ThreadOk(s, i) && BucketOk(s, b);
    LinkedTail(s.next, k.stack);
    var s' := Apply(s, TryPop(i, false), tags);
    assert s'.buckets[b].top == succ && s'.buckets[b].stack == k.stack[1..];
    assert !BucketOk(s', b);
  }

  /** Every other action keeps the invariant whatever the tags do, a push included. */
  lemma StepKeepsIff(s: State, a: Action, tags: nat)
    requires Inv(s) && tags > 0 && Enabled(s, a)
    ensures Defined(s, a)
    ensures Inv(Apply(s, a, tags)) <==> Harmless(s, a, tags)
  {
    hide Inv;
    AlwaysDefined(s, a);
    if a.TryPop? {
      if a.weak { TryPopFails(s, a.i); } else { PopKeepsIff(s, a.i, tags); }
    } else {
      StepInv(s, a, tags);
    }
  }

  /** A run of the pool keeps the invariant throughout if and only if every exchange in it is harmless. */
  lemma FreeRunInv(run: seq<State>, acts: seq<Action>, tags: nat)
    requires IsFreeRun(run, acts, tags)
    ensures (forall n :: 0 <= n < |run| ==> Inv(run[n]))
       <==> (forall j :: 0 <= j < |acts| ==> Enabled(run[j], acts[j]) && Harmless(run[j], acts[j], tags))
  {
    if forall n :: 0 <= n < |run| ==> Inv(run[n]) {
      forall j | 0 <= j < |acts| ensures Enabled(run[j], acts[j]) && Harmless(run[j], acts[j], tags) {
        assert FreeStep(run[j], acts[j], run[j + 1], tags);
        hide Inv;
        StepKeepsIff(run[j], acts[j], tags);
      }
    }
    if forall j :: 0 <= j < |acts| ==> Enabled(run[j], acts[j]) && Harmless(run[j], acts[j], tags) {
      hide Inv;
      forall n | 0 <= n < |run| ensures Inv(run[n]) { HarmlessRun(run, acts, tags, n); }
    }
  }

  lemma {:induction false} HarmlessRun(run: seq<State>, acts: seq<Action>, tags: nat, n: nat)
    requires IsFreeRun(run, acts, tags) && n < |run|
    requires forall j :: 0 <= j < |acts| ==> Enabled(run[j], acts[j]) && Harmless(run[j], acts[j], tags)
    ensures Inv(run[n])
  {
    hide Inv;
    hide Harmless;
    hide Apply;
    if n == 0 {
      InitInv(run[0]);
    } else {
      HarmlessRun(run, acts, tags, n - 1);
      assert FreeStep(run[n - 1], acts[n - 1], run[n], tags);
      StepKeepsIff(run[n - 1], acts[n - 1], tags);
    }
  }

  /** Inside the window every exchange is harmless. */
  lemma WindowIsHarmless(s: State, a: Action, tags: nat)
    requires Inv(s) && tags > 0 && Enabled(s, a) && InWindow(s, a, tags)
    ensures Harmless(s, a, tags)
  {
    hide Inv;
    StepInv(s, a, tags);
    StepKeepsIff(s, a, tags);
  }

  // ---------------------------------------------------------------------------------
  // A run that wraps
  // ---------------------------------------------------------------------------------

  ghost predicate GoodRun(run: seq<State>, acts: seq<Action>, tags: nat) {
    && IsFreeRun(run, acts, tags)
    && run[0] == Constructed(1, 3, 2)
    && forall n :: 0 <= n < |run| ==> Inv(run[n])
  }

  lemma Do(run: seq<State>, acts: seq<Action>, tags: nat, a: Action) returns (r: seq<State>, f: seq<Action>)
    requires GoodRun(run, acts, tags)
    requires var s := run[|run| - 1]; Enabled(s, a) && InWindow(s, a, tags)
    ensures GoodRun(r, f, tags) && |r| == |run| + 1
    ensures Defined(run[|run| - 1], a) && r[|r| - 1] == Apply(run[|run| - 1], a, tags)
  {
    var s := run[|run| - 1];
    hide Inv;
    hide Apply;
    hide Enabled;
    hide InWindow;
    hide IsInit;
    StepInv(s, a, tags);
    r, f := run + [Apply(s, a, tags)], acts + [a];
    forall i | 0 <= i < |f| ensures FreeStep(r[i], f[i], r[i + 1], tags) {
      if i < |acts| {
        assert FreeStep(run[i], acts[i], run[i + 1], tags);
        assert r[i] == run[i] && r[i + 1] == run[i + 1] && f[i] == acts[i];
      }
    }
  }

  /** One bucket; thread 0 has read block 0 on top, with successor 1, at version 0, and is paused before its exchange. */
  function Paused(next: Links, stack: seq<nat>, version: nat, c: Pc, place: seq<Place>): State {
    State(next, [0, 0, 0], [Bucket(Head(stack), version, None, stack)], [PopTry(0, false, 0, 0, Some(1)), c], place)
  }

  /** Thread 1 creates an object in the top block. */
  lemma CreateTop(run: seq<State>, acts: seq<Action>, tags: nat, next: Links, stack: seq<nat>, version: nat, place: seq<Place>)
    returns (r: seq<State>, f: seq<Action>)
    requires GoodRun(run, acts, tags) && run[|run| - 1] == Paused(next, stack, version, Idle, place)
    requires |next| == |place| == 3 && stack != [] && stack[0] < 3 && next[stack[0]] == Head(stack[1..])
    ensures GoodRun(r, f, tags) && |r| == |run| + 5
    ensures r[|r| - 1] == Paused(next, stack[1..], version + 1, Idle, place[stack[0] := Live])
  {
    assert tags > 0;
    hide GoodRun;
    var v := stack[0];
    r, f := Do(run, acts, tags, Create(1, 0));
    assert r[|r| - 1] == Paused(next, stack, version, PopLoad(0, false), place);
    r, f := Do(r, f, tags, LoadTop(1));
    assert r[|r| - 1] == Paused(next, stack, version, PopRead(0, false, v, version), place);
    r, f := Do(r, f, tags, ReadNext(1));
    assert r[|r| - 1] == Paused(next, stack, version, PopTry(0, false, v, version, next[v]), place);
    r, f := Do(r, f, tags, TryPop(1, false));
    assert r[|r| - 1] == Paused(next, stack[1..], version + 1, Holding(v), place[v := InHand(1)]);
    r, f := Do(r, f, tags, Construct(1, false));
  }

  /** Thread 1 destroys the object in block v. */
  lemma DestroyOne(run: seq<State>, acts: seq<Action>, tags: nat, next: Links, stack: seq<nat>, version: nat,
                   place: seq<Place>, v: nat)
    returns (r: seq<State>, f: seq<Action>)
    requires GoodRun(run, acts, tags) && run[|run| - 1] == Paused(next, stack, version, Idle, place)
    requires |next| == |place| == 3 && v < 3 && place[v] == Live
    ensures GoodRun(r, f, tags) && |r| == |run| + 4
    ensures r[|r| - 1] == Paused(next[v := Head(stack)], [v] + stack, version + 1, Idle, place[v := InStack(0)])
  {
    hide GoodRun;
    var held := place[v := InHand(1)];
    r, f := Do(run, acts, tags, Destroy(1, v));
    assert r[|r| - 1] == Paused(next, stack, version, PushLoad(0, [v], None), held);
    r, f := Do(r, f, tags, LoadForPush(1));
    assert r[|r| - 1] == Paused(next, stack, version, PushLink(0, [v], None, Head(stack), version), held);
    r, f := Do(r, f, tags, LinkLast(1));
    assert r[|r| - 1] == Paused(next[v := Head(stack)], stack, version, PushTry(0, [v], None, Head(stack), version), held);
    r, f := Do(r, f, tags, TryPush(1, false));
    assert MoveChain(held, [v], 0) == place[v := InStack(0)];
  }

  const ONE_LEFT: Links := [None, Some(2), None]
  const ONE_FREE: seq<Place> := [InStack(0), Live, Live]

  /** Thread 0 pauses before its exchange; thread 1 takes all three blocks and gives block 0 back. */
  lemma Prelude(tags: nat) returns (run: seq<State>, acts: seq<Action>)
    requires tags > 0
    ensures GoodRun(run, acts, tags) && run[|run| - 1] == Paused(ONE_LEFT, [0], 4, Idle, ONE_FREE)
  {
    run, acts := Pause(tags);
    var next: Links, place := [Some(1), Some(2), None], seq(3, _ => InStack(0));
    assert [0, 1, 2][1..] == [1, 2] && [1, 2][1..] == [2] && [2][1..] == [] && [0] + [] == [0];
    run, acts := CreateTop(run, acts, tags, next, [0, 1, 2], 0, place);
    run, acts := CreateTop(run, acts, tags, next, [1, 2], 1, place[0 := Live]);
    run, acts := CreateTop(run, acts, tags, next, [2], 2, place[0 := Live][1 := Live]);
    var taken := place[0 := Live][1 := Live][2 := Live];
    run, acts := DestroyOne(run, acts, tags, next, [], 3, taken, 0);
    assert next[0 := None] == ONE_LEFT && taken[0 := InStack(0)] == ONE_FREE;
  }

  lemma Pause(tags: nat) returns (run: seq<State>, acts: seq<Action>)
    requires tags > 0
    ensures GoodRun(run, acts, tags)
    ensures run[|run| - 1] == Paused([Some(1), Some(2), None], [0, 1, 2], 0, Idle, seq(3, _ => InStack(0)))
  {
    var s := Constructed(1, 3, 2);
    ConstructedIsInit(1, 3, 2);
    InitInv(s);
    run, acts := [s], [];
    StartIs(s);
    hide Constructed;
    hide Inv;
    assert IsFreeRun(run, acts, tags);
    hide IsInit;
    hide IsFreeRun;
    run, acts := Do(run, acts, tags, Create(0, 0));
    run, acts := Do(run, acts, tags, LoadTop(0));
    run, acts := Do(run, acts, tags, ReadNext(0));
  }

  lemma StartIs(s: State)
    requires s == Constructed(1, 3, 2)
    ensures s == State([Some(1), Some(2), None], [0, 0, 0], [Bucket(Some(0), 0, None, [0, 1, 2])], [Idle, Idle],
                       seq(3, _ => InStack(0)))
  {
    assert Range(0, 3) == [0, 1, 2];
  }

  /** Creating and destroying an object in block 0 leaves everything as it was, two versions later. */
  lemma {:induction false} Cycles(run: seq<State>, acts: seq<Action>, tags: nat, version: nat, n: nat)
    returns (r: seq<State>, f: seq<Action>)
    requires GoodRun(run, acts, tags) && run[|run| - 1] == Paused(ONE_LEFT, [0], version, Idle, ONE_FREE)
    ensures GoodRun(r, f, tags) && r[|r| - 1] == Paused(ONE_LEFT, [0], version + 2 * n, Idle, ONE_FREE)
    decreases n
  {
    hide GoodRun;
    if n == 0 {
      r, f := run, acts;
    } else {
      assert [0][1..] == [] && [0] + [] == [0];
      r, f := CreateTop(run, acts, tags, ONE_LEFT, [0], version, ONE_FREE);
      r, f := DestroyOne(r, f, tags, ONE_LEFT, [], version + 1, ONE_FREE[0 := Live], 0);
      assert ONE_LEFT[0 := None] == ONE_LEFT && ONE_FREE[0 := Live][0 := InStack(0)] == ONE_FREE;
      r, f := Cycles(r, f, tags, version + 2, n - 1);
    }
  }

  /**
   * Two threads, one slab of three blocks, and any even number of versions, at least four, that is a number of whole
   * turns of the tag: every state of this run satisfies the invariant, thread 0 is before an exchange outside its
   * window, the exchange succeeds, and afterwards the head of the free stack is a block with a live object.
   */
  lemma WrapBreaksPop(tags: nat, turns: nat) returns (run: seq<State>, acts: seq<Action>)
    requires tags > 0 && turns * tags >= 4 && turns * tags % 2 == 0
    ensures IsFreeRun(run, acts, tags) && run[0] == Constructed(1, 3, 2) && forall n :: 0 <= n < |run| ==> Inv(run[n])
    ensures var s, a := run[|run| - 1], TryPop(0, false);
      && Enabled(s, a) && Defined(s, a) && |s.buckets| == 1 && |s.place| == 3 && s.threads[0].version == 0 && s.buckets[0].version == turns * tags
      && !InWindow(s, a, tags) && !Harmless(s, a, tags)
      && var s' := Apply(s, a, tags);
         |s'.buckets| == 1 && |s'.place| == 3 && !Inv(s') && s'.buckets[0].top == Some(1) && s'.place[1] == Live
  {
    run, acts := Prelude(tags);
    run, acts := Cycles(run, acts, tags, 4, (turns * tags - 4) / 2);
    var s := run[|run| - 1];
    assert s == Paused(ONE_LEFT, [0], turns * tags, Idle, ONE_FREE);
    Turns(tags, turns);
    StepKeepsIff(s, TryPop(0, false), tags);
  }

  lemma Turns(tags: nat, turns: nat)
    requires tags > 0 && turns * tags > 0
    ensures turns * tags % tags == 0 && 0 % tags == 0 && turns * tags >= tags
  {
    ModIs(turns * tags, turns, 0, tags);
    assert turns >= 1;
    MulRange(turns, tags);
  }

  /** In particular one turn of the 16-bit tag is enough. */
  lemma OneTurnIsEnough() returns (run: seq<State>, acts: seq<Action>)
    ensures IsFreeRun(run, acts, 0x1_0000) && run[0] == Constructed(1, 3, 2) && forall n :: 0 <= n < |run| ==> Inv(run[n])
    ensures var s, a := run[|run| - 1], TryPop(0, false);
      Enabled(s, a) && Defined(s, a) && |s.buckets| == 1 && s.buckets[0].version == s.threads[0].version + 0x1_0000 && !Inv(Apply(s, a, 0x1_0000))
  {
    run, acts := WrapBreaksPop(0x1_0000, 1);
  }
}
