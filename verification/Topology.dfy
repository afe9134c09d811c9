// The control word of a topology: stop request, dependency lock, life-cycle status and use count in one
// 64-bit word, changed by plain atomic additions and bit operations.

module TopologyWord {
  const STOP_REQUESTED: bv64 := 0x8000_0000_0000_0000
  const LOCKED: bv64 := 0x4000_0000_0000_0000
  const STATE_MASK: bv64 := 0x3000_0000_0000_0000
  const USE_COUNT_MASK: bv64 := 0x0FFF_FFFF_FFFF_FFFF
  const USE_COUNT_MAX: bv64 := 0x0FFF_FFFF_FFFF_FFFF

  const IDLE: bv64 := 0
  const RUNNING: bv64 := 1
  const FINISHED: bv64 := 3

  function StatusOf(w: bv64): bv64 { (w & STATE_MASK) >> 60 }

  function StateBits(status: bv64): bv64 { status << 60 }

  function SetStatus(w: bv64, status: bv64): bv64 { (w & !STATE_MASK) | StateBits(status) }

  predicate IsLocked(w: bv64) { w & LOCKED != 0 }

  predicate IsStopped(w: bv64) { w & STOP_REQUESTED != 0 }

  function UseCount(w: bv64): bv64 { w & USE_COUNT_MASK }

  // What the atomic operations leave in the word.

  function AddRef(w: bv64): bv64 { w + 1 }

  function SubRef(w: bv64): bv64 { w - 1 }

  function OrStop(w: bv64): bv64 { w | STOP_REQUESTED }

  function OrLock(w: bv64): bv64 { w | LOCKED }

  function AndUnlock(w: bv64): bv64 { w & !LOCKED }

  function OrRunning(w: bv64): bv64 { w | StateBits(RUNNING) }

  /** What the word says, field by field. */
  datatype Control = Control(stop: bool, locked: bool, status: bv64, uses: bv64)

  predicate Fits(c: Control) { c.status <= 3 && c.uses <= USE_COUNT_MAX }

  function Unpack(w: bv64): Control { Control(IsStopped(w), IsLocked(w), StatusOf(w), UseCount(w)) }

  function Flags(stop: bool, locked: bool): bv64 {
    (if stop then STOP_REQUESTED else 0) | (if locked then LOCKED else 0)
  }

  function Join(flags: bv64, status: bv64, uses: bv64): bv64 { flags | StateBits(status) | uses }

  function Pack(c: Control): bv64 { Join(Flags(c.stop, c.locked), c.status, c.uses) }

  // ---------------------------------------------------------------------------------
  // Bits: one lemma an operation and a group of fields, to keep the bit-level reasoning small
  // ---------------------------------------------------------------------------------

  lemma AddBits(w: bv64)
    ensures UseCount(w) != USE_COUNT_MAX ==>
      IsStopped(AddRef(w)) == IsStopped(w) && IsLocked(AddRef(w)) == IsLocked(w)
      && StatusOf(AddRef(w)) == StatusOf(w) && UseCount(AddRef(w)) == UseCount(w) + 1
    ensures UseCount(w) == USE_COUNT_MAX ==> UseCount(AddRef(w)) == 0
  {
  }

  lemma SubBits(w: bv64)
    ensures UseCount(w) != 0 ==>
      IsStopped(SubRef(w)) == IsStopped(w) && IsLocked(SubRef(w)) == IsLocked(w)
      && StatusOf(SubRef(w)) == StatusOf(w) && UseCount(SubRef(w)) == UseCount(w) - 1
    ensures UseCount(w) == 0 ==> UseCount(SubRef(w)) == USE_COUNT_MAX
  {
  }

  lemma StopBits(w: bv64)
    ensures IsStopped(OrStop(w)) && (IsLocked(OrStop(w)) <==> IsLocked(w)) && StatusOf(OrStop(w)) == StatusOf(w)
  {
  }

  lemma StopCount(w: bv64)
    ensures UseCount(OrStop(w)) == UseCount(w)
  {
  }

  lemma LockBits(w: bv64)
    ensures IsLocked(OrLock(w)) && StatusOf(OrLock(w)) == StatusOf(w)
  {
  }

  lemma LockStop(w: bv64)
    ensures IsStopped(OrLock(w)) <==> IsStopped(w)
  {
  }

  lemma LockCount(w: bv64)
    ensures UseCount(OrLock(w)) == UseCount(w)
  {
  }

  lemma UnlockBits(w: bv64)
    ensures !IsLocked(AndUnlock(w)) && (IsStopped(AndUnlock(w)) <==> IsStopped(w))
    ensures StatusOf(AndUnlock(w)) == StatusOf(w) && UseCount(AndUnlock(w)) == UseCount(w)
  {
  }

  lemma UnlockedWord(w: bv64)
    ensures AndUnlock(w) == w <==> !IsLocked(w)
  {
  }

  lemma StatusBits(w: bv64, status: bv64)
    requires status <= 3
    ensures StatusOf(SetStatus(w, status)) == status
    ensures IsStopped(SetStatus(w, status)) == IsStopped(w) && IsLocked(SetStatus(w, status)) == IsLocked(w)
    ensures UseCount(SetStatus(w, status)) == UseCount(w)
  {
  }

  lemma RunningBits(w: bv64)
    ensures StatusOf(OrRunning(w)) == RUNNING <==> StatusOf(w) == IDLE || StatusOf(w) == RUNNING
    ensures IsStopped(OrRunning(w)) <==> IsStopped(w)
    ensures IsLocked(OrRunning(w)) <==> IsLocked(w)
  {
  }

  lemma RunningCount(w: bv64)
    ensures UseCount(OrRunning(w)) == UseCount(w)
  {
  }

  lemma WordBits(w: bv64)
    ensures StatusOf(w) <= 3 && UseCount(w) <= USE_COUNT_MAX
    ensures Flags(IsStopped(w), IsLocked(w)) == w & (STOP_REQUESTED | LOCKED)
    ensures StateBits(StatusOf(w)) == w & STATE_MASK
  {
  }

  lemma WordParts(w: bv64, flags: bv64, status: bv64, uses: bv64)
    requires flags == w & (STOP_REQUESTED | LOCKED) && StateBits(status) == w & STATE_MASK && uses == w & USE_COUNT_MASK
    ensures Join(flags, status, uses) == w
  {
  }

  lemma JoinBits(stop: bool, locked: bool, n: bv64, u: bv64)
    requires n <= 3 && u <= USE_COUNT_MAX
    ensures var w := Join(Flags(stop, locked), n, u);
      IsStopped(w) == stop && IsLocked(w) == locked && StatusOf(w) == n && UseCount(w) == u
  {
  }

  // ---------------------------------------------------------------------------------
  // Each operation changes one field
  // ---------------------------------------------------------------------------------

  /** The word and its four fields determine each other. */
  lemma PackUnpack(w: bv64, c: Control)
    ensures Fits(Unpack(w)) && Pack(Unpack(w)) == w
    ensures Fits(c) ==> Unpack(Pack(c)) == c
  {
    UnpackPack(w);
    if Fits(c) {
      JoinBits(c.stop, c.locked, c.status, c.uses);
      hide Flags;
      hide Join;
      hide IsStopped;
      hide IsLocked;
      hide StatusOf;
      hide UseCount;
    }
  }

  lemma UnpackPack(w: bv64)
    ensures Fits(Unpack(w)) && Pack(Unpack(w)) == w
  {
    WordBits(w);
    WordParts(w, Flags(IsStopped(w), IsLocked(w)), StatusOf(w), UseCount(w));
  }

  /** Adding a reference changes the use count alone exactly when the count is not at its maximum. */
  lemma AddRefIsLocal(w: bv64)
    ensures Unpack(AddRef(w)) == Unpack(w).(uses := UseCount(w) + 1) <==> UseCount(w) != USE_COUNT_MAX
  {
    AddBits(w);
    MaxStep();
    hide AddRef;
    hide IsStopped;
    hide IsLocked;
    hide StatusOf;
    hide UseCount;
  }

  lemma MaxStep()
    ensures USE_COUNT_MAX + 1 != 0
  {
  }

  /** Dropping a reference changes the use count alone exactly when there is one to drop. */
  lemma SubRefIsLocal(w: bv64)
    ensures Unpack(SubRef(w)) == Unpack(w).(uses := UseCount(w) - 1) <==> UseCount(w) != 0
  {
    SubBits(w);
    hide SubRef;
    hide IsStopped;
    hide IsLocked;
    hide StatusOf;
    hide UseCount;
  }

  /** Requesting a stop, locking and unlocking change their own flag alone. */
  lemma FlagsAreLocal(w: bv64)
    ensures Unpack(OrStop(w)) == Unpack(w).(stop := true)
    ensures Unpack(OrLock(w)) == Unpack(w).(locked := true)
    ensures Unpack(AndUnlock(w)) == Unpack(w).(locked := false)
  {
    hide OrStop;
    hide OrLock;
    hide AndUnlock;
    hide UseCount;
    hide StatusOf;
    hide IsLocked;
    hide IsStopped;
    StopBits(w);
    StopCount(w);
    LockBits(w);
    LockStop(w);
    LockCount(w);
    UnlockBits(w);
  }

  lemma SetStatusIsLocal(w: bv64, status: bv64)
    requires status <= 3
    ensures Unpack(SetStatus(w, status)) == Unpack(w).(status := status)
  {
    hide SetStatus;
    hide UseCount;
    hide StatusOf;
    hide IsLocked;
    hide IsStopped;
    StatusBits(w, status);
  }

  /** Or-ing in the Running bit publishes Running exactly from Idle or Running, and keeps the rest of the word. */
  lemma PublishByOr(w: bv64)
    ensures Unpack(OrRunning(w)) == Unpack(w).(status := RUNNING) <==> StatusOf(w) == IDLE || StatusOf(w) == RUNNING
  {
    hide OrRunning;
    hide UseCount;
    hide StatusOf;
    hide IsLocked;
    hide IsStopped;
    RunningBits(w);
    RunningCount(w);
  }

  /**
   * A compare-exchange whose expected word is a snapshot with LOCKED cleared succeeds only on an unlocked word
   * with the snapshot's status, stop flag and use count, and then enters the lock, or Finished, and nothing else.
   */
  lemma ExchangeNeedsUnlocked(snapshot: bv64, w: bv64)
    requires w == AndUnlock(snapshot)
    ensures Unpack(w) == Unpack(snapshot).(locked := false)
    ensures Unpack(OrLock(w)) == Unpack(snapshot).(locked := true)
    ensures Unpack(SetStatus(w, FINISHED)) == Unpack(snapshot).(locked := false, status := FINISHED)
  {
    hide Unpack;
    hide SetStatus;
    hide AndUnlock;
    hide OrLock;
    FlagsAreLocal(snapshot);
    FlagsAreLocal(w);
    SetStatusIsLocal(w, FINISHED);
  }

  /** The word is the expected one exactly if it is unlocked and otherwise shows the snapshot's fields. */
  lemma ExchangeSucceedsIff(snapshot: bv64, w: bv64)
    ensures w == AndUnlock(snapshot) <==> Unpack(w) == Unpack(snapshot).(locked := false)
  {
    hide Unpack;
    hide Pack;
    hide AndUnlock;
    FlagsAreLocal(snapshot);
    PackUnpack(w, Unpack(w));
    PackUnpack(AndUnlock(snapshot), Unpack(snapshot));
  }
}

module TopologyObject {
  import opened TopologyWord

  class Topology {
    var control: bv64
    const parent: Topology?
    ghost const chain: seq<Topology>   // this topology, its parent, the parent's parent, ...

    ghost predicate Valid() {
      && |chain| > 0 && chain[0] == this
      && forall i :: 0 <= i < |chain| ==> chain[i].chain == chain[i..] && chain[i].parent == At(chain, i + 1)
    }

    static ghost function At(c: seq<Topology>, i: nat): Topology? { if i < |c| then c[i] else null }

    /** This topology or one of its ancestors has been asked to stop. */
    ghost predicate Stopping()
      reads chain
    {
      exists i :: 0 <= i < |chain| && IsStopped(chain[i].control)
    }

    constructor (parent: Topology?)
      requires parent != null ==> parent.Valid()
      ensures Valid() && this.parent == parent && control == 0
      ensures chain == [this] + if parent == null then [] else parent.chain
    {
      this.parent := parent;
      control := 0;
      chain := [this] + if parent == null then [] else parent.chain;
      new;
      ChainIsValid();
    }

    lemma ChainIsValid()
      requires parent != null ==> parent.Valid()
      requires chain == [this] + if parent == null then [] else parent.chain
      ensures Valid()
    {
      assert chain[0..] == chain;
      forall i | 1 <= i < |chain|
        ensures chain[i].chain == chain[i..] && chain[i].parent == At(chain, i + 1)
      {
        var up := parent.chain;
        assert chain[i] == up[i - 1] && chain[i..] == up[i - 1..];
        assert At(chain, i + 1) == At(up, i);
      }
    }

    /** _increment_ref: the assertion of the source is the precondition. */
    method IncrementRef()
      requires UseCount(control) != USE_COUNT_MAX
      modifies this`control
      ensures Unpack(control) == old(Unpack(control)).(uses := UseCount(old(control)) + 1)
    {
      AddRefIsLocal(control);
      control := AddRef(control);
    }

    /** _decrement_ref: reports whether the dropped reference was the last. */
    method DecrementRef() returns (last: bool)
      requires UseCount(control) != 0
      modifies this`control
      ensures Unpack(control) == old(Unpack(control)).(uses := UseCount(old(control)) - 1)
      ensures last <==> UseCount(control) == 0
    {
      SubRefIsLocal(control);
      last := UseCount(control) == 1;
      control := SubRef(control);
    }

    method SetRunning()
      modifies this`control
      ensures Unpack(control) == old(Unpack(control)).(status := RUNNING)
    {
      SetStatusIsLocal(control, RUNNING);
      control := SetStatus(control, RUNNING);
    }

    method SetFinished()
      modifies this`control
      ensures Unpack(control) == old(Unpack(control)).(status := FINISHED)
    {
      SetStatusIsLocal(control, FINISHED);
      control := SetStatus(control, FINISHED);
    }

    /** One compare-exchange round for the dependency lock, from a snapshot that may be stale. */
    method TryLock(snapshot: bv64) returns (ok: bool, seen: bv64)
      modifies this`control
      ensures ok ==> !IsLocked(old(control)) && Unpack(control) == old(Unpack(control)).(locked := true)
                     && StatusOf(control) == StatusOf(snapshot)
      ensures ok <==> Unpack(old(control)) == Unpack(snapshot).(locked := false)
      ensures !ok ==> control == old(control)
      ensures seen == old(control)
    {
      seen := control;
      ok := control == AndUnlock(snapshot);
      ExchangeSucceedsIff(snapshot, control);
      if ok {
        ExchangeNeedsUnlocked(snapshot, control);
        FlagsAreLocal(control);
        control := OrLock(control);
      }
    }

    /** One compare-exchange round of the tear-down: Finished is entered only from an unlocked word. */
    method TryFinish(snapshot: bv64) returns (ok: bool, seen: bv64)
      modifies this`control
      ensures ok ==> !IsLocked(old(control)) && Unpack(control) == old(Unpack(control)).(status := FINISHED)
                     && StatusOf(old(control)) == StatusOf(snapshot)
      ensures ok <==> Unpack(old(control)) == Unpack(snapshot).(locked := false)
      ensures !ok ==> control == old(control)
      ensures seen == old(control)
    {
      seen := control;
      ok := control == AndUnlock(snapshot);
      ExchangeSucceedsIff(snapshot, control);
      if ok {
        ExchangeNeedsUnlocked(snapshot, control);
        FlagsAreLocal(control);
        control := SetStatus(control, FINISHED);
      }
    }

    /** The lock holder publishes Running by fetch_or and then unlocks by fetch_and; a racing stop request survives. */
    method PublishRunning()
      requires StatusOf(control) == IDLE
      modifies this`control
      ensures Unpack(control) == old(Unpack(control)).(status := RUNNING)
    {
      PublishByOr(control);
      control := OrRunning(control);
    }

    method Unlock()
      modifies this`control
      ensures Unpack(control) == old(Unpack(control)).(locked := false)
    {
      FlagsAreLocal(control);
      control := AndUnlock(control);
    }

    /** _request_stop: stops this topology and all its descendants; true for the first request only. */
    method RequestStop(ghost watched: set<Topology>) returns (first: bool)
      requires forall t :: t in watched ==> t.Valid()
      modifies this`control
      ensures Unpack(control) == old(Unpack(control)).(stop := true)
      ensures first <==> !IsStopped(old(control))
      ensures forall t :: t in watched ==> (t.Stopping() <==> old(t.Stopping()) || this in t.chain)
    {
      FlagsAreLocal(control);
      first := !IsStopped(control);
      control := OrStop(control);
      StillStopping(watched);
    }

    /** A stop flag that goes up is seen by exactly the topologies below it. */
    twostate lemma StillStopping(watched: set<Topology>)
      requires IsStopped(control) && forall t: Topology :: t in watched && t != this ==> t.control == old(t.control)
      requires forall t, u: Topology :: t in watched && u in t.chain && u != this ==> u.control == old(u.control)
      ensures forall t :: t in watched ==> (t.Stopping() <==> old(t.Stopping()) || this in t.chain)
    {
      hide IsStopped;
      forall t | t in watched
        ensures t.Stopping() <==> old(t.Stopping()) || this in t.chain
      {
        if t.Stopping() {
          var i :| 0 <= i < |t.chain| && IsStopped(t.chain[i].control);
          assert t.chain[i] == this || IsStopped(old(t.chain[i].control));
        }
        if old(t.Stopping()) {
          var i :| 0 <= i < |t.chain| && IsStopped(old(t.chain[i].control));
          assert IsStopped(t.chain[i].control);
        }
        if this in t.chain {
          var i :| 0 <= i < |t.chain| && t.chain[i] == this;
          assert IsStopped(t.chain[i].control);
        }
      }
    }

    /**
     * _stop_requested: walks up the parents and caches a stop found above. The answer is right, and the cache
     * changes the answer of no topology: whoever sees the cached flag saw the ancestor's already.
     */
    method StopRequested(ghost watched: set<Topology>) returns (r: bool)
      requires Valid() && forall t :: t in watched ==> t.Valid()
      modifies this`control
      ensures r <==> old(Stopping())
      ensures Unpack(control) == old(Unpack(control)).(stop := old(IsStopped(control)) || r)
      ensures forall t :: t in watched ==> (t.Stopping() <==> old(t.Stopping()))
    {
      hide IsStopped;
      var t: Topology? := this;
      ghost var i := 0;
      while t != null
        invariant 0 <= i <= |chain| && t == if i < |chain| then chain[i] else null
        invariant forall j :: 0 <= j < i ==> !IsStopped(chain[j].control)
        decreases |chain| - i
      {
        if IsStopped(t.control) {
          if t != this {
            FlagsAreLocal(control);
            BelowStopped(watched, i);
            control := OrStop(control);
            assert IsStopped(control) by {
              assert Unpack(control).stop;
            }
            StillStopping(watched);
          }
          return true;
        }
        t := t.parent;
        i := i + 1;
      }
      return false;
    }

    /** Whoever is below this topology is below its ancestors too. */
    lemma BelowStopped(watched: set<Topology>, i: nat)
      requires Valid() && (forall t :: t in watched ==> t.Valid())
      requires i < |chain| && IsStopped(chain[i].control)
      ensures forall t :: t in watched && this in t.chain ==> t.Stopping()
    {
      hide IsStopped;
      forall t | t in watched && this in t.chain
        ensures t.Stopping()
      {
        var j :| 0 <= j < |t.chain| && t.chain[j] == this;
        assert chain == t.chain[j..];
        assert t.chain[j + i] == chain[i];
      }
    }
  }
}
