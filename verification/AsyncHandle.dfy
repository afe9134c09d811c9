// Shared handles of asynchronous tasks: copying, moving, assigning and resetting AsyncFuture objects
// against the use count of the tasks they name. Handles may alias, and may name the same task.

module AsyncHandle {
  class Work {
    var uses: nat          // the use count of its topology
    var destroyed: bool

    constructor ()
      ensures uses == 0 && !destroyed
    {
      uses := 0;
      destroyed := false;
    }
  }

  /** The handles in hs that name w. */
  ghost function Naming(hs: set<AsyncFuture>, w: Work): set<AsyncFuture>
    reads hs
  {
    set h | h in hs && h.work == w
  }

  /**
   * Every use count is the number of handles naming the task plus the references held elsewhere (rest),
   * and a task is destroyed exactly when both are gone.
   */
  ghost predicate Balanced(hs: set<AsyncFuture>, rest: map<Work, nat>)
    reads hs, rest.Keys
  {
    && (forall h :: h in hs && h.work != null ==> h.work in rest)
    && (forall w :: w in rest ==> w.uses == |Naming(hs, w)| + rest[w] && (w.destroyed <==> w.uses == 0))
  }

  class AsyncFuture {
    var work: Work?

    constructor Empty()
      ensures work == null
    {
      work := null;
    }

    /** Copying a handle: one handle more, one reference more. */
    constructor Copy(other: AsyncFuture, ghost hs: set<AsyncFuture>, ghost rest: map<Work, nat>)
      requires other in hs && Balanced(hs, rest)
      modifies rest.Keys
      ensures work == old(other.work) && Balanced(hs + {this}, rest)
    {
      work := other.work;
      new;
      NamedIsUsed(hs, rest);
      ghost var was := map w | w in rest :: Naming(hs, w);
      IncrementRef();
      Renamed(hs + {this}, rest, was, null, work);
    }

    /** Moving a handle: no count changes and the source is left empty. */
    constructor Move(other: AsyncFuture, ghost hs: set<AsyncFuture>, ghost rest: map<Work, nat>)
      requires other in hs && Balanced(hs, rest)
      modifies other
      ensures work == old(other.work) && other.work == null && Balanced(hs + {this}, rest)
    {
      work := other.work;
      new;
      ghost var was := map w | w in rest :: Naming(hs, w);
      other.work := null;
      Handed(hs + {this}, rest, was, other, work);
    }

    /** _increment_ref of the handle. */
    method IncrementRef()
      modifies work
      ensures work != null ==> work.uses == old(work.uses) + 1 && work.destroyed == old(work.destroyed)
    {
      if work != null {
        work.uses := work.uses + 1;
      }
    }

    /** _decrement_ref: the handle is emptied first; the last reference destroys the task. */
    method DecrementRef()
      requires work != null ==> work.uses > 0
      modifies this, work
      ensures work == null
      ensures old(work) != null ==> old(work).uses == old(work.uses) - 1
                                    && old(work).destroyed == (old(work.destroyed) || old(work).uses == 0)
    {
      var w := work;
      work := null;
      if w != null {
        w.uses := w.uses - 1;
        if w.uses == 0 {
          w.destroyed := true;
        }
      }
    }

    /** Destruction, reset and assignment of null. */
    method Reset(ghost hs: set<AsyncFuture>, ghost rest: map<Work, nat>)
      requires this in hs && Balanced(hs, rest)
      modifies this, rest.Keys
      ensures Balanced(hs, rest) && work == null && forall h :: h in hs && h != this ==> h.work == old(h.work)
      ensures forall w :: w in rest && w != old(work) ==> w.destroyed == old(w.destroyed) && w.uses == old(w.uses)
      ensures old(work) != null ==> old(work).uses == old(work.uses) - 1
      ensures old(work) != null ==> (old(work).destroyed <==> Naming(hs, old(work)) == {} && rest[old(work)] == 0)
    {
      NamedIsUsed(hs, rest);
      ghost var was := map w | w in rest :: Naming(hs, w);
      DecrementRef();
      Renamed(hs, rest, was, old(work), null);
    }

    /** An empty handle takes over a reference that was counted for it beforehand. */
    method TakeName(w: Work?, ghost hs: set<AsyncFuture>, ghost rest: map<Work, nat>, ghost held: map<Work, nat>)
      requires this in hs && work == null && (w != null ==> w in rest)
      requires held == if w == null then rest else rest[w := rest[w] + 1]
      requires Balanced(hs, held)
      modifies this
      ensures work == w && Balanced(hs, rest)
    {
      ghost var was := map v | v in rest :: Naming(hs, v);
      work := w;
      Renamed(hs, rest, was, null, w);
    }

    /** Copy assignment: the new task's count goes up before the old one's goes down. */
    method CopyAssign(other: AsyncFuture, ghost hs: set<AsyncFuture>, ghost rest: map<Work, nat>)
      requires this in hs && other in hs && Balanced(hs, rest)
      modifies this, rest.Keys
      ensures Balanced(hs, rest) && work == old(other.work)
      ensures forall w :: w in rest && w != old(work) ==> w.destroyed == old(w.destroyed)
      ensures work == old(work) ==> forall w :: w in rest ==> w.uses == old(w.uses) && w.destroyed == old(w.destroyed)
    {
      if this != other {
        NamedIsUsed(hs, rest);
        var w := other.work;
        ghost var held := rest;
        if w != null {
          w.uses := w.uses + 1;
          held := rest[w := rest[w] + 1];   // for now the reference belongs to no handle
          assert held.Keys == rest.Keys;
        }
        Reset(hs, held);
        TakeName(w, hs, rest, held);
      }
    }

    /** Move assignment: the source is left empty and no count changes but that of the task given up. */
    method MoveAssign(other: AsyncFuture, ghost hs: set<AsyncFuture>, ghost rest: map<Work, nat>)
      requires this in hs && other in hs && Balanced(hs, rest)
      modifies this, other, rest.Keys
      ensures Balanced(hs, rest) && work == old(other.work) && (other != this ==> other.work == null)
      ensures forall w :: w in rest && w != old(work) ==> w.destroyed == old(w.destroyed) && w.uses == old(w.uses)
    {
      if this != other {
        Reset(hs, rest);
        ghost var was := map w | w in rest :: Naming(hs, w);
        var w := other.work;
        other.work := null;
        work := w;
        Handed(hs, rest, was, other, w);
      }
    }

    /** A named task has references, so it is not destroyed. */
    lemma NamedIsUsed(hs: set<AsyncFuture>, rest: map<Work, nat>)
      requires Balanced(hs, rest)
      ensures forall h :: h in hs && h.work != null ==> h.work.uses > 0 && !h.work.destroyed
    {
      forall h | h in hs && h.work != null
        ensures h.work.uses > 0
      {
        assert h in Naming(hs, h.work);
      }
    }

    /** This handle no longer names `before` and now names `after`; other handles are as they were. */
    lemma Renamed(hs: set<AsyncFuture>, rest: map<Work, nat>, was: map<Work, set<AsyncFuture>>, before: Work?, after: Work?)
      requires this in hs && work == after && was.Keys == rest.Keys
      requires forall w, h :: w in rest && h in hs && h != this ==> (h in was[w] <==> h.work == w)
      requires forall w :: w in rest ==> was[w] <= hs && (this in was[w] <==> w == before)
      ensures forall w :: w in rest ==>
        |Naming(hs, w)| == |was[w]| - (if w == before then 1 else 0) + (if w == after then 1 else 0)
    {
      forall w | w in rest
        ensures |Naming(hs, w)| == |was[w]| - (if w == before then 1 else 0) + (if w == after then 1 else 0)
      {
        var others := was[w] - {this};
        assert was[w] == if w == before then others + {this} else others;
        assert Naming(hs, w) == if w == after then others + {this} else others;
      }
    }

    /** The name has moved from `other` to this handle, which was empty. */
    lemma Handed(hs: set<AsyncFuture>, rest: map<Work, nat>, was: map<Work, set<AsyncFuture>>, other: AsyncFuture, after: Work?)
      requires this in hs && other in hs && other != this && other.work == null && work == after && was.Keys == rest.Keys
      requires forall w, h :: w in rest && h in hs && h != this && h != other ==> (h in was[w] <==> h.work == w)
      requires forall w :: w in rest ==> was[w] <= hs && this !in was[w] && (other in was[w] <==> w == after)
      ensures forall w :: w in rest ==> |Naming(hs, w)| == |was[w]|
    {
      forall w | w in rest
        ensures |Naming(hs, w)| == |was[w]|
      {
        var others := was[w] - {other};
        assert was[w] == if w == after then others + {other} else others;
        assert Naming(hs, w) == if w == after then others + {this} else others;
      }
    }
  }
}
