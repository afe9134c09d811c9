// The bounded Chase-Lev deque of bounded_queue.hpp: one owner, any number of thieves, a ring of
// cap slots, and every load, store and compare-exchange a separate action.
//
// `deq` is the sequential double-ended queue the object stands for; it changes only at the
// linearization points. Indices are unbounded integers (the source's are 64-bit and only grow).

module BoundedQueueProtocol {
  import opened Common

  datatype Owner<T> =
    | Idle
    | Pushing(top: int, vals: seq<T>, count: nat, done: nat)  // top loaded; slots [0, done) of count stored
    | PopLoading(b: int)                                      // bottom stored as b, will load top
    | PopReading(b: int, top: int, item: T)                   // top <= b seen; will read slot b
    | PopRacing(b: int, val: T)                               // top == b seen, slot read; will compare-exchange top
    | PopRestoring(b: int, got: Option<T>)                    // will store bottom b + 1 and return got

  datatype Thief<T> =
    | Resting
    | Loaded(top: int)            // top loaded, will load bottom
    | Checked(top: int)           // top < bottom seen, will read the slot
    | Ready(top: int, val: Option<T>)  // slot read, will compare-exchange top

  datatype State<T> = State(
    cap: nat,
    top: int,
    bottom: int,
    buf: seq<Option<T>>,
    owner: Owner<T>,
    thieves: seq<Thief<T>>,
    // history
    deq: seq<T>,          // the abstract deque, front first
    pushed: seq<T>,
    popped: seq<T>,       // in the order of the pops' linearization points
    stolen: seq<T>)

  datatype Action<T> =
    | PushLoad(vals: seq<T>)
    | PushSlot
    | PushPublish
    | PopStore
    | PopLoad
    | PopRead
    | PopCas
    | PopRestore
    | StealLoad(k: nat)
    | StealCheck(k: nat)
    | StealRead(k: nat)
    | StealCas(k: nat)

  function InitState<T>(cap: nat, thieves: nat): State<T> {
    State(cap, 0, 0, seq(cap, _ => None), Idle, seq(thieves, _ => Resting), [], [], [], [])
  }

  /** The ring slot of an index: index & (cap - 1), the capacity being a power of two. */
  function Slot(i: int, cap: nat): (r: nat)
    requires cap > 0
    ensures r < cap
  {
    i % cap
  }

  /** How many of n values fit: the owner's view of the free capacity. */
  function Room(cap: nat, bottom: int, top: int, n: nat): nat {
    var available := cap - (bottom - top);
    if available > 0 then (if n < available then n else available) else 0
  }

  predicate Enabled<T>(s: State<T>, a: Action<T>) {
    && s.cap > 0 && |s.buf| == s.cap
    && match a
       case PushLoad(_) => s.owner.Idle?
       case PushSlot => s.owner.Pushing? && s.owner.done < s.owner.count <= |s.owner.vals|
       case PushPublish => s.owner.Pushing? && s.owner.done == s.owner.count <= |s.owner.vals|
       case PopStore => s.owner.Idle?
       case PopLoad => s.owner.PopLoading?
       case PopRead => s.owner.PopReading?
       case PopCas => s.owner.PopRacing?
       case PopRestore => s.owner.PopRestoring?
       case StealLoad(k) => k < |s.thieves| && s.thieves[k].Resting?
       case StealCheck(k) => k < |s.thieves| && s.thieves[k].Loaded?
       case StealRead(k) => k < |s.thieves| && s.thieves[k].Checked?
       case StealCas(k) => k < |s.thieves| && s.thieves[k].Ready?
  }

  /** A slot that is about to be read holds a pointer, and a deque that is about to shrink is not empty. */
  predicate Defined<T>(s: State<T>, a: Action<T>)
    requires Enabled(s, a)
  {
    match a
    case PopLoad => s.top <= s.owner.b ==> s.deq != []
    case PopRead => s.buf[Slot(s.owner.b, s.cap)].Some?
    case PopCas => s.top == s.owner.b ==> s.deq != []
    case StealCas(k) => s.top == s.thieves[k].top ==> s.deq != [] && s.thieves[k].val.Some?
    case _ => true
  }

  function Last<T>(d: seq<T>): T
    requires d != []
  {
    d[|d| - 1]
  }

  function DoPopLoad<T>(s: State<T>): State<T>
    requires Enabled(s, PopLoad) && Defined(s, PopLoad)
  {
    var b := s.owner.b;
    if s.top < b then
      // Not the last element: it is the owner's from here on.
      s.(owner := PopReading(b, s.top, Last(s.deq)), deq := s.deq[..|s.deq| - 1], popped := s.popped + [Last(s.deq)])
    else if s.top == b then s.(owner := PopReading(b, s.top, Last(s.deq)))
    else s.(owner := PopRestoring(b, None))
  }

  function DoPopRead<T>(s: State<T>): State<T>
    requires Enabled(s, PopRead) && Defined(s, PopRead)
  {
    var c := s.owner;
    var val := s.buf[Slot(c.b, s.cap)].value;
    if c.top == c.b then s.(owner := PopRacing(c.b, val)) else s.(owner := Idle)
  }

  function DoPopCas<T>(s: State<T>): State<T>
    requires Enabled(s, PopCas) && Defined(s, PopCas)
  {
    var c := s.owner;
    if s.top == c.b then
      s.(top := c.b + 1, owner := PopRestoring(c.b, Some(c.val)), deq := s.deq[1..], popped := s.popped + [s.deq[0]])
    else s.(owner := PopRestoring(c.b, None))
  }

  function DoStealCheck<T>(s: State<T>, k: nat): State<T>
    requires Enabled(s, StealCheck(k))
  {
    var t := s.thieves[k].top;
    s.(thieves := s.thieves[k := if t < s.bottom then Checked(t) else Resting])
  }

  function DoStealCas<T>(s: State<T>, k: nat): State<T>
    requires Enabled(s, StealCas(k)) && Defined(s, StealCas(k))
  {
    var c := s.thieves[k];
    if s.top == c.top then
      s.(top := c.top + 1, thieves := s.thieves[k := Resting], deq := s.deq[1..], stolen := s.stolen + [c.val.value])
    else s.(thieves := s.thieves[k := Resting])
  }

  function Apply<T>(s: State<T>, a: Action<T>): State<T>
    requires Enabled(s, a) && Defined(s, a)
  {
    match a
    case PushLoad(vals) => s.(owner := Pushing(s.top, vals, Room(s.cap, s.bottom, s.top, |vals|), 0))
    case PushSlot =>
      var c := s.owner;
      s.(buf := s.buf[Slot(s.bottom + c.done, s.cap) := Some(c.vals[c.done])], owner := c.(done := c.done + 1))
    case PushPublish =>
      var c := s.owner;
      s.(bottom := s.bottom + c.count, owner := Idle, deq := s.deq + c.vals[..c.count], pushed := s.pushed + c.vals[..c.count])
    case PopStore => s.(bottom := s.bottom - 1, owner := PopLoading(s.bottom - 1))
    case PopLoad => DoPopLoad(s)
    case PopRead => DoPopRead(s)
    case PopCas => DoPopCas(s)
    case PopRestore => s.(bottom := s.owner.b + 1, owner := Idle)
    case StealLoad(k) => s.(thieves := s.thieves[k := Loaded(s.top)])
    case StealCheck(k) => DoStealCheck(s, k)
    case StealRead(k) =>
      s.(thieves := s.thieves[k := Ready(s.thieves[k].top, s.buf[Slot(s.thieves[k].top, s.cap)])])
    case StealCas(k) => DoStealCas(s, k)
  }

  // ---------------------------------------------------------------------------------
  // Invariant
  // ---------------------------------------------------------------------------------

  /** While a pop has reserved index bottom but not yet decided it, the index still counts. */
  predicate Undecided<T>(c: Owner<T>) {
    c.PopLoading? || (c.PopReading? && c.top == c.b) || c.PopRacing? || c.PopRestoring?
  }

  /** One past the last index whose element is in the deque. */
  function High<T>(s: State<T>): int { s.bottom + (if Undecided(s.owner) then 1 else 0) }

  /** The deque is what the ring holds at the indices [top, High). */
  ghost predicate RingOk<T>(s: State<T>)
    requires s.cap > 0 && |s.buf| == s.cap
  {
    && 0 <= s.top <= High(s) <= s.top + s.cap
    && |s.deq| == High(s) - s.top
    && forall i :: 0 <= i < |s.deq| ==> s.buf[Slot(s.top + i, s.cap)] == Some(s.deq[i])
  }

  ghost predicate OwnerOk<T>(s: State<T>)
    requires s.cap > 0 && |s.buf| == s.cap
  {
    match s.owner
    case Idle => true
    case Pushing(t, vals, count, done) =>
      && t <= s.top && done <= count <= |vals|
      && (count > 0 ==> count + (s.bottom - t) <= s.cap)
      && forall j :: 0 <= j < done ==> s.buf[Slot(s.bottom + j, s.cap)] == Some(vals[j])
    case PopLoading(b) => b == s.bottom
    case PopReading(b, t, item) =>
      && b == s.bottom && t <= b && s.buf[Slot(b, s.cap)] == Some(item)
      && (t < b ==> s.popped != [] && item == Last(s.popped))
      && (t == b ==> s.top == b || s.top == b + 1)
    case PopRacing(b, val) => b == s.bottom && (s.top == b || s.top == b + 1) && (s.top == b ==> s.deq == [val])
    case PopRestoring(b, got) => b == s.bottom && s.top == b + 1 && (got.Some? ==> s.popped != [] && got.value == Last(s.popped))
  }

  /** A thief whose top is still current is looking at a present element, and holds the right pointer. */
  ghost predicate ThiefOk<T>(s: State<T>, k: nat)
    requires k < |s.thieves|
  {
    match s.thieves[k]
    case Resting => true
    case Loaded(t) => 0 <= t <= s.top
    case Checked(t) => 0 <= t <= s.top && (t == s.top ==> s.deq != [])
    case Ready(t, val) => 0 <= t <= s.top && (t == s.top ==> s.deq != [] && val == Some(s.deq[0]))
  }

  /** Nothing is lost and nothing is handed out twice. */
  ghost predicate Conserved<T>(s: State<T>) {
    multiset(s.pushed) == multiset(s.popped) + multiset(s.stolen) + multiset(s.deq)
  }

  ghost predicate Inv<T>(s: State<T>) {
    && s.cap > 0 && |s.buf| == s.cap
    && RingOk(s)
    && OwnerOk(s)
    && (forall k :: 0 <= k < |s.thieves| ==> ThiefOk(s, k))
    && Conserved(s)
  }
}
