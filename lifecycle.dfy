/** The lifecycle of the one `T` that a `MayBe<T>` can hold in its inline storage,
    as a value: what the storage holds, and how many times a `T` has been
    constructed in it and destroyed in it.  Each operation of the container is a
    function on this value, built from placement-new (`Construct`), the explicit
    destructor call (`Destruct`) and `T`'s own assignment (`Write`); a new
    container starts at `Fresh`.  The class in may_be.dfy is proved against them. */
module Lifecycle {
  import opened Wrappers

  /** `held` is the live object in the storage, if any. */
  datatype Life<T> = Life(held: Option<T>, constructed: nat, destroyed: nat)

  /** The lifecycle invariant: every construction but the live one has been
      matched by exactly one destruction, so constructions minus destructions
      is 1 when an object is held and 0 when none is. */
  predicate Balanced<T>(s: Life<T>)
  {
    s.constructed == s.destroyed + (if s.held.Some? then 1 else 0)
  }

  /** The container as it starts: nothing constructed yet. */
  function Fresh<T>(held: Option<T>): (r: Life<T>)
    ensures Balanced(r)
    ensures r.held == held && r.destroyed == 0
  {
    Life(held, if held.Some? then 1 else 0, 0)
  }

  /** Placement-new of `x` into storage that holds no live object. */
  function Construct<T>(s: Life<T>, x: T): (r: Life<T>)
    requires s.held.None?
    ensures r.held == Some(x)
    ensures r.constructed == s.constructed + 1 && r.destroyed == s.destroyed
    ensures Balanced(s) ==> Balanced(r)
  {
    Life(Some(x), s.constructed + 1, s.destroyed)
  }

  /** Explicit destructor call on the live object. */
  function Destruct<T>(s: Life<T>): (r: Life<T>)
    requires s.held.Some?
    ensures r.held.None?
    ensures r.constructed == s.constructed && r.destroyed == s.destroyed + 1
    ensures Balanced(s) ==> Balanced(r)
  {
    Life(None, s.constructed, s.destroyed + 1)
  }

  /** `Reset()` and the destructor: end the live object, if there is one. */
  function Reset<T>(s: Life<T>): (r: Life<T>)
    ensures r.held.None?
    ensures r.constructed == s.constructed
    ensures r.destroyed == s.destroyed + (if s.held.Some? then 1 else 0)
    ensures Balanced(s) ==> Balanced(r)
  {
    if s.held.Some? then Destruct(s) else s
  }

  /** `Reset(x)`, `ResetDefault()` and `MAYBE_INIT`: end the live object, if any,
      then construct `x`. */
  function ResetTo<T>(s: Life<T>, x: T): (r: Life<T>)
    ensures r.held == Some(x)
    ensures r.constructed == s.constructed + 1
    ensures r.destroyed == s.destroyed + (if s.held.Some? then 1 else 0)
    ensures Balanced(s) ==> Balanced(r)
  {
    Construct(Reset(s), x)
  }

  /** Assignment `*m = x` through the reference `operator*` returns: `T`'s own
      assignment, no construction or destruction. */
  function Write<T>(s: Life<T>, x: T): (r: Life<T>)
    requires s.held.Some?
    ensures r.held == Some(x)
    ensures r.constructed == s.constructed && r.destroyed == s.destroyed
    ensures Balanced(s) ==> Balanced(r)
  {
    s.(held := Some(x))
  }

  /** `operator=` with a source container holding `from`, by its four cases. */
  function Assign<T>(s: Life<T>, from: Option<T>): (r: Life<T>)
    ensures r.held == from
    ensures r.constructed == s.constructed + (if s.held.None? && from.Some? then 1 else 0)
    ensures r.destroyed == s.destroyed + (if s.held.Some? && from.None? then 1 else 0)
    ensures Balanced(s) ==> Balanced(r)
  {
    if s.held.Some? && from.Some? then Write(s, from.value)
    else if s.held.Some? && from.None? then Reset(s)
    else if s.held.None? && from.Some? then Construct(s, from.value)
    else s
  }

  /** A second reset changes nothing. */
  lemma ResetIsIdempotent<T>(s: Life<T>)
    ensures Reset(Reset(s)) == Reset(s)
  {
  }

  /** The operations a client can apply to a live container, in any order.
      `Emplace` covers `Reset(x)`, `ResetDefault()` (with `x` the default `T`)
      and `MAYBE_INIT`. */
  datatype Op<T> = ResetOp | Emplace(x: T) | AssignFrom(from: Option<T>) | WriteThrough(x: T)

  /** One operation on the lifecycle; `None` when it breaks the contract
      (writing through `operator*` with nothing in the container). */
  function Step<T>(s: Life<T>, op: Op<T>): Option<Life<T>>
  {
    match op
    case ResetOp => Some(Reset(s))
    case Emplace(x) => Some(ResetTo(s, x))
    case AssignFrom(from) => Some(Assign(s, from))
    case WriteThrough(x) => if s.held.Some? then Some(Write(s, x)) else None
  }

  /** A sequence of operations, stopping at the first contract violation. */
  function Run<T>(s: Life<T>, ops: seq<Op<T>>): Option<Life<T>>
    decreases |ops|
  {
    if ops == [] then Some(s)
    else match Step(s, ops[0])
      case None => None
      case Some(t) => Run(t, ops[1..])
  }

  /** The reference semantics: the same operations on a plain optional value,
      with no storage and no counters. */
  function Apply<T>(v: Option<T>, op: Op<T>): Option<Option<T>>
  {
    match op
    case ResetOp => Some(None)
    case Emplace(x) => Some(Some(x))
    case AssignFrom(from) => Some(from)
    case WriteThrough(x) => if v.Some? then Some(Some(x)) else None
  }

  function ApplyAll<T>(v: Option<T>, ops: seq<Op<T>>): Option<Option<T>>
    decreases |ops|
  {
    if ops == [] then Some(v)
    else match Apply(v, ops[0])
      case None => None
      case Some(w) => ApplyAll(w, ops[1..])
  }

  /** Across any sequence of operations the container behaves as a plain optional
      value, breaks the contract exactly when the plain value does, and keeps
      the lifecycle invariant: at most one live `T`, never a double destruction. */
  lemma {:induction false} RunRefines<T>(s: Life<T>, ops: seq<Op<T>>)
    requires Balanced(s)
    ensures Run(s, ops).Some? <==> ApplyAll(s.held, ops).Some?
    ensures Run(s, ops).Some? ==>
              Balanced(Run(s, ops).value) && Run(s, ops).value.held == ApplyAll(s.held, ops).value
    decreases |ops|
  {
    if ops != [] {
      match Step(s, ops[0])
      case None =>
      case Some(t) =>
        assert Apply(s.held, ops[0]) == Some(t.held);
        RunRefines(t, ops[1..]);
    }
  }
}
