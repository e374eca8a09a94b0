/** The container `MayBe<T>` of may_be.hpp: inline storage for at most one `T`
    plus a flag saying whether the storage holds a live object. */
module Optional {
  import opened Wrappers
  import L = Lifecycle

  /** `T` is a value type (`!new`): copying a container copies the held value,
      as the copy-constructions of the source do. */
  class MayBe<T(!new)> {
    /** `m_initialized`. */
    var initialized: bool
    /** What `m_storage` holds: `Some(v)` while a constructed `v` lives in it,
        `None` while its bytes hold no object. */
    var storage: Option<T>
    /** How many times a `T` has been constructed in, and destroyed in, the storage. */
    ghost var constructed: nat
    ghost var destroyed: nat

    /** The lifecycle of the storage, as a value. */
    ghost function Life(): L.Life<T>
      reads this
    {
      L.Life(storage, constructed, destroyed)
    }

    /** The flag tells the truth about the storage, and the storage holds at most
        one live object, destroyed at most once. */
    ghost predicate Valid()
      reads this
    {
      initialized == storage.Some? && L.Balanced(Life())
    }

    /** `MayBe()`: empty, no `T` constructed. */
    constructor ()
      ensures Valid() && !initialized
      ensures Life() == L.Fresh(None)
    {
      initialized := false;
      storage := None;
      constructed, destroyed := 0, 0;
    }

    /** `MayBe(MayBeEmpty)`: the same as the default constructor. */
    constructor Empty()
      ensures Valid() && !initialized
      ensures Life() == L.Fresh(None)
    {
      initialized := false;
      storage := None;
      constructed, destroyed := 0, 0;
    }

    /** `MayBe(MayBeDefault)`: engaged with a default-constructed `T`, passed in
        as `dflt`. */
    constructor Default(dflt: T)
      ensures Valid() && initialized
      ensures Life() == L.Fresh(Some(dflt))
    {
      storage := Some(dflt);
      constructed, destroyed := 1, 0;
      initialized := true;
    }

    /** `explicit MayBe(const T &x)`: engaged with a copy of `x`. */
    constructor FromValue(x: T)
      ensures Valid() && initialized
      ensures Life() == L.Fresh(Some(x))
    {
      storage := Some(x);
      constructed, destroyed := 1, 0;
      initialized := true;
    }

    /** `MayBe(const MayBe &other)`: engaged exactly when `other` is, with a copy
        of its value; `other` is only read. */
    constructor Copy(other: MayBe<T>)
      requires other.Valid()
      ensures Valid()
      ensures initialized == other.initialized
      ensures Life() == L.Fresh(other.storage)
    {
      initialized := other.initialized;
      if other.initialized {
        storage := other.storage;
        constructed := 1;
      } else {
        storage := None;
        constructed := 0;
      }
      destroyed := 0;
    }

    /** `Get()`: the stored object, or null (`None`) exactly when the container
        is not initialized. */
    method Get() returns (p: Option<T>)
      requires Valid()
      ensures p.None? <==> !initialized
      ensures p == Life().held
    {
      p := if initialized then storage else None;
    }

    /** `operator*` and `operator->`: the stored object; the container must be
        initialized. */
    method Value() returns (v: T)
      requires Valid() && initialized
      ensures storage == Some(v)
    {
      v := storage.value;
    }

    /** The safe-bool conversion: true exactly when a live object is stored. */
    method IsEngaged() returns (b: bool)
      requires Valid()
      ensures b <==> Life().held.Some?
    {
      b := initialized;
    }

    /** Placement-new of `x` into the storage, which must hold no live object;
        the flag is left to the caller. */
    method ConstructInPlace(x: T)
      requires storage.None?
      modifies this
      ensures initialized == old(initialized)
      ensures Life() == L.Construct(old(Life()), x)
    {
      storage := Some(x);
      constructed := constructed + 1;
    }

    /** Explicit destructor call `p->~T()` on the live object; the flag is left
        to the caller. */
    method DestroyInPlace()
      requires storage.Some?
      modifies this
      ensures initialized == old(initialized)
      ensures Life() == L.Destruct(old(Life()))
    {
      storage := None;
      destroyed := destroyed + 1;
    }

    /** `MAYBE_INIT_initialized() = b`: the macro's direct write to the flag. */
    method SetInitializedFlag(b: bool)
      modifies this
      ensures initialized == b
      ensures Life() == old(Life())
    {
      initialized := b;
    }

    /** `*m = x`: `T`'s assignment through the reference `operator*` returns.
        No object is constructed or destroyed. */
    method AssignThrough(x: T)
      requires Valid() && initialized
      modifies this
      ensures Valid() && initialized
      ensures Life() == L.Write(old(Life()), x)
    {
      storage := Some(x);
    }

    /** `Reset()`: afterwards empty; the live object, if any, is destroyed once. */
    method Reset()
      requires Valid()
      modifies this
      ensures Valid() && !initialized
      ensures Life() == L.Reset(old(Life()))
    {
      var p := Get();
      if p.Some? {
        DestroyInPlace();
        initialized := false;
      }
    }

    /** `Reset(const T &x)`: afterwards engaged with a copy of `x`, whatever it held. */
    method ResetTo(x: T)
      requires Valid()
      modifies this
      ensures Valid() && initialized
      ensures Life() == L.ResetTo(old(Life()), x)
    {
      Reset();
      ConstructInPlace(x);
      initialized := true;
    }

    /** `ResetDefault()`: afterwards engaged with a default `T`, passed in as `dflt`. */
    method ResetDefault(dflt: T)
      requires Valid()
      modifies this
      ensures Valid() && initialized
      ensures Life() == L.ResetTo(old(Life()), dflt)
    {
      Reset();
      ConstructInPlace(dflt);
      initialized := true;
    }

    /** `operator=(const MayBe &other)`: afterwards engaged exactly when `other`
        was, with its value: in-place assignment when both are engaged, a
        destruction or a construction when only one is, nothing when neither
        is.  `other` keeps its value, also when it is this container. */
    method Assign(other: MayBe<T>)
      requires Valid() && other.Valid()
      modifies this
      ensures Valid()
      ensures initialized == old(other.initialized)
      ensures storage == old(other.storage)
      ensures Life() == L.Assign(old(Life()), old(other.storage))
      ensures other != this ==> other.Life() == old(other.Life())
    {
      if initialized && other.initialized {
        var v := other.Value();
        AssignThrough(v);
      } else if initialized && !other.initialized {
        Reset();
      } else if !initialized && other.initialized {
        var v := other.Value();
        ConstructInPlace(v);
        initialized := true;
      }
    }

    /** `~MayBe()`: the live object, if any, is destroyed; the flag is cleared as
        the debug build does.  No object is left alive. */
    method Destroy()
      requires Valid()
      modifies this
      ensures Valid() && !initialized
      ensures destroyed == constructed
      ensures Life() == L.Reset(old(Life()))
    {
      var p := Get();
      if p.Some? {
        DestroyInPlace();
      }
      initialized := false;
    }
  }

  /** `CreateMayBe(x)`: a new container engaged with a copy of `x`. */
  method CreateMayBe<T(!new)>(x: T) returns (m: MayBe<T>)
    ensures fresh(m) && m.Valid() && m.initialized
    ensures m.Life() == L.Fresh(Some(x))
  {
    m := new MayBe.FromValue(x);
  }

  /** `MAYBE_INIT(m, T(args))`: reset, construct in place from the constructor
      arguments (whose result is `x`), then raise the flag. */
  method MaybeInit<T(!new)>(m: MayBe<T>, x: T)
    requires m.Valid()
    modifies m
    ensures m.Valid() && m.initialized
    ensures m.Life() == L.ResetTo(old(m.Life()), x)
  {
    m.Reset();
    m.ConstructInPlace(x);
    m.SetInitializedFlag(true);
  }
}
