# MayBe<T>: a verified model of an inline optional-value container

`may_be.hpp` defines `MayBe<T>`, a container that may or may not hold one `T`.
The `T` lives inline, in the container's own storage, and a flag
(`m_initialized`) records whether that storage holds a live object. The
container's operations construct the `T` in place (placement-new), copy it,
assign it, reset it and destroy it. The header also defines `TAlign<i>`, which
picks the alignment of the storage from the object's size.

This project models both parts in Dafny.

- `alignment.dfy` (module `Alignment`): `TAlign<i>::align`, `TAlignSwitch` and
  `TAlign<i>::type`, as functions on `nat`.
- `lifecycle.dfy` (module `Lifecycle`): the lifecycle of the storage as a value,
  `Life(held, constructed, destroyed)`. A new container starts at `Fresh`. Every
  other container operation is a function on it, built from placement-new
  (`Construct`), the explicit destructor call (`Destruct`) and `T`'s own
  assignment (`Write`). The preconditions of `Construct` and `Destruct` rule
  out constructing over a live object and destroying a dead one. `Balanced` is the
  invariant: constructions minus destructions is 1 while an object is held and
  0 otherwise. `Run` applies any sequence of client operations. `ApplyAll` does
  the same on a plain optional value and serves as the reference semantics.
- `may_be.dfy` (module `Optional`): class `MayBe<T>` with the real fields
  `initialized` and `storage` and the ghost counters `constructed` and
  `destroyed`. `Valid()` says the flag matches the storage and the counters are
  `Balanced`. Each method that changes the container is proved to leave
  `Life()` equal to a `Lifecycle` function of the old `Life()`. The pairs are:
  - `Reset` and `Destroy` with `Lifecycle.Reset`;
  - `ResetTo`, `ResetDefault` and `MaybeInit` with `Lifecycle.ResetTo`;
  - `Assign` with `Lifecycle.Assign`;
  - `AssignThrough` with `Lifecycle.Write`;
  - `ConstructInPlace` and `DestroyInPlace` with `Lifecycle.Construct` and `Lifecycle.Destruct`;
  - `SetInitializedFlag` leaves `Life()` unchanged;
  - the constructors and `CreateMayBe` give `Lifecycle.Fresh`.

  The readers `Get`, `Value` and `IsEngaged` change nothing and state their
  results directly. `CreateMayBe` and the `MAYBE_INIT` macro (`MaybeInit`) are
  module-level methods. `T` is declared `T(!new)`, a value type, so a copy of
  a container holds a copy of the value and never shares an object with the
  original.
- `usage.dfy` (module `Usage`): the factory functions of
  `may_be_usage_example.cpp` and the blocks of its `main`, plus reset, copy and
  assignment scenarios, written as clients of the class.
- `wrappers.dfy` (module `Wrappers`): the `Option` datatype.

The source has some things Dafny cannot express directly. This is how the model
handles them:

- `storage` is an `Option<T>`: `None` means the bytes hold no live object.
- A `NULL` result of `Get()` is `None`.
- `T`'s default constructor cannot be named for a generic `T`. So
  `MayBe(MayBeDefault)` and `ResetDefault()` take the value `T()` would build as
  the parameter `dflt`.
- `MayBe(MayBeEmpty)` and `MayBe(MayBeDefault)` are overloads in C++. Here they
  are the named constructors `Empty` and `Default`.
- `Reset(const T &)` is the method `ResetTo`.
- The destructor is the method `Destroy`.

`operator=` (may_be.hpp:111-122) has four cases:
- both sides engaged: `T`'s own assignment;
- only the target engaged: one destruction;
- only the source engaged: one construction;
- neither engaged: nothing.

`Lifecycle.Assign` states those four counts. Self-assignment is allowed, as in
the source.

## Model

| member | source | states |
|---|---|---|
| Alignment.Align | may_be.hpp:15-16 | The alignment is one of 1, 2, 4, 8. It divides the size. It is at least every other candidate that divides the size. |
| Alignment.AlignIsUnique | may_be.hpp:16 | Those three properties determine the alignment: any candidate that has them equals `Align(i)`. |
| Alignment.AlignAtMostSize | may_be.hpp:16 | For a non-empty object, the alignment is never larger than the object's size. |
| Alignment.AlignSwitch | may_be.hpp:9-13 | The scalar type chosen for alignment 1, 2, 4 or 8 has exactly that size. |
| Alignment.AlignType | may_be.hpp:17 | `TAlign<i>::type` has size `Align(i)`, and that size divides `i`. |
| Lifecycle.Fresh | may_be.hpp:87-109 | A newly constructed container is balanced. It has built one object if it holds one and none otherwise, and has destroyed nothing. |
| Lifecycle.Construct | may_be.hpp:98-102 | Placement-new is allowed only into storage with no live object. It makes the storage hold `x`, counts one construction and keeps the balance. |
| Lifecycle.Destruct | may_be.hpp:143-146 | The destructor call is allowed only on a live object. It leaves nothing held, counts one destruction and keeps the balance. |
| Lifecycle.Reset | may_be.hpp:141-149 | Afterwards nothing is held. Exactly one destruction happens if an object was held, none otherwise. The balance is kept. |
| Lifecycle.ResetTo | may_be.hpp:125-137 | Afterwards `x` is held, whatever was held before. One construction happens, plus one destruction exactly when an object was held before. The balance is kept. |
| Lifecycle.Write | may_be.hpp:81 | Assigning through `operator*` needs a held object. It makes the storage hold `x` with no construction or destruction. |
| Lifecycle.Assign | may_be.hpp:111-122 | Afterwards the target holds what the source holds. It constructs only when the target was empty and the source engaged. It destroys only when the target was engaged and the source empty. The balance is kept. |
| Lifecycle.ResetIsIdempotent | may_be.hpp:141-149 | A second `Reset()` changes nothing. |
| Lifecycle.RunRefines | may_be.hpp:111-149 | For any sequence of operations from a balanced state: the container breaks the contract exactly when a plain optional value does; otherwise it holds the same value as the plain optional and is still balanced (at most one live `T`, never a double destruction). |
| Optional.MayBe.constructor | may_be.hpp:87 | `MayBe()` is empty, valid, and has constructed no `T`. |
| Optional.MayBe.Empty | may_be.hpp:96 | `MayBe(MayBeEmpty)` is empty, valid, and has constructed no `T`. |
| Optional.MayBe.Default | may_be.hpp:89-93 | `MayBe(MayBeDefault)` is engaged with the default `T`, after exactly one construction. |
| Optional.MayBe.FromValue | may_be.hpp:98-102 | `MayBe(x)` is engaged with a copy of `x`, after exactly one construction. |
| Optional.MayBe.Copy | may_be.hpp:104-109 | The copy is engaged exactly when `other` is and holds an equal value. It constructs one `T` only if `other` is engaged. `other` is only read. |
| Optional.MayBe.Get | may_be.hpp:75-76 | Returns `None` (null) exactly when the container is not initialized. Otherwise it returns the stored object. |
| Optional.MayBe.Value | may_be.hpp:78-82 | `operator*` and `operator->` require the container to be initialized. They return the stored object. |
| Optional.MayBe.IsEngaged | may_be.hpp:170 | The safe-bool conversion is true exactly when a live object is stored. |
| Optional.MayBe.ConstructInPlace | may_be.hpp:187 | Placement-new into `MAYBE_INIT_storage_buf()` needs storage with no live object. Its effect is `Lifecycle.Construct`. The flag is not changed. |
| Optional.MayBe.DestroyInPlace | may_be.hpp:145 | `p->~T()` needs a live object. Its effect is `Lifecycle.Destruct`. The flag is not changed. |
| Optional.MayBe.SetInitializedFlag | may_be.hpp:188 | Writing through `MAYBE_INIT_initialized()` changes only the flag. |
| Optional.MayBe.AssignThrough | may_be.hpp:81 | `*m = x` on an initialized container stores `x` with no construction or destruction. The container stays valid. |
| Optional.MayBe.Reset | may_be.hpp:141-149 | Afterwards not initialized and still valid. The new lifecycle is `Lifecycle.Reset` of the old one. |
| Optional.MayBe.ResetTo | may_be.hpp:132-137 | `Reset(x)`: afterwards initialized and still valid. The new lifecycle is `Lifecycle.ResetTo(old, x)`. |
| Optional.MayBe.ResetDefault | may_be.hpp:125-130 | Afterwards initialized with the default `T` and still valid. The new lifecycle is `Lifecycle.ResetTo(old, dflt)`. |
| Optional.MayBe.Assign | may_be.hpp:111-122 | `operator=`: afterwards the flag and the storage equal `other`'s old ones. The new lifecycle is `Lifecycle.Assign`. `other` is unchanged, also when it is this container. |
| Optional.MayBe.Destroy | may_be.hpp:151-161 | The destructor destroys the live object if there is one. Afterwards constructions equal destructions, so no `T` is left alive. |
| Optional.CreateMayBe | may_be.hpp:196 | Returns a new valid container engaged with a copy of `x`, after one construction. |
| Optional.MaybeInit | may_be.hpp:198-202 | `MAYBE_INIT` runs `Reset()`, then placement-new, then sets the flag. Afterwards the container is valid and initialized, and its lifecycle is `Lifecycle.ResetTo(old, x)`. |
| Usage.F1 | may_be_usage_example.cpp:11-13 | Returning `MayBeEmpty` gives an empty, valid container. |
| Usage.F2 | may_be_usage_example.cpp:15-17 | Returning `MayBeDefault` gives a valid container holding the default point. |
| Usage.F3 | may_be_usage_example.cpp:19-21 | `CreateMayBe(7)` gives a valid container holding 7. |
| Usage.InitThenDestroy | may_be_usage_example.cpp:25-30 | An empty point reports nothing. After `MAYBE_INIT(point, Point(1, 2))` it reports that point. After the destructor at the end of the scope, exactly one point has been constructed and exactly one destroyed. |
| Usage.DefaultInit | may_be_usage_example.cpp:32-37 | An empty point holds the default point after `ResetDefault()`. |
| Usage.ResetScenario | may_be.hpp:132-149 | A container holds 7 after `Reset(7)` and nothing after `Reset()`. |
| Usage.CopyExisting | may_be_usage_example.cpp:39-48 | `CreateMayBe(existing)` holds a copy of `existing`. `Get()` and the safe-bool conversion both see it engaged. |
| Usage.CopyIsIndependent | may_be.hpp:104-109 | Changing the copy's `x` to 9 leaves the original's `x` at 1. |
| Usage.AssignOverEmpty | may_be.hpp:117-120 | Assigning an engaged container over an empty one constructs one object in the target and destroys none. The target then holds the source's whole point, and keeps it when the source is changed afterwards. |

## Left out

- Debug poisoning of the storage with `memset(..., 0xDD, ...)` (may_be.hpp:147, 159) is left out because it is a diagnostic. The `assert(m_initialized)` checks become preconditions.
- The raw storage union, `reinterpret_cast`, placement-new addresses and `GetRaw()` are abstracted as the field `storage: Option<T>`, because memory layout cannot be expressed in Dafny. Of the layout, only the alignment arithmetic is modelled.
- Alignment.SizeOf: `sizeof(char)` is 1 by the C++ standard. The sizes of `short`, `float` and `double` are implementation-defined; the model assumes the usual 2, 4 and 8.
- The pointer-to-member safe-bool trick is modelled only by its truth value (`IsEngaged`), because the restriction on arithmetic and comparison is a C++ typing matter.
- `MAYBE_INIT_EnsureTheSameType` (may_be.hpp:190-193) is left out because it is a compile-time type check, and Dafny's typing already makes the constructed value a `T`.
- `Get2` (may_be.hpp:85) is left out because it is a debugger helper.
- The `const` overloads of `Get`, `operator->` and `operator*` are left out because they behave the same as the non-const ones.
- Optional.MayBe.Value: returns the stored value, not a reference into the storage. Writes through the reference are the separate method `AssignThrough`.
- Optional.MayBe.Get: returns the stored value (or `None`), not a pointer into the storage. Writes through the pointer are modelled only as `AssignThrough`.
- Optional.MayBe.Destroy: clears the flag as the debug build does (may_be.hpp:158). A release build leaves the flag as it was. In C++ any call on the container after its destructor is undefined behaviour. The model does not forbid such calls: after `Destroy` the object is an ordinary empty container.
- Optional.CreateMayBe: assumes the copy of the returned temporary is elided. Without elision, one more copy construction and one destruction of the temporary happen; the returned container ends in the same state.
- Optional.MaybeInit: the constructor argument list of `MAYBE_INIT` is given as the value `x` that `T(args...)` builds, because `T`'s constructors are outside the model. The model evaluates `x` before the reset. The macro evaluates its arguments after `Reset()` (may_be.hpp:199-201), so `MAYBE_INIT(m, T(*m))` reads a destroyed object: it fails `assert(m_initialized)` in debug builds and is undefined in release builds. The model gives such a call a defined result.
- Optional.MayBe.ResetTo: takes `x` by value, evaluated before the reset. The source takes `const T &x` and runs `Reset()` before copying from it (may_be.hpp:132-136). So `m.Reset(*m)`, whose argument refers to the container's own held object, copies from a destroyed object and is undefined behaviour. The model gives such a call a defined result.
- Exceptions thrown by `T`'s constructors, destructor or assignment are not modelled: every `T` operation is total here.
- `Point`'s `float` coordinates are modelled as `real`. The scenario values (0, 1, 2, 3, 4, 5, 9) are exact in both.
- The stream output (`std::cout`) in the `main` function of may_be_usage_example.cpp is left out because it is I/O. Its blocks are the `Usage` scenarios.
