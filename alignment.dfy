/** The alignment helper `TAlign<i>` of may_be.hpp: for an object of `i` bytes it
    picks the alignment of the inline storage, the largest of 1, 2, 4 and 8
    bytes that divides `i`, and a scalar type of exactly that size. */
module Alignment {

  /** The alignments `TAlign` can choose from, in increasing order. */
  const Candidates: seq<nat> := [1, 2, 4, 8]

  /** `TAlign<i>::align`: a nested conditional on the low bits of `i`. */
  function Align(i: nat): (r: nat)
    ensures r in Candidates
    ensures i % r == 0
    ensures forall j :: 0 <= j < |Candidates| && i % Candidates[j] == 0 ==> Candidates[j] <= r
  {
    if i % 2 != 0 then 1 else if i % 4 != 0 then 2 else if i % 8 != 0 then 4 else 8
  }

  /** The three properties of `Align` determine it: any candidate that divides `i`
      and is at least every other dividing candidate is `Align(i)`. */
  lemma AlignIsUnique(i: nat, r: nat)
    requires r in Candidates && i % r == 0
    requires forall j :: 0 <= j < |Candidates| && i % Candidates[j] == 0 ==> Candidates[j] <= r
    ensures r == Align(i)
  {
  }

  /** An object is never smaller than the alignment chosen for it, so the
      alignment member of the storage union adds no bytes. */
  lemma AlignAtMostSize(i: nat)
    requires i > 0
    ensures Align(i) <= i
  {
  }

  /** The scalar types `TAlignSwitch` maps an alignment to (with the usual sizes
      of `char`, `short`, `float` and `double`). */
  datatype Scalar = Char | Short | Float | Double

  function SizeOf(s: Scalar): nat
  {
    match s
    case Char => 1
    case Short => 2
    case Float => 4
    case Double => 8
  }

  /** `TAlignSwitch<a>::type`, defined only for the four specialised alignments. */
  function AlignSwitch(a: nat): (s: Scalar)
    requires a in Candidates
    ensures SizeOf(s) == a
  {
    if a == 1 then Char else if a == 2 then Short else if a == 4 then Float else Double
  }

  /** `TAlign<i>::type`: the scalar whose size is the chosen alignment. */
  function AlignType(i: nat): (s: Scalar)
    ensures SizeOf(s) == Align(i)
    ensures i % SizeOf(s) == 0
  {
    AlignSwitch(Align(i))
  }
}
