/**
 * The dependency-list comparator `areInputsEqual`, which decides whether a
 * memoised value or an effect must be recomputed.
 */
module Dependencies {
  import opened JsValues

  /** A dependency list as passed by the caller: an array, or null/undefined. */
  type Deps = Option<seq<Val>>

  /** `s[i]` in JavaScript: reading past the end yields `undefined`. */
  function At(s: seq<Val>, i: nat): Val
  {
    if i < |s| then s[i] else Undefined
  }

  /** The list with its first element removed, reading past the end as empty. */
  function Rest(s: seq<Val>): (t: seq<Val>)
    ensures forall i: nat :: At(t, i) == At(s, i + 1)
  {
    if s == [] then [] else s[1..]
  }

  /** The test applied to one position (hooks.js, lines 19-20), written with
      the same operators: `val1 === val2 && (val1 !== 0 || 1 / val1 === 1 / val2)
      || val1 !== val1 && val2 !== val2`. */
  predicate ElementUnchanged(val1: Val, val2: Val) {
    (StrictEquals(val1, val2)
      && (!StrictEquals(val1, PosZero) || StrictEquals(OneOverZero(val1), OneOverZero(val2))))
    || (!StrictEquals(val1, val1) && !StrictEquals(val2, val2))
  }

  /** The per-position test is exactly SameValue. */
  lemma ElementUnchangedIsSameValue(val1: Val, val2: Val)
    ensures ElementUnchanged(val1, val2) <==> SameValue(val1, val2)
  {
  }

  /** Reference definition: every position of `inputs` holds, by SameValue, the
      value found at the same position of `prev`. Positions of `prev` beyond
      the length of `inputs` play no part. */
  function InputsEqual(inputs: seq<Val>, prev: seq<Val>): bool
    decreases |inputs|
  {
    if inputs == [] then true
    else SameValue(inputs[0], At(prev, 0)) && InputsEqual(inputs[1..], Rest(prev))
  }

  lemma {:induction false} InputsEqualIff(inputs: seq<Val>, prev: seq<Val>)
    ensures InputsEqual(inputs, prev) <==>
            forall i :: 0 <= i < |inputs| ==> SameValue(inputs[i], At(prev, i))
    decreases |inputs|
  {
    if inputs != [] {
      InputsEqualIff(inputs[1..], Rest(prev));
      if forall i :: 0 <= i < |inputs| ==> SameValue(inputs[i], At(prev, i)) {
        forall i | 0 <= i < |inputs| - 1
          ensures SameValue(inputs[1..][i], At(Rest(prev), i))
        {
          assert inputs[1..][i] == inputs[i + 1];
        }
      }
      if InputsEqual(inputs, prev) {
        forall i | 0 <= i < |inputs|
          ensures SameValue(inputs[i], At(prev, i))
        {
          if i > 0 {
            assert inputs[i] == inputs[1..][i - 1];
          }
        }
      }
    }
  }

  /** `areInputsEqual(inputs, prevInputs)` (hooks.js, lines 14-27): the loop
      walks `inputs`, reads `prevInputs` at the same index and returns false at
      the first position that is not SameValue. Reading `inputs.length` when
      `inputs` is null or undefined, or `prevInputs[0]` when `prevInputs` is,
      raises a TypeError. */
  method AreInputsEqual(inputs: Deps, prevInputs: Deps) returns (r: Result<bool>)
    ensures inputs.None? ==> r == Err(TypeError)
    ensures inputs.Some? && prevInputs.None? ==>
              r == if inputs.value == [] then Ok(true) else Err(TypeError)
    ensures inputs.Some? && prevInputs.Some? ==>
              r == Ok(InputsEqual(inputs.value, prevInputs.value))
  {
    if inputs.None? {
      return Err(TypeError);
    }
    var a := inputs.value;
    var i := 0;
    while i < |a|
      invariant 0 <= i <= |a|
      invariant i > 0 ==> prevInputs.Some?
      invariant prevInputs.Some? ==>
                  forall k :: 0 <= k < i ==> SameValue(a[k], At(prevInputs.value, k))
    {
      if prevInputs.None? {
        return Err(TypeError);
      }
      var val1 := a[i];
      var val2 := At(prevInputs.value, i);
      ElementUnchangedIsSameValue(val1, val2);
      if !ElementUnchanged(val1, val2) {
        InputsEqualIff(a, prevInputs.value);
        return Ok(false);
      }
      i := i + 1;
    }
    if prevInputs.Some? {
      InputsEqualIff(a, prevInputs.value);
    }
    return Ok(true);
  }

  /** Only the first `|inputs|` positions of the previous list are read: two
      previous lists that agree there give the same answer. */
  lemma {:induction false} InputsEqualReadsOnlyPrefix(inputs: seq<Val>, prev: seq<Val>, prev': seq<Val>)
    requires forall i :: 0 <= i < |inputs| ==> At(prev, i) == At(prev', i)
    ensures InputsEqual(inputs, prev) == InputsEqual(inputs, prev')
  {
    InputsEqualIff(inputs, prev);
    InputsEqualIff(inputs, prev');
  }

  /** The lengths are never compared: a previous list with extra trailing
      entries still compares equal. */
  lemma {:induction false} ExtraPreviousEntriesIgnored(inputs: seq<Val>, extra: seq<Val>)
    ensures InputsEqual(inputs, inputs + extra)
  {
    InputsEqualIff(inputs, inputs + extra);
    forall i | 0 <= i < |inputs|
      ensures SameValue(inputs[i], At(inputs + extra, i))
    {
      assert (inputs + extra)[i] == inputs[i];
    }
  }

  /** Every list is equal to itself, NaN entries included. */
  lemma {:induction false} InputsEqualReflexive(inputs: seq<Val>)
    ensures InputsEqual(inputs, inputs)
  {
    ExtraPreviousEntriesIgnored(inputs, []);
    assert inputs + [] == inputs;
  }

  /** A change at any one position is detected. */
  lemma {:induction false} ChangedPositionDetected(inputs: seq<Val>, prev: seq<Val>, i: nat)
    requires i < |inputs| && inputs[i] != At(prev, i)
    ensures !InputsEqual(inputs, prev)
  {
    InputsEqualIff(inputs, prev);
  }

  /** Examples: `[NaN]` equals `[NaN]`, `[0]` differs from `[-0]`, a missing
      previous entry reads as `undefined`, and an empty list equals anything. */
  lemma ComparatorExamples()
    ensures InputsEqual([NaN], [NaN])
    ensures !InputsEqual([PosZero], [NegZero])
    ensures InputsEqual([Undefined], [])
    ensures InputsEqual([], [Finite(1)])
  {
  }
}
