/** `Enumerable.Sum` over `int` values, as LINQ evaluates it: the items are
    added left to right in a `checked` context, so the first partial sum
    that leaves the 32-bit range raises OverflowException (here: None). */
module Aggregate {
  import opened DotNet

  /** The mathematical sum, with no width limit. */
  function Total(xs: seq<int>): (r: int) {
    if xs == [] then 0 else xs[0] + Total(xs[1..])
  }

  /** Checked accumulation starting from `acc`. */
  function SumFrom(acc: int32, xs: seq<int32>): (r: Option<int32>)
    decreases |xs|
  {
    if xs == [] then Some(acc)
    else if InInt32(acc + xs[0]) then SumFrom(acc + xs[0], xs[1..])
    else None
  }

  /** `xs.Sum()`: None stands for the OverflowException. */
  function CheckedSum(xs: seq<int32>): (r: Option<int32>) {
    SumFrom(0, xs)
  }

  /** Every partial sum `acc + xs[0] + ... + xs[k-1]` fits in an int32. */
  predicate PartialSumsFit(acc: int, xs: seq<int>) {
    forall k :: 0 <= k <= |xs| ==> InInt32(acc + Total(xs[..k]))
  }

  lemma TotalOfPrefix(xs: seq<int>, k: nat)
    requires 1 <= k <= |xs|
    ensures Total(xs[..k]) == xs[0] + Total(xs[1..][..k - 1])
  {
    assert xs[..k][1..] == xs[1..][..k - 1];
  }

  lemma {:induction false} SumFromMeaning(acc: int32, xs: seq<int32>)
    ensures SumFrom(acc, xs) == if PartialSumsFit(acc, xs) then Some(acc + Total(xs)) else None
    decreases |xs|
  {
    if xs == [] {
      assert xs[..0] == [];
    } else {
      assert xs[..0] == [];
      assert xs[..|xs|] == xs;
      if InInt32(acc + xs[0]) {
        SumFromMeaning(acc + xs[0], xs[1..]);
        if PartialSumsFit(acc, xs) {
          forall k | 0 <= k <= |xs[1..]|
            ensures InInt32(acc + xs[0] + Total(xs[1..][..k]))
          {
            TotalOfPrefix(xs, k + 1);
            assert xs[1..][..k] == xs[1..][..k + 1 - 1];
          }
        } else {
          var k :| 0 <= k <= |xs| && !InInt32(acc + Total(xs[..k]));
          TotalOfPrefix(xs, k);
          assert !InInt32(acc + xs[0] + Total(xs[1..][..k - 1]));
        }
      } else {
        TotalOfPrefix(xs, 1);
        assert xs[1..][..0] == [];
      }
    }
  }

  /** The checked sum is the true sum exactly when no partial sum overflows,
      and is an overflow otherwise. */
  lemma CheckedSumMeaning(xs: seq<int32>)
    ensures CheckedSum(xs) == if PartialSumsFit(0, xs) then Some(Total(xs)) else None
  {
    SumFromMeaning(0, xs);
  }

  /** A total outside the int32 range always overflows. */
  lemma CheckedSumOverflows(xs: seq<int32>)
    requires !InInt32(Total(xs))
    ensures CheckedSum(xs) == None
  {
    CheckedSumMeaning(xs);
    assert xs[..|xs|] == xs;
  }

  /** Changing one item from `xs[i]` to `v` moves the total by `v - xs[i]`. */
  lemma {:induction false} TotalUpdate(xs: seq<int>, i: nat, v: int)
    requires i < |xs|
    ensures Total(xs[i := v]) == Total(xs) + v - xs[i]
    decreases |xs|
  {
    if i > 0 {
      TotalUpdate(xs[1..], i - 1, v);
      assert xs[i := v][1..] == xs[1..][i - 1 := v];
    } else {
      assert xs[i := v][1..] == xs[1..];
    }
  }

  /** When neither sum overflows, the checked sums differ by the change made. */
  lemma CheckedSumUpdate(xs: seq<int32>, i: nat, v: int32)
    requires i < |xs|
    requires CheckedSum(xs).Some? && CheckedSum(xs[i := v]).Some?
    ensures CheckedSum(xs[i := v]).value == CheckedSum(xs).value + v - xs[i]
  {
    CheckedSumMeaning(xs);
    CheckedSumMeaning(xs[i := v]);
    TotalUpdate(xs, i, v);
  }

  lemma {:induction false} TotalOfZeros(xs: seq<int>)
    requires forall i :: 0 <= i < |xs| ==> xs[i] == 0
    ensures Total(xs) == 0
    decreases |xs|
  {
    if xs != [] {
      TotalOfZeros(xs[1..]);
    }
  }

  /** Items that are all zero sum to zero without overflow. */
  lemma CheckedSumOfZeros(xs: seq<int32>)
    requires forall i :: 0 <= i < |xs| ==> xs[i] == 0
    ensures CheckedSum(xs) == Some(0)
  {
    CheckedSumMeaning(xs);
    forall k | 0 <= k <= |xs| ensures Total(xs[..k]) == 0 {
      TotalOfZeros(xs[..k]);
    }
    TotalOfZeros(xs);
  }

  lemma {:induction false} SumFromZeros(acc: int32, xs: seq<int32>)
    requires forall i :: 0 <= i < |xs| ==> xs[i] == 0
    ensures SumFrom(acc, xs) == Some(acc)
    decreases |xs|
  {
    if xs != [] {
      SumFromZeros(acc, xs[1..]);
    }
  }

  /** Items that are zero everywhere but at `i` sum to the item at `i`,
      without overflow. */
  lemma {:induction false} CheckedSumOfOne(xs: seq<int32>, i: nat)
    requires i < |xs|
    requires forall j :: 0 <= j < |xs| && j != i ==> xs[j] == 0
    ensures CheckedSum(xs) == Some(xs[i])
    decreases i
  {
    if i == 0 {
      SumFromZeros(xs[0], xs[1..]);
    } else {
      CheckedSumOfOne(xs[1..], i - 1);
    }
  }
}
