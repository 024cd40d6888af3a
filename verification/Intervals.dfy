/** Counting time stamps in half-open intervals. */
module Intervals {
  /** Stamps in `[from, from + span)`. */
  function CountIn(stamps: seq<real>, from: real, span: real): (n: nat)
    ensures n <= |stamps|
  {
    if stamps == [] then 0
    else CountIn(stamps[..|stamps| - 1], from, span) + if from <= stamps[|stamps| - 1] < from + span then 1 else 0
  }

  /** Every stamp is at most `bound`. */
  predicate UpTo(stamps: seq<real>, bound: real) {
    forall i | 0 <= i < |stamps| :: stamps[i] <= bound
  }

  lemma {:induction false} CountSplits(a: seq<real>, b: seq<real>, from: real, span: real)
    ensures CountIn(a + b, from, span) == CountIn(a, from, span) + CountIn(b, from, span)
  {
    if b == [] {
      assert a + b == a;
    } else {
      assert (a + b)[..|a + b| - 1] == a + b[..|b| - 1];
      CountSplits(a, b[..|b| - 1], from, span);
    }
  }

  lemma {:induction false} NothingOutside(stamps: seq<real>, from: real, span: real)
    requires forall i | 0 <= i < |stamps| :: stamps[i] < from || from + span <= stamps[i]
    ensures CountIn(stamps, from, span) == 0
  {
    if stamps != [] {
      NothingOutside(stamps[..|stamps| - 1], from, span);
    }
  }
}
