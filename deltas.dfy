/** Delta coding: the PBF format stores IDs, coordinates and several
    metadata fields as differences from the previous entry; the decoder
    recovers them by a running sum. */
module Deltas {

  /** The sum of all entries. */
  function Sum(s: seq<int>): int
  {
    if s == [] then 0 else Sum(s[..|s| - 1]) + s[|s| - 1]
  }

  /** The running sums: entry `k` is the sum of the first `k + 1` deltas. */
  function RunningSums(s: seq<int>): (r: seq<int>)
    ensures |r| == |s|
  {
    if s == [] then [] else RunningSums(s[..|s| - 1]) + [Sum(s)]
  }

  /** One more delta adds one more term. */
  lemma SumStep(s: seq<int>, k: nat)
    requires k < |s|
    ensures Sum(s[..k + 1]) == Sum(s[..k]) + s[k]
  {
    assert s[..k + 1][..k] == s[..k];
  }

  lemma {:induction false} RunningSumsAt(s: seq<int>, k: nat)
    requires k < |s|
    ensures RunningSums(s)[k] == Sum(s[..k + 1])
  {
    if k < |s| - 1 {
      var init := s[..|s| - 1];
      RunningSumsAt(init, k);
      assert init[..k + 1] == s[..k + 1];
    } else {
      assert s[..k + 1] == s;
    }
  }

  /** Delta encoding: the first value, then each value minus its predecessor. */
  function Differences(xs: seq<int>): (d: seq<int>)
    ensures |d| == |xs|
  {
    seq(|xs|, i requires 0 <= i < |xs| => if i == 0 then xs[0] else xs[i] - xs[i - 1])
  }

  /** Decoding undoes encoding... */
  lemma {:induction false} RunningSumsOfDifferences(xs: seq<int>)
    ensures RunningSums(Differences(xs)) == xs
  {
    if xs != [] {
      var init := xs[..|xs| - 1];
      RunningSumsOfDifferences(init);
      var d := Differences(xs);
      assert d[..|d| - 1] == Differences(init);
      if |xs| > 1 {
        RunningSumsAt(d, |xs| - 2);
        RunningSumsAt(Differences(init), |xs| - 2);
        assert d[..|xs| - 1] == Differences(init)[..|xs| - 1];
        assert Sum(d) == Sum(d[..|d| - 1]) + d[|d| - 1];
        assert Sum(d[..|d| - 1]) == RunningSums(Differences(init))[|xs| - 2];
      }
    }
  }

  /** ...and encoding undoes decoding. */
  lemma {:induction false} DifferencesOfRunningSums(s: seq<int>)
    ensures Differences(RunningSums(s)) == s
  {
    var r := RunningSums(s);
    forall i | 0 <= i < |s|
      ensures Differences(r)[i] == s[i]
    {
      RunningSumsAt(s, i);
      if i > 0 {
        RunningSumsAt(s, i - 1);
        assert s[..i + 1][..i] == s[..i];
      }
    }
  }
}
