/**
 * Bounded sample windows: the feed's list of the last 100 decode times and the
 * monitor's deques with a maximum length both keep the most recent samples of
 * everything appended, oldest evicted first. Also the mean and maximum
 * summaries read from them.
 */
module BoundedWindow {
  import opened RealArith

  /** The last min(n, |s|) elements of s, in their order. */
  function LastN(s: seq<real>, n: nat): (r: seq<real>)
    ensures |r| == if |s| <= n then |s| else n
    ensures r == s[|s| - |r|..]
  {
    if |s| <= n then s else s[|s| - n..]
  }

  /** Appending to a window and trimming again is the same as trimming once at the end. */
  lemma LastNAbsorb(s: seq<real>, t: seq<real>, n: nat)
    ensures LastN(LastN(s, n) + t, n) == LastN(s + t, n)
  {
    var w := LastN(s, n);
    if |s| > n {
      var k := |s| - n;
      assert s + t == s[..k] + (w + t);
      if |w + t| > n {
        assert (s + t)[|s + t| - n..] == (w + t)[|w + t| - n..];
      }
    }
  }

  /** The total of the samples. */
  function Sum(s: seq<real>): real
  {
    if s == [] then 0.0 else Sum(s[..|s| - 1]) + s[|s| - 1]
  }

  /** The arithmetic mean; 0 for an empty window. */
  function Mean(s: seq<real>): (r: real)
    ensures s == [] ==> r == 0.0
    ensures s != [] ==> r * (|s| as real) == Sum(s)
  {
    if s == [] then 0.0 else Sum(s) / (|s| as real)
  }

  /** The largest sample; 0 for an empty window. */
  function Max(s: seq<real>): (r: real)
    ensures s == [] ==> r == 0.0
    ensures |s| > 0 ==> exists i :: 0 <= i < |s| && s[i] == r
    ensures forall i :: 0 <= i < |s| ==> s[i] <= r
  {
    if s == [] then 0.0
    else if |s| == 1 then s[0]
    else
      var m := Max(s[..|s| - 1]);
      assert forall i :: 0 <= i < |s| - 1 ==> s[..|s| - 1][i] == s[i];
      if s[|s| - 1] > m then s[|s| - 1] else m
  }

  /** No sample exceeds the bound, so neither does the sum of n samples exceed n times it. */
  lemma {:induction false} SumAtMost(s: seq<real>, bound: real)
    requires forall i :: 0 <= i < |s| ==> s[i] <= bound
    ensures Sum(s) <= (|s| as real) * bound
  {
    if s != [] {
      var init := s[..|s| - 1];
      assert forall i :: 0 <= i < |init| ==> init[i] == s[i];
      SumAtMost(init, bound);
    }
  }

  /** A bound on every sample bounds the mean. */
  lemma MeanAtMost(s: seq<real>, bound: real)
    requires |s| > 0
    requires forall i :: 0 <= i < |s| ==> s[i] <= bound
    ensures Mean(s) <= bound
  {
    SumAtMost(s, bound);
    QuotientAtMost(Sum(s), |s| as real, bound);
  }

  /** The mean of a non-empty window never exceeds its maximum. */
  lemma MeanAtMostMax(s: seq<real>)
    requires |s| > 0
    ensures Mean(s) <= Max(s)
  {
    MeanAtMost(s, Max(s));
  }
}
