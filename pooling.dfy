/** Pooling of the per-state run-length lists into the three category sample
    sets, and the copy of each pool into a double array for the estimator. */
module Pooling {
  import opened Wrappers
  import opened Categories

  /** The per-state run lengths are well indexed by `states`. */
  predicate ValidStates(d: seq<seq<int>>, states: seq<int>) {
    forall i :: 0 <= i < |states| ==> 0 <= states[i] < |d|
  }

  /** The lists of `states`, concatenated in the order given. */
  function Concat(d: seq<seq<int>>, states: seq<int>): seq<int>
    requires ValidStates(d, states)
    decreases |states|
  {
    if states == [] then [] else d[states[0]] + Concat(d, states[1..])
  }

  /** The sample set of category `c`. */
  function Pool(d: seq<seq<int>>, c: Category): seq<int>
    requires |d| == NUM_STATES
  {
    Concat(d, StatesOf(c))
  }

  /** The first `n` per-state lists, concatenated in state order. */
  function Flatten(d: seq<seq<int>>, n: nat): seq<int>
    requires n <= |d|
  {
    if n == 0 then [] else Flatten(d, n - 1) + d[n - 1]
  }

  /** Every run length of every state. */
  function AllSamples(d: seq<seq<int>>): seq<int> {
    Flatten(d, |d|)
  }

  /** The `(double)` cast applied to every element. */
  function AsDoubles(xs: seq<int>): (r: seq<real>)
    ensures |r| == |xs|
  {
    seq(|xs|, j requires 0 <= j < |xs| => xs[j] as real)
  }

  lemma {:induction false} ConcatAppend(d: seq<seq<int>>, s1: seq<int>, s2: seq<int>)
    requires ValidStates(d, s1) && ValidStates(d, s2)
    ensures ValidStates(d, s1 + s2)
    ensures Concat(d, s1 + s2) == Concat(d, s1) + Concat(d, s2)
    decreases |s1|
  {
    if s1 != [] {
      assert (s1 + s2)[1..] == s1[1..] + s2;
      ConcatAppend(d, s1[1..], s2);
    } else {
      assert s1 + s2 == s2;
    }
  }

  /** A sample is in the concatenation iff it is in one of the lists. */
  lemma {:induction false} ConcatMember(d: seq<seq<int>>, states: seq<int>, x: int)
    requires ValidStates(d, states)
    ensures x in Concat(d, states) <==> exists i :: 0 <= i < |states| && x in d[states[i]]
    decreases |states|
  {
    if states != [] {
      ConcatMember(d, states[1..], x);
      if x in Concat(d, states[1..]) {
        var i :| 0 <= i < |states[1..]| && x in d[states[1..][i]];
        assert x in d[states[i + 1]];
      }
      if exists i :: 0 <= i < |states| && x in d[states[i]] {
        var i :| 0 <= i < |states| && x in d[states[i]];
        if i > 0 {
          assert x in d[states[1..][i - 1]];
        }
      }
    }
  }

  /** The pools written out the way training appends the lists. */
  lemma PoolsUnfolded(d: seq<seq<int>>)
    requires |d| == NUM_STATES
    ensures Pool(d, Intergenic) == d[0]
    ensures Pool(d, Exon) == d[1] + d[2] + d[3] + d[7] + d[8] + d[9]
    ensures Pool(d, Intron) == d[4] + d[5] + d[6] + d[10] + d[11] + d[12]
  {
    assert Concat(d, [0]) == d[0] + Concat(d, []);
    assert [1, 2, 3, 7, 8, 9] == [1] + [2] + [3] + [7] + [8] + [9];
    assert [4, 5, 6, 10, 11, 12] == [4] + [5] + [6] + [10] + [11] + [12];
    forall s | 0 <= s < NUM_STATES ensures Concat(d, [s]) == d[s] {
      assert Concat(d, [s]) == d[s] + Concat(d, []);
    }
    ConcatAppend(d, [1], [2]);
    ConcatAppend(d, [1] + [2], [3]);
    ConcatAppend(d, [1] + [2] + [3], [7]);
    ConcatAppend(d, [1] + [2] + [3] + [7], [8]);
    ConcatAppend(d, [1] + [2] + [3] + [7] + [8], [9]);
    ConcatAppend(d, [4], [5]);
    ConcatAppend(d, [4] + [5], [6]);
    ConcatAppend(d, [4] + [5] + [6], [10]);
    ConcatAppend(d, [4] + [5] + [6] + [10], [11]);
    ConcatAppend(d, [4] + [5] + [6] + [10] + [11], [12]);
  }

  /** A sample lies in a category's pool iff some state of that category
      observed it. */
  lemma PoolMember(d: seq<seq<int>>, c: Category, x: int)
    requires |d| == NUM_STATES
    ensures x in Pool(d, c) <==>
      exists s :: 0 <= s < NUM_STATES && CategoryOf(s) == Some(c) && x in d[s]
  {
    var states := StatesOf(c);
    ConcatMember(d, states, x);
    if x in Pool(d, c) {
      var i :| 0 <= i < |states| && x in d[states[i]];
      PoolingAgreesWithRouting(states[i], c);
    }
    if exists s :: 0 <= s < NUM_STATES && CategoryOf(s) == Some(c) && x in d[s] {
      var s :| 0 <= s < NUM_STATES && CategoryOf(s) == Some(c) && x in d[s];
      PoolingAgreesWithRouting(s, c);
      var i :| 0 <= i < |states| && states[i] == s;
    }
  }

  /** The three pools together hold every run length exactly as often as the
      13 per-state lists do: nothing is lost or counted twice. */
  lemma PoolsPartitionSamples(d: seq<seq<int>>)
    requires |d| == NUM_STATES
    ensures multiset(Pool(d, Intergenic)) + multiset(Pool(d, Exon)) + multiset(Pool(d, Intron))
         == multiset(AllSamples(d))
    ensures |Pool(d, Intergenic)| + |Pool(d, Exon)| + |Pool(d, Intron)| == |AllSamples(d)|
  {
    PoolsUnfolded(d);
    var m := multiset(AllSamples(d));
    assert m == multiset(d[0]) + multiset(d[1]) + multiset(d[2]) + multiset(d[3])
              + multiset(d[4]) + multiset(d[5]) + multiset(d[6]) + multiset(d[7])
              + multiset(d[8]) + multiset(d[9]) + multiset(d[10]) + multiset(d[11])
              + multiset(d[12]) by {
      forall n | 1 <= n <= NUM_STATES
        ensures multiset(Flatten(d, n)) == multiset(Flatten(d, n - 1)) + multiset(d[n - 1])
      {
      }
    }
  }

  /** Appends the per-state lists to three initially empty category lists,
      one `addAll` at a time. */
  method PoolLengths(d: seq<seq<int>>) returns (intergenicLengths: seq<int>, exonLengths: seq<int>, intronLengths: seq<int>)
    requires |d| == NUM_STATES
    ensures intergenicLengths == Pool(d, Intergenic)
    ensures exonLengths == Pool(d, Exon)
    ensures intronLengths == Pool(d, Intron)
  {
    exonLengths := [];
    intronLengths := [];
    intergenicLengths := [];

    intergenicLengths := intergenicLengths + d[0];

    exonLengths := exonLengths + d[1];
    exonLengths := exonLengths + d[2];
    exonLengths := exonLengths + d[3];
    exonLengths := exonLengths + d[7];
    exonLengths := exonLengths + d[8];
    exonLengths := exonLengths + d[9];

    intronLengths := intronLengths + d[4];
    intronLengths := intronLengths + d[5];
    intronLengths := intronLengths + d[6];
    intronLengths := intronLengths + d[10];
    intronLengths := intronLengths + d[11];
    intronLengths := intronLengths + d[12];

    PoolsUnfolded(d);
    assert [] + d[0] == d[0];
    assert [] + d[1] == d[1];
    assert [] + d[4] == d[4];
  }

  /** Copies a pooled list into a fresh double array, element by element. */
  method ToDoubleArray(xs: seq<int>) returns (a: array<real>)
    ensures a.Length == |xs|
    ensures forall j :: 0 <= j < |xs| ==> a[j] == xs[j] as real
  {
    a := new real[|xs|];
    var j := 0;
    while j < |xs|
      invariant 0 <= j <= |xs|
      invariant forall k :: 0 <= k < j ==> a[k] == xs[k] as real
    {
      a[j] := xs[j] as real;
      j := j + 1;
    }
  }
}
