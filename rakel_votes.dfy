/** What RAKEL's vote tallies hold: each sub-model votes, for every label of
    its subset, with its predicted value; a label's tally is the sum of those
    votes and the number of votes cast. The confidence is sum / count and the
    label is predicted when the confidence is at least 0.5. */
module RakelVotes {

  import opened Wrappers

  /** One sub-model's votes for one instance: its label subset, whether its
      classifier is still present (`subsetClassifiers[i] != null`) and the
      values it predicted, one per subset position. */
  datatype Vote = Vote(subset: seq<int>, active: bool, preds: seq<real>)

  predicate WellFormed(v: Vote)
  {
    v.active ==> |v.preds| == |v.subset|
  }

  predicate AllWellFormed(votes: seq<Vote>)
  {
    forall i :: 0 <= i < |votes| ==> WellFormed(votes[i])
  }

  /** Sum added to `sumVotes[label]` by the positions of `subset`:
      every position j with subset[j] == label adds preds[j]. */
  function VoteSum(subset: seq<int>, preds: seq<real>, lab: int): real
    requires |preds| >= |subset|
  {
    if subset == [] then 0.0
    else
      var j := |subset| - 1;
      VoteSum(subset[..j], preds, lab) + (if subset[j] == lab then preds[j] else 0.0)
  }

  /** Count added to `lengthVotes[label]`: one per position holding label. */
  function VoteCount(subset: seq<int>, lab: int): nat
  {
    if subset == [] then 0
    else
      var j := |subset| - 1;
      VoteCount(subset[..j], lab) + (if subset[j] == lab then 1 else 0)
  }

  /** The sum one sub-model contributes to a label's tally (none if released). */
  function SumOf(v: Vote, lab: int): real
    requires WellFormed(v)
  {
    if v.active then VoteSum(v.subset, v.preds, lab) else 0.0
  }

  function CountOf(v: Vote, lab: int): nat
  {
    if v.active then VoteCount(v.subset, lab) else 0
  }

  /** A label's tallies over a sequence of sub-models, in that order. */
  function TotalSum(votes: seq<Vote>, lab: int): real
    requires AllWellFormed(votes)
  {
    if votes == [] then 0.0
    else TotalSum(votes[..|votes| - 1], lab) + SumOf(votes[|votes| - 1], lab)
  }

  function TotalCount(votes: seq<Vote>, lab: int): nat
  {
    if votes == [] then 0
    else TotalCount(votes[..|votes| - 1], lab) + CountOf(votes[|votes| - 1], lab)
  }

  // ---------------------------------------------------------------------
  // A subset of distinct labels gives each of its labels exactly one vote

  predicate Distinct(s: seq<int>)
  {
    forall i, j :: 0 <= i < j < |s| ==> s[i] != s[j]
  }

  /** With distinct labels, a label outside the subset gets nothing, and the
      label at position p gets exactly one vote, of value preds[p]. */
  lemma {:induction false} DistinctVotes(subset: seq<int>, preds: seq<real>, lab: int)
    requires |preds| >= |subset| && Distinct(subset)
    ensures lab !in subset ==> VoteSum(subset, preds, lab) == 0.0 && VoteCount(subset, lab) == 0
    ensures forall p :: 0 <= p < |subset| && subset[p] == lab ==>
              VoteSum(subset, preds, lab) == preds[p] && VoteCount(subset, lab) == 1
  {
    if subset != [] {
      var j := |subset| - 1;
      DistinctVotes(subset[..j], preds, lab);
      assert forall p :: 0 <= p < j ==> subset[..j][p] == subset[p];
    }
  }

  /** With sub-model outputs in [0, 1], a tally's sum lies between 0 and its
      count: hence a covered label's confidence lies in [0, 1]. */
  lemma {:induction false} VoteSumBounds(subset: seq<int>, preds: seq<real>, lab: int)
    requires |preds| >= |subset|
    requires forall j :: 0 <= j < |subset| ==> 0.0 <= preds[j] <= 1.0
    ensures 0.0 <= VoteSum(subset, preds, lab) <= VoteCount(subset, lab) as real
  {
    if subset != [] {
      VoteSumBounds(subset[..|subset| - 1], preds, lab);
    }
  }

  predicate BoundedPreds(votes: seq<Vote>)
  {
    forall i, j :: 0 <= i < |votes| && 0 <= j < |votes[i].preds| ==> 0.0 <= votes[i].preds[j] <= 1.0
  }

  lemma {:induction false} TotalBounds(votes: seq<Vote>, lab: int)
    requires AllWellFormed(votes) && BoundedPreds(votes)
    ensures 0.0 <= TotalSum(votes, lab) <= TotalCount(votes, lab) as real
  {
    if votes != [] {
      var v := votes[|votes| - 1];
      TotalBounds(votes[..|votes| - 1], lab);
      if v.active {
        VoteSumBounds(v.subset, v.preds, lab);
      }
    }
  }

  // ---------------------------------------------------------------------
  // Order independence

  lemma {:induction false} TotalAppend(a: seq<Vote>, b: seq<Vote>, lab: int)
    requires AllWellFormed(a) && AllWellFormed(b)
    ensures AllWellFormed(a + b)
    ensures TotalSum(a + b, lab) == TotalSum(a, lab) + TotalSum(b, lab)
    ensures TotalCount(a + b, lab) == TotalCount(a, lab) + TotalCount(b, lab)
  {
    if b != [] {
      var b' := b[..|b| - 1];
      TotalAppend(a, b', lab);
      assert (a + b)[..|a + b| - 1] == a + b';
      assert (a + b)[|a + b| - 1] == b[|b| - 1];
    } else {
      assert a + b == a;
    }
  }

  /** Taking one sub-model out of the middle removes exactly its votes. */
  lemma RemoveAt(b: seq<Vote>, p: nat, lab: int)
    requires AllWellFormed(b) && p < |b|
    ensures AllWellFormed(b[..p] + b[p + 1..])
    ensures TotalSum(b, lab) == TotalSum(b[..p] + b[p + 1..], lab) + SumOf(b[p], lab)
    ensures TotalCount(b, lab) == TotalCount(b[..p] + b[p + 1..], lab) + CountOf(b[p], lab)
    ensures multiset(b[..p] + b[p + 1..]) == multiset(b) - multiset{b[p]}
  {
    assert b == b[..p] + [b[p]] + b[p + 1..];
    TotalAppend(b[..p], [b[p]], lab);
    TotalAppend(b[..p] + [b[p]], b[p + 1..], lab);
    TotalAppend(b[..p], b[p + 1..], lab);
    assert [b[p]][..0] == [];
  }

  /** Absorbing the same sub-models in any order gives the same tallies. */
  lemma {:induction false} TotalPermutation(a: seq<Vote>, b: seq<Vote>, lab: int)
    requires AllWellFormed(a) && multiset(a) == multiset(b)
    ensures AllWellFormed(b)
    ensures TotalSum(a, lab) == TotalSum(b, lab)
    ensures TotalCount(a, lab) == TotalCount(b, lab)
  {
    assert AllWellFormed(b) by {
      forall i | 0 <= i < |b| ensures WellFormed(b[i]) {
        assert b[i] in multiset(a);
      }
    }
    if a != [] {
      var x := a[|a| - 1];
      var a' := a[..|a| - 1];
      assert a == a' + [x];
      assert multiset(a') == multiset(a) - multiset{x};
      assert x in multiset(b);
      var p :| 0 <= p < |b| && b[p] == x;
      RemoveAt(b, p, lab);
      TotalPermutation(a', b[..p] + b[p + 1..], lab);
    }
  }

  /** Absorbing sub-models one at a time (as `updatePrediction` does across
      calls) adds, at each step, exactly that sub-model's votes. */
  lemma AbsorbOneMore(votes: seq<Vote>, v: Vote, lab: int)
    requires AllWellFormed(votes) && WellFormed(v)
    ensures AllWellFormed(votes + [v])
    ensures TotalSum(votes + [v], lab) == TotalSum(votes, lab) + SumOf(v, lab)
    ensures TotalCount(votes + [v], lab) == TotalCount(votes, lab) + CountOf(v, lab)
  {
    assert (votes + [v])[..|votes|] == votes;
  }

  /** One instance's votes from the first n sub-models of the evaluation
      loop, each present while it voted: preds[j] is what sub-model j
      predicted for the instance. */
  function Column(subsets: seq<seq<int>>, preds: seq<seq<real>>, n: nat): (votes: seq<Vote>)
    requires n <= |subsets| && n <= |preds|
    ensures |votes| == n && forall j :: 0 <= j < n ==> votes[j] == Vote(subsets[j], true, preds[j])
  {
    seq(n, j requires 0 <= j < n && n <= |subsets| && n <= |preds| => Vote(subsets[j], true, preds[j]))
  }

  /** The same instance's votes in an ensemble of all the sub-models in
      which only the first n are present. */
  function Present(subsets: seq<seq<int>>, preds: seq<seq<real>>, n: nat): (votes: seq<Vote>)
    requires |subsets| == |preds|
    ensures |votes| == |subsets| && forall j :: 0 <= j < |subsets| ==> votes[j] == Vote(subsets[j], j < n, preds[j])
  {
    seq(|subsets|, j requires 0 <= j < |subsets| == |preds| => Vote(subsets[j], j < n, preds[j]))
  }

  /** Absorbing sub-models 0..n-1 one call at a time, releasing each after
      its votes are in, leaves the tallies an ensemble with exactly those n
      sub-models present computes in one batch. */
  lemma {:induction false} IncrementalIsEnsemble(subsets: seq<seq<int>>, preds: seq<seq<real>>, n: nat, lab: int)
    requires |subsets| == |preds| && n <= |subsets|
    requires forall j :: 0 <= j < |subsets| ==> |preds[j]| == |subsets[j]|
    ensures AllWellFormed(Column(subsets, preds, n)) && AllWellFormed(Present(subsets, preds, n))
    ensures TotalSum(Column(subsets, preds, n), lab) == TotalSum(Present(subsets, preds, n), lab)
    ensures TotalCount(Column(subsets, preds, n), lab) == TotalCount(Present(subsets, preds, n), lab)
    decreases |subsets|
  {
    var k := |subsets|;
    if n == k {
      assert Column(subsets, preds, n) == Present(subsets, preds, n);
    } else {
      IncrementalIsEnsemble(subsets[..k - 1], preds[..k - 1], n, lab);
      assert Column(subsets[..k - 1], preds[..k - 1], n) == Column(subsets, preds, n);
      assert Present(subsets, preds, n)[..k - 1] == Present(subsets[..k - 1], preds[..k - 1], n);
    }
  }

  /** One more step of the evaluation loop adds sub-model n's votes. */
  lemma ColumnGrow(subsets: seq<seq<int>>, preds: seq<seq<real>>, n: nat, lab: int)
    requires n < |subsets| && n < |preds|
    requires forall j :: 0 <= j <= n ==> |preds[j]| == |subsets[j]|
    ensures AllWellFormed(Column(subsets, preds, n)) && AllWellFormed(Column(subsets, preds, n + 1))
    ensures TotalSum(Column(subsets, preds, n + 1), lab) == TotalSum(Column(subsets, preds, n), lab) + VoteSum(subsets[n], preds[n], lab)
    ensures TotalCount(Column(subsets, preds, n + 1), lab) == TotalCount(Column(subsets, preds, n), lab) + VoteCount(subsets[n], lab)
  {
    assert Column(subsets, preds, n + 1)[..n] == Column(subsets, preds, n);
  }

  /** The votes of the first n sub-models depend only on those sub-models. */
  lemma ColumnPrefix(subsets: seq<seq<int>>, subsets': seq<seq<int>>, preds: seq<seq<real>>, n: nat)
    requires n <= |subsets| && n <= |subsets'| && n <= |preds|
    requires subsets[..n] == subsets'[..n]
    ensures Column(subsets, preds, n) == Column(subsets', preds, n)
  {
    assert forall j :: 0 <= j < n ==> subsets[j] == subsets[..n][j];
  }

  /** A label no sub-model voted on has sum 0 as well as count 0. */
  lemma {:induction false} UncoveredHasNoSum(votes: seq<Vote>, lab: int)
    requires AllWellFormed(votes) && TotalCount(votes, lab) == 0
    ensures TotalSum(votes, lab) == 0.0
  {
    if votes != [] {
      var v := votes[|votes| - 1];
      UncoveredHasNoSum(votes[..|votes| - 1], lab);
      if v.active {
        VoteCountZeroSum(v.subset, v.preds, lab);
      }
    }
  }

  lemma {:induction false} VoteCountZeroSum(subset: seq<int>, preds: seq<real>, lab: int)
    requires |preds| >= |subset| && VoteCount(subset, lab) == 0
    ensures VoteSum(subset, preds, lab) == 0.0
  {
    if subset != [] {
      VoteCountZeroSum(subset[..|subset| - 1], preds, lab);
    }
  }

  // ---------------------------------------------------------------------
  // Confidence and decision

  /** `sum / count` as a double: `None` is the NaN of 0 / 0, which is what a
      label no consulted sub-model covers gets (its sum is 0 as well). */
  function Confidence(sum: real, count: real): (c: Option<real>)
    ensures c.None? <==> count == 0.0
    ensures c.Some? ==> c.value * count == sum
  {
    if count == 0.0 then None else Some(sum / count)
  }

  /** `confidence >= 0.5`; a NaN confidence compares false, so an uncovered
      label is predicted negative. The reference definition that
      DecideByMajority is proved about. */
  function Decide(c: Option<real>): (positive: bool)
    ensures positive <==> c.Some? && c.value >= 0.5
  {
    match c
    case None => false
    case Some(x) => x >= 0.5
  }

  /** A label is positive iff at least half of the votes cast on it (by sum)
      are positive: sum / count >= 0.5 exactly when 2 * sum >= count. */
  lemma DecideByMajority(sum: real, count: real)
    requires count > 0.0
    ensures Decide(Confidence(sum, count)) <==> 2.0 * sum >= count
  {
    var c := sum / count;
    assert c * count == sum;
    if c >= 0.5 {
      assert sum >= 0.5 * count;
    } else {
      assert sum < 0.5 * count;
    }
  }

  /** A prediction as RAKEL returns it: per label, the bipartition decision
      and the confidence. */
  datatype Prediction = Prediction(labels: seq<bool>, confidences: seq<Option<real>>)

  /** The output built from the tallies: the reference definition that the
      prediction methods of RAKEL are stated against. */
  function PredictionOf(sums: seq<real>, counts: seq<real>): (p: Prediction)
    requires |sums| == |counts|
    ensures |p.labels| == |p.confidences| == |sums|
    ensures forall i :: 0 <= i < |sums| ==>
      p.confidences[i] == Confidence(sums[i], counts[i]) && (p.labels[i] <==> Decide(p.confidences[i]))
  {
    Prediction(seq(|sums|, i requires 0 <= i < |sums| => Decide(Confidence(sums[i], counts[i]))),
               seq(|sums|, i requires 0 <= i < |sums| => Confidence(sums[i], counts[i])))
  }
}
