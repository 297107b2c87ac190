/** The RAKEL ensemble object: its label subsets, the attribute columns each
    sub-model drops, the random draw of fresh subsets, the per-instance vote
    tallies kept across `updatePrediction` calls, the batch prediction and
    the parameter selection by cross-validation. The sub-models themselves
    (LabelPowerset classifiers over a base learner) are outside the model:
    a trained sub-model is a flag, and what it predicts for an instance is
    an argument. */
module Rakel {

  import opened Wrappers
  import opened RakelSubsets
  import opened RakelVotes
  import opened RakelSelection
  import Tables

  /** One cell of `getPredictions()`: decision, true value, confidence. */
  datatype BinaryPrediction = BinaryPrediction(predicted: bool, actual: bool, confidence: Option<real>)

  /** Weka's `Utils.eq`: equal up to 1e-6. */
  predicate NearlyEqual(a: real, b: real)
  {
    a == b || (a - b < 0.000001 && b - a < 0.000001)
  }

  function Zeros(n: nat): (z: seq<int>)
    ensures |z| == n && forall j :: 0 <= j < n ==> z[j] == 0
  {
    seq(n, _ => 0)
  }

  /** A Java `new int[rows][cols]`. */
  function ZeroRows(rows: nat, cols: nat): (z: seq<seq<int>>)
    ensures |z| == rows && forall i :: 0 <= i < rows ==> z[i] == Zeros(cols)
  {
    seq(rows, _ => Zeros(cols))
  }

  /** The cross-validation grid set by `setParamSets`. */
  datatype CvParams = CvParams(numFolds: int, minK: int, maxK: int, stepK: int, maxM: int,
                               thresholdStart: real, thresholdIncrement: real, thresholdSteps: int)

  /** The removal loop of `updateClassifier`: walks the `selected` mask and
      writes the column numPredictors + j of every unselected label j into
      an array of the expected length. */
  method ListRemoved(selected: seq<bool>, numPredictors: int, size: nat) returns (toRemove: array<int>)
    requires size == |IndicesWhere(selected, false)|
    ensures fresh(toRemove)
    ensures toRemove[..] == RemovedAttributes(selected, numPredictors)
  {
    toRemove := new int[size];
    var k := 0;
    for j := 0 to |selected|
      invariant k == |IndicesWhere(selected[..j], false)| <= toRemove.Length
      invariant toRemove[..k] == RemovedAttributes(selected[..j], numPredictors)
    {
      RemovedAttributesGrow(selected, j, numPredictors);
      IndicesWhereGrow(selected, j, false);
      IndicesWherePrefixLength(selected, j + 1, false);
      if !selected[j] {
        toRemove[k] := numPredictors + j;
        k := k + 1;
      }
    }
    assert selected[..|selected|] == selected;
  }

  /** The random draw of `updateClassifier`, by its net effect: the retry
      loop stops at the first sorted draw not already in `used`, so what it
      yields is some key of the right size outside `used`; which one depends
      on the random generator and is left open. */
  method DrawFreshKey(used: set<seq<int>>, n: nat, k: nat) returns (key: seq<int>)
    requires |used| < Choose(n, k)
    ensures IsKey(key, n, k) && key !in used
  {
    FreshKeyExists(used, n, k);
    key :| key in KeyList(n, k) && key !in used;
    KeyListMembership(n, k, key);
  }

  /** The tally loop of `updatePrediction`: every position j of the subset
      adds preds[j] to the sum and 1 to the count of label subset[j], in row
      `row` of the per-instance tallies. */
  method AbsorbIncremental(sums: array2<real>, counts: array2<real>, row: nat, subset: seq<int>, preds: seq<real>)
    requires sums != counts && row < sums.Length0 == counts.Length0 && sums.Length1 == counts.Length1
    requires InRange(subset, sums.Length1) && |preds| >= |subset|
    modifies sums, counts
    ensures forall i, l :: 0 <= i < sums.Length0 && 0 <= l < sums.Length1 ==>
      sums[i, l] == old(sums[i, l]) + (if i == row then VoteSum(subset, preds, l) else 0.0)
    ensures forall i, l :: 0 <= i < counts.Length0 && 0 <= l < counts.Length1 ==>
      counts[i, l] == old(counts[i, l]) + (if i == row then VoteCount(subset, l) as real else 0.0)
  {
    assert subset[..0] == [];
    assert forall l :: VoteSum(subset[..0], preds, l) == 0.0 && VoteCount(subset[..0], l) == 0;
    for j := 0 to |subset|
      invariant forall i, l :: 0 <= i < sums.Length0 && 0 <= l < sums.Length1 ==>
        sums[i, l] == old(sums[i, l]) + (if i == row then VoteSum(subset[..j], preds, l) else 0.0)
      invariant forall i, l :: 0 <= i < counts.Length0 && 0 <= l < counts.Length1 ==>
        counts[i, l] == old(counts[i, l]) + (if i == row then VoteCount(subset[..j], l) as real else 0.0)
    {
      assert subset[..j + 1][..j] == subset[..j];
      sums[row, subset[j]] := sums[row, subset[j]] + preds[j];
      counts[row, subset[j]] := counts[row, subset[j]] + 1.0;
    }
    assert subset[..|subset|] == subset;
  }

  /** The tally loop of `makePrediction`, for one sub-model. */
  method Absorb(sums: array<real>, counts: array<real>, subset: seq<int>, preds: seq<real>)
    requires sums != counts && sums.Length == counts.Length
    requires InRange(subset, sums.Length) && |preds| >= |subset|
    modifies sums, counts
    ensures forall l :: 0 <= l < sums.Length ==>
      sums[l] == old(sums[l]) + VoteSum(subset, preds, l) && counts[l] == old(counts[l]) + VoteCount(subset, l) as real
  {
    for j := 0 to |subset|
      invariant forall l :: 0 <= l < sums.Length ==>
        sums[l] == old(sums[l]) + VoteSum(subset[..j], preds, l)
        && counts[l] == old(counts[l]) + VoteCount(subset[..j], l) as real
    {
      assert subset[..j + 1][..j] == subset[..j];
      sums[subset[j]] := sums[subset[j]] + preds[j];
      counts[subset[j]] := counts[subset[j]] + 1.0;
    }
    assert subset[..|subset|] == subset;
  }

  /** The decision loop shared by both predictions: confidence sum / count
      per label, positive when it is at least 0.5. */
  method Decisions(sums: seq<real>, counts: seq<real>) returns (p: Prediction)
    requires |sums| == |counts|
    ensures p == PredictionOf(sums, counts)
  {
    var confidence := new Option<real>[|sums|];
    var labels := new bool[|sums|];
    for i := 0 to |sums|
      invariant forall l :: 0 <= l < i ==>
        confidence[l] == Confidence(sums[l], counts[l]) && (labels[l] <==> Decide(confidence[l]))
    {
      confidence[i] := Confidence(sums[i], counts[i]);
      labels[i] := confidence[i].Some? && confidence[i].value >= 0.5;
    }
    p := Prediction(labels[..], confidence[..]);
    assert p.labels == PredictionOf(sums, counts).labels;
    assert p.confidences == PredictionOf(sums, counts).confidences;
  }

  /** The inner loop of `updatePredictions`: row `row` of the prediction
      table gets, per label, the decision and confidence of `p` and whether
      the instance's true value for the label is 1. */
  method RecordRow(table: array2<Option<BinaryPrediction>>, row: nat, p: Prediction, actual: seq<real>)
    requires row < table.Length0
    requires |p.labels| == |p.confidences| == |actual| == table.Length1
    modifies table
    ensures forall i, j :: 0 <= i < table.Length0 && 0 <= j < table.Length1 ==>
      table[i, j] == if i == row then Some(BinaryPrediction(p.labels[j], NearlyEqual(1.0, actual[j]), p.confidences[j]))
                     else old(table[i, j])
  {
    for j := 0 to table.Length1
      invariant forall i, l :: 0 <= i < table.Length0 && 0 <= l < table.Length1 ==>
        table[i, l] == if i == row && l < j then Some(BinaryPrediction(p.labels[l], NearlyEqual(1.0, actual[l]), p.confidences[l]))
                       else old(table[i, l])
    {
      table[row, j] := Some(BinaryPrediction(p.labels[j], NearlyEqual(1.0, actual[j]), p.confidences[j]));
    }
  }

  /** The subsets of the first i ensemble slots. */
  function Drawn(rows: seq<seq<int>>, i: nat): set<seq<int>>
    requires i <= |rows|
  {
    if i == 0 then {} else Drawn(rows, i - 1) + {rows[i - 1]}
  }

  /** `Drawn` holds exactly the subsets of the slots below i. */
  lemma {:induction false} DrawnMembers(rows: seq<seq<int>>, i: nat, x: seq<int>)
    requires i <= |rows|
    ensures x in Drawn(rows, i) <==> exists j :: 0 <= j < i && rows[j] == x
  {
    if i > 0 {
      DrawnMembers(rows, i - 1, x);
    }
  }

  /** `Drawn` depends only on the slots below i. */
  lemma {:induction false} DrawnPrefix(before: seq<seq<int>>, after: seq<seq<int>>, i: nat)
    requires i <= |after| && i <= |before|
    requires forall j :: 0 <= j < i ==> after[j] == before[j]
    ensures Drawn(after, i) == Drawn(before, i)
  {
    if i > 0 {
      DrawnPrefix(before, after, i - 1);
    }
  }

  /** The first i ensemble slots are trained, each on a subset of `size` of
      the `numLabels` labels, with the attribute indices its training set
      drops. */
  predicate TrainedPrefix(rows: seq<seq<int>>, removed: seq<seq<int>>, trained: seq<bool>, i: nat,
                          numLabels: nat, size: nat, numPredictors: int)
    requires i <= |rows| && i <= |removed| && i <= |trained|
  {
    i == 0 ||
    (TrainedPrefix(rows, removed, trained, i - 1, numLabels, size, numPredictors)
     && trained[i - 1] && IsKey(rows[i - 1], numLabels, size)
     && removed[i - 1] == RemovedAttributes(Mask(rows[i - 1], numLabels), numPredictors))
  }

  /** A trained prefix stays trained when only later slots change. */
  lemma {:induction false} TrainedPrefixFrame(rows: seq<seq<int>>, removed: seq<seq<int>>, trained: seq<bool>,
                                              rows': seq<seq<int>>, removed': seq<seq<int>>, trained': seq<bool>,
                                              i: nat, numLabels: nat, size: nat, numPredictors: int)
    requires i <= |rows| && i <= |removed| && i <= |trained|
    requires i <= |rows'| && i <= |removed'| && i <= |trained'|
    requires forall j :: 0 <= j < i ==> rows'[j] == rows[j] && removed'[j] == removed[j] && trained'[j] == trained[j]
    requires TrainedPrefix(rows, removed, trained, i, numLabels, size, numPredictors)
    ensures TrainedPrefix(rows', removed', trained', i, numLabels, size, numPredictors)
  {
    if i > 0 {
      TrainedPrefixFrame(rows, removed, trained, rows', removed', trained', i - 1, numLabels, size, numPredictors);
    }
  }

  /** Training slot i on a subset not drawn before extends the trained prefix. */
  lemma TrainedPrefixGrow(rows: seq<seq<int>>, removed: seq<seq<int>>, trained: seq<bool>,
                          rows': seq<seq<int>>, removed': seq<seq<int>>, trained': seq<bool>, i: nat,
                          numLabels: nat, size: nat, numPredictors: int)
    requires i < |rows| == |removed| == |trained|
    requires TrainedPrefix(rows, removed, trained, i, numLabels, size, numPredictors)
    requires |rows'| == |rows| && rows' == rows[i := rows'[i]]
    requires IsKey(rows'[i], numLabels, size)
    requires removed' == removed[i := RemovedAttributes(Mask(rows'[i], numLabels), numPredictors)]
    requires trained' == trained[i := true]
    ensures TrainedPrefix(rows', removed', trained', i + 1, numLabels, size, numPredictors)
    ensures Drawn(rows', i + 1) == Drawn(rows, i) + {rows'[i]}
  {
    TrainedPrefixFrame(rows, removed, trained, rows', removed', trained', i, numLabels, size, numPredictors);
    DrawnPrefix(rows, rows', i);
  }

  /** What a trained prefix means slot by slot: every slot is trained on a
      subset with its dropped attributes. */
  lemma {:induction false} TrainedPrefixMeans(rows: seq<seq<int>>, removed: seq<seq<int>>, trained: seq<bool>,
                                              i: nat, numLabels: nat, size: nat, numPredictors: int)
    requires i <= |rows| && i <= |removed| && i <= |trained|
    requires TrainedPrefix(rows, removed, trained, i, numLabels, size, numPredictors)
    ensures forall j :: 0 <= j < i ==>
      trained[j] && IsKey(rows[j], numLabels, size)
      && removed[j] == RemovedAttributes(Mask(rows[j], numLabels), numPredictors)
  {
    if i > 0 {
      TrainedPrefixMeans(rows, removed, trained, i - 1, numLabels, size, numPredictors);
    }
  }

  /** The first i slots hold at most i distinct subsets... */
  lemma {:induction false} DrawnSize(rows: seq<seq<int>>, i: nat)
    requires i <= |rows|
    ensures |Drawn(rows, i)| <= i
  {
    if i > 0 {
      DrawnSize(rows, i - 1);
    }
  }

  /** ...and exactly i only when no two of them share a subset. */
  lemma {:induction false} DrawnDistinct(rows: seq<seq<int>>, i: nat)
    requires i <= |rows| && |Drawn(rows, i)| == i
    ensures forall j, j' :: 0 <= j < j' < i ==> rows[j] != rows[j']
  {
    if i > 0 {
      DrawnSize(rows, i - 1);
      assert rows[i - 1] !in Drawn(rows, i - 1);
      DrawnDistinct(rows, i - 1);
      forall j | 0 <= j < i - 1 ensures rows[j] != rows[i - 1] {
        DrawnMembers(rows, i - 1, rows[j]);
      }
    }
  }

  /** The cells of a matrix, as values. */
  function Cells<T>(a: array2<T>): (c: seq<seq<T>>)
    reads a
    ensures |c| == a.Length0
    ensures forall i :: 0 <= i < a.Length0 ==> |c[i]| == a.Length1
    ensures forall i, j :: 0 <= i < a.Length0 && 0 <= j < a.Length1 ==> c[i][j] == a[i, j]
  {
    seq(a.Length0, i requires 0 <= i < a.Length0 reads a =>
      seq(a.Length1, j requires 0 <= j < a.Length1 reads a => a[i, j]))
  }

  class Rakel {
    var numLabels: nat
    var numOfModels: nat
    var sizeOfSubset: nat
    /** Sorted labels of each sub-model's subset. */
    var classIndicesPerSubset: seq<seq<int>>
    /** Attribute columns each sub-model's training data drops. */
    var absoluteIndicesToRemove: seq<seq<int>>
    /** `subsetClassifiers[i] != null`. */
    var trained: seq<bool>
    /** Canonical keys of the subsets drawn so far (`combinations`). */
    var combinations: set<seq<int>>
    var sumVotes: array<real>
    var lengthVotes: array<real>
    var sumVotesIncremental: array2?<real>
    var lengthVotesIncremental: array2?<real>
    var predictions: array2?<Option<BinaryPrediction>>
    /** Inherited decision threshold; only the parameter selection sets it. */
    var threshold: real
    var cvParamSelection: bool
    var cv: CvParams

    ghost predicate Valid()
      reads this
    {
      ValidSubsets() && ValidStorage()
    }

    /** One subset per model slot, each of `sizeOfSubset` label indices. */
    ghost predicate ValidSubsets()
      reads this
    {
      sizeOfSubset <= numLabels
      && |classIndicesPerSubset| == numOfModels
      && |absoluteIndicesToRemove| == numOfModels
      && |trained| == numOfModels
      && (forall i :: 0 <= i < numOfModels ==>
            |classIndicesPerSubset[i]| == sizeOfSubset && InRange(classIndicesPerSubset[i], numLabels))
    }

    /** One tally cell per label, and per evaluated instance once allocated. */
    ghost predicate ValidStorage()
      reads this
    {
      sumVotes.Length == numLabels && lengthVotes.Length == numLabels && sumVotes != lengthVotes
      && (sumVotesIncremental == null <==> predictions == null)
      && (lengthVotesIncremental == null <==> predictions == null)
      && (predictions != null ==>
            sumVotesIncremental != null && lengthVotesIncremental != null
            && sumVotesIncremental != lengthVotesIncremental
            && sumVotesIncremental.Length1 == numLabels && lengthVotesIncremental.Length1 == numLabels
            && predictions.Length1 == numLabels
            && sumVotesIncremental.Length0 == predictions.Length0
            && lengthVotesIncremental.Length0 == predictions.Length0)
    }

    /** The arrays the ensemble owns (references only). */
    function Storage(): (array<real>, array<real>, array2?<real>, array2?<real>, array2?<Option<BinaryPrediction>>)
      reads this
    {
      (sumVotes, lengthVotes, sumVotesIncremental, lengthVotesIncremental, predictions)
    }

    /** The ensemble's configuration and subsets. */
    function Shape(): (nat, nat, nat, seq<seq<int>>, seq<seq<int>>, seq<bool>, set<seq<int>>, real)
      reads this
    {
      (numLabels, numOfModels, sizeOfSubset, classIndicesPerSubset, absoluteIndicesToRemove, trained, combinations, threshold)
    }

    constructor (labels: nat, models: nat, subset: nat)
      requires subset <= labels
      ensures Valid()
      ensures numLabels == labels && numOfModels == models && sizeOfSubset == subset
      ensures classIndicesPerSubset == ZeroRows(models, subset)
      ensures absoluteIndicesToRemove == ZeroRows(models, subset)
      ensures trained == seq(models, _ => false)
      ensures combinations == {}
      ensures fresh(sumVotes) && fresh(lengthVotes)
      ensures sumVotesIncremental == null && lengthVotesIncremental == null && predictions == null
      ensures !cvParamSelection
    {
      numLabels := labels;
      numOfModels := models;
      sizeOfSubset := subset;
      classIndicesPerSubset := ZeroRows(models, subset);
      absoluteIndicesToRemove := ZeroRows(models, subset);
      trained := seq(models, _ => false);
      combinations := {};
      sumVotes := new real[labels];
      lengthVotes := new real[labels];
      sumVotesIncremental := null;
      lengthVotesIncremental := null;
      predictions := null;
      cvParamSelection := false;
    }

    /** `setSizeOfSubset`: new size, every subset row reset to zeros. */
    method SetSizeOfSubset(size: nat)
      requires Valid() && size <= numLabels
      modifies this
      ensures Valid()
      ensures sizeOfSubset == size
      ensures classIndicesPerSubset == ZeroRows(numOfModels, size)
      ensures absoluteIndicesToRemove == ZeroRows(numOfModels, size)
      ensures numLabels == old(numLabels) && numOfModels == old(numOfModels)
      ensures trained == old(trained) && combinations == old(combinations) && threshold == old(threshold)
      ensures Storage() == old(Storage()) && cv == old(cv) && cvParamSelection == old(cvParamSelection)
    {
      sizeOfSubset := size;
      classIndicesPerSubset := ZeroRows(numOfModels, size);
      absoluteIndicesToRemove := ZeroRows(numOfModels, size);
    }

    /** `setNumModels`: new ensemble size, rows reset, every sub-model gone. */
    method SetNumModels(models: nat)
      requires Valid()
      modifies this
      ensures Valid()
      ensures numOfModels == models
      ensures classIndicesPerSubset == ZeroRows(models, sizeOfSubset)
      ensures absoluteIndicesToRemove == ZeroRows(models, sizeOfSubset)
      ensures trained == seq(models, _ => false)
      ensures numLabels == old(numLabels) && sizeOfSubset == old(sizeOfSubset)
      ensures combinations == old(combinations) && threshold == old(threshold)
      ensures Storage() == old(Storage()) && cv == old(cv) && cvParamSelection == old(cvParamSelection)
    {
      numOfModels := models;
      classIndicesPerSubset := ZeroRows(models, sizeOfSubset);
      absoluteIndicesToRemove := ZeroRows(models, sizeOfSubset);
      trained := seq(models, _ => false);
    }

    method SetParamSets(numFolds: int, minK: int, maxK: int, stepK: int, maxM: int,
                        thresholdStart: real, thresholdIncrement: real, thresholdSteps: int)
      modifies this
      ensures cv == CvParams(numFolds, minK, maxK, stepK, maxM, thresholdStart, thresholdIncrement, thresholdSteps)
      ensures Shape() == old(Shape()) && Storage() == old(Storage()) && cvParamSelection == old(cvParamSelection)
    {
      cv := CvParams(numFolds, minK, maxK, stepK, maxM, thresholdStart, thresholdIncrement, thresholdSteps);
    }

    method SetParamSelectionViaCV(flag: bool)
      modifies this
      ensures cvParamSelection == flag
      ensures Shape() == old(Shape()) && Storage() == old(Storage()) && cv == old(cv)
    {
      cvParamSelection := flag;
    }

    /** `nullSubsetClassifier`: drop one sub-model. */
    method NullSubsetClassifier(i: int)
      requires Valid() && 0 <= i < numOfModels
      modifies this
      ensures Valid()
      ensures trained == old(trained)[i := false]
      ensures numLabels == old(numLabels) && numOfModels == old(numOfModels) && sizeOfSubset == old(sizeOfSubset)
      ensures classIndicesPerSubset == old(classIndicesPerSubset) && absoluteIndicesToRemove == old(absoluteIndicesToRemove)
      ensures combinations == old(combinations) && threshold == old(threshold)
      ensures Storage() == old(Storage()) && cv == old(cv) && cvParamSelection == old(cvParamSelection)
    {
      trained := trained[i := false];
    }

    /** `updateClassifier`: draw a label subset of size `sizeOfSubset` not
        drawn before (the retry loop ends exactly when the sorted draw is new
        to `combinations`, so its net effect is a fresh key), record it, list
        the attribute columns of the labels left out, and train sub-model
        `model` on the rest. A fresh subset must remain, or the draw loops for
        ever. */
    method UpdateClassifier(numAttributes: int, model: int)
      requires Valid() && 0 <= model < numOfModels
      requires |combinations| < Choose(numLabels, sizeOfSubset)
      modifies this
      ensures numLabels == old(numLabels) && numOfModels == old(numOfModels) && sizeOfSubset == old(sizeOfSubset)
      ensures threshold == old(threshold) && Storage() == old(Storage())
      ensures cv == old(cv) && cvParamSelection == old(cvParamSelection)
      ensures Valid()
      ensures IsKey(classIndicesPerSubset[model], numLabels, sizeOfSubset)
      ensures classIndicesPerSubset[model] !in old(combinations)
      ensures combinations == old(combinations) + {classIndicesPerSubset[model]}
      ensures classIndicesPerSubset == old(classIndicesPerSubset)[model := classIndicesPerSubset[model]]
      ensures absoluteIndicesToRemove == old(absoluteIndicesToRemove)[model :=
                RemovedAttributes(Mask(classIndicesPerSubset[model], numLabels), numAttributes - numLabels)]
      ensures trained == old(trained)[model := true]
    {
      var key := DrawFreshKey(combinations, numLabels, sizeOfSubset);
      var selected := Mask(key, numLabels);
      MaskRoundTrip(key, numLabels);
      classIndicesPerSubset := classIndicesPerSubset[model := IndicesWhere(selected, true)];
      combinations := combinations + {key};

      // remove the unselected labels
      IndicesWhereSplit(selected);
      var toRemove := ListRemoved(selected, numAttributes - numLabels, numLabels - sizeOfSubset);
      absoluteIndicesToRemove := absoluteIndicesToRemove[model := toRemove[..]];
      trained := trained[model := true];
    }

    /** The sub-models' votes for one instance, given what each sub-model
        predicted (ignored for a released sub-model). */
    ghost function Votes(modelPreds: seq<seq<real>>): (votes: seq<Vote>)
      reads this
      requires Valid() && |modelPreds| == numOfModels
      ensures |votes| == numOfModels
      ensures forall i :: 0 <= i < numOfModels ==>
        votes[i] == Vote(classIndicesPerSubset[i], trained[i], modelPreds[i])
    {
      seq(numOfModels, i requires 0 <= i < numOfModels && Valid() && |modelPreds| == numOfModels reads this =>
        Vote(classIndicesPerSubset[i], trained[i], modelPreds[i]))
    }

    /** `updatePrediction`: absorb sub-model `model`'s votes for instance
        `instanceNumber` into that instance's running tallies and return the
        instance's prediction from the tallies so far. A released sub-model
        makes the call fail before any tally changes. */
    method UpdatePrediction(instanceNumber: int, model: int, preds: seq<real>) returns (r: Option<Prediction>)
      requires Valid() && predictions != null
      requires 0 <= instanceNumber < predictions.Length0 && 0 <= model < numOfModels
      requires |preds| == sizeOfSubset
      modifies sumVotesIncremental, lengthVotesIncremental
      ensures r.None? <==> !trained[model]
      ensures forall i, l :: 0 <= i < predictions.Length0 && 0 <= l < numLabels ==>
        sumVotesIncremental[i, l] == old(sumVotesIncremental[i, l])
          + (if i == instanceNumber && trained[model] then VoteSum(classIndicesPerSubset[model], preds, l) else 0.0)
      ensures forall i, l :: 0 <= i < predictions.Length0 && 0 <= l < numLabels ==>
        lengthVotesIncremental[i, l] == old(lengthVotesIncremental[i, l])
          + (if i == instanceNumber && trained[model] then VoteCount(classIndicesPerSubset[model], l) as real else 0.0)
      ensures r.Some? ==>
        r.value == PredictionOf(Tables.Row(sumVotesIncremental, instanceNumber), Tables.Row(lengthVotesIncremental, instanceNumber))
    {
      if !trained[model] {
        return None;
      }
      AbsorbIncremental(sumVotesIncremental, lengthVotesIncremental, instanceNumber, classIndicesPerSubset[model], preds);
      var p := Decisions(Tables.Row(sumVotesIncremental, instanceNumber), Tables.Row(lengthVotesIncremental, instanceNumber));
      r := Some(p);
    }

    /** `makePrediction`: clear the tallies, add the votes of every
        sub-model still present, and decide each label from its confidence. */
    method MakePrediction(modelPreds: seq<seq<real>>) returns (p: Prediction)
      requires Valid() && |modelPreds| == numOfModels
      requires forall i :: 0 <= i < numOfModels && trained[i] ==> |modelPreds[i]| == sizeOfSubset
      modifies sumVotes, lengthVotes
      ensures AllWellFormed(Votes(modelPreds))
      ensures forall l :: 0 <= l < numLabels ==>
        sumVotes[l] == TotalSum(Votes(modelPreds), l) && lengthVotes[l] == TotalCount(Votes(modelPreds), l) as real
      ensures p == PredictionOf(sumVotes[..], lengthVotes[..])
    {
      ghost var votes := Votes(modelPreds);
      assert AllWellFormed(votes);
      forall l | 0 <= l < numLabels {
        sumVotes[l] := 0.0;
      }
      forall l | 0 <= l < numLabels {
        lengthVotes[l] := 0.0;
      }
      for i := 0 to numOfModels
        invariant forall l :: 0 <= l < numLabels ==>
          sumVotes[l] == TotalSum(votes[..i], l) && lengthVotes[l] == TotalCount(votes[..i], l) as real
      {
        assert votes[..i + 1][..i] == votes[..i];
        if !trained[i] {
          continue;
        }
        Absorb(sumVotes, lengthVotes, classIndicesPerSubset[i], modelPreds[i]);
      }
      assert votes[..numOfModels] == votes;
      p := Decisions(sumVotes[..], lengthVotes[..]);
    }

    /** First use of `updatePredictions`: a prediction table of nulls and
        zeroed per-instance tallies for n test instances. */
    method AllocatePredictions(n: nat)
      requires Valid()
      modifies this
      ensures Valid() && Shape() == old(Shape()) && cv == old(cv) && cvParamSelection == old(cvParamSelection)
      ensures sumVotes == old(sumVotes) && lengthVotes == old(lengthVotes)
      ensures fresh(predictions) && fresh(sumVotesIncremental) && fresh(lengthVotesIncremental)
      ensures predictions != null && predictions.Length0 == n
      ensures forall i, l :: 0 <= i < n && 0 <= l < numLabels ==>
        predictions[i, l] == None && sumVotesIncremental[i, l] == 0.0 && lengthVotesIncremental[i, l] == 0.0
    {
      predictions := new Option<BinaryPrediction>[n, numLabels]((i, j) => None);
      sumVotesIncremental := new real[n, numLabels]((i, j) => 0.0);
      lengthVotesIncremental := new real[n, numLabels]((i, j) => 0.0);
    }

    /** `updatePredictions`: on first use allocate the prediction table and
        the per-instance tallies for the test set; then absorb sub-model
        `model`'s votes for every test instance and record each instance's
        resulting prediction. `modelPreds[i]` is what the sub-model predicts
        for instance i and `actual[i]` the instance's label values. */
    method UpdatePredictions(model: int, modelPreds: seq<seq<real>>, actual: seq<seq<real>>)
      requires Valid() && 0 <= model < numOfModels
      requires |modelPreds| > 0 ==> trained[model]
      requires |actual| == |modelPreds|
      requires forall i :: 0 <= i < |modelPreds| ==> |modelPreds[i]| == sizeOfSubset && |actual[i]| == numLabels
      requires predictions != null ==> |modelPreds| <= predictions.Length0
      modifies this, sumVotesIncremental, lengthVotesIncremental, predictions
      ensures Valid() && Shape() == old(Shape()) && cv == old(cv) && cvParamSelection == old(cvParamSelection)
      ensures sumVotes == old(sumVotes) && lengthVotes == old(lengthVotes)
      ensures old(predictions) == null ==>
        fresh(predictions) && fresh(sumVotesIncremental) && fresh(lengthVotesIncremental)
        && predictions.Length0 == |modelPreds|
        && forall i, l :: 0 <= i < |modelPreds| && 0 <= l < numLabels ==>
             sumVotesIncremental[i, l] == VoteSum(classIndicesPerSubset[model], modelPreds[i], l)
             && lengthVotesIncremental[i, l] == VoteCount(classIndicesPerSubset[model], l) as real
      ensures old(predictions) != null ==>
        predictions == old(predictions) && sumVotesIncremental == old(sumVotesIncremental)
        && lengthVotesIncremental == old(lengthVotesIncremental)
        && forall i, l :: 0 <= i < predictions.Length0 && 0 <= l < numLabels ==>
             sumVotesIncremental[i, l] == old(sumVotesIncremental[i, l])
               + (if i < |modelPreds| then VoteSum(classIndicesPerSubset[model], modelPreds[i], l) else 0.0)
             && lengthVotesIncremental[i, l] == old(lengthVotesIncremental[i, l])
               + (if i < |modelPreds| then VoteCount(classIndicesPerSubset[model], l) as real else 0.0)
             && (i >= |modelPreds| ==> predictions[i, l] == old(predictions[i, l]))
      ensures forall i, l :: 0 <= i < |modelPreds| && 0 <= l < numLabels ==>
        var c := Confidence(sumVotesIncremental[i, l], lengthVotesIncremental[i, l]);
        predictions[i, l] == Some(BinaryPrediction(Decide(c), NearlyEqual(1.0, actual[i][l]), c))
    {
      if predictions == null {
        AllocatePredictions(|modelPreds|);
      }
      RecordAll(model, modelPreds, actual);
    }

    /** The loop of `updatePredictions` over the test instances, once the
        table and the per-instance tallies exist. */
    method RecordAll(model: int, modelPreds: seq<seq<real>>, actual: seq<seq<real>>)
      requires Valid() && 0 <= model < numOfModels && predictions != null
      requires |modelPreds| > 0 ==> trained[model]
      requires |actual| == |modelPreds| <= predictions.Length0
      requires forall i :: 0 <= i < |modelPreds| ==> |modelPreds[i]| == sizeOfSubset && |actual[i]| == numLabels
      modifies sumVotesIncremental, lengthVotesIncremental, predictions
      ensures forall i, l :: 0 <= i < predictions.Length0 && 0 <= l < numLabels ==>
        sumVotesIncremental[i, l] == old(sumVotesIncremental[i, l])
          + (if i < |modelPreds| then VoteSum(classIndicesPerSubset[model], modelPreds[i], l) else 0.0)
        && lengthVotesIncremental[i, l] == old(lengthVotesIncremental[i, l])
          + (if i < |modelPreds| then VoteCount(classIndicesPerSubset[model], l) as real else 0.0)
        && (i >= |modelPreds| ==> predictions[i, l] == old(predictions[i, l]))
      ensures forall i, l :: 0 <= i < |modelPreds| && 0 <= l < numLabels ==>
        var c := Confidence(sumVotesIncremental[i, l], lengthVotesIncremental[i, l]);
        predictions[i, l] == Some(BinaryPrediction(Decide(c), NearlyEqual(1.0, actual[i][l]), c))
    {
      var sums, counts, table := sumVotesIncremental, lengthVotesIncremental, predictions;
      ghost var sums0 := Cells(sums);
      ghost var counts0 := Cells(counts);
      ghost var table0 := Cells(table);
      var subset := classIndicesPerSubset[model];
      for i := 0 to |modelPreds|
        modifies sums, counts, table
        invariant forall r, l :: 0 <= r < sums.Length0 && 0 <= l < numLabels ==>
          sums[r, l] == sums0[r][l] + (if r < i then VoteSum(subset, modelPreds[r], l) else 0.0)
          && counts[r, l] == counts0[r][l] + (if r < i then VoteCount(subset, l) as real else 0.0)
        invariant forall r, l :: 0 <= r < table.Length0 && 0 <= l < numLabels ==>
          if r < i then
            var c := Confidence(sums[r, l], counts[r, l]);
            table[r, l] == Some(BinaryPrediction(Decide(c), NearlyEqual(1.0, actual[r][l]), c))
          else table[r, l] == table0[r][l]
      {
        var result := UpdatePrediction(i, model, modelPreds[i]);
        RecordRow(table, i, result.value, actual[i]);
      }
    }

    /** The cross-validation settings read as a grid. */
    predicate SelectionArgs(metric: seq<seq<real>>)
      reads this
    {
      cv.numFolds > 0 && GridArgs(numLabels, cv.minK, cv.maxK, cv.stepK)
      && Recorded(metric, cv.numFolds, |Grid(numLabels, cv.minK, cv.maxK, cv.stepK, cv.maxM, cv.thresholdSteps)|)
    }

    function SelectionGrid(): seq<Setting>
      reads this`numLabels, this`cv
      requires GridArgs(numLabels, cv.minK, cv.maxK, cv.stepK)
    {
      Grid(numLabels, cv.minK, cv.maxK, cv.stepK, cv.maxM, cv.thresholdSteps)
    }

    /** The ensemble is configured for setting s with `models` sub-models. */
    predicate Applied(s: Setting, models: int)
      reads this
    {
      sizeOfSubset == s.k && numOfModels == models
      && threshold == cv.thresholdStart + cv.thresholdIncrement * s.t as real
    }

    /** `paramSelectionViaCV` as written: the chosen model index m itself
        becomes the ensemble size. */
    method ParamSelectionViaCVAsWritten(metric: seq<seq<real>>)
      requires Valid() && SelectionArgs(metric)
      modifies this
      ensures Valid() && numLabels == old(numLabels) && combinations == old(combinations)
      ensures Storage() == old(Storage()) && cv == old(cv) && cvParamSelection == old(cvParamSelection)
      ensures NoneBelowOne(metric, cv.numFolds, |SelectionGrid()|) ==> Shape() == old(Shape())
      ensures !NoneBelowOne(metric, cv.numFolds, |SelectionGrid()|) ==>
        (exists at :: Selects(metric, cv.numFolds, |SelectionGrid()|, at)
          && Applied(SelectionGrid()[at], ModelsAsWritten(SelectionGrid()[at])))
        && numOfModels <= Choose(numLabels, sizeOfSubset)
    {
      ghost var grid := SelectionGrid();
      var best, at := SelectParams(metric, cv.numFolds, numLabels, cv.minK, cv.maxK, cv.stepK, cv.maxM, cv.thresholdSteps);
      if best.Some? {
        GridAt(numLabels, cv.minK, cv.maxK, cv.stepK, cv.maxM, cv.thresholdSteps, at);
        var chosen := best.value;
        var chosenThreshold := cv.thresholdStart + cv.thresholdIncrement * chosen.t as real;
        SetSizeOfSubset(chosen.k);
        SetNumModels(chosen.m);
        threshold := chosenThreshold;
        assert Applied(grid[at], ModelsAsWritten(grid[at]));
      }
    }

    /** `paramSelectionViaCV` corrected: the losses at model index m were
        measured on models 0..m, so the ensemble keeps m + 1 of them, which
        never exceeds the number of distinct subsets. */
    method ParamSelectionViaCV(metric: seq<seq<real>>)
      requires Valid() && SelectionArgs(metric)
      modifies this
      ensures Valid() && numLabels == old(numLabels) && combinations == old(combinations)
      ensures Storage() == old(Storage()) && cv == old(cv) && cvParamSelection == old(cvParamSelection)
      ensures NoneBelowOne(metric, cv.numFolds, |SelectionGrid()|) ==> Shape() == old(Shape())
      ensures !NoneBelowOne(metric, cv.numFolds, |SelectionGrid()|) ==>
        (exists at :: Selects(metric, cv.numFolds, |SelectionGrid()|, at)
          && Applied(SelectionGrid()[at], ModelsEvaluated(SelectionGrid()[at])))
        && numOfModels <= Choose(numLabels, sizeOfSubset)
    {
      ghost var grid := SelectionGrid();
      var best, at := SelectParams(metric, cv.numFolds, numLabels, cv.minK, cv.maxK, cv.stepK, cv.maxM, cv.thresholdSteps);
      if best.Some? {
        GridAt(numLabels, cv.minK, cv.maxK, cv.stepK, cv.maxM, cv.thresholdSteps, at);
        var chosen := best.value;
        var chosenThreshold := cv.thresholdStart + cv.thresholdIncrement * chosen.t as real;
        SetSizeOfSubset(chosen.k);
        SetNumModels(chosen.m + 1);
        threshold := chosenThreshold;
        assert Applied(grid[at], ModelsEvaluated(grid[at]));
      }
    }

    /** `buildClassifier`: optionally select the parameters as
        `paramSelectionViaCV` is written (the chosen model index becomes the
        ensemble size), then draw a fresh subset and train a sub-model for
        every ensemble slot. The slots end up with pairwise distinct subsets,
        all recorded. Unless a selection is adopted, the configured ensemble
        size must not exceed the number of distinct subsets, or the draw
        never ends. */
    method BuildClassifier(numAttributes: int, metric: seq<seq<real>>)
      requires Valid()
      requires cvParamSelection ==> SelectionArgs(metric)
      requires (cvParamSelection && !NoneBelowOne(metric, cv.numFolds, |SelectionGrid()|))
               || numOfModels <= Choose(numLabels, sizeOfSubset)
      modifies this
      ensures Valid() && numLabels == old(numLabels) && Storage() == old(Storage()) && cv == old(cv)
      ensures old(cvParamSelection) ==> SelectionArgs(metric)
      ensures old(cvParamSelection) && !NoneBelowOne(metric, cv.numFolds, |SelectionGrid()|) ==>
        exists at :: Selects(metric, cv.numFolds, |SelectionGrid()|, at)
          && Applied(SelectionGrid()[at], ModelsAsWritten(SelectionGrid()[at]))
      ensures !(old(cvParamSelection) && !NoneBelowOne(metric, cv.numFolds, |SelectionGrid()|)) ==>
        numOfModels == old(numOfModels) && sizeOfSubset == old(sizeOfSubset) && threshold == old(threshold)
      ensures Trained(numAttributes)
    {
      if cvParamSelection {
        ParamSelectionViaCVAsWritten(metric);
      }
      TrainSelected(numAttributes);
    }

    /** `buildClassifier` over the corrected selection: the ensemble keeps
        the m + 1 sub-models the chosen losses were measured with. */
    method BuildClassifierCorrected(numAttributes: int, metric: seq<seq<real>>)
      requires Valid()
      requires cvParamSelection ==> SelectionArgs(metric)
      requires (cvParamSelection && !NoneBelowOne(metric, cv.numFolds, |SelectionGrid()|))
               || numOfModels <= Choose(numLabels, sizeOfSubset)
      modifies this
      ensures Valid() && numLabels == old(numLabels) && Storage() == old(Storage()) && cv == old(cv)
      ensures old(cvParamSelection) ==> SelectionArgs(metric)
      ensures old(cvParamSelection) && !NoneBelowOne(metric, cv.numFolds, |SelectionGrid()|) ==>
        exists at :: Selects(metric, cv.numFolds, |SelectionGrid()|, at)
          && Applied(SelectionGrid()[at], ModelsEvaluated(SelectionGrid()[at]))
      ensures !(old(cvParamSelection) && !NoneBelowOne(metric, cv.numFolds, |SelectionGrid()|)) ==>
        numOfModels == old(numOfModels) && sizeOfSubset == old(sizeOfSubset) && threshold == old(threshold)
      ensures Trained(numAttributes)
    {
      if cvParamSelection {
        ParamSelectionViaCV(metric);
      }
      TrainSelected(numAttributes);
    }

    /** Every slot holds a trained sub-model on its own recorded subset. */
    ghost predicate Trained(numAttributes: int)
      reads this
      requires Valid()
    {
      (forall i :: 0 <= i < numOfModels ==>
         trained[i] && IsKey(classIndicesPerSubset[i], numLabels, sizeOfSubset)
         && absoluteIndicesToRemove[i] == RemovedAttributes(Mask(classIndicesPerSubset[i], numLabels), numAttributes - numLabels))
      && (forall i, j :: 0 <= i < j < numOfModels ==> classIndicesPerSubset[i] != classIndicesPerSubset[j])
      && combinations == Drawn(classIndicesPerSubset, numOfModels)
    }

    /** The training part of `buildClassifier`, once the size is settled. */
    method TrainSelected(numAttributes: int)
      requires Valid() && numOfModels <= Choose(numLabels, sizeOfSubset)
      modifies this
      ensures Valid() && Storage() == old(Storage()) && cv == old(cv) && threshold == old(threshold)
      ensures numLabels == old(numLabels) && numOfModels == old(numOfModels) && sizeOfSubset == old(sizeOfSubset)
      ensures Trained(numAttributes)
    {
      TrainAll(numAttributes);
      TrainedPrefixMeans(classIndicesPerSubset, absoluteIndicesToRemove, trained, numOfModels,
                         numLabels, sizeOfSubset, numAttributes - numLabels);
      DrawnDistinct(classIndicesPerSubset, numOfModels);
    }

    /** One round of the training loop: slot i gets a fresh subset. */
    method TrainSlot(numAttributes: int, i: nat)
      requires Valid() && i < numOfModels <= Choose(numLabels, sizeOfSubset)
      requires |combinations| == i && combinations == Drawn(classIndicesPerSubset, i)
      requires TrainedPrefix(classIndicesPerSubset, absoluteIndicesToRemove, trained, i,
                             numLabels, sizeOfSubset, numAttributes - numLabels)
      modifies this
      ensures Valid() && Storage() == old(Storage()) && cv == old(cv) && threshold == old(threshold)
      ensures numLabels == old(numLabels) && numOfModels == old(numOfModels) && sizeOfSubset == old(sizeOfSubset)
      ensures |combinations| == i + 1 && combinations == Drawn(classIndicesPerSubset, i + 1)
      ensures TrainedPrefix(classIndicesPerSubset, absoluteIndicesToRemove, trained, i + 1,
                            numLabels, sizeOfSubset, numAttributes - numLabels)
    {
      ghost var (rows, removed, done) := (classIndicesPerSubset, absoluteIndicesToRemove, trained);
      UpdateClassifier(numAttributes, i);
      TrainedPrefixGrow(rows, removed, done, classIndicesPerSubset, absoluteIndicesToRemove, trained, i,
                        numLabels, sizeOfSubset, numAttributes - numLabels);
    }

    /** The training loop of `buildClassifier`: one fresh subset per slot. */
    method TrainAll(numAttributes: int)
      requires Valid() && numOfModels <= Choose(numLabels, sizeOfSubset)
      modifies this
      ensures Valid() && Storage() == old(Storage()) && cv == old(cv) && threshold == old(threshold)
      ensures numLabels == old(numLabels) && numOfModels == old(numOfModels) && sizeOfSubset == old(sizeOfSubset)
      ensures TrainedPrefix(classIndicesPerSubset, absoluteIndicesToRemove, trained, numOfModels,
                            numLabels, sizeOfSubset, numAttributes - numLabels)
      ensures |combinations| == numOfModels && combinations == Drawn(classIndicesPerSubset, numOfModels)
    {
      combinations := {};
      var n := numOfModels;
      for i := 0 to n
        invariant Valid() && Storage() == old(Storage()) && cv == old(cv) && threshold == old(threshold)
        invariant numLabels == old(numLabels) && numOfModels == n && sizeOfSubset == old(sizeOfSubset)
        invariant numOfModels <= Choose(numLabels, sizeOfSubset)
        invariant |combinations| == i
        invariant combinations == Drawn(classIndicesPerSubset, i)
        invariant TrainedPrefix(classIndicesPerSubset, absoluteIndicesToRemove, trained, i,
                                numLabels, sizeOfSubset, numAttributes - numLabels)
      {
        TrainSlot(numAttributes, i);
      }
    }
  }

  // ---------------------------------------------------------------------
  // The evaluation loop of `paramSelectionViaCV`, for one fold and one k

  /** The cell `updatePredictions` records for one label of an instance
      once `votes` are absorbed into its tallies. */
  function Entry(votes: seq<Vote>, actual: real, lab: int): BinaryPrediction
    requires AllWellFormed(votes)
  {
    var c := Confidence(TotalSum(votes, lab), TotalCount(votes, lab) as real);
    BinaryPrediction(Decide(c), NearlyEqual(1.0, actual), c)
  }

  /** One instance's tallies, as values, hold the votes of the first n
      sub-models: preds[j] is what sub-model j predicted for the instance. */
  ghost predicate RowTallied(sums: seq<real>, counts: seq<real>, width: nat,
                             subsets: seq<seq<int>>, preds: seq<seq<real>>, n: nat)
  {
    |sums| == width && |counts| == width && n <= |subsets| && n <= |preds|
    && (forall j :: 0 <= j < n ==> |preds[j]| == |subsets[j]|)
    && AllWellFormed(Column(subsets, preds, n))
    && forall l :: 0 <= l < width ==>
         sums[l] == TotalSum(Column(subsets, preds, n), l)
         && counts[l] == TotalCount(Column(subsets, preds, n), l) as real
  }

  /** Every test instance's tallies hold the first n sub-models' votes:
      preds[i][j] is what sub-model j predicted for instance i. */
  ghost predicate Tallied(sums: seq<seq<real>>, counts: seq<seq<real>>, width: nat,
                          subsets: seq<seq<int>>, preds: seq<seq<seq<real>>>, n: nat)
  {
    |sums| == |counts| <= |preds|
    && forall i :: 0 <= i < |sums| ==> RowTallied(sums[i], counts[i], width, subsets, preds[i], n)
  }

  function ZeroCells(rows: nat, width: nat): (z: seq<seq<real>>)
    ensures |z| == rows && forall i :: 0 <= i < rows ==> z[i] == Tables.Zeros(width)
  {
    seq(rows, _ => Tables.Zeros(width))
  }

  /** Before any sub-model voted, all-zero tallies hold no votes. */
  lemma TalliedNone(rows: nat, width: nat, preds: seq<seq<seq<real>>>)
    requires rows <= |preds|
    ensures Tallied(ZeroCells(rows, width), ZeroCells(rows, width), width, [], preds, 0)
  {
  }

  /** One instance's tallies after absorbing the votes `preds` of a
      sub-model with subset `key`. */
  ghost predicate Absorbed(sums: seq<real>, counts: seq<real>, sums': seq<real>, counts': seq<real>, width: nat,
                           key: seq<int>, preds: seq<real>)
  {
    |sums| == width && |counts| == width && |sums'| == width && |counts'| == width && |preds| == |key|
    && forall l :: 0 <= l < width ==>
      sums'[l] == sums[l] + VoteSum(key, preds, l) && counts'[l] == counts[l] + VoteCount(key, l) as real
  }

  /** Absorbing sub-model n's votes into one instance's tallies moves them
      from n sub-models to n + 1. */
  lemma RowGrow(sums: seq<real>, counts: seq<real>, sums': seq<real>, counts': seq<real>, width: nat,
                subsets: seq<seq<int>>, key: seq<int>, preds: seq<seq<real>>, n: nat)
    requires RowTallied(sums, counts, width, subsets, preds, n) && |subsets| == n && n < |preds|
    requires Absorbed(sums, counts, sums', counts', width, key, preds[n])
    ensures RowTallied(sums', counts', width, subsets + [key], preds, n + 1)
  {
    var subsets' := subsets + [key];
    ColumnPrefix(subsets', subsets, preds, n);
    forall l | 0 <= l < width
      ensures sums'[l] == TotalSum(Column(subsets', preds, n + 1), l)
        && counts'[l] == TotalCount(Column(subsets', preds, n + 1), l) as real
    {
      ColumnGrow(subsets', preds, n, l);
    }
    ColumnGrow(subsets', preds, n, 0);
  }

  /** The same for every test instance. */
  lemma TalliedGrow(sums: seq<seq<real>>, counts: seq<seq<real>>, sums': seq<seq<real>>, counts': seq<seq<real>>,
                    width: nat, subsets: seq<seq<int>>, key: seq<int>, preds: seq<seq<seq<real>>>, n: nat)
    requires Tallied(sums, counts, width, subsets, preds, n) && |subsets| == n
    requires |sums'| == |counts'| == |sums|
    requires forall i :: 0 <= i < |sums| ==>
      n < |preds[i]| && Absorbed(sums[i], counts[i], sums'[i], counts'[i], width, key, preds[i][n])
    ensures Tallied(sums', counts', width, subsets + [key], preds, n + 1)
  {
    forall i | 0 <= i < |sums|
      ensures RowTallied(sums'[i], counts'[i], width, subsets + [key], preds[i], n + 1)
    {
      RowGrow(sums[i], counts[i], sums'[i], counts'[i], width, subsets, key, preds[i], n);
    }
  }

  /** A table handed to the evaluator holds, for every instance and label,
      the cell recorded from the votes of the first n sub-models. */
  ghost predicate TableHolds(table: seq<seq<Option<BinaryPrediction>>>, subsets: seq<seq<int>>,
                             preds: seq<seq<seq<real>>>, actual: seq<seq<real>>, width: nat, n: nat)
  {
    |table| == |actual| <= |preds| && n <= |subsets|
    && forall i :: 0 <= i < |actual| ==>
         |table[i]| == width && |actual[i]| == width && n <= |preds[i]|
         && AllWellFormed(Column(subsets, preds[i], n))
         && forall l :: 0 <= l < width ==> table[i][l] == Some(Entry(Column(subsets, preds[i], n), actual[i][l], l))
  }

  /** Table t was recorded after step t, from sub-models 0..t: each table
      in turn, the last one from all |tables| sub-models. */
  ghost predicate TablesHold(tables: seq<seq<seq<Option<BinaryPrediction>>>>, subsets: seq<seq<int>>,
                             preds: seq<seq<seq<real>>>, actual: seq<seq<real>>, width: nat)
    decreases |tables|
  {
    tables == []
    || (TablesHold(tables[..|tables| - 1], subsets, preds, actual, width)
        && TableHolds(tables[|tables| - 1], subsets, preds, actual, width, |tables|))
  }

  /** Any one table, t, holds the predictions of sub-models 0..t. */
  lemma {:induction false} TablesHoldAt(tables: seq<seq<seq<Option<BinaryPrediction>>>>, subsets: seq<seq<int>>,
                                        preds: seq<seq<seq<real>>>, actual: seq<seq<real>>, width: nat, t: nat)
    requires TablesHold(tables, subsets, preds, actual, width) && t < |tables|
    ensures TableHolds(tables[t], subsets, preds, actual, width, t + 1)
    decreases |tables|
  {
    if t < |tables| - 1 {
      TablesHoldAt(tables[..|tables| - 1], subsets, preds, actual, width, t);
    }
  }

  /** Appending a subset after those the tables were recorded from changes
      nothing they hold. */
  lemma {:induction false} TablesExtend(tables: seq<seq<seq<Option<BinaryPrediction>>>>, subsets: seq<seq<int>>, key: seq<int>,
                                        preds: seq<seq<seq<real>>>, actual: seq<seq<real>>, width: nat)
    requires TablesHold(tables, subsets, preds, actual, width) && |tables| <= |subsets|
    ensures TablesHold(tables, subsets + [key], preds, actual, width)
    decreases |tables|
  {
    if tables != [] {
      var n := |tables|;
      TablesExtend(tables[..n - 1], subsets, key, preds, actual, width);
      assert subsets[..n] == (subsets + [key])[..n];
      TableHoldsPrefix(tables[n - 1], subsets, subsets + [key], preds, actual, width, n);
    }
  }

  /** A table only depends on the sub-models it was recorded from. */
  lemma TableHoldsPrefix(table: seq<seq<Option<BinaryPrediction>>>, subsets: seq<seq<int>>, subsets': seq<seq<int>>,
                         preds: seq<seq<seq<real>>>, actual: seq<seq<real>>, width: nat, n: nat)
    requires TableHolds(table, subsets, preds, actual, width, n)
    requires n <= |subsets'| && subsets[..n] == subsets'[..n]
    ensures TableHolds(table, subsets', preds, actual, width, n)
  {
    forall i | 0 <= i < |actual|
      ensures Column(subsets', preds[i], n) == Column(subsets, preds[i], n)
    {
      ColumnPrefix(subsets', subsets, preds[i], n);
    }
  }

  /** Appending the table of step n keeps the earlier tables as they were. */
  lemma TablesGrow(tables: seq<seq<seq<Option<BinaryPrediction>>>>, table: seq<seq<Option<BinaryPrediction>>>,
                   subsets: seq<seq<int>>, key: seq<int>, preds: seq<seq<seq<real>>>, actual: seq<seq<real>>, width: nat)
    requires TablesHold(tables, subsets, preds, actual, width) && |tables| == |subsets|
    requires TableHolds(table, subsets + [key], preds, actual, width, |subsets| + 1)
    ensures TablesHold(tables + [table], subsets + [key], preds, actual, width)
  {
    TablesExtend(tables, subsets, key, preds, actual, width);
    assert (tables + [table])[..|tables|] == tables;
  }

  /** What a table of model index m means, cell by cell: it was recorded
      from the votes of `ModelsEvaluated` sub-models, those drawn first. */
  ghost predicate CellMeans(tables: seq<seq<seq<Option<BinaryPrediction>>>>, subsets: seq<seq<int>>,
                            preds: seq<seq<seq<real>>>, actual: seq<seq<real>>, width: nat, k: int, m: int, i: int, l: int)
    requires 0 <= m < |tables| && 0 <= i < |actual| && 0 <= l < width
  {
    |tables[m]| == |actual| && |tables[m][i]| == width && |actual[i]| == width
    && ModelsEvaluated(Setting(k, m, 0)) <= |subsets| && i < |preds| && ModelsEvaluated(Setting(k, m, 0)) <= |preds[i]|
    && AllWellFormed(Column(subsets, preds[i], ModelsEvaluated(Setting(k, m, 0))))
    && tables[m][i][l] == Some(Entry(Column(subsets, preds[i], ModelsEvaluated(Setting(k, m, 0))), actual[i][l], l))
  }

  /** Every cell of every table means what `CellMeans` says. */
  ghost predicate Evaluated(ev: Evaluation, preds: seq<seq<seq<real>>>, actual: seq<seq<real>>, width: nat, k: int)
  {
    forall m, i, l :: 0 <= m < |ev.tables| && 0 <= i < |actual| && 0 <= l < width ==>
      CellMeans(ev.tables, ev.subsets, preds, actual, width, k, m, i, l)
  }

  lemma CellMeaning(tables: seq<seq<seq<Option<BinaryPrediction>>>>, subsets: seq<seq<int>>,
                    preds: seq<seq<seq<real>>>, actual: seq<seq<real>>, width: nat, k: int, m: int, i: int, l: int)
    requires TablesHold(tables, subsets, preds, actual, width)
    requires 0 <= m < |tables| && 0 <= i < |actual| && 0 <= l < width
    ensures CellMeans(tables, subsets, preds, actual, width, k, m, i, l)
  {
    TablesHoldAt(tables, subsets, preds, actual, width, m);
  }

  /** The tables the evaluation loop keeps mean what `Evaluated` says. */
  lemma TablesMeaning(tables: seq<seq<seq<Option<BinaryPrediction>>>>, subsets: seq<seq<int>>,
                      preds: seq<seq<seq<real>>>, actual: seq<seq<real>>, width: nat, k: int)
    requires TablesHold(tables, subsets, preds, actual, width)
    ensures Evaluated(Evaluation(subsets, tables), preds, actual, width, k)
  {
    forall m, i, l | 0 <= m < |tables| && 0 <= i < |actual| && 0 <= l < width
      ensures CellMeans(tables, subsets, preds, actual, width, k, m, i, l)
    {
      CellMeaning(tables, subsets, preds, actual, width, k, m, i, l);
    }
  }

  /** What the evaluation of one subset size hands over: the subsets drawn,
      in order, and the prediction table after each step. */
  datatype Evaluation = Evaluation(subsets: seq<seq<int>>, tables: seq<seq<seq<Option<BinaryPrediction>>>>)

  /** One fold and one subset size k of `paramSelectionViaCV`: a fresh
      ensemble sized for every k-subset; for each model index m below
      `finalM`, sub-model m is trained on a fresh subset, its votes for every
      test instance are absorbed into that instance's running tallies, it is
      released, and the prediction table is handed to the evaluator; that
      table is `tables[m]`. preds[i][m] is what sub-model m predicts for test
      instance i. A negative (wrapped) number of k-subsets makes the
      ensemble's arrays fail to allocate. */
  method EvaluateSubsetSize(numLabels: nat, numAttributes: int, k: nat, maxM: int,
                            preds: seq<seq<seq<real>>>, actual: seq<seq<real>>) returns (r: Option<Evaluation>)
    requires k <= numLabels && |preds| == |actual|
    requires forall i :: 0 <= i < |actual| ==> |actual[i]| == numLabels
    requires forall i :: 0 <= i < |actual| ==> FinalM(numLabels, k, maxM) <= |preds[i]|
    requires forall i, j :: 0 <= i < |actual| && 0 <= j < |preds[i]| ==> |preds[i][j]| == k
    ensures r.None? <==> Wrap32(Choose(numLabels, k)) < 0
    ensures r.Some? ==>
      var steps := if FinalM(numLabels, k, maxM) < 0 then 0 else FinalM(numLabels, k, maxM);
      |r.value.subsets| == |r.value.tables| == steps
      && (forall j :: 0 <= j < steps ==> IsKey(r.value.subsets[j], numLabels, k))
      && (forall j, j' :: 0 <= j < j' < steps ==> r.value.subsets[j] != r.value.subsets[j'])
    ensures r.Some? ==> Evaluated(r.value, preds, actual, numLabels, k)
  {
    var bin := Binomial(numLabels, k);
    if bin.value < 0 {
      return None;
    }
    WrapNotAbove(Choose(numLabels, k));
    var e := new Rakel(numLabels, bin.value, k);
    var finalM := Min(bin.value, maxM);
    assert Fits(preds, actual, numLabels, k, finalM);
    var subsets: seq<seq<int>> := [];
    var tables: seq<seq<seq<Option<BinaryPrediction>>>> := [];
    var m := 0;
    while m < finalM
      invariant 0 <= m && (m <= finalM || m == 0)
      invariant fresh(e) && Stage(e, m, subsets, preds, actual)
      invariant e.numLabels == numLabels && e.numOfModels == bin.value && e.sizeOfSubset == k
      invariant m > 0 ==> fresh(e.predictions) && fresh(e.sumVotesIncremental) && fresh(e.lengthVotesIncremental)
      invariant |tables| == m && TablesHold(tables, subsets, preds, actual, numLabels)
      decreases finalM - m
    {
      subsets, tables := EvaluateStep(e, numAttributes, m, subsets, tables, preds, actual, finalM);
      m := m + 1;
    }
    DrawnDistinct(e.classIndicesPerSubset, m);
    TablesMeaning(tables, subsets, preds, actual, numLabels, k);
    r := Some(Evaluation(subsets, tables));
  }

  /** The inner ensemble after m steps of the evaluation loop: the first m
      slots hold the distinct subsets drawn, and once allocated the
      per-instance tallies hold those sub-models' votes. */
  ghost predicate Stage(e: Rakel, m: nat, subsets: seq<seq<int>>, preds: seq<seq<seq<real>>>, actual: seq<seq<real>>)
    reads e, e.sumVotesIncremental, e.lengthVotesIncremental
  {
    e.Valid() && m <= e.numOfModels
    && |e.combinations| == m && e.combinations == Drawn(e.classIndicesPerSubset, m)
    && |subsets| == m && subsets == e.classIndicesPerSubset[..m]
    && (forall j :: 0 <= j < m ==> IsKey(subsets[j], e.numLabels, e.sizeOfSubset))
    && (m == 0 ==> e.predictions == null)
    && (m > 0 ==>
          e.predictions != null && e.predictions.Length0 == |actual|
          && Tallied(Cells(e.sumVotesIncremental), Cells(e.lengthVotesIncremental), e.numLabels, subsets, preds, m))
  }

  /** The test data fit the ensemble: one label row per instance and, per
      instance, a prediction of each of the first `count` sub-models. */
  ghost predicate Fits(preds: seq<seq<seq<real>>>, actual: seq<seq<real>>, width: nat, k: nat, count: int)
  {
    |preds| == |actual|
    && forall i :: 0 <= i < |actual| ==>
         |actual[i]| == width && count <= |preds[i]|
         && forall j :: 0 <= j < |preds[i]| ==> |preds[i][j]| == k
  }

  /** One step m of the evaluation loop: `updateClassifier(m)`,
      `updatePredictions(m)`, `nullSubsetClassifier(m)`, then the table the
      evaluator reads. */
  method EvaluateStep(e: Rakel, numAttributes: int, m: nat, subsets: seq<seq<int>>,
                      tables: seq<seq<seq<Option<BinaryPrediction>>>>, preds: seq<seq<seq<real>>>, actual: seq<seq<real>>,
                      ghost count: int)
      returns (subsets': seq<seq<int>>, tables': seq<seq<seq<Option<BinaryPrediction>>>>)
    requires Stage(e, m, subsets, preds, actual) && m < e.numOfModels && m < Choose(e.numLabels, e.sizeOfSubset)
    requires Fits(preds, actual, e.numLabels, e.sizeOfSubset, count) && m < count
    requires |tables| == m && TablesHold(tables, subsets, preds, actual, e.numLabels)
    modifies e, e.sumVotesIncremental, e.lengthVotesIncremental, e.predictions
    ensures Stage(e, m + 1, subsets', preds, actual)
    ensures e.numLabels == old(e.numLabels) && e.numOfModels == old(e.numOfModels) && e.sizeOfSubset == old(e.sizeOfSubset)
    ensures old(e.predictions) == null ==>
      fresh(e.predictions) && fresh(e.sumVotesIncremental) && fresh(e.lengthVotesIncremental)
    ensures old(e.predictions) != null ==>
      e.predictions == old(e.predictions) && e.sumVotesIncremental == old(e.sumVotesIncremental)
      && e.lengthVotesIncremental == old(e.lengthVotesIncremental)
    ensures |tables'| == m + 1 && TablesHold(tables', subsets', preds, actual, e.numLabels)
  {
    var key, table := Advance(e, numAttributes, m, subsets, preds, actual, count);
    subsets' := subsets + [key];
    TablesGrow(tables, table, subsets, key, preds, actual, e.numLabels);
    tables' := tables + [table];
  }

  /** The ensemble state after one step, and the table it records. */
  method Advance(e: Rakel, numAttributes: int, m: nat, subsets: seq<seq<int>>,
                 preds: seq<seq<seq<real>>>, actual: seq<seq<real>>, ghost count: int)
      returns (key: seq<int>, table: seq<seq<Option<BinaryPrediction>>>)
    requires Stage(e, m, subsets, preds, actual) && m < e.numOfModels && m < Choose(e.numLabels, e.sizeOfSubset)
    requires Fits(preds, actual, e.numLabels, e.sizeOfSubset, count) && m < count
    modifies e, e.sumVotesIncremental, e.lengthVotesIncremental, e.predictions
    ensures Stage(e, m + 1, subsets + [key], preds, actual)
    ensures e.numLabels == old(e.numLabels) && e.numOfModels == old(e.numOfModels) && e.sizeOfSubset == old(e.sizeOfSubset)
    ensures old(e.predictions) == null ==>
      fresh(e.predictions) && fresh(e.sumVotesIncremental) && fresh(e.lengthVotesIncremental)
    ensures old(e.predictions) != null ==>
      e.predictions == old(e.predictions) && e.sumVotesIncremental == old(e.sumVotesIncremental)
      && e.lengthVotesIncremental == old(e.lengthVotesIncremental)
    ensures TableHolds(table, subsets + [key], preds, actual, e.numLabels, m + 1)
  {
    ghost var sums0, counts0;
    if m == 0 {
      sums0, counts0 := ZeroCells(|actual|, e.numLabels), ZeroCells(|actual|, e.numLabels);
      TalliedNone(|actual|, e.numLabels, preds);
    } else {
      sums0, counts0 := Cells(e.sumVotesIncremental), Cells(e.lengthVotesIncremental);
    }
    ghost var rows := e.classIndicesPerSubset;
    key, table := TrainAndRecord(e, numAttributes, m, preds, actual, sums0, counts0);
    assert subsets + [key] == e.classIndicesPerSubset[..m + 1];
    DrawnPrefix(rows, e.classIndicesPerSubset, m);
    StepHolds(sums0, counts0, Cells(e.sumVotesIncremental), Cells(e.lengthVotesIncremental), table,
              e.numLabels, subsets, key, preds, actual, m);
  }

  /** The cells `updatePredictions` records from the tallies. */
  ghost predicate RecordedFrom(table: seq<seq<Option<BinaryPrediction>>>, sums: seq<seq<real>>, counts: seq<seq<real>>,
                               actual: seq<seq<real>>, width: nat)
  {
    |table| == |sums| == |counts| == |actual|
    && forall i :: 0 <= i < |table| ==>
         |table[i]| == width && |sums[i]| == width && |counts[i]| == width && |actual[i]| == width
         && forall l :: 0 <= l < width ==>
              var c := Confidence(sums[i][l], counts[i][l]);
              table[i][l] == Some(BinaryPrediction(Decide(c), NearlyEqual(1.0, actual[i][l]), c))
  }

  /** What one step leaves: tallies of n + 1 sub-models and the table
      recorded from them. */
  lemma StepHolds(sums0: seq<seq<real>>, counts0: seq<seq<real>>, sums: seq<seq<real>>, counts: seq<seq<real>>,
                  table: seq<seq<Option<BinaryPrediction>>>, width: nat, subsets: seq<seq<int>>, key: seq<int>,
                  preds: seq<seq<seq<real>>>, actual: seq<seq<real>>, n: nat)
    requires Tallied(sums0, counts0, width, subsets, preds, n) && |subsets| == n
    requires |sums| == |counts| == |sums0| == |actual| <= |preds|
    requires forall i :: 0 <= i < |sums0| ==>
      n < |preds[i]| && Absorbed(sums0[i], counts0[i], sums[i], counts[i], width, key, preds[i][n])
    requires RecordedFrom(table, sums, counts, actual, width)
    ensures Tallied(sums, counts, width, subsets + [key], preds, n + 1)
    ensures TableHolds(table, subsets + [key], preds, actual, width, n + 1)
  {
    TalliedGrow(sums0, counts0, sums, counts, width, subsets, key, preds, n);
    forall i | 0 <= i < |actual|
      ensures AllWellFormed(Column(subsets + [key], preds[i], n + 1))
      ensures forall l :: 0 <= l < width ==>
        table[i][l] == Some(Entry(Column(subsets + [key], preds[i], n + 1), actual[i][l], l))
    {
      assert RowTallied(sums[i], counts[i], width, subsets + [key], preds[i], n + 1);
    }
  }

  /** The three calls of one evaluation step, and the table they leave.
      `sums0` and `counts0` are the tallies before the step (zeros before
      the first). */
  method TrainAndRecord(e: Rakel, numAttributes: int, m: nat, preds: seq<seq<seq<real>>>, actual: seq<seq<real>>,
                        ghost sums0: seq<seq<real>>, ghost counts0: seq<seq<real>>)
      returns (key: seq<int>, table: seq<seq<Option<BinaryPrediction>>>)
    requires e.Valid() && m < e.numOfModels && |e.combinations| < Choose(e.numLabels, e.sizeOfSubset)
    requires |preds| == |actual| == |sums0| == |counts0|
    requires forall i :: 0 <= i < |actual| ==>
      |actual[i]| == e.numLabels && m < |preds[i]| && |preds[i][m]| == e.sizeOfSubset
      && |sums0[i]| == e.numLabels && |counts0[i]| == e.numLabels
    requires e.predictions == null ==>
      forall i, l :: 0 <= i < |actual| && 0 <= l < e.numLabels ==> sums0[i][l] == 0.0 && counts0[i][l] == 0.0
    requires e.predictions != null ==>
      e.predictions.Length0 == |actual|
      && sums0 == Cells(e.sumVotesIncremental) && counts0 == Cells(e.lengthVotesIncremental)
    modifies e, e.sumVotesIncremental, e.lengthVotesIncremental, e.predictions
    ensures e.Valid() && e.numLabels == old(e.numLabels) && e.numOfModels == old(e.numOfModels)
    ensures e.sizeOfSubset == old(e.sizeOfSubset)
    ensures IsKey(key, e.numLabels, e.sizeOfSubset) && key !in old(e.combinations)
    ensures e.combinations == old(e.combinations) + {key}
    ensures e.classIndicesPerSubset == old(e.classIndicesPerSubset)[m := key]
    ensures e.predictions != null && e.predictions.Length0 == |actual|
    ensures old(e.predictions) == null ==>
      fresh(e.predictions) && fresh(e.sumVotesIncremental) && fresh(e.lengthVotesIncremental)
    ensures old(e.predictions) != null ==>
      e.predictions == old(e.predictions) && e.sumVotesIncremental == old(e.sumVotesIncremental)
      && e.lengthVotesIncremental == old(e.lengthVotesIncremental)
    ensures forall i :: 0 <= i < |actual| ==>
      Absorbed(sums0[i], counts0[i], Cells(e.sumVotesIncremental)[i], Cells(e.lengthVotesIncremental)[i],
               e.numLabels, key, preds[i][m])
    ensures RecordedFrom(table, Cells(e.sumVotesIncremental), Cells(e.lengthVotesIncremental), actual, e.numLabels)
  {
    e.UpdateClassifier(numAttributes, m);
    key := e.classIndicesPerSubset[m];
    table := RecordStep(e, m, key, preds, actual, sums0, counts0);
  }

  /** `updatePredictions(m)` and `nullSubsetClassifier(m)` once sub-model m
      is trained on `key`. */
  method RecordStep(e: Rakel, m: nat, key: seq<int>, preds: seq<seq<seq<real>>>, actual: seq<seq<real>>,
                    ghost sums0: seq<seq<real>>, ghost counts0: seq<seq<real>>)
      returns (table: seq<seq<Option<BinaryPrediction>>>)
    requires e.Valid() && m < e.numOfModels && e.trained[m] && e.classIndicesPerSubset[m] == key
    requires |preds| == |actual| == |sums0| == |counts0|
    requires forall i :: 0 <= i < |actual| ==>
      |actual[i]| == e.numLabels && m < |preds[i]| && |preds[i][m]| == e.sizeOfSubset
      && |sums0[i]| == e.numLabels && |counts0[i]| == e.numLabels
    requires e.predictions == null ==>
      forall i, l :: 0 <= i < |actual| && 0 <= l < e.numLabels ==> sums0[i][l] == 0.0 && counts0[i][l] == 0.0
    requires e.predictions != null ==>
      e.predictions.Length0 == |actual|
      && sums0 == Cells(e.sumVotesIncremental) && counts0 == Cells(e.lengthVotesIncremental)
    modifies e, e.sumVotesIncremental, e.lengthVotesIncremental, e.predictions
    ensures e.Valid() && e.numLabels == old(e.numLabels) && e.numOfModels == old(e.numOfModels)
    ensures e.sizeOfSubset == old(e.sizeOfSubset)
    ensures e.combinations == old(e.combinations) && e.classIndicesPerSubset == old(e.classIndicesPerSubset)
    ensures e.predictions != null && e.predictions.Length0 == |actual|
    ensures old(e.predictions) == null ==>
      fresh(e.predictions) && fresh(e.sumVotesIncremental) && fresh(e.lengthVotesIncremental)
    ensures old(e.predictions) != null ==>
      e.predictions == old(e.predictions) && e.sumVotesIncremental == old(e.sumVotesIncremental)
      && e.lengthVotesIncremental == old(e.lengthVotesIncremental)
    ensures forall i :: 0 <= i < |actual| ==>
      Absorbed(sums0[i], counts0[i], Cells(e.sumVotesIncremental)[i], Cells(e.lengthVotesIncremental)[i],
               e.numLabels, key, preds[i][m])
    ensures RecordedFrom(table, Cells(e.sumVotesIncremental), Cells(e.lengthVotesIncremental), actual, e.numLabels)
  {
    var column := seq(|actual|, i requires 0 <= i < |actual| && m < |preds[i]| => preds[i][m]);
    e.UpdatePredictions(m, column, actual);
    e.NullSubsetClassifier(m);
    table := Cells(e.predictions);
  }
}
