/** Evaluation measures: the argument guards of the classification and
    confidence measure bases, the per-label prediction lists of the
    label-based AUC, and the micro-averaged specificity. A value of `None`
    where a `real` is expected stands for Java's NaN. */
module Measures {

  import opened Wrappers

  // ---------------------------------------------------------------------
  // Arguments of a measure update

  /** What a measure sees of a classifier's output: the bipartition and
      the confidences, either of which may be absent (null). */
  datatype Prediction = Prediction(bipartition: Option<seq<bool>>, confidences: Option<seq<real>>)

  /** The ground truth of one example; only a classification ground truth
      carries label relevances. */
  datatype GroundTruth = GroundTruth(isClassification: bool, trueLabels: seq<bool>)

  /** The exceptions a measure update ends with. */
  datatype MeasureError = ArgumentNull(message: string) | IllegalArgument(message: string) | IndexOutOfBounds

  const NullPrediction: string := "Prediction is null"
  const NullTruth: string := "Ground truth is null"
  const NullClassificationTruth: string := "Classification ground truth is null"
  const NullConfidences: string := "Bipartition is null"
  const DimensionMismatch: string := "The dimensions of the confidence array and the ground truth array do not match"

  /** The guards of `ClassificationMeasureBase.update`, in their order:
      the prediction, then the ground truth, then its kind. When all pass,
      the result is what `updateInternal` is called with. */
  function CheckUpdate(prediction: Option<Prediction>, truth: Option<GroundTruth>): (r: Result<(Prediction, seq<bool>), MeasureError>)
    ensures prediction.None? ==> r == Err(ArgumentNull(NullPrediction))
    ensures prediction.Some? && truth.None? ==> r == Err(ArgumentNull(NullTruth))
    ensures r.Ok? <==> prediction.Some? && truth.Some? && truth.value.isClassification
    ensures r.Ok? ==> r.value == (prediction.value, truth.value.trueLabels)
    ensures r.Err? ==> r.error.ArgumentNull?
  {
    if prediction.None? then Err(ArgumentNull(NullPrediction))
    else if truth.None? then Err(ArgumentNull(NullTruth))
    else if !truth.value.isClassification then Err(ArgumentNull(NullClassificationTruth))
    else Ok((prediction.value, truth.value.trueLabels))
  }

  /** `ClassificationMeasureBase.update`: after the guards, `updateInternal`
      is applied once, to the prediction and the true labels; its outcome is
      the outcome of the update. */
  function Update<T>(prediction: Option<Prediction>, truth: Option<GroundTruth>,
                     updateInternal: (Prediction, seq<bool>) -> T): (r: Result<T, MeasureError>)
    ensures r.Err? <==> CheckUpdate(prediction, truth).Err?
    ensures r.Err? ==> r.error == CheckUpdate(prediction, truth).error
    ensures r.Ok? ==> r.value == updateInternal(prediction.value, truth.value.trueLabels)
  {
    match CheckUpdate(prediction, truth)
    case Err(e) => Err(e)
    case Ok(args) => Ok(updateInternal(args.0, args.1))
  }

  /** The guards of `ConfidenceMeasureBase.updateInternal`: confidences
      must be present, then match the ground truth in length. */
  function CheckConfidences(prediction: Prediction, truth: seq<bool>): (r: Result<seq<real>, MeasureError>)
    ensures prediction.confidences.None? ==> r == Err(ArgumentNull(NullConfidences))
    ensures prediction.confidences.Some? && |prediction.confidences.value| != |truth| ==>
      r == Err(IllegalArgument(DimensionMismatch))
    ensures r.Ok? <==> prediction.confidences.Some? && |prediction.confidences.value| == |truth|
    ensures r.Ok? ==> r.value == prediction.confidences.value
  {
    if prediction.confidences.None? then Err(ArgumentNull(NullConfidences))
    else if |prediction.confidences.value| != |truth| then Err(IllegalArgument(DimensionMismatch))
    else Ok(prediction.confidences.value)
  }

  /** `ConfidenceMeasureBase.updateInternal`: after the guards, the value of
      `updateInternal2` on the confidences is returned unchanged. */
  function ConfidenceUpdate(prediction: Prediction, truth: seq<bool>,
                            updateInternal2: (seq<real>, seq<bool>) -> real): (r: Result<real, MeasureError>)
    ensures r.Err? <==> CheckConfidences(prediction, truth).Err?
    ensures r.Err? ==> r.error == CheckConfidences(prediction, truth).error
    ensures r.Ok? ==> r.value == updateInternal2(prediction.confidences.value, truth)
  {
    match CheckConfidences(prediction, truth)
    case Err(e) => Err(e)
    case Ok(confidences) => Ok(updateInternal2(confidences, truth))
  }

  // ---------------------------------------------------------------------
  // toString

  /** `ClassificationMeasureBase.toString`: the name, ": " and the value,
      or NaN (`None`) when computing the value throws. `format` stands for
      `String.format("%.4f", ...)`. The reference definition that
      UndefinedPrintsNaN is proved about. */
  function ToString(name: string, value: Result<Option<real>, string>, format: Option<real> -> string): (r: string)
    ensures |r| >= |name| + 2 && r[..|name| + 2] == name + ": "
    ensures value.Err? ==> r[|name| + 2..] == format(None)
    ensures value.Ok? ==> r[|name| + 2..] == format(value.value)
  {
    var v := if value.Err? then None else value.value;
    name + ": " + format(v)
  }

  // ---------------------------------------------------------------------
  // Label-based AUC

  /** One Weka nominal prediction: the actual class, the class
      distribution and the weight. */
  datatype NominalPrediction = NominalPrediction(actual: int, distribution: seq<real>, weight: real)

  /** The prediction `updateInternal2` records for one label: class 1
      exactly when the label is relevant, distribution [1 - c, c], weight 1. */
  function LabelPrediction(confidence: real, relevant: bool): (p: NominalPrediction)
    ensures p.actual == 1 <==> relevant
    ensures p.actual == 0 <==> !relevant
    ensures |p.distribution| == 2 && p.distribution[1] == confidence
    ensures p.distribution[0] + p.distribution[1] == 1.0
    ensures p.weight == 1.0
  {
    NominalPrediction(if relevant then 1 else 0, [1.0 - confidence, confidence], 1.0)
  }

  /** The predictions of the first `n` labels, in label order. */
  function Recorded(confidences: seq<real>, truth: seq<bool>, n: nat): (r: seq<NominalPrediction>)
    requires n <= |confidences| && n <= |truth|
    ensures |r| == n
  {
    seq(n, l requires 0 <= l < n => LabelPrediction(confidences[l], truth[l]))
  }

  function CountPositive(ps: seq<NominalPrediction>): nat
  {
    if |ps| == 0 then 0 else CountPositive(ps[..|ps| - 1]) + (if ps[|ps| - 1].actual == 1 then 1 else 0)
  }

  function CountTrue(bs: seq<bool>): nat
  {
    if |bs| == 0 then 0 else CountTrue(bs[..|bs| - 1]) + (if bs[|bs| - 1] then 1 else 0)
  }

  /** The pooled list gains as many positive predictions as there are
      relevant labels among those recorded. */
  lemma {:induction false} PositivesRecorded(confidences: seq<real>, truth: seq<bool>, n: nat)
    requires n <= |confidences| && n <= |truth|
    ensures CountPositive(Recorded(confidences, truth, n)) == CountTrue(truth[..n])
  {
    if n > 0 {
      PositivesRecorded(confidences, truth, n - 1);
      assert Recorded(confidences, truth, n)[..n - 1] == Recorded(confidences, truth, n - 1);
      assert truth[..n][..n - 1] == truth[..n - 1];
    }
  }

  function Min3(a: nat, b: nat, c: nat): (m: nat)
    ensures m <= a && m <= b && m <= c && (m == a || m == b || m == c)
  {
    if a <= b && a <= c then a else if b <= c then b else c
  }

  class LabelBasedAUC {
    var numOfLabels: nat
    /** One list of predictions per label. */
    var mPredictions: array<seq<NominalPrediction>>
    /** The predictions of all labels, pooled. */
    var allPredictions: seq<NominalPrediction>

    predicate Valid()
      reads this
    {
      mPredictions.Length == numOfLabels
    }

    constructor (numOfLabels: nat)
      ensures Valid() && this.numOfLabels == numOfLabels && fresh(mPredictions)
      ensures forall l :: 0 <= l < numOfLabels ==> mPredictions[l] == []
      ensures allPredictions == []
    {
      this.numOfLabels := numOfLabels;
      mPredictions := new seq<NominalPrediction>[numOfLabels](_ => []);
      allPredictions := [];
    }

    /** Empties every per-label list and the pooled list. */
    method Reset()
      requires Valid()
      modifies mPredictions, this`allPredictions
      ensures Valid()
      ensures forall l :: 0 <= l < numOfLabels ==> mPredictions[l] == []
      ensures allPredictions == []
    {
      var lists := mPredictions;
      for labelIndex := 0 to numOfLabels
        invariant forall l :: 0 <= l < labelIndex ==> lists[l] == []
      {
        lists[labelIndex] := [];
      }
      allPredictions := [];
    }

    /** The best value of the measure. */
    function GetIdealValue(): (r: real)
      ensures r == 1.0
    {
      1.0
    }

    /** `updateInternal2`: for each label in order, the label's prediction
        is appended to its own list and to the pooled list. Arrays shorter
        than the number of labels end the loop with an index error after
        the labels they cover; otherwise the result is 0. */
    method UpdateInternal2(confidences: seq<real>, truth: seq<bool>) returns (r: Result<real, MeasureError>)
      requires Valid()
      modifies mPredictions, this`allPredictions
      ensures Valid()
      ensures var n := Min3(numOfLabels, |confidences|, |truth|);
        forall l :: 0 <= l < numOfLabels ==>
          mPredictions[l] == old(mPredictions[l]) + (if l < n then [LabelPrediction(confidences[l], truth[l])] else [])
      ensures allPredictions == old(allPredictions) + Recorded(confidences, truth, Min3(numOfLabels, |confidences|, |truth|))
      ensures r.Ok? <==> numOfLabels <= |confidences| && numOfLabels <= |truth|
      ensures r.Ok? ==> r.value == 0.0
      ensures r.Err? ==> r.error == IndexOutOfBounds
    {
      var L, lists, all := numOfLabels, mPredictions, allPredictions;
      ghost var n := Min3(L, |confidences|, |truth|);
      for labelIndex := 0 to L
        invariant labelIndex <= n
        invariant forall l :: 0 <= l < L ==>
          lists[l] == old(lists[l]) + (if l < labelIndex then [LabelPrediction(confidences[l], truth[l])] else [])
        invariant all == old(allPredictions) + Recorded(confidences, truth, labelIndex)
      {
        if labelIndex >= |truth| || labelIndex >= |confidences| {
          allPredictions := all;
          return Err(IndexOutOfBounds);
        }
        var p := LabelPrediction(confidences[labelIndex], truth[labelIndex]);
        lists[labelIndex] := lists[labelIndex] + [p];
        assert Recorded(confidences, truth, labelIndex + 1) == Recorded(confidences, truth, labelIndex) + [p];
        all := all + [p];
      }
      allPredictions := all;
      return Ok(0.0);
    }

    /** `updateInternal` as the AUC measure inherits it: the confidence
        guards, then `updateInternal2`. A rejected update changes nothing. */
    method UpdateInternal(prediction: Prediction, truth: seq<bool>) returns (r: Result<real, MeasureError>)
      requires Valid()
      modifies mPredictions, this`allPredictions
      ensures Valid()
      ensures CheckConfidences(prediction, truth).Err? ==>
        r == Err(CheckConfidences(prediction, truth).error) && allPredictions == old(allPredictions) && unchanged(mPredictions)
      ensures CheckConfidences(prediction, truth).Ok? ==>
        var confidences := prediction.confidences.value;
        var n := Min3(numOfLabels, |confidences|, |truth|);
        allPredictions == old(allPredictions) + Recorded(confidences, truth, n)
        && (forall l :: 0 <= l < numOfLabels ==>
              mPredictions[l] == old(mPredictions[l]) + (if l < n then [LabelPrediction(confidences[l], truth[l])] else []))
        && r == (if numOfLabels <= |confidences| && numOfLabels <= |truth| then Ok(0.0) else Err(IndexOutOfBounds))
    {
      var checked := CheckConfidences(prediction, truth);
      if checked.Err? {
        return Err(checked.error);
      }
      r := UpdateInternal2(checked.value, truth);
    }
  }

  // ---------------------------------------------------------------------
  // Micro-averaged specificity

  const MicroSpecificityName: string := "Micro-averaged Specificity"

  function Sum(s: seq<nat>): nat
  {
    if |s| == 0 then 0 else Sum(s[..|s| - 1]) + s[|s| - 1]
  }

  /** A sum of counters is 0 exactly when every counter is 0. */
  lemma {:induction false} SumZero(s: seq<nat>)
    ensures Sum(s) == 0 <==> forall i :: 0 <= i < |s| ==> s[i] == 0
  {
    if |s| > 0 {
      SumZero(s[..|s| - 1]);
      assert forall i :: 0 <= i < |s| - 1 ==> s[..|s| - 1][i] == s[i];
    }
  }

  /** `MicroSpecificity.getValue`: the true negatives of all labels over
      the true negatives and false positives of all labels; NaN (`None`)
      when both sums are 0. */
  function MicroSpecificity(trueNegatives: seq<nat>, falsePositives: seq<nat>): (r: Option<real>)
    ensures r.None? <==> Sum(trueNegatives) == 0 && Sum(falsePositives) == 0
  {
    var tn, fp := Sum(trueNegatives) as real, Sum(falsePositives) as real;
    if tn + fp == 0.0 then None else Some(tn / (tn + fp))
  }

  /** The specificity lies in [0, 1]; it is 1 without false positives and 0
      without true negatives, and undefined exactly when every counter is 0. */
  lemma MicroSpecificityBounds(trueNegatives: seq<nat>, falsePositives: seq<nat>)
    ensures var r := MicroSpecificity(trueNegatives, falsePositives);
      r.Some? ==> 0.0 <= r.value <= 1.0
    ensures Sum(falsePositives) == 0 && Sum(trueNegatives) > 0 ==> MicroSpecificity(trueNegatives, falsePositives) == Some(1.0)
    ensures Sum(trueNegatives) == 0 && Sum(falsePositives) > 0 ==> MicroSpecificity(trueNegatives, falsePositives) == Some(0.0)
    ensures MicroSpecificity(trueNegatives, falsePositives).None? <==>
      (forall i :: 0 <= i < |trueNegatives| ==> trueNegatives[i] == 0) &&
      (forall i :: 0 <= i < |falsePositives| ==> falsePositives[i] == 0)
  {
    SumZero(trueNegatives);
    SumZero(falsePositives);
    var tn, fp := Sum(trueNegatives) as real, Sum(falsePositives) as real;
    if tn + fp != 0.0 {
      RatioBounds(tn, fp);
    }
  }

  /** a / (a + b) for non-negative a and b with a positive sum. */
  lemma RatioBounds(a: real, b: real)
    requires a >= 0.0 && b >= 0.0 && a + b > 0.0
    ensures 0.0 <= a / (a + b) <= 1.0
    ensures b == 0.0 ==> a / (a + b) == 1.0
    ensures a == 0.0 ==> a / (a + b) == 0.0
  {
    var q := a / (a + b);
    assert q * (a + b) == a;
  }

  /** `MicroSpecificity.getName`; the name ToString prints. */
  function GetName(): (r: string)
    ensures r == MicroSpecificityName
  {
    MicroSpecificityName
  }

  /** Printing a specificity computed from all-zero counters shows NaN, as
      does a measure whose value cannot be computed. */
  lemma UndefinedPrintsNaN(trueNegatives: seq<nat>, falsePositives: seq<nat>, format: Option<real> -> string, failure: string)
    requires Sum(trueNegatives) == 0 && Sum(falsePositives) == 0
    ensures ToString(GetName(), Ok(MicroSpecificity(trueNegatives, falsePositives)), format)
         == ToString(GetName(), Err(failure), format)
  {
  }
}
