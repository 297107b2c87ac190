/** BPMLL: back-propagation for multi-label learning. This module models the
    parameter setters, the network topology, the preparation of the training
    data (attribute normalisation into [-1, 1] and bipolar label values) and
    the thresholded prediction. An attribute value is an `Option<real>`:
    `None` is a missing value (Weka's NaN). The trained network itself is a
    function parameter `feedForward`; training is not modelled. */
module Bpmll {

  import opened Wrappers
  import opened Outputs
  import opened Tables
  import Threshold

  // ---------------------------------------------------------------------
  // Exception messages

  const InvalidHiddenLayers: string := "Invalid hidden layer topology definition. Number of neurons in hidden layer must be larger than zero."
  const InvalidLearningRate: string := "The learning rate must be greater than 0 and no more than 1."
  const InvalidDecayCost: string := "The weights decay regularization cost term must be greater than 0 and no more than 1."
  const InvalidEpochs: string := "The learning rate must be greater than zero."
  const NullInstance: string := "Input instance for prediction is null."
  const TooFewAttributes: string := "Input instance do not have enough attributes to be processed by the model."

  // ---------------------------------------------------------------------
  // Parameters and topology

  /** A hidden-layer topology `setHiddenLayers` accepts: none at all, or
      layers that each have at least one neuron. */
  predicate ValidHidden(hidden: Option<seq<int>>)
  {
    hidden.Some? ==> forall i :: 0 <= i < |hidden.value| ==> hidden.value[i] > 0
  }

  /** The range `setLearningRate` and `setWeightsDecayRegularization` accept. */
  predicate InUnitInterval(x: real)
  {
    0.0 < x <= 1.0
  }

  /** The layer sizes of the network `buildNeuralNetwork` creates: the
      inputs, then the hidden layers if any, then one neuron per label. */
  function Topology(hidden: Option<seq<int>>, inputsDim: nat, numLabels: nat): (r: seq<int>)
    ensures |r| == 2 + (if hidden.Some? then |hidden.value| else 0)
    ensures r[0] == inputsDim && r[|r| - 1] == numLabels
    ensures hidden.Some? ==> r[1..|r| - 1] == hidden.value
  {
    if hidden.None? then [inputsDim, numLabels]
    else [inputsDim] + hidden.value + [numLabels]
  }

  /** With an accepted hidden topology, non-empty inputs and at least one
      label, every layer of the network has a neuron. */
  lemma TopologyPositive(hidden: Option<seq<int>>, inputsDim: nat, numLabels: nat)
    requires ValidHidden(hidden) && inputsDim > 0 && numLabels > 0
    ensures forall i :: 0 <= i < |Topology(hidden, inputsDim, numLabels)| ==> Topology(hidden, inputsDim, numLabels)[i] > 0
  {
    var t := Topology(hidden, inputsDim, numLabels);
    forall i | 0 <= i < |t|
      ensures t[i] > 0
    {
      if 0 < i < |t| - 1 {
        assert t[i] == t[1..|t| - 1][i - 1];
      }
    }
  }

  // ---------------------------------------------------------------------
  // Attribute normalisation

  /** `normalizeAttribute`: shift by the base and divide by the range, or
      only shift when the range is 0. A missing value, or a column without
      a scale (every value missing, so range and base are not finite),
      gives a missing value. */
  function NormalizeValue(v: Option<real>, range: Option<real>, base: Option<real>): (r: Option<real>)
    ensures r.None? <==> v.None? || range.None? || base.None?
  {
    if v.None? || range.None? || base.None? then None
    else if range.value != 0.0 then Some((v.value - base.value) / range.value)
    else Some(v.value - base.value)
  }

  /** The least and greatest present value of a column, `None` when every
      value is missing: the scan of `normalizeAttributes` that starts from
      positive and negative infinity. */
  function Extremes(col: seq<Option<real>>): Option<(real, real)>
  {
    if |col| == 0 then None
    else
      var e := Extremes(col[..|col| - 1]);
      var x := col[|col| - 1];
      if x.None? then e
      else if e.None? then Some((x.value, x.value))
      else Some((if x.value < e.value.0 then x.value else e.value.0,
                 if x.value > e.value.1 then x.value else e.value.1))
  }

  /** The half-width of a column's values, the attribute's range. */
  function RangeOf(e: Option<(real, real)>): Option<real>
  {
    if e.None? then None else Some((e.value.1 - e.value.0) / 2.0)
  }

  /** The midpoint of a column's values, the attribute's base. */
  function BaseOf(e: Option<(real, real)>): Option<real>
  {
    if e.None? then None else Some((e.value.1 + e.value.0) / 2.0)
  }

  /** The scan finds nothing exactly when every value is missing; otherwise
      it finds a least and a greatest present value. */
  lemma {:induction false} ExtremesMeans(col: seq<Option<real>>)
    ensures Extremes(col).None? <==> forall i :: 0 <= i < |col| ==> col[i].None?
    ensures Extremes(col).Some? ==>
      (forall i :: 0 <= i < |col| && col[i].Some? ==>
         Extremes(col).value.0 <= col[i].value <= Extremes(col).value.1)
    ensures Extremes(col).Some? ==>
      (exists i :: 0 <= i < |col| && col[i] == Some(Extremes(col).value.0))
    ensures Extremes(col).Some? ==>
      (exists i :: 0 <= i < |col| && col[i] == Some(Extremes(col).value.1))
  {
    if |col| > 0 {
      var init := col[..|col| - 1];
      ExtremesMeans(init);
      assert forall i :: 0 <= i < |init| ==> init[i] == col[i];
      var e := Extremes(init);
      var x := col[|col| - 1];
      if x.Some? && e.Some? {
        var i0 :| 0 <= i0 < |init| && init[i0] == Some(e.value.0);
        var i1 :| 0 <= i1 < |init| && init[i1] == Some(e.value.1);
        if x.value >= e.value.0 {
          assert col[i0] == Some(Extremes(col).value.0);
        }
        if x.value <= e.value.1 {
          assert col[i1] == Some(Extremes(col).value.1);
        }
      }
    }
  }

  /** x / r lies in [-1, 1] when x lies in [-r, r] and r is positive. */
  lemma DivBounds(x: real, r: real)
    requires r > 0.0 && -r <= x <= r
    ensures -1.0 <= x / r <= 1.0
  {
    var q := x / r;
    assert q * r == x;
  }

  /** With range (hi - lo) / 2 and base (hi + lo) / 2, every value in
      [lo, hi] is mapped into [-1, 1]; when lo < hi the endpoints are
      mapped to -1 and 1, and when lo == hi every such value is mapped to 0. */
  lemma NormalizeBounded(lo: real, hi: real, v: real)
    requires lo <= v <= hi
    ensures var r := NormalizeValue(Some(v), Some((hi - lo) / 2.0), Some((hi + lo) / 2.0));
      r.Some? && -1.0 <= r.value <= 1.0
    ensures lo < hi && v == lo ==> NormalizeValue(Some(v), Some((hi - lo) / 2.0), Some((hi + lo) / 2.0)) == Some(-1.0)
    ensures lo < hi && v == hi ==> NormalizeValue(Some(v), Some((hi - lo) / 2.0), Some((hi + lo) / 2.0)) == Some(1.0)
    ensures lo == hi ==> NormalizeValue(Some(v), Some((hi - lo) / 2.0), Some((hi + lo) / 2.0)) == Some(0.0)
  {
    var range, base := (hi - lo) / 2.0, (hi + lo) / 2.0;
    if lo < hi {
      assert range > 0.0;
      DivBounds(v - base, range);
      if v == lo {
        assert v - base == -range;
        assert (-range) / range == -1.0;
      }
      if v == hi {
        assert v - base == range;
        assert range / range == 1.0;
      }
    }
  }

  /** After normalisation with the column's own scale, every present value
      of the column lies in [-1, 1]; a column with two different values
      reaches both -1 and 1. */
  lemma NormalizedColumn(col: seq<Option<real>>)
    ensures forall i :: 0 <= i < |col| && col[i].Some? ==>
      var v := NormalizeValue(col[i], RangeOf(Extremes(col)), BaseOf(Extremes(col)));
      v.Some? && -1.0 <= v.value <= 1.0
    ensures Extremes(col).Some? && Extremes(col).value.0 < Extremes(col).value.1 ==>
      (exists i :: 0 <= i < |col| && NormalizeValue(col[i], RangeOf(Extremes(col)), BaseOf(Extremes(col))) == Some(-1.0))
    ensures Extremes(col).Some? && Extremes(col).value.0 < Extremes(col).value.1 ==>
      (exists i :: 0 <= i < |col| && NormalizeValue(col[i], RangeOf(Extremes(col)), BaseOf(Extremes(col))) == Some(1.0))
  {
    ExtremesMeans(col);
    var e := Extremes(col);
    forall i | 0 <= i < |col| && col[i].Some?
      ensures var v := NormalizeValue(col[i], RangeOf(e), BaseOf(e));
        v.Some? && -1.0 <= v.value <= 1.0
    {
      NormalizeBounded(e.value.0, e.value.1, col[i].value);
    }
    if e.Some? && e.value.0 < e.value.1 {
      var i0 :| 0 <= i0 < |col| && col[i0] == Some(e.value.0);
      var i1 :| 0 <= i1 < |col| && col[i1] == Some(e.value.1);
      NormalizeBounded(e.value.0, e.value.1, e.value.0);
      NormalizeBounded(e.value.0, e.value.1, e.value.1);
    }
  }

  /** Column `j` of a data set held row by row. */
  function Column(data: array2<Option<real>>, j: nat): (r: seq<Option<real>>)
    requires j < data.Length1
    reads data
    ensures |r| == data.Length0 && forall i :: 0 <= i < data.Length0 ==> r[i] == data[i, j]
  {
    seq(data.Length0, i requires 0 <= i < data.Length0 reads data => data[i, j])
  }

  /** The min/max scan of one attribute over the instances, skipping
      missing values. */
  method ScanColumn(data: array2<Option<real>>, j: nat) returns (e: Option<(real, real)>)
    requires j < data.Length1
    ensures e == Extremes(Column(data, j))
  {
    ghost var col := Column(data, j);
    e := None;
    for i := 0 to data.Length0
      invariant e == Extremes(col[..i])
    {
      assert col[..i + 1][..i] == col[..i];
      var x := data[i, j];
      if x.Some? {
        var value := x.value;
        if e.None? {
          e := Some((value, value));
        } else {
          var min, max := e.value.0, e.value.1;
          if value < min {
            min := value;
          }
          if value > max {
            max := value;
          }
          e := Some((min, max));
        }
      }
    }
    assert col[..data.Length0] == col;
  }

  /** Normalises attribute `j` of every instance with the given scale. */
  method NormalizeColumn(data: array2<Option<real>>, j: nat, range: Option<real>, base: Option<real>)
    requires j < data.Length1
    modifies data
    ensures forall i, c :: 0 <= i < data.Length0 && 0 <= c < data.Length1 ==>
      data[i, c] == if c == j then NormalizeValue(old(data[i, c]), range, base) else old(data[i, c])
  {
    for i := 0 to data.Length0
      invariant forall r, c :: 0 <= r < data.Length0 && 0 <= c < data.Length1 ==>
        data[r, c] == if c == j && r < i then NormalizeValue(old(data[r, c]), range, base) else old(data[r, c])
    {
      data[i, j] := NormalizeValue(data[i, j], range, base);
    }
  }

  /** The loop of `normalizeAttributes` over the first `n` attributes: each
      gets the range and base of its own values and is normalised with
      them; the remaining (label) attributes are untouched. */
  method NormalizeAll(data: array2<Option<real>>, n: nat) returns (ranges: array<Option<real>>, bases: array<Option<real>>)
    requires n <= data.Length1
    modifies data
    ensures fresh(ranges) && fresh(bases) && ranges.Length == n && bases.Length == n
    ensures forall c :: 0 <= c < n ==>
      ranges[c] == RangeOf(Extremes(old(Column(data, c)))) && bases[c] == BaseOf(Extremes(old(Column(data, c))))
    ensures forall i, c :: 0 <= i < data.Length0 && 0 <= c < data.Length1 ==>
      data[i, c] == if c < n then NormalizeValue(old(data[i, c]), ranges[c], bases[c]) else old(data[i, c])
  {
    ranges := new Option<real>[n](_ => Some(0.0));
    bases := new Option<real>[n](_ => Some(0.0));
    for j := 0 to n
      invariant forall c :: 0 <= c < j ==>
        ranges[c] == RangeOf(Extremes(old(Column(data, c)))) && bases[c] == BaseOf(Extremes(old(Column(data, c))))
      invariant forall i, c :: 0 <= i < data.Length0 && 0 <= c < data.Length1 ==>
        data[i, c] == if c < j then NormalizeValue(old(data[i, c]), ranges[c], bases[c]) else old(data[i, c])
    {
      var e := ScanColumn(data, j);
      assert Column(data, j) == old(Column(data, j));
      ranges[j] := RangeOf(e);
      bases[j] := BaseOf(e);
      NormalizeColumn(data, j, ranges[j], bases[j]);
    }
  }

  // ---------------------------------------------------------------------
  // Training pairs

  /** One training example: the input attributes and the label values. */
  datatype DataPair = DataPair(input: seq<Option<real>>, output: seq<Option<real>>)

  /** A label value 0 becomes -1, the negative output of the tanh network. */
  function BipolarValue(v: Option<real>): Option<real>
  {
    if v == Some(0.0) then Some(-1.0) else v
  }

  function Bipolar(s: seq<Option<real>>): (r: seq<Option<real>>)
    ensures |r| == |s| && forall i :: 0 <= i < |s| ==> r[i] == BipolarValue(s[i])
  {
    seq(|s|, i requires 0 <= i < |s| => BipolarValue(s[i]))
  }

  /** The translation `makePrediction` applies to a network output. */
  function ToBinary(c: real): real
  {
    (c + 1.0) / 2.0
  }

  /** The bipolar mapping turns a 0/1 label into -1/1, keeps 1 exactly where
      the label was 1 (the test the threshold function applies to ideal
      outputs), and the translation of predictions undoes it. */
  lemma BipolarRoundTrip(x: real)
    requires x == 0.0 || x == 1.0
    ensures BipolarValue(Some(x)).Some?
    ensures BipolarValue(Some(x)).value == -1.0 || BipolarValue(Some(x)).value == 1.0
    ensures BipolarValue(Some(x)) == Some(1.0) <==> x == 1.0
    ensures ToBinary(BipolarValue(Some(x)).value) == x
  {
  }

  /** The loop of `prepareData` that rewrites the output array in place. */
  method ToBipolar(output: array<Option<real>>)
    modifies output
    ensures output[..] == Bipolar(old(output[..]))
  {
    for i := 0 to output.Length
      invariant forall k :: 0 <= k < i ==> output[k] == BipolarValue(old(output[k]))
      invariant forall k :: i <= k < output.Length ==> output[k] == old(output[k])
    {
      if output[i] == Some(0.0) {
        output[i] := Some(-1.0);
      }
    }
  }

  /** The pair loop of `prepareData`: each instance splits into its first
      `inputDim` values and the bipolar rest. */
  method MakePairs(data: array2<Option<real>>, inputDim: nat) returns (pairs: seq<DataPair>)
    requires inputDim <= data.Length1
    ensures |pairs| == data.Length0
    ensures forall i :: 0 <= i < data.Length0 ==>
      pairs[i] == DataPair(Row(data, i)[..inputDim], Bipolar(Row(data, i)[inputDim..]))
  {
    pairs := [];
    for index := 0 to data.Length0
      invariant |pairs| == index
      invariant forall i :: 0 <= i < index ==>
        pairs[i] == DataPair(Row(data, i)[..inputDim], Bipolar(Row(data, i)[inputDim..]))
    {
      var instance := Row(data, index);
      var input := instance[..inputDim];
      var output := new Option<real>[|instance| - inputDim](i requires 0 <= i < |instance| - inputDim => instance[inputDim + i]);
      assert output[..] == instance[inputDim..];
      ToBipolar(output);
      pairs := pairs + [DataPair(input, output[..])];
    }
  }

  // ---------------------------------------------------------------------
  // Prediction

  /** The exceptions `makePrediction` can end with. */
  datatype PredictError = IllegalArgument(message: string) | NullPointer | IndexOutOfBounds

  /** The attribute normalisation of `makePrediction` with the stored scales. */
  function NormalizedPattern(input: seq<Option<real>>, ranges: seq<Option<real>>, bases: seq<Option<real>>): (r: seq<Option<real>>)
    requires |input| <= |ranges| && |input| <= |bases|
    ensures |r| == |input|
  {
    seq(|input|, i requires 0 <= i < |input| => NormalizeValue(input[i], ranges[i], bases[i]))
  }

  /** The normalisation loop of `makePrediction` over a copy of the input. */
  method NormalizeInput(input: seq<Option<real>>, ranges: array<Option<real>>, bases: array<Option<real>>)
    returns (pattern: seq<Option<real>>)
    requires |input| <= ranges.Length && |input| <= bases.Length
    ensures pattern == NormalizedPattern(input, ranges[..], bases[..])
  {
    var values := new Option<real>[|input|](i requires 0 <= i < |input| => input[i]);
    for attIndex := 0 to |input|
      invariant forall k :: 0 <= k < attIndex ==> values[k] == NormalizeValue(input[k], ranges[k], bases[k])
      invariant forall k :: attIndex <= k < |input| ==> values[k] == input[k]
    {
      values[attIndex] := NormalizeValue(values[attIndex], ranges[attIndex], bases[attIndex]);
    }
    pattern := values[..];
  }

  /** The label loop of `makePrediction`: a label is predicted exactly when
      its output is strictly above the threshold, and each of the first
      `numLabels` outputs is translated from [-1, 1] to [0, 1] in place. */
  method ApplyThreshold(labelConfidences: array<real>, numLabels: nat, threshold: real) returns (labelPredictions: seq<bool>)
    requires numLabels <= labelConfidences.Length
    modifies labelConfidences
    ensures |labelPredictions| == numLabels
    ensures forall l :: 0 <= l < numLabels ==> (labelPredictions[l] <==> old(labelConfidences[l]) > threshold)
    ensures forall l :: 0 <= l < numLabels ==> labelConfidences[l] == ToBinary(old(labelConfidences[l]))
    ensures forall l :: numLabels <= l < labelConfidences.Length ==> labelConfidences[l] == old(labelConfidences[l])
  {
    var predictions := new bool[numLabels](_ => false);
    for labelIndex := 0 to numLabels
      invariant forall l :: 0 <= l < labelIndex ==> (predictions[l] <==> old(labelConfidences[l]) > threshold)
      invariant forall l :: labelIndex <= l < numLabels ==> !predictions[l]
      invariant forall l :: 0 <= l < labelIndex ==> labelConfidences[l] == ToBinary(old(labelConfidences[l]))
      invariant forall l :: labelIndex <= l < labelConfidences.Length ==> labelConfidences[l] == old(labelConfidences[l])
    {
      if labelConfidences[labelIndex] > threshold {
        predictions[labelIndex] := true;
      }
      labelConfidences[labelIndex] := ToBinary(labelConfidences[labelIndex]);
    }
    labelPredictions := predictions[..];
  }

  /** The translation keeps the order of outputs, so a label is predicted
      exactly when its reported confidence is above the translated
      threshold; it maps the tanh range [-1, 1] onto [0, 1]. */
  lemma TranslatedDecision(c: real, threshold: real)
    ensures c > threshold <==> ToBinary(c) > ToBinary(threshold)
    ensures -1.0 <= c <= 1.0 ==> 0.0 <= ToBinary(c) <= 1.0
  {
  }

  // ---------------------------------------------------------------------
  // The learner

  class BPMLL {
    /** Number of labels of the training data. */
    var numLabels: nat
    var epochs: int
    var weightsDecayCost: real
    var learningRate: real
    var hiddenLayersTopology: Option<seq<int>>
    var normalizeAttributes: bool
    var attRanges: array?<Option<real>>
    var attBases: array?<Option<real>>
    /** The built network, by its layer sizes; `None` before building. */
    var model: Option<seq<int>>
    var thresholdF: Threshold.ThresholdFunction?

    /** A built network has an input and an output layer. */
    predicate Valid()
      reads this`model
    {
      model.Some? ==> |model.value| >= 2 && model.value[0] >= 0
    }

    /** A learner for `numLabels` labels with the default parameters. */
    constructor (numLabels: nat)
      ensures this.numLabels == numLabels
      ensures epochs == 100 && weightsDecayCost == 0.00001 && learningRate == 0.05
      ensures hiddenLayersTopology.None? && normalizeAttributes
      ensures attRanges == null && attBases == null && model.None? && thresholdF == null
      ensures Valid()
    {
      this.numLabels := numLabels;
      epochs := 100;
      weightsDecayCost := 0.00001;
      learningRate := 0.05;
      hiddenLayersTopology := None;
      normalizeAttributes := true;
      attRanges := null;
      attBases := null;
      model := None;
      thresholdF := null;
    }

    method SetHiddenLayers(hiddenLayers: Option<seq<int>>) returns (r: Result<(), string>)
      modifies this`hiddenLayersTopology
      ensures r.Ok? <==> ValidHidden(hiddenLayers)
      ensures hiddenLayersTopology == if r.Ok? then hiddenLayers else old(hiddenLayersTopology)
    {
      if hiddenLayers.Some? {
        var layers := hiddenLayers.value;
        for i := 0 to |layers|
          invariant forall k :: 0 <= k < i ==> layers[k] > 0
        {
          if layers[i] <= 0 {
            return Err(InvalidHiddenLayers);
          }
        }
      }
      hiddenLayersTopology := hiddenLayers;
      return Ok(());
    }

    method SetLearningRate(learningRate: real) returns (r: Result<(), string>)
      modifies this`learningRate
      ensures r.Ok? <==> InUnitInterval(learningRate)
      ensures this.learningRate == if r.Ok? then learningRate else old(this.learningRate)
    {
      if learningRate <= 0.0 || learningRate > 1.0 {
        return Err(InvalidLearningRate);
      }
      this.learningRate := learningRate;
      return Ok(());
    }

    method SetWeightsDecayRegularization(weightsDecayCost: real) returns (r: Result<(), string>)
      modifies this`weightsDecayCost
      ensures r.Ok? <==> InUnitInterval(weightsDecayCost)
      ensures this.weightsDecayCost == if r.Ok? then weightsDecayCost else old(this.weightsDecayCost)
    {
      if weightsDecayCost <= 0.0 || weightsDecayCost > 1.0 {
        return Err(InvalidDecayCost);
      }
      this.weightsDecayCost := weightsDecayCost;
      return Ok(());
    }

    method SetTrainingEpochs(epochs: int) returns (r: Result<(), string>)
      modifies this`epochs
      ensures r.Ok? <==> epochs > 0
      ensures this.epochs == if r.Ok? then epochs else old(this.epochs)
    {
      if epochs <= 0 {
        return Err(InvalidEpochs);
      }
      this.epochs := epochs;
      return Ok(());
    }

    method SetNormalizeAttributes(normalize: bool)
      modifies this`normalizeAttributes
      ensures normalizeAttributes == normalize
    {
      normalizeAttributes := normalize;
    }

    /** `buildNeuralNetwork`: a network whose layers follow `Topology`. */
    method BuildNeuralNetwork(inputsDim: nat)
      modifies this`model
      ensures model == Some(Topology(hiddenLayersTopology, inputsDim, numLabels))
      ensures Valid()
    {
      model := Some(Topology(hiddenLayersTopology, inputsDim, numLabels));
    }

    /** `normalizeAttributes`: every non-label attribute is scanned for its
        least and greatest present value and rescaled with the resulting
        range and base, which are kept for prediction. */
    method NormalizeAttributes(data: array2<Option<real>>)
      requires numLabels <= data.Length1
      modifies this`attRanges, this`attBases, data
      ensures attRanges != null && attBases != null && fresh(attRanges) && fresh(attBases)
      ensures attRanges.Length == data.Length1 - numLabels && attBases.Length == data.Length1 - numLabels
      ensures forall c :: 0 <= c < data.Length1 - numLabels ==>
        attRanges[c] == RangeOf(Extremes(old(Column(data, c)))) && attBases[c] == BaseOf(Extremes(old(Column(data, c))))
      ensures forall i, c :: 0 <= i < data.Length0 && 0 <= c < data.Length1 ==>
        data[i, c] == if c < data.Length1 - numLabels then NormalizeValue(old(data[i, c]), attRanges[c], attBases[c]) else old(data[i, c])
    {
      var ranges, bases := NormalizeAll(data, data.Length1 - numLabels);
      attRanges := ranges;
      attBases := bases;
    }

    /** `prepareData`: normalise the attributes (or drop the scales), then
        split each instance into inputs and bipolar outputs. */
    method PrepareData(data: array2<Option<real>>) returns (pairs: seq<DataPair>)
      requires numLabels <= data.Length1
      modifies this`attRanges, this`attBases, data
      ensures normalizeAttributes ==> attRanges != null && attBases != null && fresh(attRanges) && fresh(attBases)
      ensures normalizeAttributes ==>
        attRanges.Length == data.Length1 - numLabels && attBases.Length == data.Length1 - numLabels
      ensures normalizeAttributes ==> forall c :: 0 <= c < data.Length1 - numLabels ==>
        attRanges[c] == RangeOf(Extremes(old(Column(data, c)))) && attBases[c] == BaseOf(Extremes(old(Column(data, c))))
      ensures normalizeAttributes ==> forall i, c :: 0 <= i < data.Length0 && 0 <= c < data.Length1 ==>
        data[i, c] == if c < data.Length1 - numLabels then NormalizeValue(old(data[i, c]), attRanges[c], attBases[c]) else old(data[i, c])
      ensures !normalizeAttributes ==> attRanges == null && attBases == null && unchanged(data)
      ensures |pairs| == data.Length0
      ensures forall i :: 0 <= i < data.Length0 ==>
        pairs[i] == DataPair(Row(data, i)[..data.Length1 - numLabels], Bipolar(Row(data, i)[data.Length1 - numLabels..]))
    {
      if normalizeAttributes {
        NormalizeAttributes(data);
      } else {
        attBases := null;
        attRanges := null;
      }
      pairs := MakePairs(data, data.Length1 - numLabels);
    }

    /** Every check of `makePrediction` passes: an instance with enough
        attributes, a built network, stored ranges and bases for the network
        inputs when normalising, a threshold function whose dimension matches
        the network output, and an output for every label. */
    ghost predicate Accepts(instance: Option<seq<Option<real>>>, feedForward: seq<Option<real>> -> seq<real>)
      requires Valid()
      reads this, attRanges, attBases, thresholdF
    {
      instance.Some? && model.Some? && model.value[0] <= |instance.value| && thresholdF != null
      && (normalizeAttributes && 0 < model.value[0] ==>
            attRanges != null && attBases != null && model.value[0] <= attRanges.Length && model.value[0] <= attBases.Length)
      && var input := instance.value[..model.value[0]];
         var c := feedForward(if normalizeAttributes && 0 < |input| then NormalizedPattern(input, attRanges[..], attBases[..]) else input);
         |c| == |thresholdF.parameters| - 1 && numLabels <= |c|
    }

    /** `makePrediction`: check the instance, drop the attributes beyond the
        network input, normalise (a loop over the input attributes, so the
        ranges are not touched when there are none), run the network, and
        compare each label's output with the computed threshold. */
    method MakePrediction(instance: Option<seq<Option<real>>>, feedForward: seq<Option<real>> -> seq<real>)
      returns (r: Result<MultiLabelOutput, PredictError>)
      requires Valid()
      ensures instance.None? ==> r.Err? && r.error.IllegalArgument?
      ensures instance.Some? && model.None? ==> r == Err(NullPointer)
      ensures instance.Some? && model.Some? && |instance.value| < model.value[0] ==> r.Err? && r.error.IllegalArgument?
      ensures r.Ok? <==> Accepts(instance, feedForward)
      ensures r.Ok? ==> instance.Some? && model.Some? && model.value[0] <= |instance.value| && thresholdF != null
      ensures r.Ok? && normalizeAttributes && 0 < model.value[0] ==>
        attRanges != null && attBases != null && model.value[0] <= attRanges.Length && model.value[0] <= attBases.Length
      ensures r.Ok? ==>
        var input := instance.value[..model.value[0]];
        var c := feedForward(if normalizeAttributes && 0 < |input| then NormalizedPattern(input, attRanges[..], attBases[..]) else input);
        var p := thresholdF.parameters;
        numLabels <= |c| && |c| == |p| - 1 &&
        var threshold := Threshold.Dot(c, p) + p[|c|];
        |r.value.bipartition| == numLabels && |r.value.confidences| == |c| &&
        (forall l :: 0 <= l < numLabels ==> (r.value.bipartition[l] <==> c[l] > threshold)) &&
        (forall l :: 0 <= l < numLabels ==> r.value.confidences[l] == ToBinary(c[l])) &&
        (forall l :: numLabels <= l < |c| ==> r.value.confidences[l] == c[l])
    {
      var L, normalize, ranges, bases, net, tf := numLabels, normalizeAttributes, attRanges, attBases, model, thresholdF;
      if instance.None? {
        return Err(IllegalArgument(NullInstance));
      }
      if net.None? {
        return Err(NullPointer);
      }
      var netInputSize := net.value[0];
      if |instance.value| < netInputSize {
        return Err(IllegalArgument(TooFewAttributes));
      }
      var pattern := instance.value[..netInputSize];
      if normalize && 0 < netInputSize {
        if ranges == null || bases == null {
          return Err(NullPointer);
        }
        if ranges.Length < netInputSize || bases.Length < netInputSize {
          return Err(IndexOutOfBounds);
        }
        pattern := NormalizeInput(pattern, ranges, bases);
      }
      var outputs := feedForward(pattern);
      if tf == null {
        return Err(NullPointer);
      }
      var threshold := tf.ComputeThreshold(outputs);
      if threshold.Err? {
        return Err(IllegalArgument(threshold.error));
      }
      if |outputs| < L {
        return Err(IndexOutOfBounds);
      }
      var labelConfidences := new real[|outputs|](i requires 0 <= i < |outputs| => outputs[i]);
      var labelPredictions := ApplyThreshold(labelConfidences, L, threshold.value);
      return Ok(MultiLabelOutput(labelPredictions, labelConfidences[..]));
    }
  }
}
