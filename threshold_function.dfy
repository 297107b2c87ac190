/** ThresholdFunction: a linear threshold over label confidences, fitted
    by least squares to one target threshold per training example. The
    target of an example lies between the smallest output of its relevant
    labels and the largest output of its irrelevant ones. The least-squares
    solve is a foreign linear-algebra call and is a parameter here. */
module Threshold {

  import opened Wrappers
  import opened Tables

  /** Java's Double.MAX_VALUE, (2 - 2^-52) * 2^1023, written out. */
  const MaxValue: real := 179769313486231570814527423731704356798070567525844996598917476803157260780028538760589558632766878171540458953514382464234321326889464182768467546703537516986049910576551282076245490090389328944075868508455133942304583236903222948165808559332123348274797826204144723168738177180919299881250404026184124858368.0

  /** A finite double. */
  predicate Finite(x: real)
  {
    -MaxValue <= x <= MaxValue
  }

  // ---------------------------------------------------------------------
  // computeThreshold

  /** conf[0] * p[0] + ... + conf[n-1] * p[n-1], summed left to right. */
  function Dot(conf: seq<real>, p: seq<real>): real
    requires |conf| <= |p|
  {
    if conf == [] then 0.0 else Dot(conf[..|conf| - 1], p) + conf[|conf| - 1] * p[|conf| - 1]
  }

  function Add(a: seq<real>, b: seq<real>): (r: seq<real>)
    requires |a| == |b|
    ensures |r| == |a| && forall i :: 0 <= i < |a| ==> r[i] == a[i] + b[i]
  {
    seq(|a|, i requires 0 <= i < |a| => a[i] + b[i])
  }

  /** All-zero confidences contribute nothing: the threshold is then the
      bias parameter alone. */
  lemma {:induction false} DotZeros(n: nat, p: seq<real>)
    requires n <= |p|
    ensures Dot(Zeros(n), p) == 0.0
  {
    if n > 0 {
      assert Zeros(n)[..n - 1] == Zeros(n - 1);
      DotZeros(n - 1, p);
    }
  }

  /** The weighted sum is additive in the confidences, so the threshold is
      an affine function of them. */
  lemma {:induction false} DotAdd(a: seq<real>, b: seq<real>, p: seq<real>)
    requires |a| == |b| <= |p|
    ensures Dot(Add(a, b), p) == Dot(a, p) + Dot(b, p)
  {
    if a != [] {
      var n := |a| - 1;
      assert Add(a, b)[..n] == Add(a[..n], b[..n]);
      DotAdd(a[..n], b[..n], p);
    }
  }

  // ---------------------------------------------------------------------
  // The per-example target of build

  /** The buffer `isLabelModelOuts` after one example: the model output
      where the ideal output is 1, MAX_VALUE elsewhere. */
  function LabelOuts(ideal: seq<real>, out: seq<real>, numLabels: nat): (r: seq<real>)
    requires numLabels <= |ideal| && numLabels <= |out|
    ensures |r| == numLabels
  {
    seq(numLabels, l requires 0 <= l < numLabels => if ideal[l] == 1.0 then out[l] else MaxValue)
  }

  /** The buffer `isNotLabelModelOuts`: the model output where the ideal
      output is not 1, -MAX_VALUE elsewhere. */
  function NotLabelOuts(ideal: seq<real>, out: seq<real>, numLabels: nat): (r: seq<real>)
    requires numLabels <= |ideal| && numLabels <= |out|
    ensures |r| == numLabels
  {
    seq(numLabels, l requires 0 <= l < numLabels => if ideal[l] == 1.0 then -MaxValue else out[l])
  }

  function SeqMin(s: seq<real>): real
    requires |s| > 0
  {
    if |s| == 1 then s[0]
    else
      var m := SeqMin(s[..|s| - 1]);
      if s[|s| - 1] < m then s[|s| - 1] else m
  }

  function SeqMax(s: seq<real>): real
    requires |s| > 0
  {
    if |s| == 1 then s[0]
    else
      var m := SeqMax(s[..|s| - 1]);
      if s[|s| - 1] > m then s[|s| - 1] else m
  }

  lemma {:induction false} SeqMinIsMin(s: seq<real>)
    requires |s| > 0
    ensures SeqMin(s) in s
    ensures forall i :: 0 <= i < |s| ==> SeqMin(s) <= s[i]
  {
    if |s| > 1 {
      SeqMinIsMin(s[..|s| - 1]);
      assert forall i :: 0 <= i < |s| - 1 ==> s[..|s| - 1][i] == s[i];
    }
  }

  lemma {:induction false} SeqMaxIsMax(s: seq<real>)
    requires |s| > 0
    ensures SeqMax(s) in s
    ensures forall i :: 0 <= i < |s| ==> s[i] <= SeqMax(s)
  {
    if |s| > 1 {
      SeqMaxIsMax(s[..|s| - 1]);
      assert forall i :: 0 <= i < |s| - 1 ==> s[..|s| - 1][i] == s[i];
    }
  }

  /** `isLabelMin`: the smallest output among the relevant labels. */
  function LabelMin(ideal: seq<real>, out: seq<real>, numLabels: nat): real
    requires 0 < numLabels <= |ideal| && numLabels <= |out|
  {
    SeqMin(LabelOuts(ideal, out, numLabels))
  }

  /** `isNotLabelMax`: the largest output among the irrelevant labels. */
  function NotLabelMax(ideal: seq<real>, out: seq<real>, numLabels: nat): real
    requires 0 < numLabels <= |ideal| && numLabels <= |out|
  {
    SeqMax(NotLabelOuts(ideal, out, numLabels))
  }

  /** The target threshold of one example: the midpoint of `isLabelMin` and
      `isNotLabelMax`, or `isLabelMin` when the two are equal. */
  function Target(ideal: seq<real>, out: seq<real>, numLabels: nat): real
    requires 0 < numLabels <= |ideal| && numLabels <= |out|
  {
    var lo := LabelMin(ideal, out, numLabels);
    var hi := NotLabelMax(ideal, out, numLabels);
    if lo != hi then (lo + hi) / 2.0 else lo
  }

  /** With finite outputs, `isLabelMin` is the least output of a relevant
      label, or MAX_VALUE when no label is relevant. */
  lemma LabelMinMeans(ideal: seq<real>, out: seq<real>, numLabels: nat)
    requires 0 < numLabels <= |ideal| && numLabels <= |out|
    requires forall l :: 0 <= l < numLabels ==> Finite(out[l])
    ensures forall l :: 0 <= l < numLabels && ideal[l] == 1.0 ==> LabelMin(ideal, out, numLabels) <= out[l]
    ensures (forall l :: 0 <= l < numLabels ==> ideal[l] != 1.0) ==> LabelMin(ideal, out, numLabels) == MaxValue
    ensures (exists l :: 0 <= l < numLabels && ideal[l] == 1.0) ==>
              exists l :: 0 <= l < numLabels && ideal[l] == 1.0 && LabelMin(ideal, out, numLabels) == out[l]
  {
    var s := LabelOuts(ideal, out, numLabels);
    SeqMinIsMin(s);
    var m := SeqMin(s);
    var i :| 0 <= i < numLabels && s[i] == m;
    forall l | 0 <= l < numLabels && ideal[l] == 1.0
      ensures m <= out[l]
    {
      assert m <= s[l];
    }
    if exists l :: 0 <= l < numLabels && ideal[l] == 1.0 {
      var l :| 0 <= l < numLabels && ideal[l] == 1.0;
      if ideal[i] == 1.0 {
        assert ideal[i] == 1.0 && m == out[i];
      } else {
        assert m == MaxValue && m <= s[l] == out[l];
        assert ideal[l] == 1.0 && m == out[l];
      }
    } else {
      assert s[i] == MaxValue;
    }
  }

  /** With finite outputs, `isNotLabelMax` is the greatest output of an
      irrelevant label, or -MAX_VALUE when every label is relevant. */
  lemma NotLabelMaxMeans(ideal: seq<real>, out: seq<real>, numLabels: nat)
    requires 0 < numLabels <= |ideal| && numLabels <= |out|
    requires forall l :: 0 <= l < numLabels ==> Finite(out[l])
    ensures forall l :: 0 <= l < numLabels && ideal[l] != 1.0 ==> out[l] <= NotLabelMax(ideal, out, numLabels)
    ensures (forall l :: 0 <= l < numLabels ==> ideal[l] == 1.0) ==> NotLabelMax(ideal, out, numLabels) == -MaxValue
    ensures (exists l :: 0 <= l < numLabels && ideal[l] != 1.0) ==>
              exists l :: 0 <= l < numLabels && ideal[l] != 1.0 && NotLabelMax(ideal, out, numLabels) == out[l]
  {
    var s := NotLabelOuts(ideal, out, numLabels);
    SeqMaxIsMax(s);
    var m := SeqMax(s);
    var i :| 0 <= i < numLabels && s[i] == m;
    forall l | 0 <= l < numLabels && ideal[l] != 1.0
      ensures out[l] <= m
    {
      assert s[l] <= m;
    }
    if exists l :: 0 <= l < numLabels && ideal[l] != 1.0 {
      var l :| 0 <= l < numLabels && ideal[l] != 1.0;
      if ideal[i] != 1.0 {
        assert ideal[i] != 1.0 && m == out[i];
      } else {
        assert m == -MaxValue && out[l] == s[l] <= m;
        assert ideal[l] != 1.0 && m == out[l];
      }
    } else {
      assert s[i] == -MaxValue;
    }
  }

  /** The target threshold lies between `isNotLabelMax` and `isLabelMin`
      (in whichever order they come). */
  lemma TargetBetween(ideal: seq<real>, out: seq<real>, numLabels: nat)
    requires 0 < numLabels <= |ideal| && numLabels <= |out|
    ensures var lo, hi := LabelMin(ideal, out, numLabels), NotLabelMax(ideal, out, numLabels);
            (hi <= lo ==> hi <= Target(ideal, out, numLabels) <= lo)
            && (lo <= hi ==> lo <= Target(ideal, out, numLabels) <= hi)
  {
  }

  /** When the model ranks every relevant label at least as high as every
      irrelevant one, the target threshold separates them: relevant
      outputs are at or above it, irrelevant ones at or below. */
  lemma TargetSeparates(ideal: seq<real>, out: seq<real>, numLabels: nat)
    requires 0 < numLabels <= |ideal| && numLabels <= |out|
    requires forall l :: 0 <= l < numLabels ==> Finite(out[l])
    requires forall p, q :: 0 <= p < numLabels && 0 <= q < numLabels && ideal[p] == 1.0 && ideal[q] != 1.0 ==> out[q] <= out[p]
    ensures forall l :: 0 <= l < numLabels && ideal[l] == 1.0 ==> Target(ideal, out, numLabels) <= out[l]
    ensures forall l :: 0 <= l < numLabels && ideal[l] != 1.0 ==> out[l] <= Target(ideal, out, numLabels)
  {
    LabelMinMeans(ideal, out, numLabels);
    NotLabelMaxMeans(ideal, out, numLabels);
    var lo, hi := LabelMin(ideal, out, numLabels), NotLabelMax(ideal, out, numLabels);
    assert hi <= lo by {
      if exists l :: 0 <= l < numLabels && ideal[l] == 1.0 {
        var p :| 0 <= p < numLabels && ideal[p] == 1.0 && lo == out[p];
        if exists l :: 0 <= l < numLabels && ideal[l] != 1.0 {
          var q :| 0 <= q < numLabels && ideal[q] != 1.0 && hi == out[q];
        }
      }
    }
    TargetBetween(ideal, out, numLabels);
  }

  /** The least-squares system of `build`: each example's outputs followed
      by a constant 1 for the bias. */
  function Design(modelOut: seq<seq<real>>): (r: seq<seq<real>>)
    ensures |r| == |modelOut| && forall e :: 0 <= e < |r| ==> r[e] == modelOut[e] + [1.0]
  {
    seq(|modelOut|, e requires 0 <= e < |modelOut| => modelOut[e] + [1.0])
  }

  /** The exceptions `build` can end in. */
  datatype BuildError =
    | NullInput          // IllegalArgumentException: an input is null
    | DimensionMismatch  // IllegalArgumentException: row counts or first-row lengths differ
    | OutOfBounds        // ArrayIndexOutOfBoundsException: no examples, no labels, or a short row
    | RaggedRows         // IllegalArgumentException from the matrix: output rows of unequal length

  /** Fills every slot of `a` with `v` (Arrays.fill). */
  method Fill(a: array<real>, v: real)
    modifies a
    ensures forall i :: 0 <= i < a.Length ==> a[i] == v
  {
    for i := 0 to a.Length
      invariant forall j :: 0 <= j < i ==> a[j] == v
    {
      a[i] := v;
    }
  }

  /** An index of a least value (Utils.minIndex). */
  method MinIndex(a: array<real>) returns (m: nat)
    requires a.Length > 0
    ensures m < a.Length && a[m] == SeqMin(a[..])
  {
    m := 0;
    for i := 1 to a.Length
      invariant m < i && forall j :: 0 <= j < i ==> a[m] <= a[j]
    {
      if a[i] < a[m] {
        m := i;
      }
    }
    SeqMinIsMin(a[..]);
  }

  /** An index of a greatest value (Utils.maxIndex). */
  method MaxIndex(a: array<real>) returns (m: nat)
    requires a.Length > 0
    ensures m < a.Length && a[m] == SeqMax(a[..])
  {
    m := 0;
    for i := 1 to a.Length
      invariant m < i && forall j :: 0 <= j < i ==> a[j] <= a[m]
    {
      if a[i] > a[m] {
        m := i;
      }
    }
    SeqMaxIsMax(a[..]);
  }

  /** One pass of the example loop of `build`: refill both buffers, sort
      the outputs into them by the ideal output, and derive the target. */
  method ExampleTarget(ideal: seq<real>, out: seq<real>, isLabelOuts: array<real>, isNotLabelOuts: array<real>)
    returns (t: real)
    requires 0 < isLabelOuts.Length == isNotLabelOuts.Length
    requires isLabelOuts.Length <= |ideal| && isLabelOuts.Length <= |out|
    requires isLabelOuts != isNotLabelOuts
    modifies isLabelOuts, isNotLabelOuts
    ensures t == Target(ideal, out, isLabelOuts.Length)
  {
    var numLabels := isLabelOuts.Length;
    Fill(isLabelOuts, MaxValue);
    Fill(isNotLabelOuts, -MaxValue);
    for l := 0 to numLabels
      invariant forall j :: 0 <= j < numLabels ==>
                  isLabelOuts[j] == if j < l then LabelOuts(ideal, out, numLabels)[j] else MaxValue
      invariant forall j :: 0 <= j < numLabels ==>
                  isNotLabelOuts[j] == if j < l then NotLabelOuts(ideal, out, numLabels)[j] else -MaxValue
    {
      if ideal[l] == 1.0 {
        isLabelOuts[l] := out[l];
      } else {
        isNotLabelOuts[l] := out[l];
      }
    }
    assert isLabelOuts[..] == LabelOuts(ideal, out, numLabels);
    assert isNotLabelOuts[..] == NotLabelOuts(ideal, out, numLabels);
    var i := MinIndex(isLabelOuts);
    var j := MaxIndex(isNotLabelOuts);
    var isLabelMin := isLabelOuts[i];
    var isNotLabelMax := isNotLabelOuts[j];
    if isLabelMin != isNotLabelMax {
      t := (isLabelMin + isNotLabelMax) / 2.0;
    } else {
      t := isLabelMin;
    }
  }

  /** Every row has at least `numLabels` entries. */
  predicate RowsReach(rows: seq<seq<real>>, numLabels: nat)
  {
    forall e :: 0 <= e < |rows| ==> numLabels <= |rows[e]|
  }

  /** The targets of all examples, in order. */
  function Targets(ideal: seq<seq<real>>, modelOut: seq<seq<real>>, numLabels: nat): (r: seq<real>)
    requires 0 < numLabels && |modelOut| == |ideal| && RowsReach(ideal, numLabels) && RowsReach(modelOut, numLabels)
    ensures |r| == |ideal|
  {
    seq(|ideal|, e requires 0 <= e < |ideal| => Target(ideal[e], modelOut[e], numLabels))
  }

  class ThresholdFunction {
    var parameters: seq<real>

    /** The constructor builds the function; it is modelled by `Create`,
        which reports the exception `build` would throw. */
    constructor FromParameters(parameters: seq<real>)
      ensures this.parameters == parameters
    {
      this.parameters := parameters;
    }

    static method Create(ideal: Option<seq<seq<real>>>, modelOut: Option<seq<seq<real>>>,
                         solve: (seq<seq<real>>, seq<real>) -> seq<real>)
      returns (r: Result<ThresholdFunction, BuildError>)
      ensures r.Ok? <==> Buildable(ideal, modelOut)
      ensures r.Ok? ==> fresh(r.value)
      ensures r.Ok? ==> r.value.parameters
                          == solve(Design(modelOut.value), Targets(ideal.value, modelOut.value, |ideal.value[0]|))
    {
      var f := new ThresholdFunction.FromParameters([]);
      var built := f.Build(ideal, modelOut, solve);
      if built.Err? {
        return Err(built.error);
      }
      r := Ok(f);
    }

    /** `computeThreshold`: the confidences weighted by the parameters plus
        the last parameter; a length other than |parameters| - 1 is an
        IllegalArgumentException. */
    method ComputeThreshold(labelsConfidences: seq<real>) returns (r: Result<real, string>)
      ensures r.Err? <==> |labelsConfidences| != |parameters| - 1
      ensures r.Ok? ==> r.value == Dot(labelsConfidences, parameters) + parameters[|parameters| - 1]
    {
      var expectedDim := |parameters| - 1;
      if |labelsConfidences| != expectedDim {
        return Err("IllegalArgumentException");
      }
      var threshold := 0.0;
      for index := 0 to expectedDim
        invariant threshold == Dot(labelsConfidences[..index], parameters)
      {
        assert labelsConfidences[..index + 1][..index] == labelsConfidences[..index];
        threshold := threshold + labelsConfidences[index] * parameters[index];
      }
      assert labelsConfidences[..expectedDim] == labelsConfidences;
      threshold := threshold + parameters[expectedDim];
      r := Ok(threshold);
    }

    /** `build`: the guards in source order, then one target per example,
        then the parameters solved from the outputs (with a bias column)
        against the targets. On success the targets are returned. */
    method Build(ideal: Option<seq<seq<real>>>, modelOut: Option<seq<seq<real>>>,
                 solve: (seq<seq<real>>, seq<real>) -> seq<real>)
      returns (r: Result<seq<real>, BuildError>)
      modifies this`parameters
      ensures r.Err? ==> parameters == old(parameters)
      ensures r.Ok? <==> Buildable(ideal, modelOut)
      ensures ideal.None? || modelOut.None? ==> r == Err(NullInput)
      ensures ideal.Some? && modelOut.Some? ==> (|ideal.value| == 0 ==> r == Err(OutOfBounds))
      ensures ideal.Some? && modelOut.Some? && |ideal.value| > 0 ==>
                (Mismatched(ideal.value, modelOut.value) <==> r == Err(DimensionMismatch))
      ensures ideal.Some? && modelOut.Some? && |ideal.value| > 0 && !Mismatched(ideal.value, modelOut.value) ==>
                (ShortRows(ideal.value, modelOut.value) <==> r == Err(OutOfBounds))
      ensures r.Ok? ==> ideal.Some? && modelOut.Some? && |ideal.value| > 0
      ensures r.Ok? ==> !Mismatched(ideal.value, modelOut.value) && !ShortRows(ideal.value, modelOut.value)
      ensures r.Ok? ==> forall e :: 0 <= e < |modelOut.value| ==> |modelOut.value[e]| == |ideal.value[0]|
      ensures r.Ok? ==> r.value == Targets(ideal.value, modelOut.value, |ideal.value[0]|)
      ensures r.Ok? ==> parameters == solve(Design(modelOut.value), r.value)
    {
      if ideal.None? || modelOut.None? {
        return Err(NullInput);
      }
      var idealLabels, modelOutLabels := ideal.value, modelOut.value;
      var numExamples := |idealLabels|;
      if numExamples == 0 {
        return Err(OutOfBounds);
      }
      var numLabels := |idealLabels[0]|;
      if |modelOutLabels| != numExamples || |modelOutLabels[0]| != numLabels {
        return Err(DimensionMismatch);
      }
      // With no labels the first example's minimum lookup is out of bounds.
      if numLabels == 0 {
        return Err(OutOfBounds);
      }
      var thresholds := ExampleLoop(idealLabels, modelOutLabels, numLabels);
      if thresholds.None? {
        return Err(OutOfBounds);
      }
      // The matrix of outputs demands rows of equal length.
      if !(forall e | 0 <= e < numExamples :: |modelOutLabels[e]| == numLabels) {
        return Err(RaggedRows);
      }
      parameters := solve(Design(modelOutLabels), thresholds.value);
      r := Ok(thresholds.value);
    }
  }

  /** The inputs on which `build` completes. */
  predicate Buildable(ideal: Option<seq<seq<real>>>, modelOut: Option<seq<seq<real>>>)
  {
    && ideal.Some? && modelOut.Some? && |ideal.value| > 0
    && !Mismatched(ideal.value, modelOut.value) && !ShortRows(ideal.value, modelOut.value)
    && forall e :: 0 <= e < |modelOut.value| ==> |modelOut.value[e]| == |ideal.value[0]|
  }

  /** The guard of `build` on the dimensions: row counts or the first rows'
      lengths differ. */
  predicate Mismatched(ideal: seq<seq<real>>, modelOut: seq<seq<real>>)
    requires |ideal| > 0
  {
    |modelOut| != |ideal| || |modelOut[0]| != |ideal[0]|
  }

  /** No labels at all, or a row too short for the label loop. */
  predicate ShortRows(ideal: seq<seq<real>>, modelOut: seq<seq<real>>)
    requires |ideal| > 0
  {
    var numLabels := |ideal[0]|;
    numLabels == 0 || !RowsReach(ideal, numLabels) || !RowsReach(modelOut, numLabels)
  }

  /** The example loop of `build` with its two reused buffers; a row too
      short for the label loop ends it with an index error (None). */
  method ExampleLoop(idealLabels: seq<seq<real>>, modelOutLabels: seq<seq<real>>, numLabels: nat)
    returns (thresholds: Option<seq<real>>)
    requires 0 < numLabels && |modelOutLabels| == |idealLabels|
    ensures thresholds.None? <==> !RowsReach(idealLabels, numLabels) || !RowsReach(modelOutLabels, numLabels)
    ensures thresholds.Some? ==> thresholds.value == Targets(idealLabels, modelOutLabels, numLabels)
  {
    var numExamples := |idealLabels|;
    var targets := new real[numExamples](_ => 0.0);
    var isLabelOuts := new real[numLabels](_ => 0.0);
    var isNotLabelOuts := new real[numLabels](_ => 0.0);
    for example := 0 to numExamples
      invariant forall e :: 0 <= e < example ==> numLabels <= |idealLabels[e]| && numLabels <= |modelOutLabels[e]|
      invariant forall e :: 0 <= e < example ==> targets[e] == Target(idealLabels[e], modelOutLabels[e], numLabels)
    {
      if |idealLabels[example]| < numLabels || |modelOutLabels[example]| < numLabels {
        return None;
      }
      var t := ExampleTarget(idealLabels[example], modelOutLabels[example], isLabelOuts, isNotLabelOuts);
      targets[example] := t;
    }
    thresholds := Some(targets[..]);
  }
}
