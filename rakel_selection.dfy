/** RAKEL's choice of (subset size k, ensemble size m, threshold step t) by
    cross-validation: the Hamming losses recorded per fold, in the order of
    the settings grid, are averaged over the folds and the first setting with
    the smallest average below 1 is kept. */
module RakelSelection {

  import opened Wrappers
  import opened RakelSubsets

  /** One grid point: subset size, 0-based model index, threshold step. */
  datatype Setting = Setting(k: int, m: int, t: int)

  function Min(a: int, b: int): (r: int)
    ensures r <= a && r <= b && (r == a || r == b)
  {
    if a < b then a else b
  }

  /** Number of ensemble sizes tried for subset size k: the (32-bit) number of
      k-subsets, capped by the largest ensemble size asked for. */
  function FinalM(numLabels: nat, k: nat, maxM: int): int
    requires k <= numLabels
  {
    Min(Wrap32(Choose(numLabels, k)), maxM)
  }

  /** A non-negative Java int never grows by wrapping: so the ensemble sizes
      tried never exceed the number of distinct k-subsets. */
  lemma WrapNotAbove(x: nat)
    ensures Wrap32(x) <= x
  {
  }

  lemma FinalMBelowChoose(numLabels: nat, k: nat, maxM: int)
    requires k <= numLabels
    ensures FinalM(numLabels, k, maxM) <= Choose(numLabels, k)
  {
    WrapNotAbove(Choose(numLabels, k));
  }

  /** The threshold steps tried for one (k, m). */
  function Steps(k: int, m: int, steps: int): (s: seq<Setting>)
    ensures |s| == if steps < 0 then 0 else steps
    ensures forall t :: 0 <= t < |s| ==> s[t] == Setting(k, m, t)
  {
    seq(if steps < 0 then 0 else steps, t => Setting(k, m, t))
  }

  /** The settings for one k, model indices m up to finalM, in loop order. */
  function Models(k: int, m: int, finalM: int, steps: int): seq<Setting>
    decreases finalM - m
  {
    if m >= finalM then [] else Steps(k, m, steps) + Models(k, m + 1, finalM, steps)
  }

  predicate GridArgs(numLabels: nat, k: int, maxK: int, stepK: int)
  {
    k <= maxK ==> 0 <= k && maxK <= numLabels && stepK > 0
  }

  /** The whole grid from subset size k on, in the order the folds recorded
      their losses and the scan reads them. */
  function Grid(numLabels: nat, k: int, maxK: int, stepK: int, maxM: int, steps: int): seq<Setting>
    requires GridArgs(numLabels, k, maxK, stepK)
    decreases maxK - k
  {
    if k > maxK then []
    else Models(k, 0, FinalM(numLabels, k, maxM), steps) + Grid(numLabels, k + stepK, maxK, stepK, maxM, steps)
  }

  /** Where every grid point lies: so the index m of a chosen point stands
      for an ensemble of m + 1 distinct subsets, which always exist. */
  lemma {:induction false} ModelsShape(k: int, m: int, finalM: int, steps: int)
    ensures forall s :: s in Models(k, m, finalM, steps) ==>
      s.k == k && m <= s.m < finalM && 0 <= s.t < steps
    decreases finalM - m
  {
    if m < finalM {
      ModelsShape(k, m + 1, finalM, steps);
    }
  }

  lemma {:induction false} GridShape(numLabels: nat, k: int, maxK: int, stepK: int, maxM: int, steps: int)
    requires GridArgs(numLabels, k, maxK, stepK)
    ensures forall s :: s in Grid(numLabels, k, maxK, stepK, maxM, steps) ==>
      k <= s.k <= maxK && 0 <= s.k <= numLabels && 0 <= s.m && s.m + 1 <= Choose(numLabels, s.k)
      && s.m < maxM && 0 <= s.t < steps
    decreases maxK - k
  {
    if k <= maxK {
      var finalM := FinalM(numLabels, k, maxM);
      ModelsShape(k, 0, finalM, steps);
      FinalMBelowChoose(numLabels, k, maxM);
      GridShape(numLabels, k + stepK, maxK, stepK, maxM, steps);
    }
  }

  /** `GridShape` at one position. */
  lemma GridAt(numLabels: nat, minK: int, maxK: int, stepK: int, maxM: int, steps: int, at: int)
    requires GridArgs(numLabels, minK, maxK, stepK)
    requires 0 <= at < |Grid(numLabels, minK, maxK, stepK, maxM, steps)|
    ensures var s := Grid(numLabels, minK, maxK, stepK, maxM, steps)[at];
      0 <= s.k <= numLabels && 0 <= s.m && s.m + 1 <= Choose(numLabels, s.k) && 0 <= s.t
  {
    GridShape(numLabels, minK, maxK, stepK, maxM, steps);
    assert Grid(numLabels, minK, maxK, stepK, maxM, steps)[at] in Grid(numLabels, minK, maxK, stepK, maxM, steps);
  }

  // ---------------------------------------------------------------------
  // Fold averages and the scan

  /** Sum over the first `folds` folds of the loss recorded at position c. */
  function FoldSum(metric: seq<seq<real>>, folds: nat, c: nat): real
    requires folds <= |metric| && forall f :: 0 <= f < folds ==> c < |metric[f]|
  {
    if folds == 0 then 0.0 else FoldSum(metric, folds - 1, c) + metric[folds - 1][c]
  }

  predicate Recorded(metric: seq<seq<real>>, numFolds: nat, size: nat)
  {
    numFolds <= |metric| && forall f :: 0 <= f < numFolds ==> size <= |metric[f]|
  }

  function Average(metric: seq<seq<real>>, numFolds: nat, c: nat): real
    requires 0 < numFolds <= |metric| && forall f :: 0 <= f < numFolds ==> c < |metric[f]|
  {
    FoldSum(metric, numFolds, c) / numFolds as real
  }

  /** Position `at` is the setting the scan keeps: its average loss is below
      1, no setting does better, and every earlier setting does strictly
      worse (ties go to the first). */
  predicate Selects(metric: seq<seq<real>>, numFolds: nat, size: nat, at: int)
    requires 0 < numFolds && Recorded(metric, numFolds, size)
  {
    0 <= at < size && Average(metric, numFolds, at) < 1.0
    && (forall c :: 0 <= c < size ==> Average(metric, numFolds, c) >= Average(metric, numFolds, at))
    && (forall c :: 0 <= c < at ==> Average(metric, numFolds, c) > Average(metric, numFolds, at))
  }

  /** No recorded average falls below 1: the scan adopts nothing. */
  predicate NoneBelowOne(metric: seq<seq<real>>, numFolds: nat, size: nat)
    requires 0 < numFolds && Recorded(metric, numFolds, size)
  {
    forall c :: 0 <= c < size ==> Average(metric, numFolds, c) >= 1.0
  }

  /** At most one position is selected: the scan's choice is determined by
      the recorded losses alone. */
  lemma SelectsUnique(metric: seq<seq<real>>, numFolds: nat, size: nat, a: int, b: int)
    requires 0 < numFolds && Recorded(metric, numFolds, size)
    requires Selects(metric, numFolds, size, a) && Selects(metric, numFolds, size, b)
    ensures a == b
  {
    assert Average(metric, numFolds, a) == Average(metric, numFolds, b);
  }

  /** The inner fold loop: the loss recorded at position c, averaged over
      the folds. */
  method AverageAt(metric: seq<seq<real>>, numFolds: nat, c: nat) returns (avg: real)
    requires 0 < numFolds <= |metric| && forall f :: 0 <= f < numFolds ==> c < |metric[f]|
    ensures avg == Average(metric, numFolds, c)
  {
    avg := 0.0;
    for f := 0 to numFolds
      invariant avg == FoldSum(metric, f, c)
    {
      avg := avg + metric[f][c];
    }
    avg := avg / numFolds as real;
  }

  /** The scan's state after the first n positions of the grid `whole`:
      `minMetric` is the best average seen (1 if none fell below 1) and `at`
      the first position reaching it. */
  ghost predicate Scanned(metric: seq<seq<real>>, numFolds: nat, whole: seq<Setting>, n: nat,
                          minMetric: real, best: Option<Setting>, at: int)
    requires 0 < numFolds && Recorded(metric, numFolds, |whole|) && n <= |whole|
  {
    minMetric <= 1.0
    && (forall c :: 0 <= c < n ==> Average(metric, numFolds, c) >= minMetric)
    && (best.None? ==> minMetric == 1.0)
    && (best.Some? ==>
          0 <= at < n && best.value == whole[at]
          && Average(metric, numFolds, at) == minMetric < 1.0
          && forall c :: 0 <= c < at ==> Average(metric, numFolds, c) > minMetric)
  }

  /** One position of the scan: average its losses over the folds and adopt
      the setting if that average beats the best so far. */
  method Visit(metric: seq<seq<real>>, numFolds: nat, ghost whole: seq<Setting>, counter: nat, s: Setting,
               minMetric: real, best: Option<Setting>, at: int)
    returns (minMetric': real, best': Option<Setting>, at': int)
    requires 0 < numFolds && Recorded(metric, numFolds, |whole|)
    requires counter < |whole| && whole[counter] == s
    requires Scanned(metric, numFolds, whole, counter, minMetric, best, at)
    ensures Scanned(metric, numFolds, whole, counter + 1, minMetric', best', at')
  {
    var avgMetric := AverageAt(metric, numFolds, counter);
    if avgMetric < minMetric {
      minMetric', best', at' := avgMetric, Some(s), counter;
    } else {
      minMetric', best', at' := minMetric, best, at;
    }
  }

  /** The scan, completed: what `Scanned` says once every position is read. */
  lemma ScanComplete(metric: seq<seq<real>>, numFolds: nat, whole: seq<Setting>,
                     minMetric: real, best: Option<Setting>, at: int)
    requires 0 < numFolds && Recorded(metric, numFolds, |whole|)
    requires Scanned(metric, numFolds, whole, |whole|, minMetric, best, at)
    ensures best.None? <==> NoneBelowOne(metric, numFolds, |whole|)
    ensures best.Some? ==> Selects(metric, numFolds, |whole|, at) && best.value == whole[at]
  {
    if best.Some? {
      assert Average(metric, numFolds, at) < 1.0;
    }
  }

  /** The scan's two inner loops, over the model indices and threshold
      steps of one subset size k: visits the positions of
      `Models(k, 0, finalM, steps)`, the next ones of the grid. */
  method ScanSubsetSize(metric: seq<seq<real>>, numFolds: nat, ghost whole: seq<Setting>,
                        ghost later: seq<Setting>, counter0: nat, k: int, finalM: int, steps: int,
                        minMetric0: real, best0: Option<Setting>, at0: int)
    returns (counter: nat, minMetric: real, best: Option<Setting>, at: int)
    requires 0 < numFolds && Recorded(metric, numFolds, |whole|)
    requires counter0 <= |whole| && whole[counter0..] == Models(k, 0, finalM, steps) + later
    requires Scanned(metric, numFolds, whole, counter0, minMetric0, best0, at0)
    ensures counter <= |whole| && whole[counter..] == later
    ensures Scanned(metric, numFolds, whole, counter, minMetric, best, at)
  {
    counter, minMetric, best, at := counter0, minMetric0, best0, at0;
    var m := 0;
    while m < finalM
      invariant 0 <= m
      invariant counter <= |whole| && whole[counter..] == Models(k, m, finalM, steps) + later
      invariant Scanned(metric, numFolds, whole, counter, minMetric, best, at)
    {
      ghost var rest := Models(k, m + 1, finalM, steps) + later;
      assert whole[counter..] == Steps(k, m, steps) + rest;
      counter, minMetric, best, at := ScanModel(metric, numFolds, whole, rest, counter, k, m, steps, minMetric, best, at);
      m := m + 1;
    }
  }

  /** The innermost loop of the scan: the threshold steps of one (k, m). */
  method ScanModel(metric: seq<seq<real>>, numFolds: nat, ghost whole: seq<Setting>,
                   ghost rest: seq<Setting>, counter0: nat, k: int, m: int, steps: int,
                   minMetric0: real, best0: Option<Setting>, at0: int)
    returns (counter: nat, minMetric: real, best: Option<Setting>, at: int)
    requires 0 < numFolds && Recorded(metric, numFolds, |whole|)
    requires counter0 <= |whole| && whole[counter0..] == Steps(k, m, steps) + rest
    requires Scanned(metric, numFolds, whole, counter0, minMetric0, best0, at0)
    ensures counter <= |whole| && whole[counter..] == rest
    ensures Scanned(metric, numFolds, whole, counter, minMetric, best, at)
  {
    counter, minMetric, best, at := counter0, minMetric0, best0, at0;
    ghost var row := Steps(k, m, steps);
    var t := 0;
    while t < steps
      invariant 0 <= t <= |row|
      invariant counter <= |whole| && whole[counter..] == row[t..] + rest
      invariant Scanned(metric, numFolds, whole, counter, minMetric, best, at)
    {
      assert whole[counter] == Setting(k, m, t) by {
        assert whole[counter..][0] == row[t..][0];
      }
      assert whole[counter + 1..] == row[t + 1..] + rest by {
        assert whole[counter + 1..] == whole[counter..][1..];
      }
      minMetric, best, at := Visit(metric, numFolds, whole, counter, Setting(k, m, t), minMetric, best, at);
      counter := counter + 1;
      t := t + 1;
    }
    assert row[t..] == [];
  }

  /** The scan of `paramSelectionViaCV`: walks the grid in order with a
      running counter, averages each position over the folds and adopts a
      setting whenever its average is strictly below the best so far
      (starting from 1, the worst Hamming loss). Returns the adopted setting
      and its position, or `None` when no average falls below 1. */
  method SelectParams(metric: seq<seq<real>>, numFolds: nat, numLabels: nat,
                      minK: int, maxK: int, stepK: int, maxM: int, steps: int)
    returns (best: Option<Setting>, at: int)
    requires 0 < numFolds && GridArgs(numLabels, minK, maxK, stepK)
    requires Recorded(metric, numFolds, |Grid(numLabels, minK, maxK, stepK, maxM, steps)|)
    ensures best.None? <==> NoneBelowOne(metric, numFolds, |Grid(numLabels, minK, maxK, stepK, maxM, steps)|)
    ensures best.Some? ==> Selects(metric, numFolds, |Grid(numLabels, minK, maxK, stepK, maxM, steps)|, at)
                           && best.value == Grid(numLabels, minK, maxK, stepK, maxM, steps)[at]
  {
    ghost var whole := Grid(numLabels, minK, maxK, stepK, maxM, steps);
    var minMetric := 1.0;
    var counter: nat := 0;
    best, at := None, -1;
    var k := minK;
    while k <= maxK
      invariant GridArgs(numLabels, k, maxK, stepK)
      invariant counter <= |whole| && whole[counter..] == Grid(numLabels, k, maxK, stepK, maxM, steps)
      invariant Scanned(metric, numFolds, whole, counter, minMetric, best, at)
      decreases maxK - k
    {
      var bin := Binomial(numLabels, k);
      var finalM := Min(bin.value, maxM);
      counter, minMetric, best, at := ScanSubsetSize(metric, numFolds, whole,
        Grid(numLabels, k + stepK, maxK, stepK, maxM, steps), counter, k, finalM, steps, minMetric, best, at);
      k := k + stepK;
    }
    assert whole[counter..] == [];
    ScanComplete(metric, numFolds, whole, minMetric, best, at);
  }

  /** What the scan does with a chosen position as written: the model index
      m of the setting becomes the ensemble size, although the losses at
      that position were measured on models 0..m, that is m + 1 of them. */
  function ModelsAsWritten(s: Setting): int
  {
    s.m
  }

  /** The ensemble size the losses at a setting were measured with. */
  function ModelsEvaluated(s: Setting): int
  {
    s.m + 1
  }

  /** One label, subsets of size 1, one model, one threshold step, one fold
      recording a loss of 0: the only setting is selected, it was measured
      with one model, and as written the ensemble keeps none. */
  lemma AsWrittenDropsEvaluatedModel()
    ensures Grid(1, 1, 1, 1, 1, 1) == [Setting(1, 0, 0)]
    ensures Selects([[0.0]], 1, 1, 0)
    ensures ModelsAsWritten(Setting(1, 0, 0)) == 0 && ModelsEvaluated(Setting(1, 0, 0)) == 1
  {
    assert Choose(1, 1) == 1 by { ChooseDiagonal(1); }
    assert FinalM(1, 1, 1) == 1;
    assert Models(1, 0, 1, 1) == [Setting(1, 0, 0)];
  }
}
