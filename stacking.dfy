/** MultiLabelStacking: a two-level binary-relevance ensemble. The base
    level records, per base classifier, instance and label, the confidence
    that the label is 1; the meta level learns each label from all those
    confidences laid out classifier by classifier. This module models the
    index layouts and bookkeeping; the classifiers themselves are inputs. */
module Stacking {

  import opened Wrappers
  import opened Outputs
  import opened Tables

  // ---------------------------------------------------------------------
  // attachIndexes / detachIndexes

  /** `detachIndexes`: drop the leading index value of every row. */
  function DetachIndexes(rows: seq<seq<real>>): (r: seq<seq<real>>)
    requires forall i :: 0 <= i < |rows| ==> |rows[i]| > 0
    ensures |r| == |rows|
  {
    seq(|rows|, i requires 0 <= i < |rows| => rows[i][1..])
  }

  /** `attachIndexes`: an attribute "Index" is inserted in front, row i
      gets value i there, its other values shift right by one, and the
      class index is the last attribute. */
  method AttachIndexes(names: seq<string>, original: seq<seq<real>>)
    returns (header: seq<string>, transformed: seq<seq<real>>, classIndex: nat)
    ensures header == ["Index"] + names && classIndex == |header| - 1
    ensures |transformed| == |original|
    ensures forall i :: 0 <= i < |original| ==> transformed[i] == [i as real] + original[i]
  {
    header := ["Index"] + names;
    transformed := [];
    for i := 0 to |original|
      invariant |transformed| == i
      invariant forall j :: 0 <= j < i ==> transformed[j] == [j as real] + original[j]
    {
      transformed := transformed + [[i as real] + original[i]];
    }
    classIndex := |header| - 1;
  }

  /** Detaching undoes attaching. */
  lemma DetachAttach(original: seq<seq<real>>, transformed: seq<seq<real>>)
    requires |transformed| == |original|
    requires forall i :: 0 <= i < |original| ==> transformed[i] == [i as real] + original[i]
    ensures DetachIndexes(transformed) == original
  {
    forall i | 0 <= i < |original| ensures DetachIndexes(transformed)[i] == original[i] {
      assert transformed[i][1..] == original[i];
    }
  }

  // ---------------------------------------------------------------------
  // Removal indices of the meta level

  function Shift(attrs: seq<int>, offset: int): (r: seq<int>)
    ensures |r| == |attrs|
  {
    seq(|attrs|, l requires 0 <= l < |attrs| => attrs[l] + offset)
  }

  /** The uncorrelated label attributes repeated once per base classifier,
      block j shifted by j * numLabels. */
  function Expanded(attrs: seq<int>, numLabels: int, blocks: nat): seq<int>
  {
    if blocks == 0 then [] else Expanded(attrs, numLabels, blocks - 1) + Shift(attrs, (blocks - 1) * numLabels)
  }

  lemma MulStep(k: nat, width: nat)
    ensures (k + 1) * width == k * width + width
  {
  }

  lemma MulMono(a: nat, b: nat, width: nat)
    requires a <= b
    ensures a * width <= b * width
  {
    assert b * width == a * width + (b - a) * width;
  }

  lemma BlockBound(j: nat, l: nat, width: nat, blocks: nat)
    requires j < blocks && l < width
    ensures j * width + l < blocks * width
  {
    MulStep(j, width);
    MulMono(j + 1, blocks, width);
  }

  lemma {:induction false} ExpandedLength(attrs: seq<int>, numLabels: int, blocks: nat)
    ensures |Expanded(attrs, numLabels, blocks)| == blocks * |attrs|
  {
    if blocks > 0 {
      ExpandedLength(attrs, numLabels, blocks - 1);
      MulStep(blocks - 1, |attrs|);
    }
  }

  /** Entry j * |attrs| + l of the expansion is attrs[l] + j * numLabels,
      and the expansion has nothing else. */
  lemma {:induction false} ExpandedIndex(attrs: seq<int>, numLabels: int, blocks: nat, j: nat, l: nat)
    requires j < blocks && l < |attrs|
    ensures |Expanded(attrs, numLabels, blocks)| == blocks * |attrs|
    ensures j * |attrs| + l < blocks * |attrs|
    ensures Expanded(attrs, numLabels, blocks)[j * |attrs| + l] == attrs[l] + j * numLabels
  {
    BlockBound(j, l, |attrs|, blocks);
    ExpandedLength(attrs, numLabels, blocks);
    ExpandedLength(attrs, numLabels, blocks - 1);
    if j < blocks - 1 {
      ExpandedIndex(attrs, numLabels, blocks - 1, j, l);
    }
  }

  /** The filling loop of `buildMetaLevel` with its running index k. */
  method ExpandRemovalIndices(attributes: seq<int>, numBase: nat, numLabels: int) returns (all: array<int>)
    ensures fresh(all) && all.Length == |attributes| * numBase
    ensures all[..] == Expanded(attributes, numLabels, numBase)
  {
    all := new int[|attributes| * numBase](_ => 0);
    ExpandedLength(attributes, numLabels, numBase);
    var k := 0;
    if |attributes| > 0 {
      for j := 0 to numBase
        invariant k == |Expanded(attributes, numLabels, j)| && k <= all.Length
        invariant all[..k] == Expanded(attributes, numLabels, j)
      {
        ExpandedLength(attributes, numLabels, j + 1);
        MulMono(j + 1, numBase, |attributes|);
        ghost var prefix := all[..k];
        for l := 0 to |attributes|
          invariant k == |prefix| + l && k <= all.Length
          invariant all[..k] == prefix + Shift(attributes, j * numLabels)[..l]
        {
          all[k] := attributes[l] + j * numLabels;
          k := k + 1;
        }
        assert Shift(attributes, j * numLabels)[..|attributes|] == Shift(attributes, j * numLabels);
      }
    }
    assert all[..] == all[..k];
  }

  // ---------------------------------------------------------------------
  // Base-level predictions and their per-label extremes

  /** One out-of-fold prediction of the base level: classifier k's
      confidence that `label` is 1 for training instance `index`. */
  datatype OutOfFold = OutOfFold(k: nat, index: nat, labelIndex: nat, value: real)

  /** The value left at a cell after all the records: the last write, or
      the initial 0. */
  function LastValue(records: seq<OutOfFold>, k: nat, index: nat, labelIndex: nat): real
  {
    if records == [] then 0.0
    else
      var r := records[|records| - 1];
      if r.k == k && r.index == index && r.labelIndex == labelIndex then r.value
      else LastValue(records[..|records| - 1], k, index, labelIndex)
  }

  /** The recorded confidences of one label, in order. */
  function ValuesOf(records: seq<OutOfFold>, labelIndex: nat): seq<real>
  {
    if records == [] then []
    else
      var r := records[|records| - 1];
      ValuesOf(records[..|records| - 1], labelIndex) + (if r.labelIndex == labelIndex then [r.value] else [])
  }

  lemma ValuesOfSnoc(records: seq<OutOfFold>, r: OutOfFold)
    ensures forall l :: l != r.labelIndex ==> ValuesOf(records + [r], l) == ValuesOf(records, l)
    ensures ValuesOf(records + [r], r.labelIndex) == ValuesOf(records, r.labelIndex) + [r.value]
  {
    assert (records + [r])[..|records|] == records;
    forall l | l != r.labelIndex
      ensures ValuesOf(records + [r], l) == ValuesOf(records, l)
    {
      assert ValuesOf(records, l) + [] == ValuesOf(records, l);
    }
  }

  /** Running maximum as `buildBaseLevel` keeps it: replace when strictly
      greater. */
  function TrackMax(init: real, vs: seq<real>): real
  {
    if vs == [] then init
    else
      var m := TrackMax(init, vs[..|vs| - 1]);
      if vs[|vs| - 1] > m then vs[|vs| - 1] else m
  }

  /** Running minimum: replace when strictly smaller. */
  function TrackMin(init: real, vs: seq<real>): real
  {
    if vs == [] then init
    else
      var m := TrackMin(init, vs[..|vs| - 1]);
      if vs[|vs| - 1] < m then vs[|vs| - 1] else m
  }

  lemma TrackSnoc(vs: seq<real>, v: real)
    ensures TrackMax(0.0, vs + [v]) == if v > TrackMax(0.0, vs) then v else TrackMax(0.0, vs)
    ensures TrackMin(1.0, vs + [v]) == if v < TrackMin(1.0, vs) then v else TrackMin(1.0, vs)
  {
    assert (vs + [v])[..|vs|] == vs;
  }

  /** The tracked maximum bounds every recorded value and the start value,
      and is one of them. */
  lemma {:induction false} TrackMaxBounds(init: real, vs: seq<real>)
    ensures init <= TrackMax(init, vs)
    ensures forall v :: v in vs ==> v <= TrackMax(init, vs)
    ensures TrackMax(init, vs) == init || TrackMax(init, vs) in vs
  {
    if vs != [] {
      TrackMaxBounds(init, vs[..|vs| - 1]);
      assert vs == vs[..|vs| - 1] + [vs[|vs| - 1]];
    }
  }

  lemma {:induction false} TrackMinBounds(init: real, vs: seq<real>)
    ensures TrackMin(init, vs) <= init
    ensures forall v :: v in vs ==> TrackMin(init, vs) <= v
    ensures TrackMin(init, vs) == init || TrackMin(init, vs) in vs
  {
    if vs != [] {
      TrackMinBounds(init, vs[..|vs| - 1]);
      assert vs == vs[..|vs| - 1] + [vs[|vs| - 1]];
    }
  }

  // ---------------------------------------------------------------------
  // The layout of the base-level confidences at prediction time

  /** The layout the meta level is trained on: classifier k's confidence for
      label l at k * numLabels + l. */
  function Layout(confs: seq<seq<real>>, blocks: nat): seq<real>
    requires blocks <= |confs|
  {
    if blocks == 0 then [] else Layout(confs, blocks - 1) + confs[blocks - 1]
  }

  lemma {:induction false} LayoutLength(confs: seq<seq<real>>, numLabels: nat, blocks: nat)
    requires blocks <= |confs| && forall k :: 0 <= k < |confs| ==> |confs[k]| == numLabels
    ensures |Layout(confs, blocks)| == blocks * numLabels
  {
    if blocks > 0 {
      LayoutLength(confs, numLabels, blocks - 1);
      MulStep(blocks - 1, numLabels);
    }
  }

  lemma {:induction false} LayoutIndex(confs: seq<seq<real>>, numLabels: nat, blocks: nat, k: nat, l: nat)
    requires blocks <= |confs| && forall k :: 0 <= k < |confs| ==> |confs[k]| == numLabels
    requires k < blocks && l < numLabels
    ensures |Layout(confs, blocks)| == blocks * numLabels
    ensures k * numLabels + l < blocks * numLabels
    ensures Layout(confs, blocks)[k * numLabels + l] == confs[k][l]
  {
    BlockBound(k, l, numLabels, blocks);
    LayoutLength(confs, numLabels, blocks);
    LayoutLength(confs, numLabels, blocks - 1);
    if k < blocks - 1 {
      LayoutIndex(confs, numLabels, blocks - 1, k, l);
    }
  }

  /** Whatever follows the layout, classifier k's confidence for label l
      stays at k * numLabels + l. */
  lemma LayoutThenIndex(confs: seq<seq<real>>, rest: seq<real>, numLabels: nat, blocks: nat, k: nat, l: nat)
    requires blocks <= |confs| && forall k :: 0 <= k < |confs| ==> |confs[k]| == numLabels
    requires k < blocks && l < numLabels
    ensures k * numLabels + l < |Layout(confs, blocks) + rest|
    ensures (Layout(confs, blocks) + rest)[k * numLabels + l] == confs[k][l]
  {
    LayoutIndex(confs, numLabels, blocks, k, l);
  }

  lemma {:induction false} LayoutPrefix(a: seq<seq<real>>, b: seq<seq<real>>, blocks: nat)
    requires blocks <= |a| && blocks <= |b| && a[..blocks] == b[..blocks]
    ensures Layout(a, blocks) == Layout(b, blocks)
  {
    if blocks > 0 {
      assert a[..blocks - 1] == b[..blocks - 1];
      assert a[blocks - 1] == b[blocks - 1];
      LayoutPrefix(a, b, blocks - 1);
    }
  }

  /** Every label of the row has a confidence (no classifier threw). */
  predicate RowPresent(row: seq<Option<real>>)
  {
    forall l :: 0 <= l < |row| ==> row[l].Some?
  }

  function RowValues(row: seq<Option<real>>): (r: seq<real>)
    requires RowPresent(row)
    ensures |r| == |row| && forall l :: 0 <= l < |row| ==> r[l] == row[l].value
  {
    seq(|row|, l requires 0 <= l < |row| => row[l].value)
  }

  predicate AllPresent(dists: seq<seq<Option<real>>>)
  {
    forall k :: 0 <= k < |dists| ==> RowPresent(dists[k])
  }

  function Values(dists: seq<seq<Option<real>>>): (r: seq<seq<real>>)
    requires AllPresent(dists)
    ensures |r| == |dists| && forall k :: 0 <= k < |r| ==> r[k] == RowValues(dists[k])
  {
    seq(|dists|, k requires 0 <= k < |dists| => RowValues(dists[k]))
  }

  lemma ValuesSnoc(dists: seq<seq<Option<real>>>, k: nat)
    requires k < |dists| && AllPresent(dists[..k]) && RowPresent(dists[k])
    ensures AllPresent(dists[..k + 1])
    ensures Values(dists[..k + 1]) == Values(dists[..k]) + [RowValues(dists[k])]
  {
  }

  /** One more classifier's confidences extend the intended layout by its
      row. */
  lemma LayoutStep(dists: seq<seq<Option<real>>>, k: nat)
    requires k < |dists| && AllPresent(dists[..k]) && RowPresent(dists[k])
    ensures AllPresent(dists[..k + 1])
    ensures Layout(Values(dists[..k + 1]), k + 1) == Layout(Values(dists[..k]), k) + RowValues(dists[k])
  {
    ValuesSnoc(dists, k);
    LayoutPrefix(Values(dists[..k + 1]), Values(dists[..k]), k);
  }

  /** Copies `row` into `values` from `start` on, as the nested loops of
      `metaInstance` do with their running index j. */
  method CopyBlock(values: array<real>, start: nat, row: seq<real>) returns (end: nat)
    requires start + |row| <= values.Length
    modifies values
    ensures end == start + |row|
    ensures values[..end] == old(values[..start]) + row
    ensures values[end..] == old(values[end..])
  {
    end := start;
    for l := 0 to |row|
      invariant end == start + l
      invariant values[..end] == old(values[..start]) + row[..l]
      invariant values[start + |row|..] == old(values[start + |row|..])
    {
      values[end] := row[l];
      end := end + 1;
    }
    assert row[..|row|] == row;
  }

  /** One classifier's pass over the labels in the intended layout: the
      confidences go to start, start + 1, ...; a classifier that throws
      ends the pass. */
  method FillBlock(confidences: array<real>, start: nat, row: seq<Option<real>>) returns (ok: bool)
    requires start + |row| <= confidences.Length
    modifies confidences
    ensures ok <==> RowPresent(row)
    ensures ok ==> confidences[..start + |row|] == old(confidences[..start]) + RowValues(row)
  {
    for l := 0 to |row|
      invariant confidences[..start] == old(confidences[..start])
      invariant forall i :: 0 <= i < l ==> row[i].Some? && confidences[start + i] == row[i].value
    {
      if row[l].None? {
        return false;
      }
      confidences[start + l] := row[l].value;
    }
    assert confidences[..start + |row|] == confidences[..start] + RowValues(row);
    ok := true;
  }

  /** The value array of a meta-level instance: the nested loops of
      `metaInstance` copy the predictions classifier by classifier, then
      the feature values, and the label's own value goes last. */
  method MetaValues(preds: seq<seq<real>>, numLabels: nat, attributes: seq<real>, last: real) returns (values: array<real>)
    requires forall k :: 0 <= k < |preds| ==> |preds[k]| == numLabels
    ensures fresh(values) && values.Length == |preds| * numLabels + |attributes| + 1
    ensures values[..] == Layout(preds, |preds|) + attributes + [last]
  {
    values := new real[|preds| * numLabels + |attributes| + 1](_ => 0.0);
    var j: nat := 0;
    for i := 0 to |preds|
      invariant j == i * numLabels
      invariant values[..j] == Layout(preds, i)
    {
      MulStep(i, numLabels);
      MulMono(i + 1, |preds|, numLabels);
      j := CopyBlock(values, j, preds[i]);
    }
    ghost var layout := values[..j];
    j := CopyBlock(values, j, attributes);
    values[values.Length - 1] := last;
    assert values[..] == layout + attributes + [last];
  }

  /** The slot `baseLevelPrediction` writes, as written. */
  function AsWrittenSlot(k: nat, l: nat): nat
  {
    l * (k + 1)
  }

  lemma SlotBound(k: nat, l: nat, blocks: nat, numLabels: nat)
    requires k < blocks && l < numLabels
    ensures AsWrittenSlot(k, l) < blocks * numLabels
  {
    MulMono(k + 1, blocks, l);
    assert l * blocks < numLabels * blocks;
  }

  lemma SlotsBound(k: nat, blocks: nat, numLabels: nat)
    requires k < blocks
    ensures forall l :: 0 <= l < numLabels ==> AsWrittenSlot(k, l) < blocks * numLabels
  {
    forall l | 0 <= l < numLabels
      ensures AsWrittenSlot(k, l) < blocks * numLabels
    {
      SlotBound(k, l, blocks, numLabels);
    }
  }

  /** The first `labels` writes of classifier k, as written. */
  function AsWrittenRow(c: seq<real>, row: seq<real>, k: nat, labels: nat): (r: seq<real>)
    requires labels <= |row| && forall l :: 0 <= l < labels ==> AsWrittenSlot(k, l) < |c|
    ensures |r| == |c|
  {
    if labels == 0 then c
    else AsWrittenRow(c, row, k, labels - 1)[AsWrittenSlot(k, labels - 1) := row[labels - 1]]
  }

  lemma {:induction false} AsWrittenRowPrefix(c: seq<real>, a: seq<real>, b: seq<real>, k: nat, labels: nat)
    requires labels <= |a| && labels <= |b| && a[..labels] == b[..labels]
    requires forall l :: 0 <= l < labels ==> AsWrittenSlot(k, l) < |c|
    ensures AsWrittenRow(c, a, k, labels) == AsWrittenRow(c, b, k, labels)
  {
    if labels > 0 {
      assert a[labels - 1] == a[..labels][labels - 1];
      assert a[..labels - 1] == b[..labels - 1];
      AsWrittenRowPrefix(c, a, b, k, labels - 1);
    }
  }

  /** The confidences after the as-written loop has handled every label of
      classifiers 0..blocks-1 (later writes to a slot win). */
  function AsWrittenLayout(confs: seq<seq<real>>, numLabels: nat, total: nat, blocks: nat): (r: seq<real>)
    requires blocks <= total && blocks <= |confs| && forall k :: 0 <= k < |confs| ==> |confs[k]| == numLabels
    ensures |r| == total * numLabels
  {
    if blocks == 0 then Zeros(total * numLabels)
    else
      SlotsBound(blocks - 1, total, numLabels);
      AsWrittenRow(AsWrittenLayout(confs, numLabels, total, blocks - 1), confs[blocks - 1], blocks - 1, numLabels)
  }

  lemma {:induction false} AsWrittenLayoutPrefix(a: seq<seq<real>>, b: seq<seq<real>>, numLabels: nat, total: nat, blocks: nat)
    requires blocks <= total && blocks <= |a| && blocks <= |b| && a[..blocks] == b[..blocks]
    requires forall k :: 0 <= k < |a| ==> |a[k]| == numLabels
    requires forall k :: 0 <= k < |b| ==> |b[k]| == numLabels
    ensures AsWrittenLayout(a, numLabels, total, blocks) == AsWrittenLayout(b, numLabels, total, blocks)
  {
    if blocks > 0 {
      assert a[..blocks - 1] == b[..blocks - 1];
      assert a[blocks - 1] == b[blocks - 1];
      AsWrittenLayoutPrefix(a, b, numLabels, total, blocks - 1);
    }
  }

  /** One more classifier's pass as written, on top of the earlier ones. */
  lemma AsWrittenStep(dists: seq<seq<Option<real>>>, numLabels: nat, total: nat, k: nat)
    requires k < total && k < |dists| && forall j :: 0 <= j < |dists| ==> |dists[j]| == numLabels
    requires AllPresent(dists[..k]) && RowPresent(dists[k])
    ensures AllPresent(dists[..k + 1])
    ensures forall l :: 0 <= l < numLabels ==> AsWrittenSlot(k, l) < total * numLabels
    ensures AsWrittenLayout(Values(dists[..k + 1]), numLabels, total, k + 1)
            == AsWrittenRow(AsWrittenLayout(Values(dists[..k]), numLabels, total, k), RowValues(dists[k]), k, numLabels)
  {
    ValuesSnoc(dists, k);
    SlotsBound(k, total, numLabels);
    AsWrittenLayoutPrefix(Values(dists[..k + 1]), Values(dists[..k]), numLabels, total, k);
  }

  /** Classifier k's pass as written: label l's confidence goes to slot
      l * (k + 1). */
  method AsWrittenFill(confidences: array<real>, k: nat, row: seq<Option<real>>) returns (ok: bool)
    requires forall l :: 0 <= l < |row| ==> AsWrittenSlot(k, l) < confidences.Length
    modifies confidences
    ensures ok <==> RowPresent(row)
    ensures ok ==> confidences[..] == AsWrittenRow(old(confidences[..]), RowValues(row), k, |row|)
  {
    ghost var vals: seq<real> := [];
    for l := 0 to |row|
      invariant |vals| == l && forall i :: 0 <= i < l ==> row[i].Some? && vals[i] == row[i].value
      invariant confidences[..] == AsWrittenRow(old(confidences[..]), vals, k, l)
    {
      if row[l].None? {
        return false;
      }
      AsWrittenRowPrefix(old(confidences[..]), vals + [row[l].value], vals, k, l);
      confidences[AsWrittenSlot(k, l)] := row[l].value;
      vals := vals + [row[l].value];
    }
    assert vals == RowValues(row);
    ok := true;
  }

  /** With a single base classifier the as-written slot is the intended one. */
  lemma {:induction false} AsWrittenRowSingle(c: seq<real>, row: seq<real>, labels: nat)
    requires labels <= |row| && labels <= |c|
    ensures forall l :: 0 <= l < labels ==> AsWrittenRow(c, row, 0, labels)[l] == row[l]
    ensures forall l :: labels <= l < |c| ==> AsWrittenRow(c, row, 0, labels)[l] == c[l]
  {
    if labels > 0 {
      AsWrittenRowSingle(c, row, labels - 1);
    }
  }

  lemma AsWrittenSingle(confs: seq<seq<real>>, numLabels: nat)
    requires |confs| == 1 && |confs[0]| == numLabels
    ensures AsWrittenLayout(confs, numLabels, 1, 1) == Layout(confs, 1)
  {
    var zeros := AsWrittenLayout(confs, numLabels, 1, 0);
    AsWrittenRowSingle(zeros, confs[0], numLabels);
  }

  /** Two base classifiers and two labels: the as-written layout puts
      classifier 1's label-0 confidence where the meta level expects
      classifier 0's, and never fills the last slot. */
  lemma AsWrittenMisplaces()
    ensures AsWrittenLayout([[0.1, 0.2], [0.3, 0.4]], 2, 2, 2) == [0.3, 0.2, 0.4, 0.0]
    ensures Layout([[0.1, 0.2], [0.3, 0.4]], 2) == [0.1, 0.2, 0.3, 0.4]
  {
    var confs := [[0.1, 0.2], [0.3, 0.4]];
    var zero := AsWrittenLayout(confs, 2, 2, 0);
    assert zero == [0.0, 0.0, 0.0, 0.0];
    var one := AsWrittenLayout(confs, 2, 2, 1);
    assert AsWrittenRow(zero, confs[0], 0, 1) == [0.1, 0.0, 0.0, 0.0];
    assert one == [0.1, 0.2, 0.0, 0.0];
    assert AsWrittenRow(one, confs[1], 1, 1) == [0.3, 0.2, 0.0, 0.0];
    assert Layout(confs, 1) == [0.1, 0.2];
  }

  // ---------------------------------------------------------------------
  // Meta-level prediction

  /** `distribution[0] > distribution[1] ? 0 : 1`. */
  function MaxIndex(d: (real, real)): nat
  {
    if d.0 > d.1 then 0 else 1
  }

  function Component(d: (real, real), i: nat): real
  {
    if i == 0 then d.0 else d.1
  }

  /** The meta-level output: null exactly when some label's distribution is
      missing; otherwise, per label, the bipartition says whether the
      larger class value is "1" and the confidence is the probability of "1". */
  predicate MetaPredicted(out: Option<MultiLabelOutput>, metaDists: seq<Option<(real, real)>>, oneIndex: seq<nat>)
    requires |oneIndex| == |metaDists|
  {
    (out.None? <==> exists l :: 0 <= l < |metaDists| && metaDists[l].None?)
    && (out.Some? ==>
          |out.value.bipartition| == |metaDists| == |out.value.confidences|
          && forall l :: 0 <= l < |metaDists| ==>
               (out.value.bipartition[l] <==> MaxIndex(metaDists[l].value) == oneIndex[l])
               && out.value.confidences[l] == Component(metaDists[l].value, oneIndex[l]))
  }

  /** The class value whose probability is larger wins; a tie goes to the
      value at index 1. */
  lemma MaxIndexPicksLarger(d: (real, real))
    ensures Component(d, MaxIndex(d)) >= Component(d, 1 - MaxIndex(d))
    ensures d.0 == d.1 ==> MaxIndex(d) == 1
  {
  }

  class MultiLabelStacking {
    var numLabels: nat
    var numOfBaseClassifiers: nat
    var numFolds: int
    var phival: real
    var normalize: bool
    var includeAttrs: bool
    var maxProb: array<real>
    var minProb: array<real>
    var numUncorrelated: array<int>
    var baseLevelPredictions: array3<real>

    constructor(numBase: nat, numFolds: int, numLabels: nat)
      ensures numOfBaseClassifiers == numBase && this.numFolds == numFolds && this.numLabels == numLabels
      ensures phival == 0.0 && !normalize && !includeAttrs
    {
      this.numLabels := numLabels;
      numOfBaseClassifiers := numBase;
      this.numFolds := numFolds;
      phival := 0.0;
      normalize := false;
      includeAttrs := false;
      maxProb := new real[0];
      minProb := new real[0];
      numUncorrelated := new int[0];
      baseLevelPredictions := new real[0, 0, 0];
    }

    method SetNormalize(normalize: bool)
      modifies this`normalize
      ensures this.normalize == normalize
    {
      this.normalize := normalize;
    }

    method SetIncludeAttrs(includeAttrs: bool)
      modifies this`includeAttrs
      ensures this.includeAttrs == includeAttrs
    {
      this.includeAttrs := includeAttrs;
    }

    /** The bookkeeping of `buildBaseLevel`: a zeroed table of predictions,
        and with `normalize` per-label extremes starting at max 0 and min 1;
        `records` are the out-of-fold predictions in loop order. */
    method BuildBaseLevel(numInstances: nat, records: seq<OutOfFold>)
      requires forall r :: r in records ==> r.k < numOfBaseClassifiers && r.index < numInstances && r.labelIndex < numLabels
      modifies this`maxProb, this`minProb, this`baseLevelPredictions
      ensures fresh(baseLevelPredictions)
      ensures baseLevelPredictions.Length0 == numOfBaseClassifiers && baseLevelPredictions.Length1 == numInstances
      ensures baseLevelPredictions.Length2 == numLabels
      ensures forall k, i, l :: 0 <= k < numOfBaseClassifiers && 0 <= i < numInstances && 0 <= l < numLabels ==>
                baseLevelPredictions[k, i, l] == LastValue(records, k, i, l)
      ensures normalize ==> fresh(maxProb) && fresh(minProb) && maxProb.Length == numLabels == minProb.Length
      ensures normalize ==> forall l :: 0 <= l < numLabels ==> maxProb[l] == TrackMax(0.0, ValuesOf(records, l))
      ensures normalize ==> forall l :: 0 <= l < numLabels ==> minProb[l] == TrackMin(1.0, ValuesOf(records, l))
      ensures !normalize ==> maxProb == old(maxProb) && minProb == old(minProb)
    {
      if normalize {
        maxProb := new real[numLabels](_ => 0.0);
        minProb := new real[numLabels](_ => 1.0);
      }
      baseLevelPredictions := new real[numOfBaseClassifiers, numInstances, numLabels]((_, _, _) => 0.0);
      RecordAll(records);
    }

    /** The loop of `buildBaseLevel` over the out-of-fold predictions. */
    method RecordAll(records: seq<OutOfFold>)
      requires forall r :: r in records ==> r.k < baseLevelPredictions.Length0 && r.index < baseLevelPredictions.Length1
      requires forall r :: r in records ==> r.labelIndex < baseLevelPredictions.Length2
      requires normalize ==> maxProb != minProb
      requires Recorded([])
      modifies baseLevelPredictions, if normalize then {maxProb, minProb} else {}
      ensures Recorded(records)
    {
      for n := 0 to |records|
        invariant Recorded(records[..n])
      {
        assert records[..n + 1] == records[..n] + [records[n]];
        RecordPrediction(records[n], records[..n]);
      }
      assert records[..|records|] == records;
    }

    /** The table holds the last recorded value of each cell and, with
        `normalize`, the extremes hold the tracked maximum and minimum of
        each label's recorded values. */
    ghost predicate Recorded(records: seq<OutOfFold>)
      reads this, baseLevelPredictions, maxProb, minProb
    {
      TableRecorded(records) && ExtremesRecorded(records)
    }

    ghost predicate TableRecorded(records: seq<OutOfFold>)
      reads this, baseLevelPredictions
    {
      forall k, i, l | 0 <= k < baseLevelPredictions.Length0 && 0 <= i < baseLevelPredictions.Length1 && 0 <= l < baseLevelPredictions.Length2 ::
        baseLevelPredictions[k, i, l] == LastValue(records, k, i, l)
    }

    ghost predicate ExtremesRecorded(records: seq<OutOfFold>)
      reads this, maxProb, minProb
    {
      normalize ==>
        && maxProb.Length == baseLevelPredictions.Length2 == minProb.Length
        && (forall l :: 0 <= l < maxProb.Length ==> maxProb[l] == TrackMax(0.0, ValuesOf(records, l)))
        && (forall l :: 0 <= l < minProb.Length ==> minProb[l] == TrackMin(1.0, ValuesOf(records, l)))
    }

    /** One out-of-fold prediction: stored at its cell, and with
        `normalize` folded into the label's extremes. */
    method RecordPrediction(r: OutOfFold, ghost before: seq<OutOfFold>)
      requires r.k < baseLevelPredictions.Length0 && r.index < baseLevelPredictions.Length1
      requires r.labelIndex < baseLevelPredictions.Length2
      requires normalize ==> maxProb != minProb
      requires Recorded(before)
      modifies baseLevelPredictions, if normalize then {maxProb, minProb} else {}
      ensures Recorded(before + [r])
    {
      ghost var after := before + [r];
      assert after[..|before|] == before;
      assert TableRecorded(before);
      baseLevelPredictions[r.k, r.index, r.labelIndex] := r.value;
      forall k, i, l | 0 <= k < baseLevelPredictions.Length0 && 0 <= i < baseLevelPredictions.Length1 && 0 <= l < baseLevelPredictions.Length2
        ensures baseLevelPredictions[k, i, l] == LastValue(after, k, i, l)
      {
        if k != r.k || i != r.index || l != r.labelIndex {
          assert baseLevelPredictions[k, i, l] == old(baseLevelPredictions[k, i, l]) == LastValue(before, k, i, l);
        }
      }
      if normalize {
        var m := r.labelIndex;
        ValuesOfSnoc(before, r);
        TrackSnoc(ValuesOf(before, m), r.value);
        if r.value > maxProb[m] {
          maxProb[m] := r.value;
        }
        if r.value < minProb[m] {
          minProb[m] := r.value;
        }
        assert maxProb[m] == TrackMax(0.0, ValuesOf(after, m));
        assert minProb[m] == TrackMin(1.0, ValuesOf(after, m));
      }
    }

    /** The meta-level removal lists: `phival` is recorded, each label's
        uncorrelated label attributes (computed elsewhere) are counted and
        expanded over the base classifiers. */
    method BuildMetaLevel(phival: real, uncorrelated: seq<seq<int>>) returns (removals: seq<seq<int>>)
      requires |uncorrelated| == numLabels
      modifies this`phival, this`numUncorrelated
      ensures this.phival == phival
      ensures fresh(numUncorrelated) && numUncorrelated.Length == numLabels
      ensures forall i :: 0 <= i < numLabels ==> numUncorrelated[i] == |uncorrelated[i]|
      ensures |removals| == numLabels
      ensures forall i :: 0 <= i < numLabels ==> removals[i] == Expanded(uncorrelated[i], numLabels, numOfBaseClassifiers)
    {
      this.phival := phival;
      var counts := new int[numLabels](_ => 0);
      removals := [];
      for i := 0 to numLabels
        invariant |removals| == i && this.phival == phival
        invariant forall j :: 0 <= j < i ==> counts[j] == |uncorrelated[j]|
        invariant forall j :: 0 <= j < i ==> removals[j] == Expanded(uncorrelated[j], numLabels, numOfBaseClassifiers)
      {
        var all := ExpandRemovalIndices(uncorrelated[i], numOfBaseClassifiers, numLabels);
        counts[i] := |uncorrelated[i]|;
        removals := removals + [all[..]];
      }
      numUncorrelated := counts;
    }

    /** `metaInstance`: the recorded predictions for training instance
        `index`, classifier by classifier, then (with `includeAttrs`) the
        instance's feature values, and last its value for `labelIndex`. */
    method MetaInstance(instance: seq<real>, labelIndex: nat, index: nat) returns (values: array<real>)
      requires numLabels <= |instance| && labelIndex < numLabels
      requires baseLevelPredictions.Length0 == numOfBaseClassifiers && index < baseLevelPredictions.Length1
      requires baseLevelPredictions.Length2 == numLabels
      ensures fresh(values)
      ensures values[..] == Layout(Predictions(index), numOfBaseClassifiers)
                + (if includeAttrs then instance[..|instance| - numLabels] else [])
                + [instance[|instance| - numLabels + labelIndex]]
    {
      var preds := Predictions(index);
      var attributes := if includeAttrs then instance[..|instance| - numLabels] else [];
      values := MetaValues(preds, numLabels, attributes, instance[|instance| - numLabels + labelIndex]);
    }

    /** The predictions recorded for one training instance, per classifier. */
    function Predictions(index: nat): (r: seq<seq<real>>)
      reads this`baseLevelPredictions, this`numLabels, baseLevelPredictions
      requires index < baseLevelPredictions.Length1 && baseLevelPredictions.Length2 == numLabels
      ensures |r| == baseLevelPredictions.Length0 && forall i :: 0 <= i < |r| ==> |r[i]| == numLabels
      ensures forall i, k :: 0 <= i < |r| && 0 <= k < numLabels ==> r[i][k] == baseLevelPredictions[i, index, k]
    {
      var b := baseLevelPredictions;
      seq(b.Length0, i requires 0 <= i < b.Length0 reads b =>
        seq(b.Length2, k requires 0 <= k < b.Length2 reads b => b[i, index, k]))
    }

    /** `baseLevelPrediction` with the slot the meta level was trained on:
        classifier k's confidence for label l goes to k * numLabels + l.
        `dists[k][l]` is that confidence, or None when the classifier
        threw, which makes the whole result null. */
    method BaseLevelPrediction(dists: seq<seq<Option<real>>>) returns (r: Option<seq<real>>)
      requires |dists| == numOfBaseClassifiers && forall k :: 0 <= k < |dists| ==> |dists[k]| == numLabels
      ensures r.None? <==> !AllPresent(dists)
      ensures r.Some? ==> r.value == Layout(Values(dists), numOfBaseClassifiers)
    {
      var confidences := new real[numOfBaseClassifiers * numLabels](_ => 0.0);
      var ok := FillAll(confidences, dists, numLabels);
      r := if ok then Some(confidences[..]) else None;
    }

    /** The classifier loop of `baseLevelPrediction`: each classifier's
        confidences in turn, stopping at the first that fails. */
    static method FillAll(confidences: array<real>, dists: seq<seq<Option<real>>>, L: nat) returns (ok: bool)
      requires confidences.Length == |dists| * L && forall k :: 0 <= k < |dists| ==> |dists[k]| == L
      modifies confidences
      ensures ok <==> AllPresent(dists)
      ensures ok ==> confidences[..] == Layout(Values(dists), |dists|)
    {
      var K := |dists|;
      var start: nat := 0;
      for k := 0 to K
        invariant start == k * L
        invariant AllPresent(dists[..k])
        invariant confidences[..start] == Layout(Values(dists[..k]), k)
      {
        assert start + L == (k + 1) * L <= confidences.Length by {
          MulStep(k, L);
          MulMono(k + 1, K, L);
        }
        ok := FillClassifier(confidences, start, dists, k);
        if !ok {
          return;
        }
        start := start + L;
      }
      assert dists[..K] == dists;
      assert confidences[..] == confidences[..start];
      ok := true;
    }

    /** Classifier k's pass of `baseLevelPrediction`: its confidences extend
        the layout of the classifiers before it. */
    static method FillClassifier(confidences: array<real>, start: nat, dists: seq<seq<Option<real>>>, k: nat)
      returns (ok: bool)
      requires k < |dists| && start + |dists[k]| <= confidences.Length
      requires AllPresent(dists[..k]) && confidences[..start] == Layout(Values(dists[..k]), k)
      modifies confidences
      ensures ok <==> RowPresent(dists[k])
      ensures ok ==> AllPresent(dists[..k + 1])
      ensures ok ==> confidences[..start + |dists[k]|] == Layout(Values(dists[..k + 1]), k + 1)
    {
      ok := FillBlock(confidences, start, dists[k]);
      if ok {
        LayoutStep(dists, k);
      }
    }

    /** `baseLevelPrediction` as written: the slot is labelIndex * (k + 1). */
    method BaseLevelPredictionAsWritten(dists: seq<seq<Option<real>>>) returns (r: Option<seq<real>>)
      requires |dists| == numOfBaseClassifiers && forall k :: 0 <= k < |dists| ==> |dists[k]| == numLabels
      ensures r.None? <==> !AllPresent(dists)
      ensures r.Some? ==> r.value == AsWrittenLayout(Values(dists), numLabels, numOfBaseClassifiers, numOfBaseClassifiers)
    {
      var K, L := numOfBaseClassifiers, numLabels;
      var confidences := new real[K * L](_ => 0.0);
      for k := 0 to K
        invariant AllPresent(dists[..k])
        invariant confidences[..] == AsWrittenLayout(Values(dists[..k]), L, K, k)
      {
        SlotsBound(k, K, L);
        var ok := AsWrittenFill(confidences, k, dists[k]);
        if !ok {
          return None;
        }
        AsWrittenStep(dists, L, K, k);
      }
      assert dists[..K] == dists;
      r := Some(confidences[..]);
    }

    /** `makePrediction` as written: the meta-level input is the
        base-level confidences as `baseLevelPrediction` lays them out (slot
        labelIndex * (k + 1)), then (with `includeAttrs`) the feature values,
        then numLabels zeros; each label is predicted by the meta
        classifier's distribution over its class values, whose value "1"
        sits at index `oneIndex[l]`. A base-level failure surfaces as an
        exception, a meta-level failure as a null output. */
    method MakePrediction(instance: seq<real>, dists: seq<seq<Option<real>>>, metaDists: seq<Option<(real, real)>>,
                          oneIndex: seq<nat>)
      returns (r: Result<Option<MultiLabelOutput>, string>, values: seq<real>)
      requires |dists| == numOfBaseClassifiers && forall k :: 0 <= k < |dists| ==> |dists[k]| == numLabels
      requires |metaDists| == numLabels && |oneIndex| == numLabels && numLabels <= |instance|
      requires forall l :: 0 <= l < numLabels ==> oneIndex[l] <= 1
      ensures r.Err? <==> !AllPresent(dists)
      ensures r.Ok? ==> values == AsWrittenLayout(Values(dists), numLabels, numOfBaseClassifiers, numOfBaseClassifiers)
                          + (if includeAttrs then instance[..|instance| - numLabels] else []) + Zeros(numLabels)
      ensures r.Ok? ==> MetaPredicted(r.value, metaDists, oneIndex)
    {
      var confidences := BaseLevelPredictionAsWritten(dists);
      if confidences.None? {
        return Err("NullPointerException"), [];
      }
      var out;
      out, values := MetaPrediction(instance, confidences.value, metaDists, oneIndex);
      r := Ok(out);
    }

    /** `makePrediction` over the corrected base-level layout, the one the
        meta level was trained on. */
    method MakePredictionCorrected(instance: seq<real>, dists: seq<seq<Option<real>>>, metaDists: seq<Option<(real, real)>>,
                                   oneIndex: seq<nat>)
      returns (r: Result<Option<MultiLabelOutput>, string>, values: seq<real>)
      requires |dists| == numOfBaseClassifiers && forall k :: 0 <= k < |dists| ==> |dists[k]| == numLabels
      requires |metaDists| == numLabels && |oneIndex| == numLabels && numLabels <= |instance|
      requires forall l :: 0 <= l < numLabels ==> oneIndex[l] <= 1
      ensures r.Err? <==> !AllPresent(dists)
      ensures r.Ok? ==> values == Layout(Values(dists), numOfBaseClassifiers)
                          + (if includeAttrs then instance[..|instance| - numLabels] else []) + Zeros(numLabels)
      ensures r.Ok? ==> MetaPredicted(r.value, metaDists, oneIndex)
    {
      var confidences := BaseLevelPrediction(dists);
      if confidences.None? {
        return Err("NullPointerException"), [];
      }
      var out;
      out, values := MetaPrediction(instance, confidences.value, metaDists, oneIndex);
      r := Ok(out);
    }

    /** The meta level of `makePrediction`, given the base-level confidences. */
    method MetaPrediction(instance: seq<real>, confidences: seq<real>, metaDists: seq<Option<(real, real)>>,
                          oneIndex: seq<nat>)
      returns (out: Option<MultiLabelOutput>, values: seq<real>)
      requires |metaDists| == numLabels && |oneIndex| == numLabels && numLabels <= |instance|
      requires forall l :: 0 <= l < numLabels ==> oneIndex[l] <= 1
      ensures values == confidences + (if includeAttrs then instance[..|instance| - numLabels] else []) + Zeros(numLabels)
      ensures MetaPredicted(out, metaDists, oneIndex)
    {
      var classes := Zeros(numLabels);
      if includeAttrs {
        var attributes := instance[..|instance| - numLabels];
        values := confidences + attributes + classes;
      } else {
        values := confidences + classes;
      }
      var bipartition := [];
      var metaconfidences := [];
      for l := 0 to numLabels
        invariant |bipartition| == l == |metaconfidences|
        invariant forall l' :: 0 <= l' < l ==> metaDists[l'].Some?
        invariant forall l' :: 0 <= l' < l ==>
          (bipartition[l'] <==> MaxIndex(metaDists[l'].value) == oneIndex[l'])
          && metaconfidences[l'] == Component(metaDists[l'].value, oneIndex[l'])
      {
        if metaDists[l].None? {
          return None, values;
        }
        var distribution := metaDists[l].value;
        var maxIndex := if distribution.0 > distribution.1 then 0 else 1;
        bipartition := bipartition + [maxIndex == oneIndex[l]];
        metaconfidences := metaconfidences + [Component(distribution, oneIndex[l])];
      }
      out := Some(MultiLabelOutput(bipartition, metaconfidences));
    }
  }
}
