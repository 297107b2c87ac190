# Mulan multi-label learners and measures in Dafny

This project models the core of Mulan, a Java library for multi-label
learning:

- **RAkEL** (`RAKEL.java`) is the main core. It is an ensemble of label-powerset
  classifiers. Each model is trained on a random k-subset of the labels. The
  ensemble predicts by averaging the votes each label gets from the models whose
  subset holds it, then thresholding the average. The model covers:
  - the binomial coefficient with its 32-bit int arithmetic;
  - the draw of a fresh label subset;
  - the attribute indices each model removes;
  - the vote tallies, the incremental predictions table and the setters;
  - the evaluation loop of the cross-validated parameter selection, for one
    fold and one subset size: it trains the sub-models one at a time and hands
    the evaluator a predictions table after each of them;
  - the grid search of the cross-validated parameter selection, as written and
    corrected, and the build that uses it.
- **HierarchyBuilder** splits a label set into a balanced tree of meta-labels,
  and the hierarchical dataset raises every meta-label above a relevant label.
- **MultiLabelStacking** covers:
  - the base-level bookkeeping, meaning the out-of-fold prediction table and the
    per-label extremes;
  - the meta-level removal indices;
  - the meta instance layout;
  - prediction.
- **BPMLL** covers its parameter setters, the network topology, the [-1, 1]
  attribute normalisation, the bipolar training pairs and prediction.
  **ThresholdFunction** is the linear threshold that BPMLL learns and applies.
- **Evaluation measures**: the guards of `ClassificationMeasureBase` and
  `ConfidenceMeasureBase`, the bookkeeping of `LabelBasedAUC`, and
  `MicroSpecificity`.

Java objects whose fields change become classes (`Rakel.Rakel`,
`Hierarchy.HierarchyBuilder`, `Stacking.MultiLabelStacking`, `Bpmll.BPMLL`,
`Threshold.ThresholdFunction`, `Measures.LabelBasedAUC`). Their loops become
methods with loop invariants, proved against specification functions, and the
properties of those functions are proved as lemmas.

Modelling conventions:

- Java's exceptions become `Result` values. `null` becomes `Option` or a
  nullable reference.
- A `double` is a `real`. A `NaN` that comes from dividing by zero becomes
  `None`.
- Random choices are nondeterministic (`:|`).
- External Weka classifiers, filters and the matrix solver are function
  parameters or are left out.

Files:

- `wrappers.dfy`: `Option`, `Result`.
- `outputs.dfy`: `MultiLabelOutput`.
- `tables.dfy`: zero vectors and matrix rows shared by the classifiers.
- `rakel_subsets.dfy`: binomial, subset keys, masks and removed indices.
- `rakel_votes.dfy`: vote sums, confidences and decisions.
- `rakel_selection.dfy`: the grid and the selection scan.
- `rakel.dfy`: class `Rakel`.
- `hierarchy.dfy`: `HierarchyBuilder`.
- `stacking.dfy`: `MultiLabelStacking`.
- `threshold_function.dfy`: `ThresholdFunction`.
- `bpmll.dfy`: `BPMLL`.
- `measures.dfy`: the measures.

## Model

| member | source | states |
|---|---|---|
| RakelSubsets.ChooseAboveDiagonal | mulan/src/mulan/classifier/RAKEL.java:122-133 | C(n, m) is 0 when m > n, the Pascal entries the binomial table never fills |
| RakelSubsets.ChooseDiagonal | mulan/src/mulan/classifier/RAKEL.java:122-133 | C(n, n) is 1 |
| RakelSubsets.Wrap32 | mulan/src/mulan/classifier/RAKEL.java:122-133 | Java int wrap-around: the result is a 32-bit signed value congruent to the input modulo 2^32, and equal to it when it fits |
| RakelSubsets.WrapAdd | mulan/src/mulan/classifier/RAKEL.java:130 | adding two wrapped ints and wrapping equals wrapping the exact sum, so every table entry stays Wrap32 of the exact coefficient |
| RakelSubsets.Binomial | mulan/src/mulan/classifier/RAKEL.java:122-133 | an answer exists iff 0 <= m <= n; the answer is C(n, m) wrapped to 32 bits, and exactly C(n, m) when that is below 2^31 |
| RakelSubsets.PascalEntry | mulan/src/mulan/classifier/RAKEL.java:130 | the inner update b[j] + b[j-1] on wrapped row i-1 yields wrapped C(i, j) |
| RakelSubsets.NextRow | mulan/src/mulan/classifier/RAKEL.java:128-130 | one pass of the inner loop turns row i-1 of wrapped Pascal entries into row i |
| RakelSubsets.UnrankIsKey | mulan/src/mulan/classifier/RAKEL.java:263-276 | every rank below C(n, k) names a sorted subset of k distinct labels below n, the form a drawn subset takes after Arrays.sort |
| RakelSubsets.RankUnrank | mulan/src/mulan/classifier/RAKEL.java:263-276 | ranking the subset of rank i gives back i |
| RakelSubsets.UnrankRank | mulan/src/mulan/classifier/RAKEL.java:263-276 | every sorted k-subset has a rank below C(n, k) and unranking it gives the subset back: the subsets are exactly C(n, k) |
| RakelSubsets.KeyListMembership | mulan/src/mulan/classifier/RAKEL.java:263-276 | a sequence is in the enumeration of subsets iff it is a sorted k-subset of the n labels |
| RakelSubsets.KeyListDistinct | mulan/src/mulan/classifier/RAKEL.java:263-276 | the enumeration lists each subset once |
| RakelSubsets.FreshKeyExists | mulan/src/mulan/classifier/RAKEL.java:263-276 | while fewer than C(n, k) subsets are taken, a subset not yet in the combinations set exists, so the redraw loop can end |
| RakelSubsets.Exhausted | mulan/src/mulan/classifier/RAKEL.java:263-276 | once C(n, k) distinct subsets are taken, every subset is taken, so a further draw could never end |
| RakelSubsets.Mask | mulan/src/mulan/classifier/RAKEL.java:264-271 | the selected-labels array has one flag per label, set exactly for the labels in the subset |
| RakelSubsets.IndicesWhereShape | mulan/src/mulan/classifier/RAKEL.java:280-287 | the positions collected from a flag array are increasing, in range, and exactly those with the requested flag |
| RakelSubsets.MaskRoundTrip | mulan/src/mulan/classifier/RAKEL.java:280-287 | collecting the set flags of a subset's mask gives back the sorted subset |
| RakelSubsets.UnselectedOfKey | mulan/src/mulan/classifier/RAKEL.java:280-287 | the unselected labels of a k-subset are n - k, increasing, and exactly the labels outside it |
| RakelSubsets.RemovedAttributesOfKey | mulan/src/mulan/classifier/RAKEL.java:280-287 | the attribute indices a model removes are numPredictors plus each unselected label, n - k of them, in increasing order |
| RakelVotes.DistinctVotes | mulan/src/mulan/classifier/RAKEL.java:343-346 | for a subset without repeats, a label outside it gets no vote and sum 0; a label inside it gets one vote carrying its own confidence |
| RakelVotes.VoteSumBounds | mulan/src/mulan/classifier/RAKEL.java:343-346 | with confidences in [0, 1] a model's vote sum for a label lies between 0 and its vote count |
| RakelVotes.TotalBounds | mulan/src/mulan/classifier/RAKEL.java:401-404 | the ensemble's vote sum for a label lies between 0 and its total vote count |
| RakelVotes.TotalPermutation | mulan/src/mulan/classifier/RAKEL.java:401-404 | the tallies do not depend on the order in which the models vote |
| RakelVotes.AbsorbOneMore | mulan/src/mulan/classifier/RAKEL.java:343-346 | adding one model's votes adds its sum and count to the running totals |
| RakelVotes.UncoveredHasNoSum | mulan/src/mulan/classifier/RAKEL.java:414-422 | a label that no model covers has a zero vote sum |
| RakelVotes.Confidence | mulan/src/mulan/classifier/RAKEL.java:358 | the average is undefined (Java NaN) iff the count is 0; otherwise average times count equals the sum |
| RakelVotes.Decide | mulan/src/mulan/classifier/RAKEL.java:359-362 | a label is predicted iff its average is defined and at least the threshold 0.5 (NaN compares false) |
| RakelVotes.DecideByMajority | mulan/src/mulan/classifier/RAKEL.java:355-363 | for a covered label the decision is exactly "at least half of the covering models voted for it" |
| RakelVotes.PredictionOf | mulan/src/mulan/classifier/RAKEL.java:414-422 | the prediction has one bipartition flag and one confidence per label, each derived from that label's sum and count |
| RakelVotes.IncrementalIsEnsemble | mulan/src/mulan/classifier/RAKEL.java:166-171 | absorbing the votes of sub-models 0..n-1 one step at a time into an instance's running tallies gives the totals of the n-model ensemble over those sub-models, so the table after step m is that of an ensemble of m + 1 models |
| RakelVotes.ColumnGrow | mulan/src/mulan/classifier/RAKEL.java:343-346 | one more step adds exactly sub-model n's vote sum and vote count to the running totals of the first n |
| RakelVotes.ColumnPrefix | mulan/src/mulan/classifier/RAKEL.java:166-171 | the running totals after n steps depend only on the first n subsets drawn |
| RakelSelection.FinalMBelowChoose | mulan/src/mulan/classifier/RAKEL.java:165 | min(binomial(numLabels, k), cvMaxM) never exceeds C(numLabels, k), so every evaluated model index can draw a fresh subset |
| RakelSelection.GridShape | mulan/src/mulan/classifier/RAKEL.java:189-206 | every entry of the evaluation order has k in [minK, maxK] on the step, m below finalM and t below the threshold steps |
| RakelSelection.GridAt | mulan/src/mulan/classifier/RAKEL.java:189-206 | the entry at any counter position of the grid has the same shape bounds |
| RakelSelection.SelectsUnique | mulan/src/mulan/classifier/RAKEL.java:199-204 | the position the scan selects (first strict minimum below 1) is unique |
| RakelSelection.AverageAt | mulan/src/mulan/classifier/RAKEL.java:195-198 | the loop computes the mean over the folds of the metric at one counter position |
| RakelSelection.Visit | mulan/src/mulan/classifier/RAKEL.java:194-205 | one grid visit keeps "minMetric is the least average so far below 1, and the kept setting is the first to reach it" |
| RakelSelection.ScanComplete | mulan/src/mulan/classifier/RAKEL.java:187-208 | after the whole grid, no setting is kept iff no average is below 1; otherwise the kept setting sits at the first position of the minimum |
| RakelSelection.ScanSubsetSize | mulan/src/mulan/classifier/RAKEL.java:191-207 | the loops over m and t for one k visit exactly that k's block of the grid and keep the scan invariant |
| RakelSelection.ScanModel | mulan/src/mulan/classifier/RAKEL.java:194-206 | the threshold loop for one (k, m) visits exactly its block and keeps the scan invariant |
| RakelSelection.SelectParams | mulan/src/mulan/classifier/RAKEL.java:187-208 | the selection scan returns nothing iff no average is below 1, and otherwise the setting at the first position of the minimum |
| RakelSelection.AsWrittenDropsEvaluatedModel | mulan/src/mulan/classifier/RAKEL.java:201 | counterexample: one label, k = 1, one model, one threshold step and a zero loss select m = 0; setNumModels(0) is applied, but 1 model was evaluated |
| Rakel.ListRemoved | mulan/src/mulan/classifier/RAKEL.java:284-287 | the array of removed attributes equals numPredictors plus each unselected label, in order |
| Rakel.DrawFreshKey | mulan/src/mulan/classifier/RAKEL.java:263-276 | the draw returns a sorted k-subset that is not in the combinations set |
| Rakel.AbsorbIncremental | mulan/src/mulan/classifier/RAKEL.java:343-346 | one model's prediction adds its confidence to the incremental sum and 1 to the count of each label in its subset, in one row only |
| Rakel.Absorb | mulan/src/mulan/classifier/RAKEL.java:401-404 | one model's prediction adds its confidence and one vote to each label of its subset and leaves other labels alone |
| Rakel.Decisions | mulan/src/mulan/classifier/RAKEL.java:414-422 | the decision loop computes exactly the prediction the vote totals define |
| Rakel.RecordRow | mulan/src/mulan/classifier/RAKEL.java:225-233 | the predictions table gets, for one instance, each label's decision, confidence and actual value, and no other row changes |
| Rakel.TrainedPrefixMeans | mulan/src/mulan/classifier/RAKEL.java:249-252 | after i models are built, each of them holds a k-subset, is trained, and removes exactly the attributes its subset leaves out |
| Rakel.DrawnDistinct | mulan/src/mulan/classifier/RAKEL.java:270-276 | when the combinations set has one member per drawn model, the drawn subsets are pairwise different |
| Rakel.Rakel.constructor | mulan/src/mulan/classifier/RAKEL.java:83-93 | stores the label count, model count and subset size; the per-model subset and removal tables are zero rows; nothing is trained and no subsets are drawn |
| Rakel.Rakel.SetSizeOfSubset | mulan/src/mulan/classifier/RAKEL.java:95-99 | sets the subset size and reallocates both per-model tables with the new row width; nothing else changes |
| Rakel.Rakel.SetNumModels | mulan/src/mulan/classifier/RAKEL.java:105-111 | sets the model count and reallocates the subset, removal and model arrays; every model slot starts untrained |
| Rakel.Rakel.SetParamSets | mulan/src/mulan/classifier/RAKEL.java:136-145 | stores the eight cross-validation parameters; nothing else changes |
| Rakel.Rakel.SetParamSelectionViaCV | mulan/src/mulan/classifier/RAKEL.java:147-149 | stores the flag; nothing else changes |
| Rakel.Rakel.NullSubsetClassifier | mulan/src/mulan/classifier/RAKEL.java:429-431 | drops model i (it becomes untrained); everything else is kept |
| Rakel.Rakel.UpdateClassifier | mulan/src/mulan/classifier/RAKEL.java:255-302 | model i gets a fresh sorted k-subset, which joins the combinations set; its removal list is the attributes outside the subset; it is marked trained, and the other models are untouched |
| Rakel.Rakel.UpdatePrediction | mulan/src/mulan/classifier/RAKEL.java:304-368 | an untrained model yields no prediction; otherwise its votes join the incremental tallies of this instance, and the returned prediction is the one the new tallies define |
| Rakel.Rakel.MakePrediction | mulan/src/mulan/classifier/RAKEL.java:371-427 | the vote sums and counts equal the ensemble totals of the trained models, and the output is the prediction these totals define |
| Rakel.Rakel.AllocatePredictions | mulan/src/mulan/classifier/RAKEL.java:213-217 | on the first call, fresh tables are made, one row per test instance, with zero tallies |
| Rakel.Rakel.UpdatePredictions | mulan/src/mulan/classifier/RAKEL.java:212-235 | the tables are allocated when absent; each test instance's row then holds the decision after adding this model's votes to its running tallies |
| Rakel.Rakel.RecordAll | mulan/src/mulan/classifier/RAKEL.java:219-234 | the loop over the test instances adds this model's votes to each instance's tallies and records the resulting row |
| Rakel.Rakel.ParamSelectionViaCVAsWritten | mulan/src/mulan/classifier/RAKEL.java:151-210 | as written: when the scan selects (k, m, t), it sets subset size k, m models and threshold start + increment * t, and m never exceeds C(numLabels, k); when no average is below 1, nothing changes |
| Rakel.Rakel.ParamSelectionViaCV | mulan/src/mulan/classifier/RAKEL.java:151-210 | corrected: the same selection, with m + 1 models, the ensemble size the selected metric was measured on |
| Rakel.Rakel.BuildClassifier | mulan/src/mulan/classifier/RAKEL.java:239-253 | as written: with parameter selection on and a setting selected, the ensemble is configured by ParamSelectionViaCVAsWritten (m models for the selected index m); otherwise size and threshold are kept; then every model holds a distinct sorted k-subset with its matching removal list and is trained, and the combinations set is exactly the drawn subsets |
| Rakel.Rakel.BuildClassifierCorrected | mulan/src/mulan/classifier/RAKEL.java:239-253 | the same build over ParamSelectionViaCV: a selected setting keeps the m + 1 models its losses were measured with |
| Rakel.Rakel.TrainSlot | mulan/src/mulan/classifier/RAKEL.java:251-252 | building model i extends the "first i models trained on distinct subsets" invariant to i + 1 |
| Rakel.Rakel.TrainAll | mulan/src/mulan/classifier/RAKEL.java:249-252 | the loop over the models establishes the invariant for all of them |
| Rakel.Rakel.TrainSelected | mulan/src/mulan/classifier/RAKEL.java:249-252 | once the size is settled, every slot holds a trained sub-model on its own recorded subset, all subsets distinct; the threshold and cross-validation settings are kept |
| Rakel.EvaluateSubsetSize | mulan/src/mulan/classifier/RAKEL.java:161-177 | one fold and one k: fails iff the wrapped binomial is negative (the arrays cannot be allocated); otherwise min(binomial, cvMaxM) steps, each drawing a k-subset different from all earlier ones, and the table handed to the evaluator at model index m holds, per instance and label, the prediction of the ensemble of the first m + 1 sub-models (ModelsEvaluated) |
| Rakel.EvaluateStep | mulan/src/mulan/classifier/RAKEL.java:166-171 | one step of the m loop: the ensemble stage moves from m to m + 1 models and the tables grow by the one just recorded |
| Rakel.Advance | mulan/src/mulan/classifier/RAKEL.java:168-171 | after updateClassifier, updatePredictions and nullSubsetClassifier for index m, the first m + 1 slots hold distinct subsets and the tallies are those of the first m + 1 sub-models; the recorded table holds their predictions |
| Rakel.TrainAndRecord | mulan/src/mulan/classifier/RAKEL.java:168-171 | slot m gets a fresh subset; each instance's tallies absorb its votes; the recorded table is the prediction of the new tallies |
| Rakel.RecordStep | mulan/src/mulan/classifier/RAKEL.java:170-171 | updatePredictions(m) adds sub-model m's votes to every instance's tallies and records the predictions, then nullSubsetClassifier(m) drops it; the subsets are kept |
| Rakel.RowGrow | mulan/src/mulan/classifier/RAKEL.java:343-346 | an instance's tallies of n sub-models, after absorbing sub-model n, are its tallies of n + 1 |
| Rakel.TalliedGrow | mulan/src/mulan/classifier/RAKEL.java:219-234 | the same for every instance's row at once |
| Rakel.StepHolds | mulan/src/mulan/classifier/RAKEL.java:166-172 | after a step the tallies are those of n + 1 sub-models and the table handed over is the prediction they define |
| Rakel.TablesGrow | mulan/src/mulan/classifier/RAKEL.java:166-176 | appending a step's table keeps every earlier table's meaning though later subsets are appended |
| Rakel.TablesHoldAt | mulan/src/mulan/classifier/RAKEL.java:166-176 | in tables kept step by step, the table of any index t holds the predictions of sub-models 0..t |
| Rakel.TablesExtend | mulan/src/mulan/classifier/RAKEL.java:166-176 | subsets drawn after the tables were recorded change nothing they hold |
| Rakel.TableHoldsPrefix | mulan/src/mulan/classifier/RAKEL.java:166-176 | a table depends only on the subsets of the sub-models it was recorded from |
| Rakel.CellMeaning | mulan/src/mulan/classifier/RAKEL.java:172 | a cell of the table of index m is the prediction of the first m + 1 sub-models |
| Rakel.TablesMeaning | mulan/src/mulan/classifier/RAKEL.java:172 | every cell of every table means what CellMeaning says |
| Hierarchy.UnionOfSingletons | src/mulan/classifier/meta/HierarchyBuilder.java:288-305 | partitions of at most one label hold at most as many labels as there are partitions, and fewer if one is empty |
| Hierarchy.BalancedNonEmpty | src/mulan/classifier/meta/HierarchyBuilder.java:288-305 | a balanced partition of n labels into at most n parts leaves no part empty |
| Hierarchy.PartsSmaller | src/mulan/classifier/meta/HierarchyBuilder.java:166-178 | with two or more non-empty parts, every part is smaller than the whole, so the recursion on each part terminates |
| Hierarchy.RandomPartitioning | src/mulan/classifier/meta/HierarchyBuilder.java:288-305 | the labels are dealt round-robin at random: the list is emptied, the parts hold exactly its labels (as a multiset), and part sizes never increase and differ by at most one |
| Hierarchy.DealRound | src/mulan/classifier/meta/HierarchyBuilder.java:296-302 | one round of the dealing loop moves labels from the list into the parts, one per part, and keeps them balanced |
| Hierarchy.DrawInto | src/mulan/classifier/meta/HierarchyBuilder.java:298-301 | one random draw moves one label from the list to part i, changing no other part |
| Hierarchy.LeafListLeaves | src/mulan/classifier/meta/HierarchyBuilder.java:185-190 | making a leaf of each label of a small set keeps exactly those labels |
| Hierarchy.RaisedMeans | src/mulan/classifier/meta/HierarchyBuilder.java:352-373 | a meta-label is raised iff it is an ancestor of some relevant leaf label |
| Hierarchy.RaisedUpClosed | src/mulan/classifier/meta/HierarchyBuilder.java:361-371 | the raised meta-labels are closed upwards: the parent of a raised meta-label is raised |
| Hierarchy.RaisedAreMetas | src/mulan/classifier/meta/HierarchyBuilder.java:361-371 | only meta-labels are raised |
| Hierarchy.HierarchicalRow | src/mulan/classifier/meta/HierarchyBuilder.java:344-373 | the new row copies the instance's values and has 1 exactly at the meta-labels above its relevant labels, and 0 at the others |
| Hierarchy.RaiseAncestors | src/mulan/classifier/meta/HierarchyBuilder.java:361-371 | the walk to the root sets every ancestor of the label to 1 and keeps the row consistent with the set raised so far |
| Hierarchy.NotOwnAncestor | src/mulan/classifier/meta/HierarchyBuilder.java:361-371 | no label is its own ancestor, so the upward walk ends |
| Hierarchy.HierarchyBuilder.constructor | src/mulan/classifier/meta/HierarchyBuilder.java:75-78 | stores the number of partitions; no meta-labels yet |
| Hierarchy.HierarchyBuilder.BuildHierarchy | src/mulan/classifier/meta/HierarchyBuilder.java:90-105 | fails iff there are no more labels than partitions; otherwise the builder is marked built, the meta-label count is the number of non-label names, and the tree is one grown by the partitioning recursion (RootsGrown), so its leaves are the labels |
| Hierarchy.HierarchyBuilder.CreateLabelsMetaData | src/mulan/classifier/meta/HierarchyBuilder.java:133-181 | fails iff there are more partitions than labels; otherwise the top-level nodes are one per part of a balanced partition of the labels, named "MetaLabel " + (i + 1) when the part has two or more labels, and each grown recursively (RootsGrown); their leaves are exactly the labels |
| Hierarchy.HierarchyBuilder.PartitionLabels | src/mulan/classifier/meta/HierarchyBuilder.java:143-163 | the random partitioning yields numPartitions balanced, non-empty parts, each smaller than the whole, that together hold the labels |
| Hierarchy.HierarchyBuilder.AddPartitions | src/mulan/classifier/meta/HierarchyBuilder.java:166-178 | one node per non-empty part, in order: a leaf for a single label, otherwise a meta-label named prefix + (i + 1) whose children grow from that part (Forest); the nodes' leaves are the parts' labels |
| Hierarchy.HierarchyBuilder.CreateLabelsMetaDataRecursive | src/mulan/classifier/meta/HierarchyBuilder.java:183-229 | a set no larger than numPartitions becomes one leaf per label; a larger set is split into a balanced partition of numPartitions smaller parts and each part becomes a child named name + "." + (i + 1) or a leaf (Grown); the children's leaves are exactly the labels |
| Hierarchy.GrownLeaves | src/mulan/classifier/meta/HierarchyBuilder.java:183-229 | any tree grown from a label set has exactly those labels as leaves |
| Hierarchy.ForestLeaves | src/mulan/classifier/meta/HierarchyBuilder.java:166-178 | the nodes grown from a list of parts have exactly the parts' labels as leaves |
| Hierarchy.NodeLeaves | src/mulan/classifier/meta/HierarchyBuilder.java:166-178 | a node grown from a non-empty part has exactly its labels as leaves |
| Hierarchy.RootsLeaves | src/mulan/classifier/meta/HierarchyBuilder.java:133-181 | the top-level nodes grown from the labels have exactly the labels as leaves |
| Hierarchy.HierarchyBuilder.ModifyInstance | src/mulan/classifier/meta/HierarchyBuilder.java:122-131 | fails iff no hierarchy is built; otherwise the instance keeps its weight and values and gets one missing value per meta-label |
| Hierarchy.HierarchyBuilder.CreateHierarchicalDataset | src/mulan/classifier/meta/HierarchyBuilder.java:315-378 | records the meta-label count; each row keeps its weight and values and marks exactly the meta-labels above its relevant labels |
| Stacking.DetachAttach | src/mulan/classifier/transformation/MultiLabelStacking.java:380-421 | detaching the index attribute undoes attaching it |
| Stacking.AttachIndexes | src/mulan/classifier/transformation/MultiLabelStacking.java:380-402 | an "Index" attribute is put first with value i on row i; the other values shift right by one; the class index is the last attribute |
| Stacking.ExpandedLength | src/mulan/classifier/transformation/MultiLabelStacking.java:280-290 | the meta-level removal list has one entry per uncorrelated label per base classifier |
| Stacking.ExpandedIndex | src/mulan/classifier/transformation/MultiLabelStacking.java:280-290 | entry j * u + l of the removal list is uncorrelated label l shifted by j * numLabels, the position of classifier j's confidence for it |
| Stacking.ExpandRemovalIndices | src/mulan/classifier/transformation/MultiLabelStacking.java:280-290 | the filling loop with its running index produces exactly that expanded list |
| Stacking.ValuesOfSnoc | src/mulan/classifier/transformation/MultiLabelStacking.java:199-211 | a new out-of-fold prediction adds its value to its own label's history only |
| Stacking.TrackMaxBounds | src/mulan/classifier/transformation/MultiLabelStacking.java:203-206 | the tracked maximum is at least the start value and every recorded value, and is one of them |
| Stacking.TrackMinBounds | src/mulan/classifier/transformation/MultiLabelStacking.java:207-210 | the tracked minimum is at most the start value and every recorded value, and is one of them |
| Stacking.LayoutIndex | src/mulan/classifier/transformation/MultiLabelStacking.java:437-460 | in the meta-level layout, classifier k's confidence for label l sits at k * numLabels + l |
| Stacking.LayoutThenIndex | src/mulan/classifier/transformation/MultiLabelStacking.java:347-372 | whatever follows the layout in a meta instance, classifier k's confidence for label l stays at k * numLabels + l |
| Stacking.FillBlock | src/mulan/classifier/transformation/MultiLabelStacking.java:498-520 | one classifier's pass succeeds iff all its confidences exist, and then appends them in label order |
| Stacking.MetaValues | src/mulan/classifier/transformation/MultiLabelStacking.java:347-372 | a meta instance's values are the layout of the predictions, then the feature values, then the label value |
| Stacking.AsWrittenMisplaces | src/mulan/classifier/transformation/MultiLabelStacking.java:518 | counterexample: with 2 classifiers and 2 labels the as-written slots give [0.3, 0.2, 0.4, 0.0] where the meta level was trained on [0.1, 0.2, 0.3, 0.4] |
| Stacking.AsWrittenSingle | src/mulan/classifier/transformation/MultiLabelStacking.java:518 | with a single base classifier the as-written slots agree with the trained layout |
| Stacking.AsWrittenFill | src/mulan/classifier/transformation/MultiLabelStacking.java:498-520 | as written: classifier k's pass succeeds iff all confidences exist and writes label l's confidence to slot l * (k + 1) |
| Stacking.MaxIndexPicksLarger | src/mulan/classifier/transformation/MultiLabelStacking.java:476 | the chosen class value has the larger probability, and a tie picks value 1 |
| Stacking.MultiLabelStacking.constructor | src/mulan/classifier/transformation/MultiLabelStacking.java:126-147 | stores the classifier count, folds and label count; phival 0, no normalisation, no attributes |
| Stacking.MultiLabelStacking.SetNormalize | src/mulan/classifier/transformation/MultiLabelStacking.java:78-80 | sets the normalize flag |
| Stacking.MultiLabelStacking.SetIncludeAttrs | src/mulan/classifier/transformation/MultiLabelStacking.java:88-90 | sets the includeAttrs flag |
| Stacking.MultiLabelStacking.BuildBaseLevel | src/mulan/classifier/transformation/MultiLabelStacking.java:149-236 | each table cell holds the last out-of-fold prediction for it, or 0; with normalize, each label's max and min are tracked from 0 and 1 over its predictions |
| Stacking.MultiLabelStacking.RecordAll | src/mulan/classifier/transformation/MultiLabelStacking.java:199-211 | the recording loop leaves the table and extremes as the record sequence defines |
| Stacking.MultiLabelStacking.RecordPrediction | src/mulan/classifier/transformation/MultiLabelStacking.java:199-211 | one record is stored in its cell and folded into its label's extremes |
| Stacking.MultiLabelStacking.BuildMetaLevel | src/mulan/classifier/transformation/MultiLabelStacking.java:258-300 | records phival and each label's uncorrelated count, and returns each label's removal list expanded over the base classifiers |
| Stacking.MultiLabelStacking.MetaInstance | src/mulan/classifier/transformation/MultiLabelStacking.java:347-372 | the training instance's stored predictions in the layout, then its features when included, then its value for the label |
| Stacking.MultiLabelStacking.Predictions | src/mulan/classifier/transformation/MultiLabelStacking.java:352-357 | the stored predictions of one training instance, one row per classifier |
| Stacking.MultiLabelStacking.BaseLevelPrediction | src/mulan/classifier/transformation/MultiLabelStacking.java:494-523 | corrected: null iff some classifier fails; otherwise the confidences in the layout the meta level was trained on |
| Stacking.MultiLabelStacking.FillAll | src/mulan/classifier/transformation/MultiLabelStacking.java:497-521 | the classifier loop succeeds iff every classifier's confidences exist, and then leaves the layout of all of them |
| Stacking.MultiLabelStacking.FillClassifier | src/mulan/classifier/transformation/MultiLabelStacking.java:498-520 | classifier k's pass succeeds iff its confidences exist, and then extends the layout of the classifiers before it |
| Stacking.MultiLabelStacking.BaseLevelPredictionAsWritten | src/mulan/classifier/transformation/MultiLabelStacking.java:494-523 | as written: null iff some classifier fails; otherwise the as-written slot layout |
| Stacking.MultiLabelStacking.MakePrediction | src/mulan/classifier/transformation/MultiLabelStacking.java:424-492 | as written, over BaseLevelPredictionAsWritten: fails iff some base classifier fails; the meta input is the as-written slot layout, the features when included, then zeros; null iff some meta classifier fails; otherwise each label is predicted iff the meta distribution favours its value "1", with that probability as confidence |
| Stacking.MultiLabelStacking.MakePredictionCorrected | src/mulan/classifier/transformation/MultiLabelStacking.java:424-492 | the same over the corrected BaseLevelPrediction: the meta input starts with the layout the meta level was trained on |
| Stacking.MultiLabelStacking.MetaPrediction | src/mulan/classifier/transformation/MultiLabelStacking.java:436-491 | the meta input is the confidences, the features when included, then zeros; null iff some label's meta distribution is missing; otherwise the per-label decisions and confidences of MetaPredicted |
| Threshold.DotZeros | mulan/src/mulan/classifier/neural/ThresholdFunction.java:39-54 | the linear combination of zero confidences is 0 |
| Threshold.DotAdd | mulan/src/mulan/classifier/neural/ThresholdFunction.java:39-54 | the threshold's linear part is additive in the confidences |
| Threshold.SeqMinIsMin | mulan/src/mulan/classifier/neural/ThresholdFunction.java:92 | the minimum found is an element and bounds all elements from below |
| Threshold.SeqMaxIsMax | mulan/src/mulan/classifier/neural/ThresholdFunction.java:93 | the maximum found is an element and bounds all elements from above |
| Threshold.LabelMinMeans | mulan/src/mulan/classifier/neural/ThresholdFunction.java:84-93 | the minimum over relevant labels bounds their outputs and is one of them; with no relevant label it is the MAX_VALUE sentinel |
| Threshold.NotLabelMaxMeans | mulan/src/mulan/classifier/neural/ThresholdFunction.java:84-93 | the maximum over irrelevant labels bounds their outputs and is one of them; with none it is -MAX_VALUE |
| Threshold.TargetBetween | mulan/src/mulan/classifier/neural/ThresholdFunction.java:94-97 | the target threshold is the midpoint of the two extremes, so it lies between them |
| Threshold.TargetSeparates | mulan/src/mulan/classifier/neural/ThresholdFunction.java:94-97 | when every relevant output is at least every irrelevant one, the target lies between the two groups |
| Threshold.Design | mulan/src/mulan/classifier/neural/ThresholdFunction.java:100-101 | the design matrix is each model-output row extended by a constant 1 |
| Threshold.MinIndex | mulan/src/mulan/classifier/neural/ThresholdFunction.java:92 | returns the index of a least element |
| Threshold.MaxIndex | mulan/src/mulan/classifier/neural/ThresholdFunction.java:93 | returns the index of a greatest element |
| Threshold.ExampleTarget | mulan/src/mulan/classifier/neural/ThresholdFunction.java:84-97 | the per-example loop computes that example's target threshold |
| Threshold.ExampleLoop | mulan/src/mulan/classifier/neural/ThresholdFunction.java:83-98 | fails iff some row is too short; otherwise gives each example's target threshold |
| Threshold.ThresholdFunction.Create | mulan/src/mulan/classifier/neural/ThresholdFunction.java:27-29 | construction succeeds iff the inputs can be built from; the parameters are then those that build would set |
| Threshold.ThresholdFunction.ComputeThreshold | mulan/src/mulan/classifier/neural/ThresholdFunction.java:39-54 | fails iff the confidences do not match the parameter count less one; otherwise the linear combination plus the constant term |
| Threshold.ThresholdFunction.Build | mulan/src/mulan/classifier/neural/ThresholdFunction.java:66-106 | guard order: null, empty, size mismatch, short rows; on success the parameters solve the design matrix against the targets; on failure they are unchanged |
| Bpmll.Topology | mulan/src/mulan/classifier/neural/BPMLL.java:225-240 | the layers are the input dimension, then the hidden layers, then the label count |
| Bpmll.TopologyPositive | mulan/src/mulan/classifier/neural/BPMLL.java:75-85 | with accepted hidden layers, every layer of the network has at least one neuron |
| Bpmll.NormalizeValue | mulan/src/mulan/classifier/neural/BPMLL.java:366-378 | the value is undefined iff the value, range or base is undefined |
| Bpmll.ExtremesMeans | mulan/src/mulan/classifier/neural/BPMLL.java:342-355 | the scan finds no extremes iff all values are missing; otherwise min and max bound every present value and are attained |
| Bpmll.NormalizeBounded | mulan/src/mulan/classifier/neural/BPMLL.java:357-378 | a value between the column's extremes normalises into [-1, 1], the minimum to -1 and the maximum to 1, and every value to 0 when the column is constant |
| Bpmll.NormalizedColumn | mulan/src/mulan/classifier/neural/BPMLL.java:334-378 | every present value of a normalised column lies in [-1, 1], and a non-constant column reaches both ends |
| Bpmll.ScanColumn | mulan/src/mulan/classifier/neural/BPMLL.java:342-355 | the scan loop finds the column's extremes |
| Bpmll.NormalizeColumn | mulan/src/mulan/classifier/neural/BPMLL.java:359-362 | normalises column j in place and leaves the other columns alone |
| Bpmll.NormalizeAll | mulan/src/mulan/classifier/neural/BPMLL.java:334-364 | each attribute's range and base come from its extremes; its values are normalised with them; the label columns are unchanged |
| Bpmll.BipolarRoundTrip | mulan/src/mulan/classifier/neural/BPMLL.java:271-275 | a 0/1 label maps to -1/1, and the prediction-side translation maps it back |
| Bpmll.ToBipolar | mulan/src/mulan/classifier/neural/BPMLL.java:271-275 | the output array is replaced by its bipolar form |
| Bpmll.MakePairs | mulan/src/mulan/classifier/neural/BPMLL.java:265-276 | one pair per row, with the input part first and the bipolar label part after it |
| Bpmll.NormalizeInput | mulan/src/mulan/classifier/neural/BPMLL.java:406-411 | the input is normalised with the stored range and base of each attribute |
| Bpmll.ApplyThreshold | mulan/src/mulan/classifier/neural/BPMLL.java:415-425 | a label is predicted iff its raw output exceeds the threshold; the first numLabels outputs are translated to [0, 1] in place |
| Bpmll.TranslatedDecision | mulan/src/mulan/classifier/neural/BPMLL.java:419-425 | comparing before or after the translation gives the same decision, and outputs in [-1, 1] translate into [0, 1] |
| Bpmll.BPMLL.constructor | mulan/src/mulan/classifier/neural/BPMLL.java:41-52 | the defaults: 100 epochs, decay cost 0.00001, learning rate 0.05, no hidden layers configured (so the network is [inputs, labels]), normalisation on, no model |
| Bpmll.BPMLL.SetHiddenLayers | mulan/src/mulan/classifier/neural/BPMLL.java:75-85 | accepted iff no layer has a non-positive size; the topology changes only when accepted |
| Bpmll.BPMLL.SetLearningRate | mulan/src/mulan/classifier/neural/BPMLL.java:94-100 | accepted iff the rate is in (0, 1]; the rate changes only when accepted |
| Bpmll.BPMLL.SetWeightsDecayRegularization | mulan/src/mulan/classifier/neural/BPMLL.java:110-117 | accepted iff the cost is in (0, 1]; the cost changes only when accepted |
| Bpmll.BPMLL.SetTrainingEpochs | mulan/src/mulan/classifier/neural/BPMLL.java:126-132 | accepted iff the count is positive; the count changes only when accepted |
| Bpmll.BPMLL.SetNormalizeAttributes | mulan/src/mulan/classifier/neural/BPMLL.java:145-147 | sets the flag |
| Bpmll.BPMLL.BuildNeuralNetwork | mulan/src/mulan/classifier/neural/BPMLL.java:225-240 | the model gets the topology for the input dimension |
| Bpmll.BPMLL.NormalizeAttributes | mulan/src/mulan/classifier/neural/BPMLL.java:334-364 | stores fresh per-attribute ranges and bases and normalises the attribute columns only |
| Bpmll.BPMLL.PrepareData | mulan/src/mulan/classifier/neural/BPMLL.java:249-280 | normalises when enabled (otherwise no ranges and the data unchanged), then makes one pair per instance: the attributes, and the labels in bipolar form |
| Bpmll.BPMLL.MakePrediction | mulan/src/mulan/classifier/neural/BPMLL.java:380-429 | a null instance or one shorter than the input layer is an illegal argument, and a missing model a null pointer; normalisation is skipped when the input layer is empty; the call succeeds exactly when every check passes (stored ranges and bases when normalising, a threshold function matching the output size, an output per label), and then the labels are the network outputs above the learned threshold |
| Measures.CheckUpdate | mulan/src/mulan/evaluation/measure/ClassificationMeasureBase.java:37-45 | a null prediction, then a null ground truth, is rejected first; it succeeds iff both are present and the truth is a classification truth |
| Measures.Update | mulan/src/mulan/evaluation/measure/ClassificationMeasureBase.java:36-49 | fails exactly as the guards do; otherwise delegates to updateInternal with the prediction and the true labels |
| Measures.CheckConfidences | mulan/src/mulan/evaluation/measure/ConfidenceMeasureBase.java:32-42 | null confidences, then a length mismatch with the truth, are rejected; otherwise the confidences pass |
| Measures.ConfidenceUpdate | mulan/src/mulan/evaluation/measure/ConfidenceMeasureBase.java:32-42 | fails exactly as the checks do; otherwise delegates to updateInternal2 |
| Measures.ToString | mulan/src/mulan/evaluation/measure/ClassificationMeasureBase.java:57-64 | the name, ": " and the formatted value; a failing getValue prints as the format of NaN |
| Measures.LabelPrediction | src/mulan/evaluation/measure/LabelBasedAUC.java:61-73 | class 1 iff the label is relevant; distribution [1 - c, c]; weight 1 |
| Measures.PositivesRecorded | src/mulan/evaluation/measure/LabelBasedAUC.java:61-73 | the positive predictions recorded are as many as the relevant labels |
| Measures.LabelBasedAUC.constructor | src/mulan/evaluation/measure/LabelBasedAUC.java:38-45 | one empty list per label and an empty overall list |
| Measures.LabelBasedAUC.Reset | src/mulan/evaluation/measure/LabelBasedAUC.java:47-52 | all lists are emptied |
| Measures.LabelBasedAUC.GetIdealValue | src/mulan/evaluation/measure/LabelBasedAUC.java:54-56 | the ideal AUC is 1 |
| Measures.LabelBasedAUC.UpdateInternal2 | src/mulan/evaluation/measure/LabelBasedAUC.java:58-78 | each label up to the shortest input gets its prediction appended to its list and to the overall list; short inputs fail with an out-of-bounds error after those appends; otherwise the result is 0 |
| Measures.LabelBasedAUC.UpdateInternal | mulan/src/mulan/evaluation/measure/ConfidenceMeasureBase.java:32-42 | a failing confidence check returns its error and changes nothing; otherwise each label up to the shortest input gets its prediction appended to its own list and the overall list, and the result is 0 unless an input is shorter than the label count, which is an out-of-bounds error |
| Measures.SumZero | mulan/src/mulan/evaluation/measure/MicroSpecificity.java:42-46 | a count total is 0 iff every label's count is 0 |
| Measures.MicroSpecificity | mulan/src/mulan/evaluation/measure/MicroSpecificity.java:42-46 | undefined (NaN) iff there are neither true negatives nor false positives |
| Measures.MicroSpecificityBounds | mulan/src/mulan/evaluation/measure/MicroSpecificity.java:42-46 | the value lies in [0, 1]; it is 1 with no false positives and 0 with no true negatives |
| Measures.GetName | mulan/src/mulan/evaluation/measure/MicroSpecificity.java:48-50 | the name is "Micro-averaged Specificity" |
| Measures.UndefinedPrintsNaN | mulan/src/mulan/evaluation/measure/MicroSpecificity.java:42-50 | with no negatives at all the measure prints as its name followed by the format of NaN |

## Left out

- Randomness: `Random.nextInt` draws are nondeterministic choices (`:|`). The
  redraw loop of `updateClassifier` is modelled by its outcome, a subset not
  yet drawn. Failed draws leave no trace.
- Weka classifiers, filters (`Remove`, `NominalToBinary`), `Instances` and
  `Evaluator`, plus cross-validation fold splitting:
  - base and meta classifiers are represented by their outputs (per-model
    confidences, distributions);
  - the metric table of `paramSelectionViaCV` is a parameter.
- `Arrays.sort` is represented by its result, an increasing subset.
- Floating point: `double` is `real`. `NaN` from a zero count is `None`.
  `Double.MAX_VALUE` is a finite constant. Rounding is not modelled.
- I/O, XML, ARFF, `toString` layouts of the classifiers, `getTechnicalInformation`.
- `Matrix.solve` (Jama) is a function parameter of `Threshold.ThresholdFunction.Build`.
  Its rank-deficiency error is not modelled.
- The clustering branch of HierarchyBuilder (EM, k-means) is left out. So are
  its XML export and the sparse-instance branch.
- Hierarchy.HierarchyBuilder.CreateHierarchicalDataset works over an explicit
  parent map. The link from the `LabelNode` tree to that map is not modelled.
- Hierarchy.HierarchyBuilder.BuildHierarchy requires at least two partitions,
  which the source does not check:
  - with 0 partitions the source loops forever;
  - with 1 partition it recurses without end.
- Stacking.MultiLabelStacking.BuildMetaLevel takes each label's uncorrelated
  labels as input. The phi-coefficient correlation and `transformInstance` of
  the binary-relevance base are not part of this model.
- `normalizePredictions` of MultiLabelStacking only iterates and changes
  nothing. The model leaves it out.
- Bpmll.BPMLL.MakePrediction: the network's feed-forward pass is a function
  parameter. The label count is a constructor parameter. The contract does not
  say which error comes first among the later failures:
  - missing ranges;
  - a missing threshold function;
  - short outputs.
- BPMLL training (`BPMLLAlgorithm`, `buildInternal`, `buildThresholdFunction`,
  `checkAttributesFormat`) and the `NominalToBinary` conversion are left out.
- `GroundTruth`, `MeasureBase` and the count arrays behind `MicroSpecificity`
  (from `LabelBasedSpecificity`) are not part of this model. `String.format`
  is a parameter of Measures.ToString.
- Rakel.EvaluateSubsetSize: the fold loop, the per-fold train/test split and
  `Evaluator.evaluateOverThreshold` with its Hamming losses are outside the
  model. The tables handed to the evaluator are the method's result, and the
  metric table the selection reads is a parameter. The sub-models' predictions
  on the test instances are a parameter. It requires those predictions for
  every evaluated model index, which the source computes.
- RakelSelection.SelectParams requires GridArgs (`cvStepK > 0`,
  `0 <= cvMinK`, `cvMaxK <= numLabels`), which the source does not check.
  With a non-positive step the k loop never ends. With k outside 0..numLabels,
  `binomial` indexes outside its array.
- Rakel.Rakel.ParamSelectionViaCVAsWritten, Rakel.Rakel.ParamSelectionViaCV,
  Rakel.Rakel.BuildClassifier and Rakel.Rakel.BuildClassifierCorrected require,
  when the selection runs, a positive fold count (`SelectionArgs`).
  `setParamSets` stores any count. With 0 folds the source allocates an empty
  metric array and throws ArrayIndexOutOfBoundsException at its first read.
  With a negative count it throws NegativeArraySizeException. Neither
  exception is modelled.
- Rakel.Rakel.constructor and Rakel.Rakel.SetSizeOfSubset require a subset
  size no larger than the label count. The source accepts a larger one, and
  the first `updateClassifier` then redraws for ever. Negative sizes, which
  make Java throw NegativeArraySizeException, are excluded by `nat`.
- Rakel.Rakel.UpdatePrediction requires the predictions table to exist. In
  the source a call before `updatePredictions` allocated it throws
  NullPointerException.
- Rakel.Rakel.BuildClassifier requires the ensemble size to be at most
  C(numLabels, k) unless a selection is adopted. With more models the redraw
  loop of `updateClassifier` never ends.
- Measures.LabelBasedAUC: the Weka `FastVector` lists are sequences. The AUC
  computation (`ThresholdCurve`) is not part of this model.

## Findings

| source | as written | input that shows it | evidently intended | confidence | as-written member | corrected member |
|---|---|---|---|---|---|---|
| mulan/src/mulan/classifier/RAKEL.java:201 | `setNumModels(m)`, with m the 0-based index of the last model evaluated | one label, cvMinK = cvMaxK = cvStepK = 1, cvMaxM = 1, one threshold step, one fold with Hamming loss 0: m = 0 is selected, so 0 models are kept although 1 was evaluated | `setNumModels(m + 1)` | not executed | Rakel.Rakel.ParamSelectionViaCVAsWritten, Rakel.Rakel.BuildClassifier, RakelSelection.AsWrittenDropsEvaluatedModel | Rakel.Rakel.ParamSelectionViaCV, Rakel.Rakel.BuildClassifierCorrected |
| src/mulan/classifier/transformation/MultiLabelStacking.java:518 | classifier k's confidence for label l is stored at slot l * (k + 1) | 2 base classifiers, 2 labels, confidences [[0.1, 0.2], [0.3, 0.4]]: the as-written array is [0.3, 0.2, 0.4, 0.0], but the meta level was trained on [0.1, 0.2, 0.3, 0.4] | slot k * numLabels + l, the layout `metaInstance` builds | not executed | Stacking.MultiLabelStacking.BaseLevelPredictionAsWritten, Stacking.MultiLabelStacking.MakePrediction, Stacking.AsWrittenMisplaces | Stacking.MultiLabelStacking.BaseLevelPrediction, Stacking.MultiLabelStacking.MakePredictionCorrected |
