/** HierarchyBuilder: builds a random label hierarchy on top of a flat
    multi-label dataset by recursively partitioning the labels round-robin,
    then raises every meta-label whose subtree holds a positive label. */
module Hierarchy {

  import opened Wrappers

  // ---------------------------------------------------------------------
  // Round-robin random partitioning

  /** A mutable label list (`List<String>`) that partitioning consumes. */
  class LabelList {
    var items: seq<string>

    constructor(items: seq<string>)
      ensures this.items == items
    {
      this.items := items;
    }
  }

  /** Every label in a list of partitions, with multiplicity. */
  function Union(parts: seq<seq<string>>): multiset<string>
  {
    if parts == [] then multiset{} else Union(parts[..|parts| - 1]) + multiset(parts[|parts| - 1])
  }

  /** Round-robin dealing: sizes never grow with the index and differ by at
      most one. */
  predicate Balanced(parts: seq<seq<string>>)
  {
    forall i, j :: 0 <= i <= j < |parts| ==> |parts[j]| <= |parts[i]| <= |parts[j]| + 1
  }

  lemma {:induction false} UnionUpdate(parts: seq<seq<string>>, i: nat, x: string)
    requires i < |parts|
    ensures Union(parts[i := parts[i] + [x]]) == Union(parts) + multiset{x}
  {
    var q := parts[i := parts[i] + [x]];
    if i < |parts| - 1 {
      assert q[..|q| - 1] == parts[..|parts| - 1][i := parts[i] + [x]];
      UnionUpdate(parts[..|parts| - 1], i, x);
    } else {
      assert q[..|q| - 1] == parts[..|parts| - 1];
    }
  }

  lemma UnionPrefix(parts: seq<seq<string>>, i: nat)
    requires i < |parts|
    ensures Union(parts[..i + 1]) == Union(parts[..i]) + multiset(parts[i])
  {
    assert parts[..i + 1][..i] == parts[..i];
  }

  lemma {:induction false} ClearedUnion(parts: seq<seq<string>>)
    requires forall i :: 0 <= i < |parts| ==> parts[i] == []
    ensures Union(parts) == multiset{}
  {
    if parts != [] {
      ClearedUnion(parts[..|parts| - 1]);
    }
  }

  lemma {:induction false} UnionHoldsPart(parts: seq<seq<string>>, i: nat)
    requires i < |parts|
    ensures |parts[i]| <= |Union(parts)|
  {
    if i < |parts| - 1 {
      UnionHoldsPart(parts[..|parts| - 1], i);
    }
  }

  lemma {:induction false} UnionHoldsTwo(parts: seq<seq<string>>, i: nat, j: nat)
    requires i < j < |parts|
    ensures |parts[i]| + |parts[j]| <= |Union(parts)|
  {
    var init := parts[..|parts| - 1];
    if j < |parts| - 1 {
      UnionHoldsTwo(init, i, j);
    } else {
      UnionHoldsPart(init, i);
    }
  }

  /** Partitions of at most one label, one of them empty, hold fewer labels
      than there are partitions. */
  lemma {:induction false} UnionOfSingletons(parts: seq<seq<string>>, e: nat)
    requires forall i :: 0 <= i < |parts| ==> |parts[i]| <= 1
    ensures |Union(parts)| <= |parts|
    ensures e < |parts| && parts[e] == [] ==> |Union(parts)| < |parts|
  {
    if parts != [] {
      UnionOfSingletons(parts[..|parts| - 1], e);
    }
  }

  /** With at least as many labels as partitions, no partition is empty. */
  lemma BalancedNonEmpty(parts: seq<seq<string>>, n: nat)
    requires Balanced(parts) && |Union(parts)| == n && |parts| <= n
    ensures forall i :: 0 <= i < |parts| ==> 1 <= |parts[i]|
  {
    forall e | 0 <= e < |parts| ensures 1 <= |parts[e]| {
      if parts[e] == [] {
        UnionOfSingletons(parts, e);
      }
    }
  }

  /** With at least two non-empty partitions, each holds fewer labels than
      the whole list: the recursion shrinks. */
  lemma PartsSmaller(parts: seq<seq<string>>, n: nat)
    requires 2 <= |parts| && |Union(parts)| == n
    requires forall i :: 0 <= i < |parts| ==> 1 <= |parts[i]|
    ensures forall i :: 0 <= i < |parts| ==> |parts[i]| < n
  {
    forall i | 0 <= i < |parts| ensures |parts[i]| < n {
      var j := if i == 0 then 1 else 0;
      if i < j {
        UnionHoldsTwo(parts, i, j);
      } else {
        UnionHoldsTwo(parts, j, i);
      }
    }
  }

  /** `randomPartitioning`: repeatedly deals one randomly drawn label to
      each partition in turn until the list is empty. The caller's list is
      left empty; the random index is any valid one. */
  method RandomPartitioning(partitions: nat, labels: LabelList) returns (children: array<seq<string>>)
    requires partitions > 0
    modifies labels
    ensures fresh(children) && children.Length == partitions
    ensures labels.items == []
    ensures Union(children[..]) == multiset(old(labels.items))
    ensures Balanced(children[..])
  {
    children := new seq<string>[partitions](_ => []);
    ghost var all := multiset(labels.items);
    ghost var rounds := 0;
    ClearedUnion(children[..]);
    while labels.items != []
      invariant Union(children[..]) + multiset(labels.items) == all
      invariant Balanced(children[..])
      invariant labels.items != [] ==> forall j :: 0 <= j < partitions ==> |children[j]| == rounds
      decreases |labels.items|
    {
      DealRound(labels, children, rounds);
      rounds := rounds + 1;
    }
  }

  /** One pass of the `for` loop over the partitions: each partition in
      turn gets a random label, until the list runs out. */
  method DealRound(labels: LabelList, children: array<seq<string>>, ghost rounds: nat)
    requires children.Length > 0 && labels.items != []
    requires forall j :: 0 <= j < children.Length ==> |children[j]| == rounds
    modifies labels, children
    ensures Union(children[..]) + multiset(labels.items) == Union(old(children[..])) + multiset(old(labels.items))
    ensures |labels.items| < |old(labels.items)|
    ensures Balanced(children[..])
    ensures labels.items != [] ==> forall j :: 0 <= j < children.Length ==> |children[j]| == rounds + 1
  {
    ghost var all := Union(children[..]) + multiset(labels.items);
    for i := 0 to children.Length
      invariant Union(children[..]) + multiset(labels.items) == all
      invariant |labels.items| <= |old(labels.items)| && (i > 0 ==> |labels.items| < |old(labels.items)|)
      invariant forall j :: 0 <= j < children.Length ==> |children[j]| == rounds + (if j < i then 1 else 0)
    {
      if labels.items == [] {
        break;
      }
      DrawInto(labels, children, i);
    }
  }

  /** One step of the deal: remove the label at a random index and append
      it to partition i. */
  method DrawInto(labels: LabelList, children: array<seq<string>>, i: nat)
    requires i < children.Length && labels.items != []
    modifies labels, children
    ensures Union(children[..]) + multiset(labels.items) == Union(old(children[..])) + multiset(old(labels.items))
    ensures |labels.items| < |old(labels.items)|
    ensures forall j :: 0 <= j < children.Length ==> |children[j]| == |old(children[j])| + (if j == i then 1 else 0)
  {
    var idx :| 0 <= idx < |labels.items|;
    var rndLabel := labels.items[idx];
    ghost var before := labels.items;
    labels.items := labels.items[..idx] + labels.items[idx + 1..];
    assert before == labels.items[..idx] + [rndLabel] + labels.items[idx..];
    UnionUpdate(children[..], i, rndLabel);
    children[i] := children[i] + [rndLabel];
  }

  // ---------------------------------------------------------------------
  // The label tree

  /** A node of the label hierarchy; a node without children is a leaf. */
  datatype LabelNode = LabelNode(name: string, children: seq<LabelNode>)

  function Leaf(name: string): LabelNode
  {
    LabelNode(name, [])
  }

  /** The leaf labels of a tree, with multiplicity. */
  function Leaves(t: LabelNode): multiset<string>
    decreases t, 1
  {
    if t.children == [] then multiset{t.name} else LeavesOf(t.children)
  }

  function LeavesOf(ts: seq<LabelNode>): multiset<string>
    decreases ts, 0
  {
    if ts == [] then multiset{} else LeavesOf(ts[..|ts| - 1]) + Leaves(ts[|ts| - 1])
  }

  lemma LeavesOfAppend(ts: seq<LabelNode>, t: LabelNode)
    ensures LeavesOf(ts + [t]) == LeavesOf(ts) + Leaves(t)
  {
    assert (ts + [t])[..|ts|] == ts;
  }

  /** Every node name in a forest. */
  function NamesOf(ts: seq<LabelNode>): set<string>
    decreases ts, 0
  {
    if ts == [] then {} else NamesOf(ts[..|ts| - 1]) + Names(ts[|ts| - 1])
  }

  function Names(t: LabelNode): set<string>
    decreases t, 1
  {
    {t.name} + NamesOf(t.children)
  }

  /** Decimal digits of n, as Java prints an `int`. */
  function NatToString(n: nat): (s: string)
    ensures |s| > 0 && forall c :: c in s ==> '0' <= c <= '9'
  {
    var d := ['0' + (n % 10) as char];
    if n < 10 then d else NatToString(n / 10) + d
  }

  function LeafList(labels: seq<string>): (r: seq<LabelNode>)
    ensures |r| == |labels| && forall i :: 0 <= i < |labels| ==> r[i] == Leaf(labels[i])
  {
    seq(|labels|, i requires 0 <= i < |labels| => Leaf(labels[i]))
  }

  lemma {:induction false} LeafListLeaves(labels: seq<string>)
    ensures LeavesOf(LeafList(labels)) == multiset(labels)
  {
    if labels != [] {
      var init := labels[..|labels| - 1];
      assert LeafList(labels)[..|labels| - 1] == LeafList(init);
      LeafListLeaves(init);
      assert labels == init + [labels[|labels| - 1]];
    }
  }

  /** One round of partitioning `labels` into p parts, as the builders use
      it: every label dealt once, sizes within one of each other, and no part
      empty or as large as the list. */
  ghost predicate Partitioned(parts: seq<seq<string>>, labels: seq<string>, p: int)
  {
    |parts| == p && Union(parts) == multiset(labels) && Balanced(parts)
    && forall i :: 0 <= i < |parts| ==> 1 <= |parts[i]| < |labels|
  }

  /** The children built under the node `name` for `labels`: at most p
      labels become leaves in list order; more are partitioned and every
      partition i gets its place under the prefix `name + "."`. */
  ghost predicate Grown(name: string, labels: seq<string>, children: seq<LabelNode>, p: int)
    decreases |labels|, 1, 0
  {
    if |labels| <= p then children == LeafList(labels)
    else exists parts :: Partitioned(parts, labels, p) && Forest(name + ".", parts, children, p, |labels|)
  }

  /** The nodes built for `parts`, in order: an empty partition adds nothing,
      every other partition i adds the node `NodeFor` describes. */
  ghost predicate Forest(prefix: string, parts: seq<seq<string>>, nodes: seq<LabelNode>, p: int, n: nat)
    requires forall i :: 0 <= i < |parts| ==> |parts[i]| < n
    decreases n, 0, |parts|
  {
    if parts == [] then nodes == []
    else
      var i := |parts| - 1;
      if parts[i] == [] then Forest(prefix, parts[..i], nodes, p, n)
      else
        nodes != [] && Forest(prefix, parts[..i], nodes[..|nodes| - 1], p, n)
        && NodeFor(prefix, i, parts[i], nodes[|nodes| - 1], p)
  }

  /** The node for partition i: a single label is a leaf of that label, a
      larger partition the node `prefix + (i+1)` with its children grown from
      the partition. */
  ghost predicate NodeFor(prefix: string, i: nat, part: seq<string>, node: LabelNode, p: int)
    decreases |part|, 2, 0
  {
    if |part| == 1 then node == Leaf(part[0])
    else node.name == prefix + NatToString(i + 1) && Grown(node.name, part, node.children, p)
  }

  /** The roots built for `labels`: one partitioning, with meta-labels
      named "MetaLabel <i+1>". */
  ghost predicate RootsGrown(labels: seq<string>, roots: seq<LabelNode>, p: int)
  {
    exists parts :: Partitioned(parts, labels, p) && Forest(RootPrefix, parts, roots, p, |labels|)
  }

  const RootPrefix := "MetaLabel "

  /** The shape fixes the leaves: a subtree grown from `labels` has exactly
      those labels as leaves, whatever the partitionings chosen. */
  lemma {:induction false} GrownLeaves(name: string, labels: seq<string>, children: seq<LabelNode>, p: int)
    requires Grown(name, labels, children, p)
    ensures LeavesOf(children) == multiset(labels)
    decreases |labels|, 1, 0
  {
    if |labels| <= p {
      LeafListLeaves(labels);
    } else {
      var parts :| Partitioned(parts, labels, p) && Forest(name + ".", parts, children, p, |labels|);
      ForestLeaves(name + ".", parts, children, p, |labels|);
    }
  }

  lemma {:induction false} ForestLeaves(prefix: string, parts: seq<seq<string>>, nodes: seq<LabelNode>, p: int, n: nat)
    requires forall i :: 0 <= i < |parts| ==> |parts[i]| < n
    requires Forest(prefix, parts, nodes, p, n)
    ensures LeavesOf(nodes) == Union(parts)
    decreases n, 0, |parts|
  {
    if parts != [] {
      var i := |parts| - 1;
      UnionPrefix(parts, i);
      assert parts[..i + 1] == parts;
      if parts[i] == [] {
        ForestLeaves(prefix, parts[..i], nodes, p, n);
      } else {
        ForestLeaves(prefix, parts[..i], nodes[..|nodes| - 1], p, n);
        NodeLeaves(prefix, i, parts[i], nodes[|nodes| - 1], p);
      }
    }
  }

  lemma {:induction false} NodeLeaves(prefix: string, i: nat, part: seq<string>, node: LabelNode, p: int)
    requires 1 <= |part| && NodeFor(prefix, i, part, node, p)
    ensures Leaves(node) == multiset(part)
    decreases |part|, 2, 0
  {
    if |part| == 1 {
      assert part == [part[0]];
    } else {
      GrownLeaves(node.name, part, node.children, p);
    }
  }

  /** The roots likewise carry every label once per occurrence. */
  lemma RootsLeaves(labels: seq<string>, roots: seq<LabelNode>, p: int)
    requires RootsGrown(labels, roots, p)
    ensures LeavesOf(roots) == multiset(labels)
  {
    var parts :| Partitioned(parts, labels, p) && Forest(RootPrefix, parts, roots, p, |labels|);
    ForestLeaves(RootPrefix, parts, roots, p, |labels|);
  }

  // ---------------------------------------------------------------------
  // Parent relation and meta-label propagation

  /** The parent lookup of a built hierarchy: `parent` maps a non-root node
      to its parent, `metas` lists the meta-labels in attribute order, and
      `depth` witnesses that walking up ends. */
  datatype Tree = Tree(parent: map<string, string>, metas: seq<string>, depth: map<string, nat>)

  predicate Distinct(s: seq<string>)
  {
    forall i, j :: 0 <= i < j < |s| ==> s[i] != s[j]
  }

  predicate WellFormed(h: Tree)
  {
    Distinct(h.metas)
    && forall x :: x in h.parent ==>
         x in h.depth && h.parent[x] in h.depth && h.depth[h.parent[x]] < h.depth[x] && h.parent[x] in h.metas
  }

  /** The nodes strictly above x. */
  function Ancestors(h: Tree, x: string): set<string>
    requires WellFormed(h)
    decreases if x in h.depth then h.depth[x] else 0
  {
    if x in h.parent then {h.parent[x]} + Ancestors(h, h.parent[x]) else {}
  }

  /** A set of nodes closed under taking the parent. */
  predicate UpClosed(h: Tree, s: set<string>)
    requires WellFormed(h)
  {
    forall x :: x in s && x in h.parent ==> h.parent[x] in s
  }

  lemma {:induction false} AncestorsUpClosed(h: Tree, x: string)
    requires WellFormed(h)
    ensures UpClosed(h, Ancestors(h, x))
    decreases if x in h.depth then h.depth[x] else 0
  {
    if x in h.parent {
      AncestorsUpClosed(h, h.parent[x]);
    }
  }

  lemma {:induction false} AncestorsWithin(h: Tree, s: set<string>, x: string)
    requires WellFormed(h) && UpClosed(h, s) && x in s
    ensures Ancestors(h, x) <= s
    decreases if x in h.depth then h.depth[x] else 0
  {
    if x in h.parent {
      AncestorsWithin(h, s, h.parent[x]);
    }
  }

  /** The meta-labels above the positive leaves among `leaves`. */
  function Raised(h: Tree, leaves: seq<string>, positive: set<string>): set<string>
    requires WellFormed(h)
  {
    if leaves == [] then {}
    else Raised(h, leaves[..|leaves| - 1], positive)
         + (if leaves[|leaves| - 1] in positive then Ancestors(h, leaves[|leaves| - 1]) else {})
  }

  /** A meta-label is raised iff some positive leaf lies beneath it. */
  lemma {:induction false} RaisedMeans(h: Tree, leaves: seq<string>, positive: set<string>, m: string)
    requires WellFormed(h)
    ensures m in Raised(h, leaves, positive) <==>
      exists i :: 0 <= i < |leaves| && leaves[i] in positive && m in Ancestors(h, leaves[i])
  {
    if leaves != [] {
      var init := leaves[..|leaves| - 1];
      RaisedMeans(h, init, positive, m);
      if exists i :: 0 <= i < |leaves| && leaves[i] in positive && m in Ancestors(h, leaves[i]) {
        var i :| 0 <= i < |leaves| && leaves[i] in positive && m in Ancestors(h, leaves[i]);
        if i < |leaves| - 1 {
          assert init[i] == leaves[i];
        }
      }
      if exists i :: 0 <= i < |init| && init[i] in positive && m in Ancestors(h, init[i]) {
        var i :| 0 <= i < |init| && init[i] in positive && m in Ancestors(h, init[i]);
        assert leaves[i] == init[i];
      }
    }
  }

  /** The raised set is always closed under ancestors, which is why the
      upward walk may stop at the first node already set to 1. */
  lemma {:induction false} RaisedUpClosed(h: Tree, leaves: seq<string>, positive: set<string>)
    requires WellFormed(h)
    ensures UpClosed(h, Raised(h, leaves, positive))
  {
    if leaves != [] {
      var last := leaves[|leaves| - 1];
      RaisedUpClosed(h, leaves[..|leaves| - 1], positive);
      AncestorsUpClosed(h, last);
    }
  }

  lemma RaisedAreMetas(h: Tree, leaves: seq<string>, positive: set<string>)
    requires WellFormed(h)
    ensures forall m :: m in Raised(h, leaves, positive) ==> m in h.metas
  {
    forall m | m in Raised(h, leaves, positive) ensures m in h.metas {
      RaisedMeans(h, leaves, positive, m);
      var i :| 0 <= i < |leaves| && leaves[i] in positive && m in Ancestors(h, leaves[i]);
      AncestorsAreMetas(h, leaves[i], m);
    }
  }

  lemma {:induction false} AncestorsAreMetas(h: Tree, x: string, m: string)
    requires WellFormed(h) && m in Ancestors(h, x)
    ensures m in h.metas
    decreases if x in h.depth then h.depth[x] else 0
  {
    if m != h.parent[x] {
      AncestorsAreMetas(h, h.parent[x], m);
    }
  }

  /** The position of a meta-label among the meta-labels. */
  function IndexOf(s: seq<string>, x: string): (i: nat)
    requires x in s
    ensures i < |s| && s[i] == x
  {
    if s[0] == x then 0 else 1 + IndexOf(s[1..], x)
  }

  /** Row layout: the original values, then one slot per meta-label that
      holds 1 for the nodes of `on` and 0 elsewhere. */
  ghost predicate RowHolds(h: Tree, row: seq<real>, values: seq<real>, on: set<string>)
  {
    |row| == |values| + |h.metas| && row[..|values|] == values
    && forall j :: 0 <= j < |h.metas| ==> row[|values| + j] == if h.metas[j] in on then 1.0 else 0.0
  }

  /** One instance of `createHierarchicalDataset`: copy the original values,
      zero the meta-label slots, and for each positive leaf put 1 on its
      ancestors from the bottom up, stopping at the first one already 1. */
  method HierarchicalRow(h: Tree, values: seq<real>, leaves: seq<string>, positive: set<string>)
    returns (row: array<real>)
    requires WellFormed(h)
    ensures fresh(row)
    ensures RowHolds(h, row[..], values, Raised(h, leaves, positive))
  {
    var width := |values| + |h.metas|;
    row := new real[width](_ => 0.0);
    for j := 0 to |values|
      invariant forall l :: 0 <= l < j ==> row[l] == values[l]
      invariant forall l :: |values| <= l < width ==> row[l] == 0.0
    {
      row[j] := values[j];
    }
    assert row[..|values|] == values;
    for i := 0 to |leaves|
      invariant RowHolds(h, row[..], values, Raised(h, leaves[..i], positive))
    {
      assert leaves[..i + 1][..i] == leaves[..i];
      ghost var on := Raised(h, leaves[..i], positive);
      RaisedUpClosed(h, leaves[..i], positive);
      if leaves[i] in positive {
        RaiseAncestors(h, row, values, on, leaves[i]);
      }
    }
    assert leaves[..|leaves|] == leaves;
  }

  lemma ParentFacts(h: Tree, x: string)
    requires WellFormed(h) && x in h.parent
    ensures h.parent[x] in h.metas && x in h.depth && h.parent[x] in h.depth
    ensures h.depth[h.parent[x]] < h.depth[x]
    ensures Ancestors(h, x) == {h.parent[x]} + Ancestors(h, h.parent[x])
  {
  }

  /** Walking up never returns to where it started. */
  lemma {:induction false} AncestorsShallower(h: Tree, x: string, m: string)
    requires WellFormed(h) && m in Ancestors(h, x)
    ensures x in h.depth && m in h.depth && h.depth[m] < h.depth[x]
    decreases if x in h.depth then h.depth[x] else 0
  {
    if m != h.parent[x] {
      AncestorsShallower(h, h.parent[x], m);
    }
  }

  lemma NotOwnAncestor(h: Tree, x: string)
    requires WellFormed(h)
    ensures x !in Ancestors(h, x)
  {
    if x in Ancestors(h, x) {
      AncestorsShallower(h, x, x);
    }
  }

  lemma SlotIsOne(h: Tree, row: seq<real>, values: seq<real>, on: set<string>, k: nat)
    requires k < |h.metas| && RowHolds(h, row, values, on)
    requires row[|values| + k] == 1.0
    ensures h.metas[k] in on
  {
  }

  lemma RaiseSlot(h: Tree, row: seq<real>, values: seq<real>, on: set<string>, k: nat)
    requires Distinct(h.metas) && k < |h.metas| && RowHolds(h, row, values, on)
    ensures RowHolds(h, row[|values| + k := 1.0], values, on + {h.metas[k]})
  {
    var r := row[|values| + k := 1.0];
    assert r[..|values|] == row[..|values|];
  }

  /** The upward walk of one positive leaf. */
  method RaiseAncestors(h: Tree, row: array<real>, values: seq<real>, ghost on: set<string>, leaf: string)
    requires WellFormed(h) && UpClosed(h, on)
    requires RowHolds(h, row[..], values, on)
    modifies row
    ensures RowHolds(h, row[..], values, on + Ancestors(h, leaf))
  {
    var current := leaf;
    ghost var done: set<string> := {};
    while current in h.parent
      invariant done + Ancestors(h, current) == Ancestors(h, leaf)
      invariant RowHolds(h, row[..], values, on + done)
      invariant done !! Ancestors(h, current)
      decreases if current in h.depth then h.depth[current] else 0
    {
      ParentFacts(h, current);
      NotOwnAncestor(h, h.parent[current]);
      current := h.parent[current];
      var k := IndexOf(h.metas, current);
      var slot := |values| + k;
      if row[slot] == 1.0 {
        SlotIsOne(h, row[..], values, on + done, k);
        AncestorsWithin(h, on, current);
        break;
      }
      RaiseSlot(h, row[..], values, on + done, k);
      row[slot] := 1.0;
      done := done + {current};
    }
  }

  // ---------------------------------------------------------------------
  // The builder

  /** An instance with weight; meta-label attributes inserted by
      `modifyInstance` hold no value yet. */
  datatype Value = Present(v: real) | Missing
  datatype Instance = Instance(weight: real, values: seq<real>)
  datatype WideInstance = WideInstance(weight: real, values: seq<Value>)

  class HierarchyBuilder {
    var numPartitions: int
    var numMetaLabels: nat
    var built: bool

    constructor(partitions: int)
      ensures numPartitions == partitions && numMetaLabels == 0 && !built
    {
      numPartitions := partitions;
      numMetaLabels := 0;
      built := false;
    }

    /** `buildHierarchy`: refuses fewer labels than partitions (or equally
        many), otherwise builds the tree and remembers how many meta-labels
        it added. */
    method BuildHierarchy(labels: seq<string>) returns (r: Result<seq<LabelNode>, string>)
      requires numPartitions >= 2
      modifies this
      ensures r.Err? <==> |labels| <= old(numPartitions)
      ensures r.Err? ==> built == old(built) && numMetaLabels == old(numMetaLabels)
      ensures r.Ok? ==>
        built && LeavesOf(r.value) == multiset(labels) && numMetaLabels == |NamesOf(r.value) - set l | l in labels|
      ensures r.Ok? ==> RootsGrown(labels, r.value, numPartitions)
      ensures numPartitions == old(numPartitions)
    {
      if |labels| <= numPartitions {
        return Err("Labels are less than the number of clusters you asked! (or equal)");
      }
      var meta := CreateLabelsMetaData(labels);
      var roots := meta.value;
      numMetaLabels := |NamesOf(roots) - set l | l in labels|;
      built := true;
      r := Ok(roots);
    }

    /** `createLabelsMetaData`: partitions the labels once at the root; a
        singleton becomes a root leaf, a larger partition a meta-label
        "MetaLabel <i+1>" whose subtree is built recursively. */
    method CreateLabelsMetaData(labels: seq<string>) returns (r: Result<seq<LabelNode>, string>)
      requires numPartitions >= 2
      ensures r.Err? <==> numPartitions > |labels|
      ensures r.Ok? ==> LeavesOf(r.value) == multiset(labels)
      ensures r.Ok? ==> RootsGrown(labels, r.value, numPartitions)
    {
      if numPartitions > |labels| {
        return Err("Number of labels is smaller than the number of partitions");
      }
      var parts := PartitionLabels(labels);
      var roots := AddPartitions(RootPrefix, parts, |labels|);
      assert Partitioned(parts, labels, numPartitions);
      r := Ok(roots);
    }

    /** One round of partitioning followed by the check that re-partitions
        when some partition is as large as the list it came from. The
        partitioning has emptied that list, so the check compares with 0,
        and re-partitioning the empty list would yield empty partitions;
        with at least as many labels as partitions no partition is empty,
        so the check never fires. */
    method PartitionLabels(labels: seq<string>) returns (parts: seq<seq<string>>)
      requires 2 <= numPartitions <= |labels|
      ensures |parts| == numPartitions && Union(parts) == multiset(labels) && Balanced(parts)
      ensures forall i :: 0 <= i < |parts| ==> 1 <= |parts[i]|
      ensures forall i :: 0 <= i < |parts| ==> |parts[i]| < |labels|
    {
      var p: nat := numPartitions;
      var list := new LabelList(labels);
      var children := RandomPartitioning(p, list);
      BalancedNonEmpty(children[..], |labels|);
      parts := children[..];
      for i := 0 to p
        invariant parts == children[..]
      {
        if |parts[i]| == |list.items| {
          parts := NoLabelsDealt(p);
          break;
        }
      }
      PartsSmaller(parts, |labels|);
    }

    /** What re-partitioning the emptied list returns: empty partitions. */
    function NoLabelsDealt(p: nat): seq<seq<string>>
    {
      seq(p, _ => [])
    }

    /** The loop over the partitions shared by both builders: empty
        partitions are skipped, singletons become leaves, and a larger
        partition i becomes an internal node `prefix + (i+1)` whose
        children are built recursively. */
    method AddPartitions(prefix: string, parts: seq<seq<string>>, ghost n: nat) returns (nodes: seq<LabelNode>)
      requires numPartitions >= 2
      requires forall i :: 0 <= i < |parts| ==> |parts[i]| < n
      ensures LeavesOf(nodes) == Union(parts)
      ensures Forest(prefix, parts, nodes, numPartitions, n)
      decreases n, 0
    {
      nodes := [];
      for i := 0 to |parts|
        invariant LeavesOf(nodes) == Union(parts[..i])
        invariant Forest(prefix, parts[..i], nodes, numPartitions, n)
      {
        UnionPrefix(parts, i);
        assert parts[..i + 1][..i] == parts[..i];
        if |parts[i]| == 0 {
          continue;
        }
        var node;
        if |parts[i]| == 1 {
          assert parts[i] == [parts[i][0]];
          node := Leaf(parts[i][0]);
        } else {
          var name := prefix + NatToString(i + 1);
          var sub := CreateLabelsMetaDataRecursive(name, parts[i]);
          node := LabelNode(name, sub);
        }
        LeavesOfAppend(nodes, node);
        assert (nodes + [node])[..|nodes|] == nodes;
        nodes := nodes + [node];
      }
      assert parts[..|parts|] == parts;
    }

    /** `createLabelsMetaDataRecursive`: a list of at most numPartitions
        labels becomes leaf children in list order; a longer one is
        partitioned, singletons become leaf children and larger partitions
        internal children "<parent>.<i+1>" built recursively. */
    method CreateLabelsMetaDataRecursive(name: string, labels: seq<string>) returns (children: seq<LabelNode>)
      requires numPartitions >= 2
      ensures LeavesOf(children) == multiset(labels)
      ensures |labels| <= numPartitions ==> children == LeafList(labels)
      ensures Grown(name, labels, children, numPartitions)
      decreases |labels|, 1
    {
      if |labels| <= numPartitions {
        children := [];
        for i := 0 to |labels|
          invariant children == LeafList(labels[..i])
        {
          children := children + [Leaf(labels[i])];
        }
        assert labels[..|labels|] == labels;
        LeafListLeaves(labels);
        return;
      }
      var parts := PartitionLabels(labels);
      children := AddPartitions(name + ".", parts, |labels|);
      assert Partitioned(parts, labels, numPartitions);
    }

    /** `modifyInstance`: before a build there is nothing to return; after
        it, the instance gets numMetaLabels extra attributes without values. */
    method ModifyInstance(ins: Instance) returns (r: Option<WideInstance>)
      ensures r.None? <==> !built
      ensures r.Some? ==> r.value.weight == ins.weight
      ensures r.Some? ==> |r.value.values| == |ins.values| + numMetaLabels
      ensures r.Some? ==> forall i :: 0 <= i < |ins.values| ==> r.value.values[i] == Present(ins.values[i])
      ensures r.Some? ==> forall i :: |ins.values| <= i < |r.value.values| ==> r.value.values[i] == Missing
    {
      if !built {
        return None;
      }
      var values := seq(|ins.values|, i requires 0 <= i < |ins.values| => Present(ins.values[i]));
      for i := 0 to numMetaLabels
        invariant |values| == |ins.values| + i
        invariant forall j :: 0 <= j < |ins.values| ==> values[j] == Present(ins.values[j])
        invariant forall j :: |ins.values| <= j < |values| ==> values[j] == Missing
      {
        values := values + [Missing];
      }
      r := Some(WideInstance(ins.weight, values));
    }

    /** `createHierarchicalDataset`: records the number of meta-labels and
        builds every row; `positive[i]` holds the leaf labels whose value
        is "1" in instance i. */
    method CreateHierarchicalDataset(h: Tree, data: seq<Instance>, leaves: seq<string>, positive: seq<set<string>>)
      returns (rows: seq<Instance>)
      requires WellFormed(h) && |positive| == |data|
      modifies this
      ensures numMetaLabels == |h.metas| && built == old(built) && numPartitions == old(numPartitions)
      ensures |rows| == |data|
      ensures forall i :: 0 <= i < |data| ==> rows[i].weight == data[i].weight
      ensures forall i :: 0 <= i < |data| ==> RowHolds(h, rows[i].values, data[i].values, Raised(h, leaves, positive[i]))
    {
      numMetaLabels := |h.metas|;
      rows := [];
      for i := 0 to |data|
        invariant numMetaLabels == |h.metas| && built == old(built) && numPartitions == old(numPartitions)
        invariant |rows| == i
        invariant forall l :: 0 <= l < i ==> rows[l].weight == data[l].weight
        invariant forall l :: 0 <= l < i ==> RowHolds(h, rows[l].values, data[l].values, Raised(h, leaves, positive[l]))
      {
        var row := HierarchicalRow(h, data[i].values, leaves, positive[i]);
        rows := rows + [Instance(data[i].weight, row[..])];
      }
    }
  }
}
