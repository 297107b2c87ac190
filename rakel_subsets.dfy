/** The combinatorial side of RAKEL: the binomial coefficient that bounds the
    ensemble size, the space of canonical label subsets (sorted keys) that the
    subset sampler draws from, and the two index lists derived from a drawn
    subset (the sorted subset itself and the label columns to remove). */
module RakelSubsets {

  import opened Wrappers

  /** C(n, m) by Pascal's rule; 0 when m > n. */
  function Choose(n: nat, m: nat): nat
  {
    if m == 0 then 1
    else if n == 0 then 0
    else Choose(n - 1, m - 1) + Choose(n - 1, m)
  }

  lemma {:induction false} ChooseAboveDiagonal(n: nat, m: nat)
    requires m > n
    ensures Choose(n, m) == 0
  {
    if n > 0 {
      ChooseAboveDiagonal(n - 1, m - 1);
      ChooseAboveDiagonal(n - 1, m);
    }
  }

  lemma {:induction false} ChooseDiagonal(n: nat)
    ensures Choose(n, n) == 1
  {
    if n > 0 {
      ChooseDiagonal(n - 1);
      ChooseAboveDiagonal(n - 1, n);
    }
  }

  const TwoTo31: int := 0x8000_0000
  const TwoTo32: int := 0x1_0000_0000

  /** The value a Java `int` holds after an arithmetic result x: two's
      complement wrap-around into [-2^31, 2^31). */
  function Wrap32(x: int): (r: int)
    ensures -TwoTo31 <= r < TwoTo31
    ensures (x - r) % TwoTo32 == 0
    ensures -TwoTo31 <= x < TwoTo31 ==> r == x
  {
    (x + TwoTo31) % TwoTo32 - TwoTo31
  }

  lemma ModShift(a: int, q: int)
    ensures (a + q * TwoTo32) % TwoTo32 == a % TwoTo32
  {
  }

  lemma WrapCongruent(x: int, y: int)
    requires (x - y) % TwoTo32 == 0
    ensures Wrap32(x) == Wrap32(y)
  {
    var q := (x - y) / TwoTo32;
    assert x + TwoTo31 == (y + TwoTo31) + q * TwoTo32;
    ModShift(y + TwoTo31, q);
  }

  /** Adding wrapped operands and wrapping again gives the wrapped exact sum:
      so a chain of Java `int` additions computes the exact sum modulo 2^32. */
  lemma WrapAdd(a: int, b: int)
    ensures Wrap32(Wrap32(a) + Wrap32(b)) == Wrap32(a + b)
  {
    var wa, wb := Wrap32(a), Wrap32(b);
    var qa, qb := (a - wa) / TwoTo32, (b - wb) / TwoTo32;
    assert a == wa + qa * TwoTo32;
    assert b == wb + qb * TwoTo32;
    assert (a + b) - (wa + wb) == (qa + qb) * TwoTo32;
    WrapCongruent(a + b, wa + wb);
  }

  /** Java's `binomial(n, m)`: builds row n of Pascal's triangle in place in
      an `int` array and returns entry m. `None` stands for the
      ArrayIndexOutOfBoundsException that `b[m]` raises when m is outside
      [0, n]. Every addition wraps as a Java `int` does, so the result is
      C(n, m) reduced into the `int` range, and exact when C(n, m) fits. */
  method Binomial(n: nat, m: int) returns (r: Option<int>)
    ensures r.Some? <==> 0 <= m <= n
    ensures r.Some? ==> r.value == Wrap32(Choose(n, m))
    ensures r.Some? && Choose(n, m) < TwoTo31 ==> r.value == Choose(n, m)
  {
    var b := new int[n + 1];
    b[0] := 1;
    for i := 1 to n + 1
      invariant forall j :: 0 <= j < i ==> b[j] == Wrap32(Choose(i - 1, j))
    {
      NextRow(b, i);
    }
    if 0 <= m <= n {
      r := Some(b[m]);
    } else {
      r := None;
    }
  }

  /** Pascal's rule on wrapped entries. */
  lemma PascalEntry(x: int, y: int, i: nat, j: nat)
    requires 0 < j < i
    requires x == Wrap32(Choose(i - 1, j)) && y == Wrap32(Choose(i - 1, j - 1))
    ensures Wrap32(x + y) == Wrap32(Choose(i, j))
  {
    WrapAdd(Choose(i - 1, j), Choose(i - 1, j - 1));
  }

  /** One pass of the outer loop of `binomial`: turns row i - 1 of Pascal's
      triangle, held in b[0..i), into row i, held in b[0..i], updating from
      the right so that each entry still reads its unchanged left neighbour. */
  method NextRow(b: array<int>, i: nat)
    requires 1 <= i < b.Length
    requires forall j :: 0 <= j < i ==> b[j] == Wrap32(Choose(i - 1, j))
    modifies b
    ensures forall j :: 0 <= j <= i ==> b[j] == Wrap32(Choose(i, j))
  {
    b[i] := 1;
    ChooseDiagonal(i);
    var j := i - 1;
    while j > 0
      invariant 0 <= j <= i - 1
      invariant b[i] == Wrap32(Choose(i, i))
      invariant forall l :: 0 <= l <= j ==> b[l] == Wrap32(Choose(i - 1, l))
      invariant forall l :: j < l < i ==> b[l] == Wrap32(Choose(i, l))
    {
      PascalEntry(b[j], b[j - 1], i, j);
      b[j] := Wrap32(b[j] + b[j - 1]);
      j := j - 1;
    }
  }

  // ---------------------------------------------------------------------
  // Canonical subset keys

  predicate StrictlyIncreasing(s: seq<int>)
  {
    forall i, j :: 0 <= i < j < |s| ==> s[i] < s[j]
  }

  predicate InRange(s: seq<int>, n: int)
  {
    forall i :: 0 <= i < |s| ==> 0 <= s[i] < n
  }

  /** A canonical key of a size-k label subset of [0, n): the subset's
      labels sorted ascending (so distinct). */
  predicate IsKey(key: seq<int>, n: nat, k: nat)
  {
    |key| == k && InRange(key, n) && StrictlyIncreasing(key)
  }

  /** IsKey stated recursively: the last label is below n and the rest is a
      key below that last label. */
  predicate Canonical(key: seq<int>, n: int, k: nat)
    decreases k
  {
    |key| == k && (k == 0 || (0 <= key[k - 1] < n && Canonical(key[..k - 1], key[k - 1], k - 1)))
  }

  lemma {:induction false} CanonicalIsKey(key: seq<int>, n: nat, k: nat)
    ensures Canonical(key, n, k) <==> IsKey(key, n, k)
    decreases k
  {
    if k > 0 && |key| == k {
      var last, front := key[k - 1], key[..k - 1];
      if last >= 0 {
        CanonicalIsKey(front, last, k - 1);
      }
      if IsKey(key, n, k) {
        forall i | 0 <= i < k - 1 ensures 0 <= front[i] < last {
          assert key[i] < key[k - 1];
        }
      }
      if Canonical(key, n, k) {
        forall i, j | 0 <= i < j < k ensures key[i] < key[j] {
          if j < k - 1 {
            assert front[i] < front[j];
          } else {
            assert front[i] < last;
          }
        }
      }
    }
  }

  /** The i-th size-k key over [0, n) in Pascal's order: the C(n - 1, k) keys
      without label n - 1 first, then those ending with it. */
  function Unrank(i: nat, n: nat, k: nat): seq<int>
    requires i < Choose(n, k)
  {
    if k == 0 then []
    else if i < Choose(n - 1, k) then Unrank(i, n - 1, k)
    else Unrank(i - Choose(n - 1, k), n - 1, k - 1) + [n - 1]
  }

  /** The position of a key in Pascal's order. */
  function Rank(key: seq<int>, n: nat, k: nat): int
    requires |key| == k
  {
    if k == 0 || n == 0 then 0
    else if key[k - 1] < n - 1 then Rank(key, n - 1, k)
    else Choose(n - 1, k) + Rank(key[..k - 1], n - 1, k - 1)
  }

  lemma LoosenBound(key: seq<int>, m: int, n: int, k: nat)
    requires m <= n && Canonical(key, m, k)
    ensures Canonical(key, n, k)
  {
  }

  lemma AppendCanonical(key: seq<int>, n: nat, k: nat)
    requires n > 0 && k > 0 && Canonical(key, n - 1, k - 1)
    ensures Canonical(key + [n - 1], n, k)
  {
    assert (key + [n - 1])[..k - 1] == key;
  }

  /** Every position holds a key. */
  lemma {:induction false} UnrankIsKey(i: nat, n: nat, k: nat)
    requires i < Choose(n, k)
    ensures Canonical(Unrank(i, n, k), n, k)
  {
    if k > 0 {
      if i < Choose(n - 1, k) {
        UnrankIsKey(i, n - 1, k);
        LoosenBound(Unrank(i, n, k), n - 1, n, k);
      } else {
        UnrankIsKey(i - Choose(n - 1, k), n - 1, k - 1);
        AppendCanonical(Unrank(i - Choose(n - 1, k), n - 1, k - 1), n, k);
      }
    }
  }

  /** Rank undoes Unrank, so no two positions hold the same key. */
  lemma {:induction false} RankUnrank(i: nat, n: nat, k: nat)
    requires i < Choose(n, k)
    ensures |Unrank(i, n, k)| == k && Rank(Unrank(i, n, k), n, k) == i
  {
    UnrankIsKey(i, n, k);
    if k > 0 {
      var key := Unrank(i, n, k);
      if i < Choose(n - 1, k) {
        RankUnrank(i, n - 1, k);
        UnrankIsKey(i, n - 1, k);
      } else {
        var j := i - Choose(n - 1, k);
        RankUnrank(j, n - 1, k - 1);
        assert key[..k - 1] == Unrank(j, n - 1, k - 1);
      }
    }
  }

  /** Unrank undoes Rank, so every key has a position. */
  lemma {:induction false} UnrankRank(key: seq<int>, n: nat, k: nat)
    requires Canonical(key, n, k)
    ensures 0 <= Rank(key, n, k) < Choose(n, k) && Unrank(Rank(key, n, k), n, k) == key
  {
    if k > 0 {
      if key[k - 1] < n - 1 {
        UnrankRank(key, n - 1, k);
      } else {
        UnrankRank(key[..k - 1], n - 1, k - 1);
        assert key == key[..k - 1] + [n - 1];
      }
    }
  }

  /** Every canonical key of a size-k subset of [0, n), in Pascal's order. */
  function KeyList(n: nat, k: nat): (r: seq<seq<int>>)
    ensures |r| == Choose(n, k)
  {
    seq(Choose(n, k), i requires 0 <= i < Choose(n, k) => Unrank(i, n, k))
  }

  /** The list holds exactly the canonical keys. */
  lemma KeyListMembership(n: nat, k: nat, key: seq<int>)
    ensures key in KeyList(n, k) <==> IsKey(key, n, k)
  {
    var s := KeyList(n, k);
    CanonicalIsKey(key, n, k);
    if key in s {
      var i :| 0 <= i < |s| && s[i] == key;
      UnrankIsKey(i, n, k);
    }
    if Canonical(key, n, k) {
      UnrankRank(key, n, k);
      assert s[Rank(key, n, k)] == key;
    }
  }

  predicate DistinctKeys(s: seq<seq<int>>)
  {
    forall i, j :: 0 <= i < j < |s| ==> s[i] != s[j]
  }

  /** No key is listed twice. */
  lemma KeyListDistinct(n: nat, k: nat)
    ensures DistinctKeys(KeyList(n, k))
  {
    var s := KeyList(n, k);
    forall i, j | 0 <= i < j < |s| ensures s[i] != s[j] {
      RankUnrank(i, n, k);
      RankUnrank(j, n, k);
    }
  }

  /** A list of distinct entries longer than a set has an entry outside it. */
  lemma {:induction false} FindMissing(s: seq<seq<int>>, used: set<seq<int>>)
    requires DistinctKeys(s) && |used| < |s|
    ensures exists i :: 0 <= i < |s| && s[i] !in used
  {
    var x := s[|s| - 1];
    if x in used {
      var s' := s[..|s| - 1];
      assert DistinctKeys(s');
      FindMissing(s', used - {x});
      var i :| 0 <= i < |s'| && s'[i] !in used - {x};
      assert s[i] == s'[i] && s[i] != x;
    } else {
      assert s[|s| - 1] !in used;
    }
  }

  /** A set whose members all appear in a list is no larger than the list. */
  lemma {:induction false} CoveredSize(used: set<seq<int>>, s: seq<seq<int>>)
    requires forall u :: u in used ==> u in s
    ensures |used| <= |s|
  {
    if s == [] {
      assert forall u :: u !in used;
    } else {
      var x := s[|s| - 1];
      var s' := s[..|s| - 1];
      assert s == s' + [x];
      forall u | u in used - {x} ensures u in s' {
        assert u in s;
      }
      CoveredSize(used - {x}, s');
    }
  }

  /** While fewer than C(n, k) keys have been used, a size-k subset with an
      unused key exists: the sampler's retry loop can succeed. */
  lemma FreshKeyExists(used: set<seq<int>>, n: nat, k: nat)
    requires |used| < Choose(n, k)
    ensures exists key :: key in KeyList(n, k) && key !in used
    ensures exists key :: IsKey(key, n, k) && key !in used
  {
    var s := KeyList(n, k);
    KeyListDistinct(n, k);
    FindMissing(s, used);
    var i :| 0 <= i < |s| && s[i] !in used;
    KeyListMembership(n, k, s[i]);
  }

  /** Once C(n, k) distinct size-k keys are used, every size-k subset is taken:
      the sampler's retry loop can never end (the capacity is exhausted). */
  lemma Exhausted(used: set<seq<int>>, n: nat, k: nat)
    requires forall key :: key in used ==> IsKey(key, n, k)
    requires |used| == Choose(n, k)
    ensures forall key :: IsKey(key, n, k) ==> key in used
  {
    var s := KeyList(n, k);
    forall key | IsKey(key, n, k) ensures key in used {
      forall u | u in used + {key} ensures u in s {
        KeyListMembership(n, k, u);
      }
      CoveredSize(used + {key}, s);
    }
  }

  // ---------------------------------------------------------------------
  // Index lists derived from the `selected` mask

  /** The `selected` mask of a key: label j is selected iff it is in the key. */
  function Mask(key: seq<int>, n: nat): (m: seq<bool>)
    ensures |m| == n && forall j :: 0 <= j < n ==> (m[j] <==> j in key)
  {
    seq(n, j => j in key)
  }

  /** Indices j (ascending) whose mask entry equals `b`. */
  function IndicesWhere(mask: seq<bool>, b: bool): seq<int>
  {
    if mask == [] then []
    else IndicesWhere(mask[..|mask| - 1], b) + (if mask[|mask| - 1] == b then [|mask| - 1] else [])
  }

  lemma {:induction false} IndicesWhereShape(mask: seq<bool>, b: bool)
    ensures InRange(IndicesWhere(mask, b), |mask|)
    ensures StrictlyIncreasing(IndicesWhere(mask, b))
    ensures forall j :: 0 <= j < |mask| ==> (j in IndicesWhere(mask, b) <==> mask[j] == b)
  {
    if mask != [] {
      IndicesWhereShape(mask[..|mask| - 1], b);
    }
  }

  lemma {:induction false} IndicesWhereSplit(mask: seq<bool>)
    ensures |IndicesWhere(mask, true)| + |IndicesWhere(mask, false)| == |mask|
  {
    if mask != [] {
      IndicesWhereSplit(mask[..|mask| - 1]);
    }
  }

  /** Reading the mask of a sorted subset back in ascending order gives the
      subset itself: what `Arrays.sort` leaves in `classIndicesPerSubset`. */
  lemma {:induction false} MaskRoundTrip(key: seq<int>, n: nat)
    requires InRange(key, n) && StrictlyIncreasing(key)
    ensures IndicesWhere(Mask(key, n), true) == key
  {
    if key == [] {
      EmptyMaskRoundTrip(n);
    } else {
      assert 0 <= key[0] < n;
      MaskStep(key, n);
      if n - 1 in key {
        var key' := key[..|key| - 1];
        DropTop(key, n);
        MaskRoundTrip(key', n - 1);
        assert key == key' + [n - 1];
      } else {
        BelowTop(key, n);
        MaskRoundTrip(key, n - 1);
      }
    }
  }

  lemma BelowTop(key: seq<int>, n: nat)
    requires InRange(key, n) && n - 1 !in key
    ensures InRange(key, n - 1)
  {
    forall i | 0 <= i < |key| ensures key[i] < n - 1 {
      assert key[i] != n - 1;
    }
  }

  /** The mask over n labels is the mask over n - 1 labels and one more entry. */
  lemma MaskStep(key: seq<int>, n: nat)
    requires n > 0
    ensures IndicesWhere(Mask(key, n), true)
            == IndicesWhere(Mask(key, n - 1), true) + (if n - 1 in key then [n - 1] else [])
  {
    assert Mask(key, n)[..n - 1] == Mask(key, n - 1);
  }

  /** A sorted subset of 0..n-1 holding n - 1 ends with it, and the rest is a
      sorted subset of 0..n-2 with the same mask there. */
  lemma DropTop(key: seq<int>, n: nat)
    requires InRange(key, n) && StrictlyIncreasing(key) && n - 1 in key
    ensures |key| > 0 && key[|key| - 1] == n - 1
    ensures InRange(key[..|key| - 1], n - 1) && StrictlyIncreasing(key[..|key| - 1])
    ensures Mask(key, n - 1) == Mask(key[..|key| - 1], n - 1)
  {
    var k := |key|;
    var key' := key[..k - 1];
    assert key[k - 1] == n - 1 by {
      var p :| 0 <= p < k && key[p] == n - 1;
      assert key[p] <= key[k - 1];
    }
    forall i | 0 <= i < |key'| ensures key'[i] < n - 1 {
      assert key[i] < key[k - 1];
    }
    forall j | 0 <= j < n - 1 ensures (j in key <==> j in key') {
      if j in key {
        var p :| 0 <= p < k && key[p] == j;
        assert key'[p] == j;
      }
    }
  }

  lemma {:induction false} EmptyMaskRoundTrip(n: nat)
    ensures IndicesWhere(Mask([], n), true) == []
  {
    if n > 0 {
      assert Mask([], n)[..n - 1] == Mask([], n - 1);
      EmptyMaskRoundTrip(n - 1);
    }
  }

  /** Reading the mask one more position extends the index list by that
      position when it matches. */
  lemma IndicesWhereGrow(mask: seq<bool>, j: nat, b: bool)
    requires j < |mask|
    ensures IndicesWhere(mask[..j + 1], b) == IndicesWhere(mask[..j], b) + (if mask[j] == b then [j] else [])
  {
    assert mask[..j + 1][..j] == mask[..j];
  }

  lemma {:induction false} IndicesWherePrefixLength(mask: seq<bool>, j: nat, b: bool)
    requires j <= |mask|
    ensures |IndicesWhere(mask[..j], b)| <= |IndicesWhere(mask, b)|
    decreases |mask| - j
  {
    if j < |mask| {
      IndicesWherePrefixLength(mask, j + 1, b);
      IndicesWhereGrow(mask, j, b);
    } else {
      assert mask[..j] == mask;
    }
  }

  /** `absoluteIndicesToRemove[model]`: the attribute index numPredictors + j
      of every unselected label j, in increasing j. */
  function RemovedAttributes(mask: seq<bool>, numPredictors: int): seq<int>
  {
    var unselected := IndicesWhere(mask, false);
    seq(|unselected|, i requires 0 <= i < |unselected| => numPredictors + unselected[i])
  }

  lemma RemovedAttributesGrow(mask: seq<bool>, j: nat, numPredictors: int)
    requires j < |mask|
    ensures RemovedAttributes(mask[..j + 1], numPredictors)
            == RemovedAttributes(mask[..j], numPredictors) + (if mask[j] then [] else [numPredictors + j])
  {
    IndicesWhereGrow(mask, j, false);
  }

  /** Every entry of an index list shows up, shifted, in its shifted copy. */
  lemma ShiftedMembers(u: seq<int>, numPredictors: int)
    ensures forall j :: j in u ==> numPredictors + j in seq(|u|, i requires 0 <= i < |u| => numPredictors + u[i])
  {
    var r := seq(|u|, i requires 0 <= i < |u| => numPredictors + u[i]);
    forall j | j in u ensures numPredictors + j in r {
      var p :| 0 <= p < |u| && u[p] == j;
      assert r[p] == numPredictors + j;
    }
  }

  /** The unselected labels of a drawn key: n - k of them, ascending, and
      exactly the labels outside the key. */
  lemma UnselectedOfKey(key: seq<int>, n: nat, k: nat)
    requires IsKey(key, n, k)
    ensures var u := IndicesWhere(Mask(key, n), false);
      && |u| == n - k && InRange(u, n) && StrictlyIncreasing(u)
      && (forall j :: 0 <= j < n ==> (j in u <==> j !in key))
  {
    var m := Mask(key, n);
    MaskRoundTrip(key, n);
    IndicesWhereSplit(m);
    IndicesWhereShape(m, false);
  }

  /** What the removal list holds for a drawn key: n - k entries, strictly
      increasing, each the column of a label not in the key, and every such
      label's column present. */
  lemma RemovedAttributesOfKey(key: seq<int>, n: nat, k: nat, numPredictors: int)
    requires IsKey(key, n, k)
    ensures var r := RemovedAttributes(Mask(key, n), numPredictors);
      && |r| == n - k
      && StrictlyIncreasing(r)
      && (forall i :: 0 <= i < |r| ==> 0 <= r[i] - numPredictors < n && r[i] - numPredictors !in key)
      && (forall j :: 0 <= j < n && j !in key ==> numPredictors + j in r)
  {
    UnselectedOfKey(key, n, k);
    ShiftedMembers(IndicesWhere(Mask(key, n), false), numPredictors);
  }
}
