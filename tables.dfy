/** Small helpers over the tables the classifiers keep: zero-filled
    vectors and the rows of two-dimensional arrays. */
module Tables {

  /** A vector of n zeros, as a freshly allocated Java double[] holds. */
  function Zeros(n: nat): (r: seq<real>)
    ensures |r| == n && forall i :: 0 <= i < n ==> r[i] == 0.0
  {
    seq(n, _ => 0.0)
  }

  /** Row r of a matrix. */
  function Row<T>(a: array2<T>, r: nat): (s: seq<T>)
    reads a
    requires r < a.Length0
    ensures |s| == a.Length1 && forall j :: 0 <= j < a.Length1 ==> s[j] == a[r, j]
  {
    seq(a.Length1, j requires 0 <= j < a.Length1 reads a => a[r, j])
  }
}
