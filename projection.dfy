/**
 * Projecting a dataset onto a list of column indexes: `cols`, `columns` and
 * every row keep exactly the listed positions, in the listed order.
 */
module Projection {
  import opened SummaryTableTypes

  /** Every index in the list addresses one of `n` positions. */
  predicate InRange(idx: seq<nat>, n: nat)
  {
    forall k :: 0 <= k < |idx| ==> idx[k] < n
  }

  /** A dataset whose labels and rows are as wide as its column list. */
  predicate WellFormed<V>(d: DatasetData<V>)
  {
    && |d.columns| == |d.cols|
    && forall j :: 0 <= j < |d.rows| ==> |d.rows[j]| == |d.cols|
  }

  /** The entries of `s` at the listed indexes: `idx.map(i => s[i])`. */
  function Pick<T>(s: seq<T>, idx: seq<nat>): (r: seq<T>)
    requires InRange(idx, |s|)
    ensures |r| == |idx|
    ensures forall k :: 0 <= k < |idx| ==> r[k] == s[idx[k]]
  {
    if idx == [] then [] else [s[idx[0]]] + Pick(s, idx[1..])
  }

  /** Every row cut down to the listed indexes: `rows.map(row => idx.map(i => row[i]))`. */
  function PickRows<V>(rows: seq<seq<V>>, width: nat, idx: seq<nat>): (r: seq<seq<V>>)
    requires forall j :: 0 <= j < |rows| ==> |rows[j]| == width
    requires InRange(idx, width)
    ensures |r| == |rows|
    ensures forall j :: 0 <= j < |rows| ==> |r[j]| == |idx|
    ensures forall j, k :: 0 <= j < |rows| && 0 <= k < |idx| ==> r[j][k] == rows[j][idx[k]]
  {
    if rows == [] then [] else [Pick(rows[0], idx)] + PickRows(rows[1..], width, idx)
  }

  /** The dataset restricted to the listed columns, in the listed order. */
  function Project<V>(d: DatasetData<V>, idx: seq<nat>): (r: DatasetData<V>)
    requires WellFormed(d)
    requires InRange(idx, |d.cols|)
    ensures WellFormed(r)
    ensures |r.cols| == |idx| && |r.rows| == |d.rows|
    ensures forall k :: 0 <= k < |idx| ==> r.cols[k] == d.cols[idx[k]] && r.columns[k] == d.columns[idx[k]]
    ensures forall j, k :: 0 <= j < |d.rows| && 0 <= k < |idx| ==> r.rows[j][k] == d.rows[j][idx[k]]
  {
    DatasetData(Pick(d.cols, idx), Pick(d.columns, idx), PickRows(d.rows, |d.cols|, idx))
  }

  /** The indexes `0, 1, ..., n - 1`. */
  function Range(n: nat): (r: seq<nat>)
    ensures |r| == n
    ensures forall k :: 0 <= k < n ==> r[k] == k
  {
    if n == 0 then [] else Range(n - 1) + [n - 1]
  }

  /** Projecting onto every column in dataset order gives the dataset back. */
  lemma ProjectOntoAllColumns<V>(d: DatasetData<V>)
    requires WellFormed(d)
    ensures Project(d, Range(|d.cols|)) == d
  {
    var all := Range(|d.cols|);
    var r := Project(d, all);
    assert r.cols == d.cols;
    assert r.columns == d.columns;
    forall j | 0 <= j < |d.rows| ensures r.rows[j] == d.rows[j] {
      forall k | 0 <= k < |d.cols| ensures r.rows[j][k] == d.rows[j][k] {
        assert all[k] == k;
      }
    }
  }

  /** Projecting twice is projecting once onto the composed index list. */
  lemma ProjectCompose<V>(d: DatasetData<V>, a: seq<nat>, b: seq<nat>)
    requires WellFormed(d)
    requires InRange(a, |d.cols|) && InRange(b, |a|)
    ensures InRange(Pick(a, b), |d.cols|)
    ensures Project(Project(d, a), b) == Project(d, Pick(a, b))
  {
    var ab := Pick(a, b);
    var twice := Project(Project(d, a), b);
    var once := Project(d, ab);
    assert twice.cols == once.cols;
    assert twice.columns == once.columns;
    forall j | 0 <= j < |d.rows| ensures twice.rows[j] == once.rows[j] {
      forall k | 0 <= k < |b| ensures twice.rows[j][k] == once.rows[j][k] {
        var mid := Project(d, a);
        assert twice.rows[j][k] == mid.rows[j][b[k]];
        assert mid.rows[j][b[k]] == d.rows[j][a[b[k]]];
        assert ab[k] == a[b[k]];
      }
    }
  }
}
