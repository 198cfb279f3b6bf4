/**
 * Resolving the configured column names against a dataset's columns: each
 * name is looked up by exact match (first hit wins), then every lookup that
 * found nothing is dropped. The configured order and any repeated names are
 * kept.
 */
module ColumnResolution {
  import opened SummaryTableTypes

  /** Some column of the dataset carries exactly this name. */
  predicate HasColumn(cols: seq<Column>, name: ColumnName)
  {
    exists j | 0 <= j < |cols| :: cols[j].name == name
  }

  /** Index of the first column named `name`, or -1 when there is none. */
  function FindIndex(cols: seq<Column>, name: ColumnName): (i: int)
    ensures -1 <= i < |cols|
    ensures 0 <= i ==> cols[i].name == name && forall j :: 0 <= j < i ==> cols[j].name != name
    ensures i == -1 <==> !HasColumn(cols, name)
  {
    if cols == [] then -1
    else if cols[0].name == name then 0
    else
      var j := FindIndex(cols[1..], name);
      assert HasColumn(cols, name) <==> HasColumn(cols[1..], name) by {
        if HasColumn(cols, name) {
          var k :| 0 <= k < |cols| && cols[k].name == name;
          assert cols[1..][k - 1] == cols[k];
        }
      }
      if j < 0 then -1 else j + 1
  }

  /** The lookup of every configured name, in configured order. */
  function LookupAll(cols: seq<Column>, names: seq<ColumnName>): (r: seq<int>)
    ensures |r| == |names|
    ensures forall k :: 0 <= k < |names| ==> r[k] == FindIndex(cols, names[k])
  {
    if names == [] then [] else [FindIndex(cols, names[0])] + LookupAll(cols, names[1..])
  }

  /** The lookups that landed inside the column list, in their original order. */
  function KeepInRange(xs: seq<int>, n: nat): (r: seq<nat>)
    ensures |r| <= |xs|
    ensures forall k :: 0 <= k < |r| ==> r[k] < n
    ensures forall x: int :: x in r <==> x in xs && 0 <= x < n
  {
    if xs == [] then []
    else (if 0 <= xs[0] < n then [xs[0] as nat] else []) + KeepInRange(xs[1..], n)
  }

  /** The column indexes the settings resolve to. */
  function ResolveIndexes(cols: seq<Column>, names: seq<ColumnName>): (r: seq<nat>)
    ensures |r| <= |names|
    ensures forall k :: 0 <= k < |r| ==> r[k] < |cols|
  {
    KeepInRange(LookupAll(cols, names), |cols|)
  }

  /** The configured names that the dataset still has, in configured order, repeats kept. */
  function PresentNames(cols: seq<Column>, names: seq<ColumnName>): (p: seq<ColumnName>)
    ensures |p| <= |names|
    ensures forall k :: 0 <= k < |p| ==> HasColumn(cols, p[k])
    ensures forall n :: n in p <==> n in names && HasColumn(cols, n)
  {
    if names == [] then []
    else (if HasColumn(cols, names[0]) then [names[0]] else []) + PresentNames(cols, names[1..])
  }

  /** Resolving a list is resolving its first name, then the rest. */
  lemma ResolveCons(cols: seq<Column>, n: ColumnName, rest: seq<ColumnName>)
    ensures ResolveIndexes(cols, [n] + rest) ==
      (if HasColumn(cols, n) then [FindIndex(cols, n) as nat] else []) + ResolveIndexes(cols, rest)
  {
    var names := [n] + rest;
    assert names[0] == n && names[1..] == rest;
    assert LookupAll(cols, names) == [FindIndex(cols, n)] + LookupAll(cols, rest);
    var xs := LookupAll(cols, names);
    assert xs[0] == FindIndex(cols, n) && xs[1..] == LookupAll(cols, rest);
  }

  /** Resolution distributes over concatenation of name lists. */
  lemma {:induction false} ResolveConcat(cols: seq<Column>, a: seq<ColumnName>, b: seq<ColumnName>)
    ensures ResolveIndexes(cols, a + b) == ResolveIndexes(cols, a) + ResolveIndexes(cols, b)
  {
    if a == [] {
      assert a + b == b;
    } else {
      assert a == [a[0]] + a[1..];
      assert a + b == [a[0]] + (a[1..] + b);
      ResolveCons(cols, a[0], a[1..] + b);
      ResolveCons(cols, a[0], a[1..]);
      ResolveConcat(cols, a[1..], b);
    }
  }

  /**
   * The resolved indexes are exactly the first-match indexes of the names the
   * dataset still has, in configured order: absent names are dropped,
   * repeated names are kept, and dataset order plays no part.
   */
  lemma {:induction false} ResolvesPresentNamesInOrder(cols: seq<Column>, names: seq<ColumnName>)
    ensures ResolveIndexes(cols, names) == LookupAll(cols, PresentNames(cols, names))
  {
    if names != [] {
      assert names == [names[0]] + names[1..];
      ResolveCons(cols, names[0], names[1..]);
      ResolvesPresentNamesInOrder(cols, names[1..]);
      var rest := PresentNames(cols, names[1..]);
      if HasColumn(cols, names[0]) {
        assert PresentNames(cols, names) == [names[0]] + rest;
        var p := [names[0]] + rest;
        assert p[0] == names[0] && p[1..] == rest;
      } else {
        assert PresentNames(cols, names) == rest;
      }
    }
  }

  /** A name the dataset lacks, wherever it sits in the list, changes nothing. */
  lemma AbsentNameIsIgnored(cols: seq<Column>, a: seq<ColumnName>, x: ColumnName, b: seq<ColumnName>)
    requires !HasColumn(cols, x)
    ensures ResolveIndexes(cols, a + [x] + b) == ResolveIndexes(cols, a + b)
  {
    var xb := [x] + b;
    assert a + [x] + b == a + xb;
    ResolveCons(cols, x, b);
    assert ResolveIndexes(cols, xb) == ResolveIndexes(cols, b);
    ResolveConcat(cols, a, xb);
    ResolveConcat(cols, a, b);
  }

  /** A name the dataset has always adds one more index, even if it was already listed. */
  lemma PresentNameAlwaysAddsAColumn(cols: seq<Column>, names: seq<ColumnName>, x: ColumnName)
    requires HasColumn(cols, x)
    ensures FindIndex(cols, x) >= 0
    ensures ResolveIndexes(cols, names + [x]) == ResolveIndexes(cols, names) + [FindIndex(cols, x) as nat]
  {
    ResolveConcat(cols, names, [x]);
    ResolveCons(cols, x, []);
    assert [x] + [] == [x];
  }

  /** No name is lost exactly when every configured name exists in the dataset. */
  lemma {:induction false} ResolvesEveryNameIffAllPresent(cols: seq<Column>, names: seq<ColumnName>)
    ensures |ResolveIndexes(cols, names)| == |names| <==> forall n :: n in names ==> HasColumn(cols, n)
  {
    ResolvesPresentNamesInOrder(cols, names);
    PresentNamesComplete(cols, names);
  }

  lemma {:induction false} PresentNamesComplete(cols: seq<Column>, names: seq<ColumnName>)
    ensures |PresentNames(cols, names)| == |names| <==> forall n :: n in names ==> HasColumn(cols, n)
  {
    if names != [] {
      PresentNamesComplete(cols, names[1..]);
      assert forall n :: n in names <==> n == names[0] || n in names[1..];
    }
  }
}
