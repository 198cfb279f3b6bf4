/**
 * The vocabulary of the summary table: sets of column names that identify a
 * grouping or an aggregation, the key made of both, the user's column-role
 * settings, the plan of keys to fetch, and the provider that answers a key
 * with a dataset.
 */
module SummaryTableTypes {

  type ColumnName = string

  /** The row-hierarchy columns of one slice: an (immutable) set of names. */
  type Groups = set<ColumnName>

  /** The value columns of one slice: an (immutable) set of names. */
  type Aggregations = set<ColumnName>

  /** One slice of the pivot: which columns are grouped, which are aggregated. */
  datatype AggregationKey = AggregationKey(groups: Groups, aggregations: Aggregations)

  /**
   * The user's column-role configuration: four ordered name lists and the
   * per-column metadata (whose shape is defined elsewhere, hence `M`).
   */
  datatype SummaryTableSettings<M> = SummaryTableSettings(
    groupsSources: seq<ColumnName>,
    columnsSource: seq<ColumnName>,
    valuesSources: seq<ColumnName>,
    unusedColumns: seq<ColumnName>,
    columnNameToMetadata: map<ColumnName, M>)

  /** A dataset column: its name (how settings refer to it) and display data. */
  datatype Column = Column(name: ColumnName, displayName: string)

  /** A query result: column descriptors, column labels and rows of cells. */
  datatype DatasetData<V> = DatasetData(cols: seq<Column>, columns: seq<string>, rows: seq<seq<V>>)

  /** Answers an aggregation key with the dataset computed for it. */
  type ResultProvider<V> = AggregationKey -> DatasetData<V>

  /** Grouping levels, each a list of group sets, sharing one aggregation set. */
  datatype QueryPlan = QueryPlan(groupings: seq<seq<Groups>>, aggregations: Aggregations)

  /** Builds the set of a list of names, as `Set(list)` does. */
  function NameSet(names: seq<ColumnName>): (s: set<ColumnName>)
    ensures forall n :: n in s <==> n in names
  {
    if names == [] then {} else {names[0]} + NameSet(names[1..])
  }

  predicate Distinct(names: seq<ColumnName>)
  {
    forall i, j :: 0 <= i < j < |names| ==> names[i] != names[j]
  }

  /** A list without repeats is one whose head is not in its tail, which has no repeats. */
  lemma DistinctCons(names: seq<ColumnName>)
    requires names != []
    ensures Distinct(names) <==> names[0] !in names[1..] && Distinct(names[1..])
  {
    var rest := names[1..];
    if names[0] in rest {
      var j :| 0 <= j < |rest| && rest[j] == names[0];
      assert names[0] == names[j + 1];
    } else if !Distinct(rest) {
      var i, j :| 0 <= i < j < |rest| && rest[i] == rest[j];
      assert names[i + 1] == names[j + 1];
    } else {
      forall i, j | 0 <= i < j < |names| ensures names[i] != names[j] {
        assert names[j] == rest[j - 1];
        if i > 0 {
          assert names[i] == rest[i - 1];
        }
      }
    }
  }

  /** A set keeps each name once: it is as large as its list exactly when the list has no repeats. */
  lemma {:induction false} NameSetCardinality(names: seq<ColumnName>)
    ensures |NameSet(names)| <= |names|
    ensures |NameSet(names)| == |names| <==> Distinct(names)
  {
    if names != [] {
      var rest := names[1..];
      NameSetCardinality(rest);
      DistinctCons(names);
      if names[0] in rest {
        assert NameSet(names) == NameSet(rest);
      } else {
        assert |NameSet(names)| == |NameSet(rest)| + 1;
      }
    }
  }

  /** Listing the same names in another order gives the same set. */
  lemma NameSetOrderInsensitive(a: seq<ColumnName>, b: seq<ColumnName>)
    requires multiset(a) == multiset(b)
    ensures NameSet(a) == NameSet(b)
  {
    forall n ensures n in NameSet(a) <==> n in NameSet(b) {
      assert n in a <==> n in multiset(a);
      assert n in b <==> n in multiset(b);
    }
  }

  /** The key for a grouping list and a value-column list. */
  function KeyOf(groups: seq<ColumnName>, aggregations: seq<ColumnName>): AggregationKey
  {
    AggregationKey(NameSet(groups), NameSet(aggregations))
  }

  /** Two keys are equal exactly when they name the same groups and the same aggregations. */
  lemma KeyOfEquality(g1: seq<ColumnName>, a1: seq<ColumnName>, g2: seq<ColumnName>, a2: seq<ColumnName>)
    ensures KeyOf(g1, a1) == KeyOf(g2, a2) <==>
      (forall n :: n in g1 <==> n in g2) && (forall n :: n in a1 <==> n in a2)
  {
    if (forall n :: n in g1 <==> n in g2) && (forall n :: n in a1 <==> n in a2) {
      assert NameSet(g1) == NameSet(g2);
      assert NameSet(a1) == NameSet(a2);
    }
  }

  /** A provider gives one dataset per key, whatever order the group names were listed in. */
  lemma ProviderRespectsKeyEquality<V>(provide: ResultProvider<V>, g1: seq<ColumnName>, g2: seq<ColumnName>, a: seq<ColumnName>)
    requires multiset(g1) == multiset(g2)
    ensures provide(KeyOf(g1, a)) == provide(KeyOf(g2, a))
  {
    NameSetOrderInsensitive(g1, g2);
  }
}
