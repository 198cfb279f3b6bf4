/**
 * The summary table component: it keeps the dataset projected onto the
 * configured columns in its state, recomputes that projection only when the
 * dataset reference or the settings change, and hands the grouping engine the
 * positions `0 .. n - 1`, where n is the number of configured group names.
 */
module SummaryTable {
  import opened Wrappers
  import opened SummaryTableTypes
  import opened ColumnResolution
  import opened Projection

  /** The depth bound the component passes to the grouping engine. */
  const GroupingDepthBound: nat := 30

  /**
   * The settings the component reads: the grand-total toggle and the column
   * roles. The column-roles entry has no default, so it may be absent.
   */
  datatype VisualizationSettings<M> = VisualizationSettings(
    grandTotal: bool,
    summaryColumns: Option<SummaryTableSettings<M>>)

  /** A dataset object: a reference whose identity the component compares. */
  class DatasetRef<V> {
    const value: DatasetData<V>

    constructor (value: DatasetData<V>)
      ensures this.value == value
    {
      this.value := value;
    }
  }

  datatype Props<M, V> = Props(data: DatasetRef<V>, settings: VisualizationSettings<M>)

  /** What the component renders from: the projected data and the grouping positions. */
  datatype RenderedTable<V> = RenderedTable(data: DatasetData<V>, groupingIndexes: seq<nat>)

  /**
   * The outcome of a render: nothing before the state holds data, the table,
   * or the TypeError raised by reading `groupsSources` of an absent
   * column-roles entry.
   */
  datatype RenderResult<V> = NoData | Rendered(table: RenderedTable<V>) | MissingColumnSettings

  /** The dataset cut down to the configured columns that still exist, in configured order. */
  function UpdatedData<V>(data: DatasetData<V>, names: seq<ColumnName>): (r: DatasetData<V>)
    requires WellFormed(data)
    ensures WellFormed(r)
    ensures |r.rows| == |data.rows|
    ensures |r.cols| == |PresentNames(data.cols, names)|
    ensures forall k :: 0 <= k < |r.cols| ==> r.cols[k].name == PresentNames(data.cols, names)[k]
    ensures forall k :: 0 <= k < |r.cols| ==>
      && r.cols[k] == data.cols[FindIndex(data.cols, PresentNames(data.cols, names)[k])]
      && r.columns[k] == data.columns[FindIndex(data.cols, PresentNames(data.cols, names)[k])]
    ensures forall j, k :: 0 <= j < |r.rows| && 0 <= k < |r.cols| ==>
      r.rows[j][k] == data.rows[j][FindIndex(data.cols, PresentNames(data.cols, names)[k])]
  {
    ResolvesPresentNamesInOrder(data.cols, names);
    Project(data, ResolveIndexes(data.cols, names))
  }

  /** Settings naming a column the dataset lacks give the same table as settings without it. */
  lemma UpdateIgnoresAbsentName<V>(data: DatasetData<V>, a: seq<ColumnName>, x: ColumnName, b: seq<ColumnName>)
    requires WellFormed(data)
    requires !HasColumn(data.cols, x)
    ensures UpdatedData(data, a + [x] + b) == UpdatedData(data, a + b)
  {
    AbsentNameIsIgnored(data.cols, a, x, b);
  }

  /** The names of the dataset's columns, in dataset order. */
  function Names(cols: seq<Column>): (names: seq<ColumnName>)
    ensures |names| == |cols|
    ensures forall k :: 0 <= k < |cols| ==> names[k] == cols[k].name
  {
    if cols == [] then [] else [cols[0].name] + Names(cols[1..])
  }

  /** Settings that list every column once, in dataset order, leave the dataset as it is. */
  lemma UpdateWithEveryColumnIsIdentity<V>(data: DatasetData<V>)
    requires WellFormed(data)
    requires Distinct(Names(data.cols))
    ensures UpdatedData(data, Names(data.cols)) == data
  {
    var cols := data.cols;
    var names := Names(cols);
    PresentNamesComplete(cols, names);
    assert forall n :: n in names ==> HasColumn(cols, n) by {
      forall n | n in names ensures HasColumn(cols, n) {
        var k :| 0 <= k < |names| && names[k] == n;
        assert cols[k].name == n;
      }
    }
    PresentNamesAll(cols, names);
    ResolvesPresentNamesInOrder(cols, names);
    var idx := ResolveIndexes(cols, names);
    forall k | 0 <= k < |cols| ensures idx[k] == Range(|cols|)[k] {
      var i := FindIndex(cols, names[k]);
      assert cols[k].name == names[k];
      assert 0 <= i <= k && names[i] == names[k];
    }
    assert idx == Range(|cols|);
    ProjectOntoAllColumns(data);
  }

  /** When every name is present, the present names are the names. */
  lemma {:induction false} PresentNamesAll(cols: seq<Column>, names: seq<ColumnName>)
    requires forall n :: n in names ==> HasColumn(cols, n)
    ensures PresentNames(cols, names) == names
  {
    if names != [] {
      assert names[0] in names;
      PresentNamesAll(cols, names[1..]);
      assert names == [names[0]] + names[1..];
    }
  }

  /**
   * The positions `0, ..., n - 1` for n configured group names; none when the
   * list is absent. The count is taken from the configuration, not from the
   * names the dataset still has.
   */
  function GroupingIndexes(groupsSources: Option<seq<ColumnName>>): (r: seq<nat>)
    ensures groupsSources.None? ==> r == []
    ensures groupsSources.Some? ==> |r| == |groupsSources.value|
    ensures forall k :: 0 <= k < |r| ==> r[k] == k
  {
    Range(match groupsSources case None => 0 case Some(names) => |names|)
  }

  /**
   * The recompute guard: a different dataset reference, or settings that are
   * not deep-equal. When it is false, the inputs of the projection (the
   * dataset behind the reference and the column roles) are the same.
   */
  predicate NeedsUpdate<M(==), V>(current: Props<M, V>, next: Props<M, V>): (b: bool)
    ensures !b ==> next.data.value == current.data.value
    ensures !b ==> next.settings.summaryColumns == current.settings.summaryColumns
  {
    next.data != current.data || next.settings != current.settings
  }

  /**
   * The positions handed to the grouping engine need not address group
   * columns: with a group column gone from the dataset, position 0 of the
   * projected data is a value column.
   */
  lemma GroupingPositionsIgnoreResolution()
    ensures var data: DatasetData<int> := DatasetData([Column("Sales", "Sales")], ["Sales"], [[10]]);
      && UpdatedData(data, ["Region", "Sales"]).cols == [Column("Sales", "Sales")]
      && GroupingIndexes(Some(["Region"])) == [0]
  {
    var data: DatasetData<int> := DatasetData([Column("Sales", "Sales")], ["Sales"], [[10]]);
    assert !HasColumn(data.cols, "Region") by {
      assert data.cols[0].name != "Region";
    }
    assert HasColumn(data.cols, "Sales") by {
      assert data.cols[0].name == "Sales";
    }
    assert PresentNames(data.cols, ["Region", "Sales"]) == ["Sales"] by {
      assert ["Region", "Sales"][1..] == ["Sales"];
      assert ["Sales"][1..] == [];
    }
    assert FindIndex(data.cols, "Sales") == 0;
    var r := UpdatedData(data, ["Region", "Sales"]);
    assert |r.cols| == 1 && r.cols[0] == data.cols[0];
  }

  class SummaryTable<M(==), V> {
    /** Reads the configured column names out of the column-role settings. */
    const columnsFromSettings: Option<SummaryTableSettings<M>> -> seq<ColumnName>
    var props: Props<M, V>
    /** `state.data`: absent until the first projection. */
    var data: Option<DatasetData<V>>

    /** The projection the given props call for. */
    function Projected(p: Props<M, V>): DatasetData<V>
      requires WellFormed(p.data.value)
    {
      UpdatedData(p.data.value, columnsFromSettings(p.settings.summaryColumns))
    }

    /** Whenever the state holds data, it is the projection of the current props. */
    ghost predicate Valid()
      reads this
    {
      && WellFormed(props.data.value)
      && (data.Some? ==> data.value == Projected(props))
    }

    constructor (props: Props<M, V>, columnsFromSettings: Option<SummaryTableSettings<M>> -> seq<ColumnName>)
      requires WellFormed(props.data.value)
      ensures Valid()
      ensures this.props == props && this.columnsFromSettings == columnsFromSettings
      ensures data == None
    {
      this.props := props;
      this.columnsFromSettings := columnsFromSettings;
      data := None;
    }

    /** Projects the given props into the state. */
    method UpdateData(p: Props<M, V>)
      requires WellFormed(p.data.value)
      modifies this`data
      ensures data == Some(Projected(p))
    {
      data := Some(Projected(p));
    }

    /** Before the first render the state is filled from the initial props. */
    method ComponentWillMount()
      requires Valid()
      modifies this`data
      ensures Valid()
      ensures data == Some(Projected(props))
    {
      UpdateData(props);
    }

    /** New props replace the current ones; the state is recomputed only when the guard says so. */
    method ComponentWillReceiveProps(newProps: Props<M, V>)
      requires Valid()
      requires WellFormed(newProps.data.value)
      modifies this
      ensures Valid()
      ensures props == newProps
      ensures NeedsUpdate(old(props), newProps) ==> data == Some(Projected(newProps))
      ensures !NeedsUpdate(old(props), newProps) ==> data == old(data)
    {
      if NeedsUpdate(props, newProps) {
        UpdateData(newProps);
      }
      props := newProps;
    }

    /**
     * Nothing before the state holds data; then a TypeError when the
     * column-roles entry is absent; otherwise the data with its rows put in
     * the order the grouping engine gives them.
     */
    method Render(orderRows: (nat, seq<nat>, seq<seq<V>>) -> seq<seq<V>>) returns (r: RenderResult<V>)
      requires Valid()
      ensures r.NoData? <==> data.None?
      ensures r.MissingColumnSettings? <==> data.Some? && props.settings.summaryColumns.None?
      ensures r.Rendered? ==>
        && data.Some? && props.settings.summaryColumns.Some?
        && r.table.groupingIndexes == GroupingIndexes(Some(props.settings.summaryColumns.value.groupsSources))
        && r.table.data.cols == data.value.cols
        && r.table.data.columns == data.value.columns
        && r.table.data.rows == orderRows(GroupingDepthBound, r.table.groupingIndexes, data.value.rows)
    {
      if data.None? {
        return NoData;
      }
      if props.settings.summaryColumns.None? {
        return MissingColumnSettings;
      }
      var d := data.value;
      var groupingIndexes := GroupingIndexes(Some(props.settings.summaryColumns.value.groupsSources));
      var rowsOrdered := orderRows(GroupingDepthBound, groupingIndexes, d.rows);
      r := Rendered(RenderedTable(d.(rows := rowsOrdered), groupingIndexes));
    }
  }
}
