# Summary table: column resolution, projection and recompute guard

This project models the data-preparation step of Metabase's Summary Table visualization, in Dafny.

The settings name the columns to show. The component looks each name up among the dataset's `cols` by exact, case-sensitive match, and the first match wins. Names with no match are dropped. The dataset's `cols`, `columns` and every row are then projected onto the resolved indexes, in the configured order. The result is kept in the component's `state.data`. It is recomputed only when the `data` reference changes or the settings are no longer deep-equal. When rendering, the component gives the grouping engine the positions `0 .. n-1`, where `n` is the number of configured group names. These positions are counted from the configuration, not from the names the dataset still has.

The model also declares the vocabulary of `summary_table.js`:
- `Groups` and `Aggregations` as sets of column names.
- `AggregationKey` as the pair of those sets.
- `SummaryTableSettings` as four ordered name lists and a metadata map.
- `ResultProvider` as a total function from a key to a dataset.
- `QueryPlan` as grouping levels plus one shared aggregation set. It is declared as a datatype only, because the modelled code never builds or reads a plan.

Modules:
- `Wrappers` (`wrappers.dfy`): `Option`, standing in for JavaScript's `null`/`undefined`.
- `SummaryTableTypes` (`summary_table_types.dfy`): the types file.
- `ColumnResolution` (`column_resolution.dfy`): the `map(findIndex)` / `filter` chain.
- `Projection` (`projection.dfy`): the projection of `cols`, `columns` and rows.
- `SummaryTable` (`summary_table.dfy`): the update as one function, the grouping indexes, and the component as a class. The class holds `props` and `state.data` as fields, and its lifecycle methods update them.

Modelling choices:
- A dataset object is a `DatasetRef` reference with an immutable value. The guard's `newProps.data !== this.props.data` is therefore reference comparison, as in the source.
- `_.isEqual` on settings is value equality of the `VisualizationSettings` datatype.
- The column-roles entry of the settings has no default, so it is an `Option`. `getColumnsFromSettings` receives it as it is, absent or not. `Render` reads `groupsSources` from it without a guard, so an absent entry ends in the `MissingColumnSettings` outcome, the TypeError the source raises.
- `getColumnsFromSettings` is defined outside the modelled files. It becomes a function given to the component's constructor.
- `GroupingManager` is defined outside the modelled files. `Render` takes its row ordering as a function parameter and says only what is passed to it.
- Column metadata is the type parameter `M` and cell values are the type parameter `V`, because their definitions are outside the modelled files.
- The class invariant `Valid()` says that `state.data`, once set, is the projection of the current props. `ComponentWillReceiveProps` keeps it even when it skips the recomputation: in this model the same reference means the same dataset, because a dataset object is immutable, and equal settings mean the same names.

## Model

| member | source | states |
|---|---|---|
| `SummaryTableTypes.NameSet` | frontend/src/metabase/meta/types/summary_table.js:5-8 | a name is in the set built from a list exactly when it occurs in the list |
| `SummaryTableTypes.NameSetCardinality` | frontend/src/metabase/meta/types/summary_table.js:7-8 | a `Groups`/`Aggregations` set is never larger than its list, and has the same size exactly when the list has no repeated name (sets are duplicate-free) |
| `SummaryTableTypes.DistinctCons` | frontend/src/metabase/meta/types/summary_table.js:7-8 | a list has no repeats exactly when its head is not in its tail and its tail has no repeats |
| `SummaryTableTypes.NameSetOrderInsensitive` | frontend/src/metabase/meta/types/summary_table.js:7-8 | two lists holding the same names in any order give the same set |
| `SummaryTableTypes.KeyOfEquality` | frontend/src/metabase/meta/types/summary_table.js:9 | two `AggregationKey`s are equal if and only if their group lists name the same columns and their aggregation lists name the same columns |
| `SummaryTableTypes.ProviderRespectsKeyEquality` | frontend/src/metabase/meta/types/summary_table.js:19 | a `ResultProvider` returns the same dataset for the same key, including keys built from group lists in different orders |
| `ColumnResolution.FindIndex` | frontend/src/metabase/visualizations/visualizations/SummaryTable.jsx:148 | the result is -1 exactly when no column has the name; otherwise it is the first column whose name is exactly equal |
| `ColumnResolution.LookupAll` | frontend/src/metabase/visualizations/visualizations/SummaryTable.jsx:145-148 | one lookup per configured name, position k holding the lookup of name k |
| `ColumnResolution.KeepInRange` | frontend/src/metabase/visualizations/visualizations/SummaryTable.jsx:149 | keeps exactly the lookups with `0 <= i < length of cols`, each below that bound |
| `ColumnResolution.ResolveIndexes` | frontend/src/metabase/visualizations/visualizations/SummaryTable.jsx:145-149 | every resolved index is a valid column index, and there are no more indexes than names |
| `ColumnResolution.PresentNames` | frontend/src/metabase/visualizations/visualizations/SummaryTable.jsx:145-149 | the configured names that some column carries, every one of them present in the dataset |
| `ColumnResolution.ResolveCons` | frontend/src/metabase/visualizations/visualizations/SummaryTable.jsx:145-149 | resolving a list gives the first name's first-match index (if it has one) followed by the resolution of the rest |
| `ColumnResolution.ResolveConcat` | frontend/src/metabase/visualizations/visualizations/SummaryTable.jsx:145-149 | resolving two concatenated name lists is concatenating their resolutions |
| `ColumnResolution.ResolvesPresentNamesInOrder` | frontend/src/metabase/visualizations/visualizations/SummaryTable.jsx:145-149 | the resolved indexes are the first-match indexes of the present names, in configured order and with repeats kept, not in dataset order |
| `ColumnResolution.AbsentNameIsIgnored` | frontend/src/metabase/visualizations/visualizations/SummaryTable.jsx:148-149 | a name no column carries, anywhere in the list, leaves the resolution unchanged |
| `ColumnResolution.PresentNameAlwaysAddsAColumn` | frontend/src/metabase/visualizations/visualizations/SummaryTable.jsx:145-149 | appending a present name always appends its index, even when the name is already listed (no de-duplication) |
| `ColumnResolution.ResolvesEveryNameIffAllPresent` | frontend/src/metabase/visualizations/visualizations/SummaryTable.jsx:148-149 | one index per name exactly when every configured name exists in the dataset |
| `ColumnResolution.PresentNamesComplete` | frontend/src/metabase/visualizations/visualizations/SummaryTable.jsx:149 | no name is filtered out exactly when every configured name exists in the dataset |
| `Projection.Pick` | frontend/src/metabase/visualizations/visualizations/SummaryTable.jsx:153-154 | one entry per index, entry k being the source entry at index k of the list |
| `Projection.PickRows` | frontend/src/metabase/visualizations/visualizations/SummaryTable.jsx:155 | same number of rows; each row as wide as the index list, cell k of row j equal to the source row's cell at index k of the list |
| `Projection.Project` | frontend/src/metabase/visualizations/visualizations/SummaryTable.jsx:151-157 | the projected dataset is well formed; `cols` and `columns` hold one entry per index, entry k from position k of the list; row count unchanged; cell k of row j is the source cell at index k of the list |
| `Projection.Range` | frontend/src/metabase/visualizations/visualizations/SummaryTable.jsx:175 | the list `0, 1, ..., n-1` |
| `Projection.ProjectOntoAllColumns` | frontend/src/metabase/visualizations/visualizations/SummaryTable.jsx:151-157 | projecting onto every index in dataset order returns the dataset unchanged |
| `Projection.ProjectCompose` | frontend/src/metabase/visualizations/visualizations/SummaryTable.jsx:151-157 | projecting twice equals projecting once onto the composed index list |
| `SummaryTable.UpdatedData` | frontend/src/metabase/visualizations/visualizations/SummaryTable.jsx:144-157 | the new data is well formed and has the same number of rows. It has one column per present configured name, in configured order. Its `cols[k]` and `columns[k]` are the dataset's entries at the first column matching present name k, and cell k of row j is that column's cell |
| `SummaryTable.UpdateIgnoresAbsentName` | frontend/src/metabase/visualizations/visualizations/SummaryTable.jsx:148-157 | settings naming a column the dataset lacks give the same data as settings without that name |
| `SummaryTable.Names` | frontend/src/metabase/visualizations/visualizations/SummaryTable.jsx:148 | the column names, in dataset order |
| `SummaryTable.UpdateWithEveryColumnIsIdentity` | frontend/src/metabase/visualizations/visualizations/SummaryTable.jsx:144-157 | if column names are unique, listing every column once in dataset order leaves the dataset unchanged |
| `SummaryTable.PresentNamesAll` | frontend/src/metabase/visualizations/visualizations/SummaryTable.jsx:149 | when every configured name exists, nothing is dropped |
| `SummaryTable.GroupingIndexes` | frontend/src/metabase/visualizations/visualizations/SummaryTable.jsx:175 | the positions `0 .. n-1` for `n` configured group names; the empty list when `groupsSources` is absent |
| `SummaryTable.GroupingPositionsIgnoreResolution` | frontend/src/metabase/visualizations/visualizations/SummaryTable.jsx:145-178 | with columns `[Sales]`, names `[Region, Sales]` and group names `[Region]`, the projected data has only the `Sales` column while the grouping positions are `[0]`: the engine is pointed at a value column |
| `SummaryTable.NeedsUpdate` | frontend/src/metabase/visualizations/visualizations/SummaryTable.jsx:123-126 | the guard: a different `data` reference or settings that are not deep-equal; when it is false, the dataset and the column-roles entry are the same |
| `SummaryTable.SummaryTable.constructor` | frontend/src/metabase/visualizations/visualizations/SummaryTable.jsx:106-114 | the props are stored and `state.data` starts absent |
| `SummaryTable.SummaryTable.UpdateData` | frontend/src/metabase/visualizations/visualizations/SummaryTable.jsx:131-159 | `state.data` becomes the projection the given props call for, and nothing else changes |
| `SummaryTable.SummaryTable.ComponentWillMount` | frontend/src/metabase/visualizations/visualizations/SummaryTable.jsx:116-118 | `state.data` becomes the projection of the current props |
| `SummaryTable.SummaryTable.ComponentWillReceiveProps` | frontend/src/metabase/visualizations/visualizations/SummaryTable.jsx:120-129 | a new reference or non-equal settings recompute `state.data` from the new props; otherwise `state.data` is untouched. Either way it stays the projection of the current props, given that datasets are not changed in place |
| `SummaryTable.SummaryTable.Render` | frontend/src/metabase/visualizations/visualizations/SummaryTable.jsx:162-180 | nothing while `state.data` is absent. Then a TypeError outcome exactly when the column-roles entry is absent. Otherwise the data with its rows as ordered by the grouping engine, which receives the bound 30, the positions `0 .. n-1` for the `n` configured group names, and the projected rows |

## Left out

- The React rendering: the JSX, the choice between the interactive and simple table components, the hidden-field message and its image, the CSS class names, and the `TestTable` wrapper. These are presentation only.
- `isColumnsDisabled` is the constant `false`, so the hidden-field branch it guards is never taken and is not modelled.
- `GroupingManager` is not part of this model. Its row ordering, subtotals and spans are a function parameter of `Render`, and nothing is assumed about what it returns.
- `getColumnsFromSettings` and `settingsAreValid` are not part of this model. The first is a function given to the component; the second is not used by the modelled code.
- The static `settings` descriptor (titles, widgets, defaults, `getHidden`, `getProps`) is left out. It is configuration for the settings editor and mostly commented out.
- The `console.log` calls, the translation tag `t`, the sort read with `getIn`, `state.query`, and Immutable.js's own `Set` are left out. They are logging, library calls, or values the modelled code never reads.
- React's lifecycle machinery is not modelled. `ComponentWillReceiveProps` also performs React's replacement of `this.props` by the new props once the hook has run.
- `VisualizationSettings` holds only the two summary-table entries. Other settings keys, which `_.isEqual` would also compare, are not modelled.
- Project: requires a well-formed dataset, with `columns` and every row as wide as `cols`. On a malformed dataset JavaScript would read `undefined` from `columns[i]` or `row[i]`; that case is not modelled.
- In-place mutation of a dataset is not modelled: a dataset object is immutable here. The source compares `data` by reference only, so a dataset changed in place under the same reference would leave `state.data` stale; the model cannot express that case.
- Render: the grouping positions are counted from the configured group names, as the source does, so the resilience that `UpdateIgnoresAbsentName` proves for the projection does not carry over to what the grouping engine is told (see `GroupingPositionsIgnoreResolution`). Which positions were intended depends on the column order `getColumnsFromSettings` produces, which is not part of this model.
- GroupingIndexes: the settings type says `groupsSources` is always a list, while the code also tolerates it being absent (`|| []`). The function takes an `Option` to cover both; `Render` always passes the list from the typed settings.
