# Adding columns to a CrateDB table, the SELECT analysis holder, and `pg_encoding_to_char`, modelled in Dafny

This project models three parts of CrateDB:

- **`AddColumnTask.execute`** (`add_column_task.dfy`, with `metadata.dfy`, `doc_table_info.dfy`, `versions.dfy`). It is the cluster-state update behind `ALTER TABLE … ADD COLUMN`. It resolves the table from the current metadata and opens a `Metadata.Builder` over that metadata. It picks the column-OID supplier from the table's creation version: the builder's counter for tables created on or after 5.5.0, otherwise the constant `COLUMN_OID_UNASSIGNED`. It asks the table to add the columns. If nothing changed it returns the *same* cluster state object. Otherwise it writes the new table into the builder, builds the new metadata and re-reads the table from it as a validation gate. Only then does it return a new cluster state that differs from the old one in its metadata alone.
  - `Execute` is the imperative method. `MetadataBuilder` is a class whose table map and OID counter the method changes. `ClusterState` is a class with constant fields, so "the same state" means the same object.
  - `Execute` is proved against the specification function `ExecuteOutcome`. The lemmas cover the OID scheme, catalog consistency, retry safety and two worked scenarios.
- **`SelectAnalysis`** (`select_analysis.dfy`). This is a class with the statement's query, limit, offset, GROUP BY symbols, sort symbols and reverse flags. It also holds the alias multimap and the output names of its `Analysis` base class. An invariant (`Valid`) ties the multimap to the output names. `SymbolFromAlias` gives no symbol for an unknown alias, the symbol for an alias bound once, and an `AmbiguousAliasException` for an alias bound more than once.
- **`pg_encoding_to_char`** (`pg_encoding_to_char.dfy`), as its unit test pins it down. It is a pure lookup from an optional encoding number to an optional name. Normalizing a call on a literal folds it into the literal that evaluation gives. The `pg_catalog`-qualified name denotes the same function.

Modelling choices:

- `DocTableInfoFactory.create` is the function-typed parameter `resolve`. Being a function, it is deterministic; it may fail (`None`). The consistency and retry lemmas additionally assume a resolver that reads back the table stored under the name (`ReadsStoredTable`) and a consistent catalog (`Consistent`). `Lookup` is one such resolver, used by the worked scenarios.
- Whether `writeTo` manages to create the mapper service is the parameter `mapperAccepts`.
- `DocTableInfo` is not part of this model. `addColumns` gets the smallest body that has what `execute` relies on:
  - each requested column whose name is new is appended in request order, with one OID drawn from the supplier;
  - the primary-key names and check constraints the table lacks are added;
  - a request that adds nothing returns the table unchanged.
- `Metadata` is not part of this model. `COLUMN_OID_UNASSIGNED` is taken to be `0`, and the builder's OID supplier advances its counter and returns the new value.
- `Version` carries Elasticsearch's numeric id (two decimal digits per part, `99` for a release build), and `onOrAfter` compares ids.
- `execute` propagates whatever exception `DocTableInfoFactory.create` throws, both when it first resolves the table and at the validation gate. The model therefore reports both as the same `Unresolvable` failure. It does not split them into a "table not found" error and a separate "validation failed" error.

## Model

| member | source | states |
|---|---|---|
| `Versions.ReleaseOrderIsLexicographic` | server/src/main/java/io/crate/execution/ddl/tables/AddColumnTask.java:55 | for release numbers whose minor and revision fit two digits, `onOrAfter` on ids is the lexicographic order on (major, minor, revision) |
| `Versions.OnOrAfterIsTotalOrder` | server/src/main/java/io/crate/execution/ddl/tables/AddColumnTask.java:55 | the version test is a total order (reflexive, antisymmetric, transitive, total), and "before" is its complement |
| `ClusterMetadata.MetadataBuilder.constructor` | server/src/main/java/io/crate/execution/ddl/tables/AddColumnTask.java:54 | the builder starts with the metadata's tables and OID counter |
| `ClusterMetadata.MetadataBuilder.NextColumnOid` | server/src/main/java/io/crate/execution/ddl/tables/AddColumnTask.java:58 | one draw from the builder's supplier advances the counter by one, returns its new value (never the unassigned OID) and leaves the tables alone |
| `ClusterMetadata.MetadataBuilder.Put` | server/src/main/java/io/crate/execution/ddl/tables/AddColumnTask.java:66 | staging a table replaces the entry under its name and changes nothing else |
| `ClusterMetadata.MetadataBuilder.Build` | server/src/main/java/io/crate/execution/ddl/tables/AddColumnTask.java:67 | the built metadata holds exactly the staged tables and the counter as it stands |
| `ClusterMetadata.ClusterState.constructor` | server/src/main/java/io/crate/execution/ddl/tables/AddColumnTask.java:70-72 | the new state has the given metadata and the old state's other parts |
| `DocTables.Draw` | server/src/main/java/io/crate/execution/ddl/tables/AddColumnTask.java:58 | the builder supplier hands out the next counter value and advances the counter; the constant supplier hands out its constant and never touches the counter |
| `DocTables.AddColumns` | server/src/main/java/io/crate/execution/ddl/tables/AddColumnTask.java:56-62 | the loop over the requested columns yields the table and counter `AddColumnsResult` specifies, and the builder's tables are untouched |
| `DocTables.AppendedOids` | server/src/main/java/io/crate/execution/ddl/tables/AddColumnTask.java:55-62 | existing columns stay in front unchanged; with the builder counter the k-th new column gets old counter + k + 1 and the counter ends at the last one; with a constant supplier every new column gets the constant and the counter does not move |
| `DocTables.AppendedFromRequest` | server/src/main/java/io/crate/execution/ddl/tables/AddColumnTask.java:56-62 | every appended column is one of the requested references with only its OID replaced |
| `DocTables.AppendedCovers` | server/src/main/java/io/crate/execution/ddl/tables/AddColumnTask.java:56-62 | after adding, every requested column name is a column of the table |
| `DocTables.AppendedUnchangedIff` | server/src/main/java/io/crate/execution/ddl/tables/AddColumnTask.java:56-65 | the columns stay as they were exactly when every requested name is already a column |
| `DocTables.AppendedKeepsNamesUnique` | server/src/main/java/io/crate/execution/ddl/tables/AddColumnTask.java:56-62 | adding columns never creates two columns of the same name |
| `DocTables.MergeNamesCovers` | server/src/main/java/io/crate/execution/ddl/tables/AddColumnTask.java:60 | the merged primary key keeps the old key in front, contains every requested key column and nothing else |
| `DocTables.MergeNamesUnchangedIff` | server/src/main/java/io/crate/execution/ddl/tables/AddColumnTask.java:60-65 | the primary key stays as it was exactly when every requested key column is already in it |
| `DocTables.AddColumnsUnchangedIff` | server/src/main/java/io/crate/execution/ddl/tables/AddColumnTask.java:56-65 | `addColumns` returns the table unchanged exactly when the request has no new column, no new key column and no new check constraint |
| `DocTables.UnchangedDrawsNothing` | server/src/main/java/io/crate/execution/ddl/tables/AddColumnTask.java:58-65 | when `addColumns` changes nothing, no OID is drawn: the counter stays where it was |
| `DocTables.AddColumnsIdempotent` | server/src/main/java/io/crate/execution/ddl/tables/AddColumnTask.java:56-65 | applying the same request to the table `addColumns` returned changes nothing more, whatever the supplier and counter |
| `AddColumnTask.ExecuteOutcome` | server/src/main/java/io/crate/execution/ddl/tables/AddColumnTask.java:50-73 | an unresolvable table fails before anything else; new metadata is only ever produced after the table resolved from the old metadata and was re-resolved from the new metadata (validation gate) |
| `AddColumnTask.WriteTo` | server/src/main/java/io/crate/execution/ddl/tables/AddColumnTask.java:66 | `writeTo` fails exactly when the mapper service cannot be created; on success it stages the table under its name; it never touches the OID counter |
| `AddColumnTask.Execute` | server/src/main/java/io/crate/execution/ddl/tables/AddColumnTask.java:50-73 | returns `currentState` itself when nothing changes; fails as `ExecuteOutcome` says; otherwise returns a fresh state whose metadata is the staged-and-built metadata and whose other parts are `currentState`'s |
| `AddColumnTask.OidsFollowCreationVersion` | server/src/main/java/io/crate/execution/ddl/tables/AddColumnTask.java:55-58 | tables created on or after 5.5.0 get consecutive OIDs above the old counter, which ends at the last of them; older tables get the unassigned OID on every new column and the counter does not move; existing columns are kept in front and the table keeps its creation version |
| `AddColumnTask.LookupReadsStoredTable` | server/src/main/java/io/crate/execution/ddl/tables/AddColumnTask.java:53 | the stored-table resolver reads back the table stored under the name |
| `AddColumnTask.LookupPassesValidation` | server/src/main/java/io/crate/execution/ddl/tables/AddColumnTask.java:68-69 | with the stored-table resolver the validation gate never rejects: a resolution failure means the table is missing, a mapping failure means it exists |
| `AddColumnTask.ExecutePreservesConsistency` | server/src/main/java/io/crate/execution/ddl/tables/AddColumnTask.java:53-72 | for a resolver that reads back the stored table (`ReadsStoredTable`) and a consistent catalog, new metadata keeps the catalog consistent: tables under their own names, unique column names, OIDs issued by the counter, no table mixing assigned and unassigned OIDs against its creation version, and no assigned OID twice in the catalog; the changed table keeps its creation version |
| `AddColumnTask.RetryIsNoOp` | server/src/main/java/io/crate/execution/ddl/tables/AddColumnTask.java:63-65 | for a resolver that reads back the stored table (`ReadsStoredTable`) and a consistent catalog, re-applying a request to the metadata it produced returns the state unchanged |
| `AddColumnTask.OidAwareScenario` | server/src/main/java/io/crate/execution/ddl/tables/AddColumnTask.java:55-72 | table `t` created at 5.5.0 with `a` (OID 1), counter 1: adding `b` gives `b` OID 2 and counter 2, and adding it again changes nothing |
| `AddColumnTask.LegacyScenario` | server/src/main/java/io/crate/execution/ddl/tables/AddColumnTask.java:55-72 | the same table created at 5.4.0: `b` is added with the unassigned OID and the counter stays at 1 |
| `Analyze.SelectAnalysis.constructor` | sql/src/main/java/io/crate/analyze/SelectAnalysis.java:37-45 | a new analysis has offset 0, no limit, query, GROUP BY, sort symbols or reverse flags, no aliases and no output names |
| `Analyze.SelectAnalysis.Type` | sql/src/main/java/io/crate/analyze/SelectAnalysis.java:48-51 | the analysis is always of a SELECT |
| `Analyze.SelectAnalysis.SetQuery` | sql/src/main/java/io/crate/analyze/SelectAnalysis.java:53-59 | the query read back is the one set; nothing else changes |
| `Analyze.SelectAnalysis.SetLimit` | sql/src/main/java/io/crate/analyze/SelectAnalysis.java:65-71 | the limit read back is the one set; nothing else changes |
| `Analyze.SelectAnalysis.SetOffset` | sql/src/main/java/io/crate/analyze/SelectAnalysis.java:113-115 | the offset read back is the one set; nothing else changes |
| `Analyze.SelectAnalysis.SetGroupBy` | sql/src/main/java/io/crate/analyze/SelectAnalysis.java:77-87 | the GROUP BY symbols read back are the ones set, and `HasGroupBy` holds exactly when they are present and not empty |
| `Analyze.SelectAnalysis.SetReverseFlags` | sql/src/main/java/io/crate/analyze/SelectAnalysis.java:89-95 | the reverse-flags array read back is the very array set; nothing else changes |
| `Analyze.SelectAnalysis.SetSortSymbols` | sql/src/main/java/io/crate/analyze/SelectAnalysis.java:97-107 | the sort symbols read back are the ones set, and `IsSorted` holds exactly when they are present and not empty |
| `Analyze.SelectAnalysis.SymbolsMatchOutputNames` | sql/src/main/java/io/crate/analyze/SelectAnalysis.java:117-123 | an alias is bound to as many symbols as it has occurrences among the output names |
| `Analyze.SelectAnalysis.SymbolFromAlias` | sql/src/main/java/io/crate/analyze/SelectAnalysis.java:122-132 | no symbol exactly for an alias that is no output name; `AmbiguousAliasException` exactly for an alias that occurs more than once; otherwise the alias's single bound symbol |
| `Analyze.SelectAnalysis.AddAlias` | sql/src/main/java/io/crate/analyze/SelectAnalysis.java:117-120 | appends the alias to the output names once and the symbol to its bindings; a fresh alias then resolves to the symbol, a repeated one becomes ambiguous, every other alias resolves as before |
| `PgEncoding.PgEncodingToChar` | server/src/test/java/io/crate/expression/scalar/postgres/PgEncodingToCharFunctionTest.java:32-37 | a name exactly for a non-null encoding number within the table, and then the table's entry for it |
| `PgEncoding.Evaluate` | server/src/test/java/io/crate/expression/scalar/postgres/PgEncodingToCharFunctionTest.java:32-37 | a call on a literal evaluates to the lookup of that literal; a call of any other function name fails |
| `PgEncoding.Normalize` | server/src/test/java/io/crate/expression/scalar/postgres/PgEncodingToCharFunctionTest.java:38 | normalizing a call on a literal gives a literal, and normalization never changes what an expression evaluates to |
| `PgEncoding.QualifiedNameIsSameFunction` | server/src/test/java/io/crate/expression/scalar/postgres/PgEncodingToCharFunctionTest.java:41-44 | `pg_catalog.pg_encoding_to_char` evaluates exactly like `pg_encoding_to_char` |
| `PgEncoding.TestedPairs` | server/src/test/java/io/crate/expression/scalar/postgres/PgEncodingToCharFunctionTest.java:30-44 | -1, null and 42 give null; 1, 6 and 41 give EUC_JP, UTF8 and SHIFT_JIS_2004; normalizing the call on 6 gives the literal UTF8; the qualified name gives UTF8 for 6 |

## Left out

- Creating the `MapperService` and materializing the mapping inside `writeTo` are storage I/O. They are reduced to the yes/no parameter `mapperAccepts`.
- `DocTableInfoFactory.create` and `DocTableInfo` are not part of this model. The table parser is the parameter `resolve`. `addColumns` has the stand-in body described above. It does not model:
  - rejecting a requested column whose name exists with another type;
  - column positions, nested object columns or generated columns;
  - any check of the request against the table that `DocTableInfo` may perform.
- `Metadata` is not part of this model. Its only parts here are the table map and the column-OID counter.
- The no-op test at `AddColumnTask.java:63` compares object references in Java. The model compares table values. The two agree only because `addColumns` returns the table itself when nothing is new, and the stand-in returns an equal value exactly then.
- The OID counter and the OIDs are Java `long` values. Here they are unbounded (`nat`/`int`), so wrap-around of the counter is not modelled.
- The other parts of `ClusterState` are the opaque field `others`, which the new state copies. Cluster-state versioning, batching in `DDLClusterStateTaskExecutor`, consensus and publication are left out. Their point is distribution and concurrency.
- `NodeContext` and the `createMapperService` function are passed to collaborators that are not modelled.
- `AddColumnRequest`'s own validation is not part of this model. Its primary-key indices are required to point into its column list (`WellFormed`).
- `Query`, `Symbol`, `Functions` and `ReferenceInfos` have no internal structure here. The `SelectAnalysis` constructor's arguments are passed to the `Analysis` base class, which is not part of this model beyond its output names and `hasAggregates` flag.
- `Analyze.SelectAnalysis.SetGroupBy`: the GROUP BY and sort-symbol lists are values (`seq`). A list the caller keeps and mutates after handing it over is not tracked. The reverse-flags array stays a shared `array`.
- The getters of `SelectAnalysis` are reads of its fields. `hasAggregates()` is the field `hasAggregates`.
- `addAlias` in the source accepts a null alias or a null `Symbol`, and a bound null symbol then reads as "unknown" in `symbolFromAlias`. Aliases are `string` and symbols are `Symbol` here, so neither null case is expressed.
- The multimap is a map from alias to its symbols in insertion order. Guava's other multimap behaviour is left out.
- `PgEncoding.PgEncodingToChar`: the implementation is not part of this model. The table of encoding names is a parameter. Only the entries and bounds asserted by the test are fixed (`AgreesWithTest`). SQL parsing and the `ScalarTestCase` harness are left out.
