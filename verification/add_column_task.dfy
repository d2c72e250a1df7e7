/**
 * `AddColumnTask.execute`: applies one add-column request to a cluster
 * state and returns the same state (nothing to add), a new state with new
 * metadata, or a failure.
 */
module AddColumnTask {
  import opened Wrappers
  import opened Versions
  import opened ClusterMetadata
  import opened DocTables

  /** Why `execute` throws. */
  datatype Failure =
    | Unresolvable(relation: RelationName)   // the table factory could not build the table
    | MappingFailed(relation: RelationName)  // creating the mapper service inside `writeTo` failed

  /**
   * `DocTableInfoFactory.create(relationName, metadata)`: builds the table
   * description from what the metadata stores, or fails. A function value,
   * hence deterministic.
   */
  type Resolver = (RelationName, Metadata) -> Option<TableInfo>

  /** Whether `writeTo` manages to create and update the mapper service for a table. */
  type MapperCheck = (TableInfo, Metadata) -> bool

  /**
   * The supplier `execute` hands to `addColumns`: the builder's counter for a
   * table created on or after 5.5.0, otherwise the constant unassigned OID.
   */
  function SupplierFor(versionCreated: Version): OidSupplier {
    if versionCreated.OnOrAfter(V_5_5_0) then BuilderCounter else Constant(ColumnOidUnassigned)
  }

  /** What `execute` does, as a value. */
  datatype Outcome = Unchanged | Updated(metadata: Metadata) | Failed(failure: Failure)

  /** The outcome of `execute(state, request)` when the state's metadata is `metadata`. */
  function ExecuteOutcome(metadata: Metadata, request: AddColumnRequest, resolve: Resolver, mapperAccepts: MapperCheck)
    : (r: Outcome)
    requires request.WellFormed()
    ensures resolve(request.relationName, metadata).None? ==> r == Failed(Unresolvable(request.relationName))
    ensures r.Updated? ==> resolve(request.relationName, metadata).Some? && resolve(request.relationName, r.metadata).Some?
  {
    match resolve(request.relationName, metadata)
    case None => Failed(Unresolvable(request.relationName))
    case Some(current) =>
      var (newTable, counter) := AddColumnsResult(current, request, SupplierFor(current.versionCreated), metadata.columnOid);
      if newTable == current then Unchanged
      else if !mapperAccepts(newTable, metadata) then Failed(MappingFailed(newTable.ident))
      else
        var newMetadata := Metadata(metadata.tables[newTable.ident := newTable], counter);
        if resolve(request.relationName, newMetadata).None? then Failed(Unresolvable(request.relationName))
        else Updated(newMetadata)
  }

  /**
   * `newTable.writeTo(createMapperService, metadata, builder)`: creates the
   * mapper service for the new table and, if that succeeds, stages the table
   * into the builder. The OID counter is left alone.
   */
  method WriteTo(table: TableInfo, mapperAccepts: MapperCheck, metadata: Metadata, builder: MetadataBuilder)
    returns (ok: bool)
    modifies builder
    ensures ok == mapperAccepts(table, metadata)
    ensures builder.tables == if ok then old(builder.tables)[table.ident := table] else old(builder.tables)
    ensures builder.columnOid == old(builder.columnOid)
  {
    ok := mapperAccepts(table, metadata);
    if ok {
      builder.Put(table);
    }
  }

  /**
   * `execute(currentState, request)`. Returns `currentState` itself when
   * there is nothing to add; otherwise a new state that differs from
   * `currentState` only in its metadata, and only once that metadata has been
   * built and the table re-read from it.
   */
  method Execute<P>(currentState: ClusterState<P>, request: AddColumnRequest, resolve: Resolver, mapperAccepts: MapperCheck)
    returns (r: Result<ClusterState<P>, Failure>)
    requires request.WellFormed()
    ensures match ExecuteOutcome(currentState.metadata, request, resolve, mapperAccepts)
      case Unchanged => r == Success(currentState)
      case Failed(failure) => r == Failure(failure)
      case Updated(newMetadata) =>
        r.Success? && fresh(r.value) && r.value.metadata == newMetadata && r.value.others == currentState.others
  {
    var metadata := currentState.metadata;
    var resolved := resolve(request.relationName, metadata);
    if resolved.None? {
      return Failure(Unresolvable(request.relationName));
    }
    var currentTable := resolved.value;
    var builder := new MetadataBuilder(metadata);
    var supplier := SupplierFor(currentTable.versionCreated);
    var newTable := AddColumns(currentTable, request, supplier, builder);
    if newTable == currentTable {
      return Success(currentState);
    }
    var written := WriteTo(newTable, mapperAccepts, metadata, builder);
    if !written {
      return Failure(MappingFailed(newTable.ident));
    }
    var newMetadata := builder.Build();
    // Ensure the new table can still be read back
    if resolve(request.relationName, newMetadata).None? {
      return Failure(Unresolvable(request.relationName));
    }
    var newState := new ClusterState(newMetadata, currentState.others);
    r := Success(newState);
  }

  // ---------------------------------------------------------------------------
  // Properties of execute

  /**
   * The OID scheme is decided by the table's creation version alone. A table
   * created on or after 5.5.0 gets consecutive OIDs after the counter's old
   * value, and the counter ends at the last of them; an older table gets the
   * unassigned OID on every new column and the counter does not move. The
   * table's existing columns stay as they were, in front.
   */
  lemma OidsFollowCreationVersion(metadata: Metadata, request: AddColumnRequest, resolve: Resolver, mapperAccepts: MapperCheck)
    requires request.WellFormed()
    requires ExecuteOutcome(metadata, request, resolve, mapperAccepts).Updated?
    ensures var current := resolve(request.relationName, metadata).value;
      var newMetadata := ExecuteOutcome(metadata, request, resolve, mapperAccepts).metadata;
      && current.ident in newMetadata.tables
      && newMetadata.tables[current.ident].versionCreated == current.versionCreated
      && var columns := newMetadata.tables[current.ident].columns;
      && |current.columns| <= |columns|
      && columns[..|current.columns|] == current.columns
      && (current.versionCreated.OnOrAfter(V_5_5_0) ==>
            && newMetadata.columnOid == metadata.columnOid + (|columns| - |current.columns|)
            && forall k :: |current.columns| <= k < |columns| ==>
                 columns[k].oid == metadata.columnOid + (k - |current.columns|) + 1)
      && (current.versionCreated.Before(V_5_5_0) ==>
            && newMetadata.columnOid == metadata.columnOid
            && forall k :: |current.columns| <= k < |columns| ==> columns[k].oid == ColumnOidUnassigned)
  {
    var current := resolve(request.relationName, metadata).value;
    var supplier := SupplierFor(current.versionCreated);
    AppendedOids(current.columns, request.references, supplier, metadata.columnOid);
  }

  /**
   * A table the resolver reads back is the one stored under the name asked
   * for, as `DocTableInfoFactory` does when it parses stored metadata.
   */
  ghost predicate ReadsStoredTable(resolve: Resolver) {
    forall name, metadata :: resolve(name, metadata).Some? ==>
      name in metadata.tables && resolve(name, metadata).value == metadata.tables[name]
  }

  /** The resolver that returns exactly the stored table. */
  function Lookup(name: RelationName, metadata: Metadata): (r: Option<TableInfo>)
    ensures r.Some? <==> name in metadata.tables
    ensures r.Some? ==> r.value == metadata.tables[name]
  {
    if name in metadata.tables then Some(metadata.tables[name]) else None
  }

  lemma LookupReadsStoredTable()
    ensures ReadsStoredTable(Lookup)
  {
  }

  /** With the stored-table resolver the validation gate never rejects: every failure to resolve is a missing table. */
  lemma LookupPassesValidation(metadata: Metadata, request: AddColumnRequest, mapperAccepts: MapperCheck)
    requires request.WellFormed()
    ensures ExecuteOutcome(metadata, request, Lookup, mapperAccepts).Failed? ==>
      match ExecuteOutcome(metadata, request, Lookup, mapperAccepts).failure
      case Unresolvable(name) => name == request.relationName && name !in metadata.tables
      case MappingFailed(name) => request.relationName in metadata.tables
  {
  }

  /**
   * `execute` keeps the catalog consistent: tables under their own names,
   * unique column names, OIDs issued by the counter, an identity scheme that
   * follows each table's creation version (which `execute` keeps), and no
   * assigned OID twice in the catalog.
   */
  lemma ExecutePreservesConsistency(metadata: Metadata, request: AddColumnRequest, resolve: Resolver, mapperAccepts: MapperCheck)
    requires request.WellFormed()
    requires ReadsStoredTable(resolve) && Consistent(metadata)
    requires ExecuteOutcome(metadata, request, resolve, mapperAccepts).Updated?
    ensures var newMetadata := ExecuteOutcome(metadata, request, resolve, mapperAccepts).metadata;
      && Consistent(newMetadata)
      && request.relationName in newMetadata.tables
      && newMetadata.tables[request.relationName].versionCreated == metadata.tables[request.relationName].versionCreated
  {
    var name := request.relationName;
    var current := resolve(name, metadata).value;
    assert current == metadata.tables[name];
    var supplier := SupplierFor(current.versionCreated);
    var newMetadata := ExecuteOutcome(metadata, request, resolve, mapperAccepts).metadata;
    var newTable := AddColumnsResult(current, request, supplier, metadata.columnOid).0;
    assert newMetadata.tables == metadata.tables[name := newTable];
    OidsFollowCreationVersion(metadata, request, resolve, mapperAccepts);
    AppendedKeepsNamesUnique(current.columns, request.references, supplier, metadata.columnOid);
    var old_ := |current.columns|;
    var cols := newTable.columns;
    assert forall k :: 0 <= k < old_ ==> cols[k] == current.columns[k];
    // Every column `execute` adds is unassigned or above the old counter.
    assert forall k :: old_ <= k < |cols| ==> cols[k].oid == ColumnOidUnassigned || cols[k].oid > metadata.columnOid;
    forall n | n in newMetadata.tables
      ensures newMetadata.tables[n].ident == n
      ensures UniqueNames(newMetadata.tables[n].columns)
      ensures OidsIssued(newMetadata.tables[n].columns, newMetadata.columnOid)
      ensures Uniform(newMetadata.tables[n])
    {
      if n != name {
        assert newMetadata.tables[n] == metadata.tables[n];
      } else {
        forall j, k | 0 <= j < k < |cols| && cols[j].oid != ColumnOidUnassigned
          ensures cols[j].oid != cols[k].oid
        {
          if k < old_ {
            assert cols[j] == current.columns[j] && cols[k] == current.columns[k];
          }
        }
      }
    }
    forall n, n' | n in newMetadata.tables && n' in newMetadata.tables && n != n'
      ensures DisjointOids(newMetadata.tables[n].columns, newMetadata.tables[n'].columns)
    {
      if n == name {
        NewColumnsDisjoint(current.columns, cols, metadata.tables[n'].columns, metadata.columnOid);
      } else if n' == name {
        NewColumnsDisjoint(current.columns, cols, metadata.tables[n].columns, metadata.columnOid);
      } else {
        assert newMetadata.tables[n] == metadata.tables[n] && newMetadata.tables[n'] == metadata.tables[n'];
      }
    }
  }

  /**
   * Columns that extend `current` with OIDs above `counter` share no assigned
   * OID with a table whose OIDs the counter issued and that shares none with
   * `current`.
   */
  lemma NewColumnsDisjoint(current: seq<Reference>, columns: seq<Reference>, other: seq<Reference>, counter: nat)
    requires |current| <= |columns| && forall k :: 0 <= k < |current| ==> columns[k] == current[k]
    requires forall k :: |current| <= k < |columns| ==> columns[k].oid == ColumnOidUnassigned || columns[k].oid > counter
    requires OidsIssued(other, counter)
    requires DisjointOids(current, other) && DisjointOids(other, current)
    ensures DisjointOids(columns, other) && DisjointOids(other, columns)
  {
  }

  /**
   * Retry safety: once `execute` has produced new metadata, applying the same
   * request to it returns that state unchanged, whether or not the mapper
   * would now accept the table.
   */
  lemma RetryIsNoOp(metadata: Metadata, request: AddColumnRequest, resolve: Resolver, mapperAccepts: MapperCheck,
                    mapperAccepts': MapperCheck)
    requires request.WellFormed()
    requires ReadsStoredTable(resolve) && Consistent(metadata)
    requires ExecuteOutcome(metadata, request, resolve, mapperAccepts).Updated?
    ensures ExecuteOutcome(ExecuteOutcome(metadata, request, resolve, mapperAccepts).metadata, request, resolve, mapperAccepts')
            == Unchanged
  {
    var name := request.relationName;
    var current := resolve(name, metadata).value;
    var supplier := SupplierFor(current.versionCreated);
    var (newTable, counter) := AddColumnsResult(current, request, supplier, metadata.columnOid);
    var newMetadata := ExecuteOutcome(metadata, request, resolve, mapperAccepts).metadata;
    assert newMetadata.tables == metadata.tables[name := newTable];
    assert resolve(name, newMetadata).value == newTable;
    AddColumnsIdempotent(current, request, supplier, metadata.columnOid, SupplierFor(newTable.versionCreated), counter);
  }

  // ---------------------------------------------------------------------------
  // Two worked scenarios

  function AcceptAll(table: TableInfo, metadata: Metadata): bool {
    true
  }

  const ScenarioName := RelationName("doc", "t")
  const ScenarioA := Reference("a", "integer", 1)
  const ScenarioB := Reference("b", "text", ColumnOidUnassigned)
  const ScenarioRequest := AddColumnRequest(ScenarioName, [ScenarioB], [], map[])

  /** The catalog holding only `t` with column `a` (OID 1), created at `created`, counter at 1. */
  function ScenarioMetadata(created: Version): Metadata {
    Metadata(map[ScenarioName := TableInfo(ScenarioName, [ScenarioA], [], map[], created)], 1)
  }

  /**
   * Adding `b` to a table created at 5.5.0 gives `b` OID 2 and moves the
   * counter to 2; adding it again returns the state unchanged.
   */
  lemma OidAwareScenario()
    ensures var m := ScenarioMetadata(V_5_5_0);
      var expected := Metadata(map[ScenarioName := m.tables[ScenarioName].(columns := [ScenarioA, ScenarioB.(oid := 2)])], 2);
      && ExecuteOutcome(m, ScenarioRequest, Lookup, AcceptAll) == Updated(expected)
      && ExecuteOutcome(expected, ScenarioRequest, Lookup, AcceptAll) == Unchanged
  {
    var m := ScenarioMetadata(V_5_5_0);
    var current := m.tables[ScenarioName];
    var newTable := current.(columns := [ScenarioA, ScenarioB.(oid := 2)]);
    AppendOneNewColumn(current.columns, BuilderCounter, 1);
    assert current.columns + [ScenarioB.(oid := 2)] == newTable.columns;
    assert AddColumnsResult(current, ScenarioRequest, BuilderCounter, 1) == (newTable, 2);
    var expected := Metadata(map[ScenarioName := newTable], 2);
    assert m.tables[ScenarioName := newTable] == expected.tables;
    assert ExecuteOutcome(m, ScenarioRequest, Lookup, AcceptAll) == Updated(expected);
    assert Consistent(m);
    LookupReadsStoredTable();
    RetryIsNoOp(m, ScenarioRequest, Lookup, AcceptAll, AcceptAll);
  }

  /** Adding `b` to a table created at 5.4.0 leaves `b` without an OID and the counter at 1. */
  lemma LegacyScenario()
    ensures var m := ScenarioMetadata(Release(5, 4, 0));
      ExecuteOutcome(m, ScenarioRequest, Lookup, AcceptAll)
      == Updated(Metadata(map[ScenarioName := m.tables[ScenarioName].(columns := [ScenarioA, ScenarioB])], 1))
  {
    var m := ScenarioMetadata(Release(5, 4, 0));
    var current := m.tables[ScenarioName];
    var newTable := current.(columns := [ScenarioA, ScenarioB]);
    assert SupplierFor(current.versionCreated) == Constant(ColumnOidUnassigned);
    AppendOneNewColumn(current.columns, Constant(ColumnOidUnassigned), 1);
    assert current.columns + [ScenarioB.(oid := ColumnOidUnassigned)] == newTable.columns;
    assert AddColumnsResult(current, ScenarioRequest, Constant(ColumnOidUnassigned), 1) == (newTable, 1);
    assert m.tables[ScenarioName := newTable] == map[ScenarioName := newTable];
  }

  /** Appending `b` to columns without `b` draws one OID for it. */
  lemma AppendOneNewColumn(columns: seq<Reference>, supplier: OidSupplier, counter: nat)
    requires !HasColumn(columns, "b")
    ensures var drawn := Supply(supplier, counter);
      Appended(columns, [ScenarioB], supplier, counter) == (columns + [ScenarioB.(oid := drawn.0)], drawn.1)
  {
  }
}
