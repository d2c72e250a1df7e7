/**
 * Adding columns to a table description (`DocTableInfo.addColumns`) and the
 * OID supplier it draws from.
 *
 * `DocTableInfo` itself is not part of this model: `addColumns` is given the
 * smallest body that has the behaviour `AddColumnTask.execute` relies on.
 * Each requested column whose name the table does not have yet is appended,
 * in request order, with one OID drawn from the supplier; the requested
 * primary-key columns and check constraints the table lacks are added; a
 * request that adds nothing leaves the table as it was.
 */
module DocTables {
  import opened ClusterMetadata

  /** `AddColumnRequest`: the columns to add, which of them join the primary key, new check constraints. */
  datatype AddColumnRequest = AddColumnRequest(
    relationName: RelationName,
    references: seq<Reference>,
    pKeyIndices: seq<int>,
    checkConstraints: map<string, string>)
  {
    /** Every primary-key index points into `references`. */
    predicate WellFormed() {
      forall k :: 0 <= k < |pKeyIndices| ==> 0 <= pKeyIndices[k] < |references|
    }

    function PrimaryKeyNames(): (names: seq<string>)
      requires WellFormed()
      ensures |names| == |pKeyIndices|
    {
      seq(|pKeyIndices|, k requires 0 <= k < |pKeyIndices| => references[pKeyIndices[k]].name)
    }
  }

  /**
   * The `LongSupplier` handed to `addColumns`: either the builder's
   * `columnOidSupplier()` or a lambda that always returns the same value.
   */
  datatype OidSupplier = BuilderCounter | Constant(value: int)

  /** The OID the supplier hands out when the builder's counter stands at `counter`, and the counter after it. */
  function Supply(supplier: OidSupplier, counter: nat): (int, nat) {
    match supplier
    case BuilderCounter => (counter + 1, counter + 1)
    case Constant(v) => (v, counter)
  }

  /** One draw from the supplier; only `BuilderCounter` touches the builder. */
  method Draw(supplier: OidSupplier, builder: MetadataBuilder) returns (oid: int)
    modifies builder
    ensures (oid, builder.columnOid) == Supply(supplier, old(builder.columnOid))
    ensures builder.tables == old(builder.tables)
  {
    match supplier
    case BuilderCounter =>
      oid := builder.NextColumnOid();
    case Constant(v) =>
      oid := v;
  }

  /**
   * The columns after appending, in order, every reference of `refs` whose
   * name is not there yet, each with an OID drawn from `supplier`; and the
   * counter after those draws.
   */
  function Appended(columns: seq<Reference>, refs: seq<Reference>, supplier: OidSupplier, counter: nat): (seq<Reference>, nat)
    decreases |refs|
  {
    if refs == [] then (columns, counter)
    else
      var prev := Appended(columns, refs[..|refs| - 1], supplier, counter);
      var ref := refs[|refs| - 1];
      if HasColumn(prev.0, ref.name) then prev
      else
        var drawn := Supply(supplier, prev.1);
        (prev.0 + [ref.(oid := drawn.0)], drawn.1)
  }

  /** `existing` followed by the names of `added` it does not hold yet, in order. */
  function MergeNames(existing: seq<string>, added: seq<string>): seq<string>
    decreases |added|
  {
    if added == [] then existing
    else
      var merged := MergeNames(existing, added[..|added| - 1]);
      var name := added[|added| - 1];
      if name in merged then merged else merged + [name]
  }

  /** The table `addColumns` returns, and the builder's counter afterwards. */
  function AddColumnsResult(table: TableInfo, request: AddColumnRequest, supplier: OidSupplier, counter: nat): (TableInfo, nat)
    requires request.WellFormed()
  {
    var (columns, n) := Appended(table.columns, request.references, supplier, counter);
    (table.(columns := columns,
            primaryKey := MergeNames(table.primaryKey, request.PrimaryKeyNames()),
            checkConstraints := request.checkConstraints + table.checkConstraints),
     n)
  }

  /** The request holds nothing the table does not already have. */
  predicate NothingNew(table: TableInfo, request: AddColumnRequest)
    requires request.WellFormed()
  {
    && (forall j :: 0 <= j < |request.references| ==> HasColumn(table.columns, request.references[j].name))
    && (forall name :: name in request.PrimaryKeyNames() ==> name in table.primaryKey)
    && request.checkConstraints.Keys <= table.checkConstraints.Keys
  }

  /**
   * `table.addColumns(nodeContext, supplier, references, pKeyIndices, checkConstraints)`:
   * draws from `supplier` once per column it appends.
   */
  method AddColumns(table: TableInfo, request: AddColumnRequest, supplier: OidSupplier, builder: MetadataBuilder)
    returns (newTable: TableInfo)
    requires request.WellFormed()
    modifies builder
    ensures (newTable, builder.columnOid) == AddColumnsResult(table, request, supplier, old(builder.columnOid))
    ensures builder.tables == old(builder.tables)
  {
    var refs := request.references;
    var columns := table.columns;
    var i := 0;
    while i < |refs|
      invariant 0 <= i <= |refs|
      invariant (columns, builder.columnOid) == Appended(table.columns, refs[..i], supplier, old(builder.columnOid))
      invariant builder.tables == old(builder.tables)
    {
      assert refs[..i + 1][..i] == refs[..i];
      if !HasColumn(columns, refs[i].name) {
        var oid := Draw(supplier, builder);
        columns := columns + [refs[i].(oid := oid)];
      }
      i := i + 1;
    }
    assert refs[..i] == refs;
    newTable := table.(columns := columns,
                       primaryKey := MergeNames(table.primaryKey, request.PrimaryKeyNames()),
                       checkConstraints := request.checkConstraints + table.checkConstraints);
  }

  // ---------------------------------------------------------------------------
  // What appending does to the columns and the counter

  /**
   * The existing columns stay in front, unchanged; with the builder's counter
   * the k-th appended column gets the counter's old value plus k + 1 and the
   * counter ends at the last OID handed out; with a constant supplier every
   * appended column gets that constant and the counter does not move.
   */
  lemma {:induction false} AppendedOids(columns: seq<Reference>, refs: seq<Reference>, supplier: OidSupplier, counter: nat)
    ensures var (cols, n) := Appended(columns, refs, supplier, counter);
      && |columns| <= |cols| <= |columns| + |refs|
      && cols[..|columns|] == columns
      && (supplier.BuilderCounter? ==>
            && n == counter + (|cols| - |columns|)
            && forall k :: |columns| <= k < |cols| ==> cols[k].oid == counter + (k - |columns|) + 1)
      && (supplier.Constant? ==>
            && n == counter
            && forall k :: |columns| <= k < |cols| ==> cols[k].oid == supplier.value)
  {
    if refs != [] {
      AppendedOids(columns, refs[..|refs| - 1], supplier, counter);
    }
  }

  /** Every appended column is one of the requested references, with only its OID replaced. */
  lemma {:induction false} AppendedFromRequest(columns: seq<Reference>, refs: seq<Reference>, supplier: OidSupplier, counter: nat)
    ensures var (cols, n) := Appended(columns, refs, supplier, counter);
      forall k :: |columns| <= k < |cols| ==>
        exists j :: 0 <= j < |refs| && cols[k] == refs[j].(oid := cols[k].oid)
  {
    if refs != [] {
      var prefix := refs[..|refs| - 1];
      AppendedFromRequest(columns, prefix, supplier, counter);
      AppendedOids(columns, prefix, supplier, counter);
      var (cols, n) := Appended(columns, refs, supplier, counter);
      var (prev, m) := Appended(columns, prefix, supplier, counter);
      forall k | |columns| <= k < |cols|
        ensures exists j :: 0 <= j < |refs| && cols[k] == refs[j].(oid := cols[k].oid)
      {
        if k < |prev| {
          var j :| 0 <= j < |prefix| && prev[k] == prefix[j].(oid := prev[k].oid);
          assert refs[j] == prefix[j];
        } else {
          assert cols[k] == refs[|refs| - 1].(oid := cols[k].oid);
        }
      }
    }
  }

  /** After appending, every requested name is a column. */
  lemma {:induction false} AppendedCovers(columns: seq<Reference>, refs: seq<Reference>, supplier: OidSupplier, counter: nat)
    ensures var (cols, n) := Appended(columns, refs, supplier, counter);
      forall j :: 0 <= j < |refs| ==> HasColumn(cols, refs[j].name)
  {
    if refs != [] {
      var prefix := refs[..|refs| - 1];
      AppendedCovers(columns, prefix, supplier, counter);
      var (cols, n) := Appended(columns, refs, supplier, counter);
      var (prev, m) := Appended(columns, prefix, supplier, counter);
      forall j | 0 <= j < |refs|
        ensures HasColumn(cols, refs[j].name)
      {
        if j < |prefix| {
          assert refs[j] == prefix[j];
          var i :| 0 <= i < |prev| && prev[i].name == prefix[j].name;
          assert cols[i] == prev[i];
        } else if !HasColumn(prev, refs[j].name) {
          assert cols[|cols| - 1].name == refs[j].name;
        }
      }
    }
  }

  /** Appending changes nothing exactly when every requested name is already a column. */
  lemma {:induction false} AppendedUnchangedIff(columns: seq<Reference>, refs: seq<Reference>, supplier: OidSupplier, counter: nat)
    ensures Appended(columns, refs, supplier, counter).0 == columns <==>
              forall j :: 0 <= j < |refs| ==> HasColumn(columns, refs[j].name)
  {
    AppendedCovers(columns, refs, supplier, counter);
    if refs != [] && forall j :: 0 <= j < |refs| ==> HasColumn(columns, refs[j].name) {
      var prefix := refs[..|refs| - 1];
      forall j | 0 <= j < |prefix| ensures HasColumn(columns, prefix[j].name) {
        assert prefix[j] == refs[j];
      }
      AppendedUnchangedIff(columns, prefix, supplier, counter);
      assert HasColumn(columns, refs[|refs| - 1].name);
    }
  }

  /** Appending never introduces a second column of the same name. */
  lemma {:induction false} AppendedKeepsNamesUnique(columns: seq<Reference>, refs: seq<Reference>, supplier: OidSupplier, counter: nat)
    requires UniqueNames(columns)
    ensures UniqueNames(Appended(columns, refs, supplier, counter).0)
  {
    if refs != [] {
      AppendedKeepsNamesUnique(columns, refs[..|refs| - 1], supplier, counter);
    }
  }

  // ---------------------------------------------------------------------------
  // Merging primary-key names

  /** The existing names stay in front, every added name ends up in the result, and nothing else does. */
  lemma {:induction false} MergeNamesCovers(existing: seq<string>, added: seq<string>)
    ensures var merged := MergeNames(existing, added);
      && |existing| <= |merged|
      && merged[..|existing|] == existing
      && (forall name :: name in added ==> name in merged)
      && (forall name :: name in merged ==> name in existing || name in added)
  {
    if added != [] {
      var prefix := added[..|added| - 1];
      MergeNamesCovers(existing, prefix);
      assert added == prefix + [added[|added| - 1]];
    }
  }

  /** Merging changes nothing exactly when every added name is already there. */
  lemma {:induction false} MergeNamesUnchangedIff(existing: seq<string>, added: seq<string>)
    ensures MergeNames(existing, added) == existing <==> forall name :: name in added ==> name in existing
  {
    MergeNamesCovers(existing, added);
    if added != [] && forall name :: name in added ==> name in existing {
      var prefix := added[..|added| - 1];
      assert added == prefix + [added[|added| - 1]];
      MergeNamesUnchangedIff(existing, prefix);
    }
  }

  // ---------------------------------------------------------------------------
  // addColumns as a whole

  /** `addColumns` returns the table unchanged exactly when the request holds nothing new. */
  lemma AddColumnsUnchangedIff(table: TableInfo, request: AddColumnRequest, supplier: OidSupplier, counter: nat)
    requires request.WellFormed()
    ensures AddColumnsResult(table, request, supplier, counter).0 == table <==> NothingNew(table, request)
  {
    AppendedUnchangedIff(table.columns, request.references, supplier, counter);
    MergeNamesUnchangedIff(table.primaryKey, request.PrimaryKeyNames());
    var merged := request.checkConstraints + table.checkConstraints;
    if request.checkConstraints.Keys <= table.checkConstraints.Keys {
      assert merged == table.checkConstraints;
    }
  }

  /** When `addColumns` changes nothing it draws no OID: the counter stays where it was. */
  lemma UnchangedDrawsNothing(table: TableInfo, request: AddColumnRequest, supplier: OidSupplier, counter: nat)
    requires request.WellFormed()
    requires AddColumnsResult(table, request, supplier, counter).0 == table
    ensures AddColumnsResult(table, request, supplier, counter).1 == counter
  {
    AppendedOids(table.columns, request.references, supplier, counter);
  }

  /**
   * Applying the same request to the table `addColumns` returned changes
   * nothing more, whatever the supplier and the counter then are.
   */
  lemma AddColumnsIdempotent(table: TableInfo, request: AddColumnRequest, supplier: OidSupplier, counter: nat,
                             supplier': OidSupplier, counter': nat)
    requires request.WellFormed()
    ensures var added := AddColumnsResult(table, request, supplier, counter).0;
      AddColumnsResult(added, request, supplier', counter').0 == added
  {
    var added := AddColumnsResult(table, request, supplier, counter).0;
    AppendedCovers(table.columns, request.references, supplier, counter);
    MergeNamesCovers(table.primaryKey, request.PrimaryKeyNames());
    assert NothingNew(added, request);
    AddColumnsUnchangedIff(added, request, supplier', counter');
  }
}
