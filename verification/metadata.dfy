/**
 * The cluster-wide catalog: table descriptions, the immutable metadata
 * snapshot, the builder that stages edits to it, and the cluster state
 * that wraps it.
 */
module ClusterMetadata {
  import opened Versions

  /** A table's identity: schema and table name. */
  datatype RelationName = RelationName(schema: string, name: string)

  /** The OID of a column that has none (tables created before 5.5.0). */
  const ColumnOidUnassigned: int := 0

  /** A column definition with its OID. */
  datatype Reference = Reference(name: string, valueType: string, oid: int)

  /** The description of one table (a `DocTableInfo`), an immutable value. */
  datatype TableInfo = TableInfo(
    ident: RelationName,
    columns: seq<Reference>,
    primaryKey: seq<string>,
    checkConstraints: map<string, string>,
    versionCreated: Version)

  /** An immutable metadata snapshot: the stored tables and the column-OID counter. */
  datatype Metadata = Metadata(tables: map<RelationName, TableInfo>, columnOid: nat)

  predicate HasColumn(columns: seq<Reference>, name: string) {
    exists k | 0 <= k < |columns| :: columns[k].name == name
  }

  predicate UniqueNames(columns: seq<Reference>) {
    forall j, k :: 0 <= j < k < |columns| ==> columns[j].name != columns[k].name
  }

  /** Every assigned OID has been issued by a counter now at `counter`, and none repeats. */
  predicate OidsIssued(columns: seq<Reference>, counter: nat) {
    && (forall k :: 0 <= k < |columns| ==> columns[k].oid == ColumnOidUnassigned || 0 < columns[k].oid <= counter)
    && (forall j, k :: 0 <= j < k < |columns| && columns[j].oid != ColumnOidUnassigned ==> columns[j].oid != columns[k].oid)
  }

  /**
   * A table's identity scheme is fixed by its creation version: a column has
   * no OID exactly when the table was created before 5.5.0.
   */
  predicate Uniform(table: TableInfo) {
    forall k :: 0 <= k < |table.columns| ==>
      (table.columns[k].oid == ColumnOidUnassigned <==> table.versionCreated.Before(V_5_5_0))
  }

  /** No assigned OID of `a` occurs in `b`. */
  predicate DisjointOids(a: seq<Reference>, b: seq<Reference>) {
    forall j, k :: 0 <= j < |a| && 0 <= k < |b| && a[j].oid != ColumnOidUnassigned ==> a[j].oid != b[k].oid
  }

  /**
   * The catalog invariant: every table is stored under its own name, its
   * column names are unique, its OIDs were issued by the counter and follow
   * its creation version, and no assigned OID occurs twice in the catalog.
   */
  predicate Consistent(metadata: Metadata) {
    && (forall n :: n in metadata.tables ==>
          && metadata.tables[n].ident == n
          && UniqueNames(metadata.tables[n].columns)
          && OidsIssued(metadata.tables[n].columns, metadata.columnOid)
          && Uniform(metadata.tables[n]))
    && (forall n, n' :: n in metadata.tables && n' in metadata.tables && n != n' ==>
          DisjointOids(metadata.tables[n].columns, metadata.tables[n'].columns))
  }

  /**
   * `Metadata.Builder`: starts as a copy of a snapshot, stages table
   * replacements and hands out column OIDs, and is finalized by `Build`.
   */
  class MetadataBuilder {
    var tables: map<RelationName, TableInfo>
    var columnOid: nat

    /** `Metadata.builder(metadata)`. */
    constructor (metadata: Metadata)
      ensures tables == metadata.tables && columnOid == metadata.columnOid
    {
      tables := metadata.tables;
      columnOid := metadata.columnOid;
    }

    /** One call of `columnOidSupplier()`: advances the counter and returns its new value. */
    method NextColumnOid() returns (oid: int)
      modifies this
      ensures columnOid == old(columnOid) + 1 && oid == columnOid
      ensures oid != ColumnOidUnassigned
      ensures tables == old(tables)
    {
      columnOid := columnOid + 1;
      oid := columnOid;
    }

    /** Stages `table`, replacing whatever is stored under its name. */
    method Put(table: TableInfo)
      modifies this
      ensures tables == old(tables)[table.ident := table]
      ensures columnOid == old(columnOid)
    {
      tables := tables[table.ident := table];
    }

    /** `build()`: a snapshot holding every staged table and the counter as it now stands. */
    method Build() returns (metadata: Metadata)
      ensures metadata.tables == tables && metadata.columnOid == columnOid
    {
      metadata := Metadata(tables, columnOid);
    }
  }

  /**
   * `ClusterState`: the metadata plus every other part of the cluster state
   * (`others`, left opaque). Immutable: a new state is a new object.
   */
  class ClusterState<P> {
    const metadata: Metadata
    const others: P

    /** `ClusterState.builder(state).metadata(metadata).build()`, given `state.others`. */
    constructor (metadata: Metadata, others: P)
      ensures this.metadata == metadata && this.others == others
    {
      this.metadata := metadata;
      this.others := others;
    }
  }
}
