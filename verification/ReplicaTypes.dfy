/** SQLite files as the replica tools see them, and what it means that two agree. */
module ReplicaTypes {
  import opened Outcomes
  import opened Encodings
  import opened Digests
  import opened TableDigests
  import opened KeyedTables

  type Name = string

  datatype ObjectKind = TableObject | IndexObject | TriggerObject | ViewObject | OtherObject

  /** A row of `sqlite_master`, automatic indexes left out. */
  datatype Object = Object(kind: ObjectKind, name: Name, table: Name, sql: Option<string>)

  datatype Database = Database(
    schema: set<Object>, pragmas: seq<string>, tables: map<Name, seq<Row>>, sequence: seq<(Name, int)>)

  datatype File = Absent | Corrupt | Intact(db: Database)

  /** `Invalid`, `Mismatch` and `Sqlite` are the errors that make `sync_replica` heal
      itself: ReplicaInvalid, ReconciliationError and sqlite3.DatabaseError.  `Unforced` is
      the OSError of the fsync that follows the rename of a rebuilt replica, `Fatal` any other. */
  datatype Status = Fine | Invalid | Mismatch | Sqlite | Fatal | Unforced {

    predicate IsFailure() { !Fine? }

    function PropagateFailure(): Status
      requires IsFailure()
    {
      this
    }
  }

  const FTS_TABLE: Name := "items_fts"
  const FTS_SHADOWS: set<Name> :=
    {"items_fts_config", "items_fts_content", "items_fts_data", "items_fts_docsize", "items_fts_idx"}
  const SEQUENCE: Name := "sqlite_sequence"
  const SEQUENCE_OBJECT: Object := Object(TableObject, SEQUENCE, SEQUENCE, Some("CREATE TABLE sqlite_sequence(name,seq)"))
  const GENERATIONS: Name := "archive_cache_generations"

  /** What the SQL of an object says: is it the FTS5 table, any virtual table, a trigger
      that writes to the FTS table (the test of SqlTriggers), a table with AUTOINCREMENT;
      and a table's columns. */
  datatype Engine = Engine(
    hash: Hash, isFts: string -> bool, isVirtual: string -> bool, mutatesFts: string -> bool,
    autoincrement: Object -> bool, shape: Object -> Shape)

  predicate IsFtsTable(e: Engine, o: Object) {
    o.kind.TableObject? && o.name == FTS_TABLE && o.sql.Some? && e.isFts(o.sql.value)
  }

  /** `_fts_objects` is not empty. */
  predicate HasFts(e: Engine, schema: set<Object>) {
    exists o :: o in schema && IsFtsTable(e, o)
  }

  /** In `_fts_owned_objects`, given that the FTS table is there. */
  predicate FtsOwned(e: Engine, o: Object) {
    || (o.kind.TableObject? && (o.name == FTS_TABLE || o.name in FTS_SHADOWS))
    || (o.kind.TriggerObject? && o.sql.Some? && e.mutatesFts(o.sql.value))
  }

  /** `included_schema_rows`. */
  function Included(e: Engine, schema: set<Object>): set<Object> {
    if HasFts(e, schema) then set o | o in schema && !FtsOwned(e, o) else schema
  }

  /** When `included_schema_rows` raises nothing. */
  predicate Supported(e: Engine, schema: set<Object>) {
    forall o :: o in Included(e, schema) ==> !o.kind.OtherObject? && (o.name == SEQUENCE || o.sql.Some?)
  }

  /** The tables that are compared and copied. */
  function Tables(e: Engine, schema: set<Object>): set<Object> {
    set o | o in Included(e, schema) && o.kind.TableObject? && o.name != SEQUENCE
  }

  function Triggers(schema: set<Object>): set<Object> {
    set o | o in schema && o.kind.TriggerObject?
  }

  function Rows(db: Database, o: Object): seq<Row> {
    if o.name in db.tables then db.tables[o.name] else []
  }

  /** What SQLite promises of a file that passes its check. */
  ghost predicate Stored(e: Engine, db: Database) {
    && (forall o :: o in Tables(e, db.schema) && e.shape(o).keys != [] ==> TableOk(e.shape(o), Rows(db, o)))
    && (forall o :: o in Tables(e, db.schema) ==> o.name in db.tables)
    && (forall o, p :: o in Tables(e, db.schema) && p in Tables(e, db.schema) && o.name == p.name ==> o == p)
  }

  ghost predicate FileOk(e: Engine, f: File) {
    f.Intact? ==> Stored(e, f.db)
  }

  // ---------- agreement ----------

  /** `_validate_replica_shape` raises nothing. */
  predicate SameShape(e: Engine, a: Database, b: Database) {
    && !HasFts(e, a.schema) && Supported(e, a.schema) && Supported(e, b.schema)
    && Included(e, a.schema) == Included(e, b.schema)
    && a.pragmas == b.pragmas
  }

  /** The rows as ORDER BY the key lists them. */
  function Ordered(s: Shape, rows: seq<Row>): seq<Row> {
    s.order(multiset(rows))
  }

  /** The comparison `reconcile_replica` makes for one table. */
  predicate SameDigest(h: Hash, s: Shape, a: seq<Row>, b: seq<Row>) {
    && |a| == |b|
    && if Nullable(s, a, b) then MultisetDigestOf(h, a) == MultisetDigestOf(h, b)
       else h(EncodeRows(Ordered(s, a))) == h(EncodeRows(Ordered(s, b)))
  }

  ghost predicate NoTableClash(h: Hash, s: Shape, a: seq<Row>, b: seq<Row>) {
    if Nullable(s, a, b) then NoMultisetClash(h, a, b)
    else NoClash(h, EncodeRows(Ordered(s, a)), EncodeRows(Ordered(s, b)))
  }

  /** `reconcile_replica` raises nothing. */
  predicate Agrees(e: Engine, a: Database, b: Database) {
    && SameShape(e, a, b)
    && (forall o :: o in Tables(e, a.schema) ==> e.shape(o).keys != [])
    && TablesAgree(e, a, b, Tables(e, a.schema))
    && a.sequence == b.sequence
  }

  /** The hash collides on nothing the reconciliation feeds it. */
  ghost predicate NoClashes(e: Engine, a: Database, b: Database) {
    forall o :: o in Tables(e, a.schema) ==> NoTableClash(e.hash, e.shape(o), Rows(a, o), Rows(b, o))
  }

  /** No FTS objects, and otherwise equal: schema, pragmas, typed rows, sequences. */
  ghost predicate Equal(e: Engine, a: Database, b: Database) {
    && !HasFts(e, a.schema) && a.schema == Included(e, b.schema)
    && a.pragmas == b.pragmas
    && TablesEqual(e, a, b, Tables(e, b.schema))
    && a.sequence == b.sequence
  }

  lemma OrderedIs(s: Shape, a: seq<Row>, b: seq<Row>)
    ensures Ordered(s, a) == Ordered(s, b) <==> multiset(a) == multiset(b)
    ensures RowsFit(a) ==> RowsFit(Ordered(s, a))
  {
    assert multiset(Ordered(s, a)) == multiset(a) && multiset(Ordered(s, b)) == multiset(b);
    forall r | r in Ordered(s, a) ensures r in a {
      assert r in multiset(Ordered(s, a));
    }
  }

  /** One table: equal digests exactly for equal rows. */
  lemma SameDigestIs(h: Hash, s: Shape, a: seq<Row>, b: seq<Row>)
    requires TableOk(s, a) && TableOk(s, b) && s.keys != [] && NoTableClash(h, s, a, b)
    ensures SameDigest(h, s, a, b) <==> multiset(a) == multiset(b)
  {
    if multiset(a) == multiset(b) { SameLength(a, b); }
    if Nullable(s, a, b) {
      MultisetDigestDetermines(h, a, b);
    } else {
      OrderedIs(s, a, b);
      OrderedIs(s, b, a);
      TableDigestDetermines(h, Ordered(s, a), Ordered(s, b));
    }
  }

  ghost predicate TablesEqual(e: Engine, a: Database, b: Database, all: set<Object>) {
    forall o :: o in all ==> multiset(Rows(a, o)) == multiset(Rows(b, o))
  }

  predicate TablesAgree(e: Engine, a: Database, b: Database, all: set<Object>) {
    forall o :: o in all ==> SameDigest(e.hash, e.shape(o), Rows(a, o), Rows(b, o))
  }

  lemma TablesAgreeIs(e: Engine, a: Database, b: Database, all: set<Object>)
    requires forall o :: o in all ==> TableOk(e.shape(o), Rows(a, o)) && TableOk(e.shape(o), Rows(b, o))
    requires forall o :: o in all ==> NoTableClash(e.hash, e.shape(o), Rows(a, o), Rows(b, o))
    requires forall o :: o in all ==> e.shape(o).keys != []
    ensures TablesAgree(e, a, b, all) <==> TablesEqual(e, a, b, all)
  {
    forall o | o in all
      ensures SameDigest(e.hash, e.shape(o), Rows(a, o), Rows(b, o)) <==> multiset(Rows(a, o)) == multiset(Rows(b, o))
    {
      SameDigestIs(e.hash, e.shape(o), Rows(a, o), Rows(b, o));
    }
  }

  /** A reconciliation that raises nothing means equal databases, and equal databases
      reconcile. */
  lemma AgreesIs(e: Engine, a: Database, b: Database)
    requires Stored(e, a) && Stored(e, b) && NoClashes(e, a, b)
    requires Supported(e, b.schema)
    requires forall o :: o in Tables(e, b.schema) ==> e.shape(o).keys != []
    ensures Agrees(e, a, b) <==> Equal(e, a, b)
  {
    if Included(e, a.schema) == Included(e, b.schema) {
      assert Tables(e, a.schema) == Tables(e, b.schema);
      TablesAgreeIs(e, a, b, Tables(e, b.schema));
    }
  }

  /** The objects of a copy hold no FTS object. */
  lemma IncludedHasNoFts(e: Engine, schema: set<Object>)
    ensures !HasFts(e, Included(e, schema))
    ensures Included(e, Included(e, schema)) == Included(e, schema)
  {
    if HasFts(e, schema) {
      forall o | o in Included(e, schema) ensures !IsFtsTable(e, o) {
        assert !FtsOwned(e, o);
      }
    }
  }

  // ---------- the copy ----------

  predicate HasAutoincrement(e: Engine, b: Database) {
    exists o :: o in Tables(e, b.schema) && e.autoincrement(o)
  }

  /** SQLite makes the sequence table with the first AUTOINCREMENT table. */
  function SequenceObjects(e: Engine, b: Database): set<Object> {
    if HasAutoincrement(e, b) then {SEQUENCE_OBJECT} else {}
  }

  function NotTables(e: Engine, schema: set<Object>): set<Object> {
    set o | o in Included(e, schema) && !o.kind.TableObject?
  }

  function TableNames(e: Engine, b: Database): set<Name> {
    set o | o in Tables(e, b.schema) :: o.name
  }

  /** The sequences of the copied tables. */
  function SequenceOf(e: Engine, b: Database): seq<(Name, int)> {
    FilterNames(b.sequence, TableNames(e, b))
  }

  function FilterNames(s: seq<(Name, int)>, names: set<Name>): (r: seq<(Name, int)>)
    ensures (forall p :: p in s ==> p.0 in names) ==> r == s
    ensures r == s ==> forall p :: p in s ==> p.0 in names
    ensures forall p :: p in r ==> p.0 in names && p in s
    decreases |s|
  {
    if s == [] then [] else
      assert s == [s[0]] + s[1..];
      if s[0].0 in names then [s[0]] + FilterNames(s[1..], names) else FilterNames(s[1..], names)
  }

  /** What `_build_base_copy` leaves in a new file. */
  ghost predicate CopyOf(e: Engine, b: Database, d: Database) {
    && d.schema == Tables(e, b.schema) + SequenceObjects(e, b) + NotTables(e, b.schema)
    && d.pragmas == b.pragmas
    && (forall o :: o in Tables(e, b.schema) ==> o.name in d.tables)
    && TablesEqual(e, d, b, Tables(e, b.schema))
    && (b.sequence != [] ==> d.sequence == SequenceOf(e, b))
    && (b.sequence == [] && NothingCounted(e, b) ==> d.sequence == [])
  }

  predicate NothingCounted(e: Engine, b: Database) {
    forall o :: o in Tables(e, b.schema) && e.autoincrement(o) ==> Rows(b, o) == []
  }

  /** A snapshot that `_build_base_copy` refuses nothing of. */
  predicate Buildable(e: Engine, b: Database) {
    && Supported(e, b.schema)
    && (forall o :: o in Tables(e, b.schema) ==> !(o.sql.Some? && e.isVirtual(o.sql.value)) && e.shape(o).keys != [])
    && (b.sequence != [] ==> HasAutoincrement(e, b))
  }

  /** The sequence table is there as SQLite makes it, and says what a copy will say. */
  predicate SequenceKept(e: Engine, b: Database) {
    && (set o | o in Included(e, b.schema) && o.kind.TableObject? && o.name == SEQUENCE) == SequenceObjects(e, b)
    && (if b.sequence == [] then NothingCounted(e, b) else SequenceOf(e, b) == b.sequence)
  }

  /** Then the copy is equal to the snapshot. */
  lemma CopyIsEqual(e: Engine, b: Database, d: Database)
    requires CopyOf(e, b, d) && SequenceKept(e, b)
    ensures Equal(e, d, b)
  {
    IncludedHasNoFts(e, b.schema);
    assert d.schema == Included(e, b.schema);
  }

  /** Equal databases reconcile, whatever the hash. */
  lemma EqualAgrees(e: Engine, a: Database, b: Database)
    requires Equal(e, a, b) && Supported(e, b.schema)
    requires forall o :: o in Tables(e, b.schema) ==> e.shape(o).keys != []
    ensures Agrees(e, a, b)
  {
    IncludedHasNoFts(e, b.schema);
    assert Tables(e, a.schema) == Tables(e, b.schema);
    forall o | o in Tables(e, b.schema)
      ensures SameDigest(e.hash, e.shape(o), Rows(a, o), Rows(b, o))
    {
      EqualDigests(e.hash, e.shape(o), Rows(a, o), Rows(b, o));
    }
  }

  lemma EqualDigests(h: Hash, s: Shape, a: seq<Row>, b: seq<Row>)
    requires multiset(a) == multiset(b)
    ensures SameDigest(h, s, a, b)
  {
    SameLength(a, b);
    MapMultiset(EncodeRow, a, b);
    SortedDigestIgnoresOrder(h, MULTISET_HEADER, RowEncodings(a), RowEncodings(b));
  }

  lemma CopyStored(e: Engine, b: Database, d: Database)
    requires Stored(e, b) && CopyOf(e, b, d)
    ensures Tables(e, d.schema) <= Tables(e, b.schema)
    ensures Stored(e, d)
  {
    assert d.schema <= Included(e, b.schema) + {SEQUENCE_OBJECT};
    CopyHasNoFts(e, b, d.schema);
    forall o | o in Tables(e, d.schema) && e.shape(o).keys != []
      ensures TableOk(e.shape(o), Rows(d, o))
    {
      PermutedOk(e.shape(o), Rows(b, o), Rows(d, o));
    }
  }

  lemma CopyHasNoFts(e: Engine, b: Database, schema: set<Object>)
    requires schema <= Included(e, b.schema) + {SEQUENCE_OBJECT}
    ensures !HasFts(e, schema)
  {
    IncludedHasNoFts(e, b.schema);
    assert SEQUENCE != FTS_TABLE by { assert |SEQUENCE| != |FTS_TABLE|; }
  }
}
