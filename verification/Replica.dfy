/** `sync_replica` of deploy/sync/logical_delta.py and everything it calls. */
module Replicas {
  import opened Outcomes
  import opened Encodings
  import opened Digests
  import opened TableDigests
  import opened Deltas
  import opened KeyedTables
  import opened ReplicaTypes

  /** The change `_apply_delta` computes for the table `o`. */
  function Planned(e: Engine, a: Database, b: Database, o: Object): Change {
    ChangeFor(e.hash, e.shape(o), Rows(a, o), Rows(b, o))
  }

  predicate IsPlan(e: Engine, a: Database, b: Database, o: Object, c: Change) {
    c == Planned(e, a, b, o)
  }

  /** Nothing is executed for this table. */
  predicate Idle(c: Change) {
    match c
    case Replace(r, _) => r.None?
    case Delta(i, u, d) => i == [] && u == [] && d == []
  }

  function Total(changes: seq<Change>): nat {
    if changes == [] then 0 else Total(changes[..|changes| - 1]) + Count(changes[|changes| - 1])
  }

  lemma {:induction false} TotalZero(changes: seq<Change>)
    requires Total(changes) == 0
    ensures forall c :: c in changes ==> Count(c) == 0
  {
    if changes != [] {
      TotalZero(changes[..|changes| - 1]);
      assert changes == changes[..|changes| - 1] + [changes[|changes| - 1]];
    }
  }

  /** A planned change that counts nothing does nothing. */
  lemma CountZeroIsIdle(e: Engine, a: Database, b: Database, o: Object)
    requires Count(Planned(e, a, b, o)) == 0
    ensures Idle(Planned(e, a, b, o))
  {
    SameLength(InOrder(Rows(b, o)), Rows(b, o));
    if Nullable(e.shape(o), Rows(a, o), Rows(b, o)) {
      assert |Rows(a, o)| == 0 && |Rows(b, o)| == 0 ==> Rows(a, o) == Rows(b, o);
    }
  }

  lemma IdleIsIdentity(d: RowKeying, c: Change, a: seq<Row>)
    requires Idle(c)
    ensures AppliedBy(d, c, a) == a
  {
    if c.Delta? { assert a + [] == a; }
  }

  /** The updates of this change would alter nothing. */
  predicate NoUpdates(d: RowKeying, c: Change, a: seq<Row>) {
    c.Delta? ==>
      var mid := DeleteAll(d, a, c.deletes) + c.inserts;
      UpdateAll(d, mid, c.updates) == mid
  }

  /** Some trigger is attached to the table `n`. */
  predicate Fires(db: Database, n: Name) {
    exists t :: t in db.schema && t.kind.TriggerObject? && t.table == n
  }

  function WithRows(db: Database, n: Name, rows: seq<Row>): Database {
    db.(tables := db.tables[n := rows])
  }

  /** A list of all tables, each once, the cache generations last. */
  ghost predicate ApplyOrder(tables: seq<Object>, all: set<Object>) {
    && (forall o :: o in tables <==> o in all)
    && (forall i, j :: 0 <= i < j < |tables| ==> tables[i] != tables[j])
    && (forall i :: 0 <= i < |tables| - 1 ==> tables[i].name != GENERATIONS)
  }

  function Plans(e: Engine, a: Database, b: Database, tables: seq<Object>): seq<Change> {
    Map((o: Object) => Planned(e, a, b, o), tables)
  }

  /** The operations `_apply_delta` reports. */
  function Reported(e: Engine, a: Database, b: Database, tables: seq<Object>): nat {
    Total(Plans(e, a, b, tables)) + if a.sequence == b.sequence then 0 else |a.sequence| + |b.sequence|
  }

  /** Writing a table twice is writing it the second time. */
  lemma WroteTwice(a: Database, b: Database, d: Database, o: Object, x: seq<Row>, y: seq<Row>)
    requires b == WithRows(a, o.name, x).(sequence := b.sequence)
    requires d == WithRows(b, o.name, y).(sequence := d.sequence)
    ensures d == WithRows(a, o.name, y).(sequence := d.sequence)
  {
  }

  /** Every table of `a` changed as planned against `b`; schema and pragmas as before. */
  predicate PlanApplied(e: Engine, a: Database, b: Database, d: Database) {
    && d.schema == a.schema && d.pragmas == a.pragmas
    && a.tables.Keys <= d.tables.Keys
    && (forall o :: o in Tables(e, a.schema) ==> Rows(d, o) == Applied(e.shape(o), Planned(e, a, b, o), Rows(a, o)))
    && (a.sequence != b.sequence ==> d.sequence == b.sequence)
  }

  lemma DeltaStored(e: Engine, a: Database, b: Database, d: Database)
    requires Stored(e, a) && Stored(e, b) && PlanApplied(e, a, b, d)
    requires Included(e, a.schema) == Included(e, b.schema)
    ensures Stored(e, d)
  {
    forall o | o in Tables(e, d.schema) && e.shape(o).keys != []
      ensures TableOk(e.shape(o), Rows(d, o))
    {
      AppliedOk(e.hash, e.shape(o), Rows(a, o), Rows(b, o));
    }
  }

  lemma PlannedNoUpdates(e: Engine, a: Database, b: Database, o: Object)
    requires Wide(e.shape(o), Rows(a, o)) && Wide(e.shape(o), Rows(b, o)) && AllKeys(e.shape(o))
    ensures NoUpdates(ByKey(e.shape(o)), Planned(e, a, b, o), Rows(a, o))
  {
    var s, c := e.shape(o), Planned(e, a, b, o);
    if c.Delta? {
      DeleteAllSubset(ByKey(s), Rows(a, o), c.deletes);
      UpdatesIdle(s, DeleteAll(ByKey(s), Rows(a, o), c.deletes) + c.inserts, c.updates);
    }
  }

  datatype Mode = Bootstrap | Incremental | SelfHeal

  /** What the changes make of the tables, in order. */
  function Results(e: Engine, a: Database, b: Database, tables: seq<Object>): seq<seq<Row>> {
    Map((o: Object) => Applied(e.shape(o), Planned(e, a, b, o), Rows(a, o)), tables)
  }

  /** The first `i` tables have their results, the others are as they were. */
  ghost predicate Progress(a: Database, d: Database, tables: seq<Object>, results: seq<seq<Row>>, i: nat)
    requires |results| == |tables|
  {
    && (forall j :: 0 <= j < |tables| ==> tables[j].name in d.tables)
    && (forall j :: 0 <= j < |tables| ==> Rows(d, tables[j]) == if j < i then results[j] else Rows(a, tables[j]))
  }

  /** After the last statement. */
  ghost predicate Written(a: Database, b: Database, tables: seq<Object>, results: seq<seq<Row>>,
                          schema: set<Object>, d: Database)
    requires |results| == |tables|
  {
    && d.schema == schema && d.pragmas == a.pragmas && a.tables.Keys <= d.tables.Keys
    && Progress(a, d, tables, results, |tables|)
    && (a.sequence != b.sequence ==> d.sequence == b.sequence)
  }

  lemma PlanIsApplied(e: Engine, a: Database, b: Database, tables: seq<Object>, d: Database)
    requires ApplyOrder(tables, Tables(e, a.schema))
    requires Written(a, b, tables, Results(e, a, b, tables), a.schema, d)
    ensures PlanApplied(e, a, b, d)
  {
    forall o | o in Tables(e, a.schema)
      ensures Rows(d, o) == Applied(e.shape(o), Planned(e, a, b, o), Rows(a, o))
    {
      var j :| 0 <= j < |tables| && tables[j] == o;
    }
  }

  /** The preconditions of `_apply_delta`'s transaction. */
  ghost predicate Comparable(e: Engine, a: Database, b: Database) {
    && Stored(e, a) && Stored(e, b) && !HasFts(e, a.schema)
    && Included(e, a.schema) == Included(e, b.schema)
    && (forall o :: o in Tables(e, a.schema) ==> e.shape(o).keys != [])
  }

  lemma ReadyOne(e: Engine, a: Database, b: Database, o: Object, d: Database)
    requires Wide(e.shape(o), Rows(a, o)) && Wide(e.shape(o), Rows(b, o))
    requires Fires(d, o.name) ==> Count(Planned(e, a, b, o)) == 0
    ensures ReadyFor(e, a, d, o, Planned(e, a, b, o), Applied(e.shape(o), Planned(e, a, b, o), Rows(a, o)))
  {
    if AllKeys(e.shape(o)) { PlannedNoUpdates(e, a, b, o); }
    if Fires(d, o.name) { CountZeroIsIdle(e, a, b, o); }
  }

  /** No change, or no trigger: nothing fires for any table that is written. */
  lemma NothingFires(e: Engine, a: Database, b: Database, d: Database, n: Name)
    requires !HasFts(e, a.schema) && Included(e, a.schema) == Included(e, b.schema)
    requires d.schema == a.schema - Triggers(Included(e, b.schema))
    ensures !Fires(d, n)
  {
  }

  lemma ComparableTable(e: Engine, a: Database, b: Database, o: Object)
    requires Comparable(e, a, b) && o in Tables(e, a.schema)
    ensures TableOk(e.shape(o), Rows(a, o)) && TableOk(e.shape(o), Rows(b, o)) && o.name in a.tables
  {
    assert o in Tables(e, b.schema);
  }

  /** Before the first statement nothing has been written, and every table is ready. */
  lemma ReadyToApply(e: Engine, a: Database, b: Database, tables: seq<Object>, changes: seq<Change>,
                     d: Database, writes: bool)
    requires Comparable(e, a, b)
    requires ApplyOrder(tables, Tables(e, a.schema)) && changes == Plans(e, a, b, tables)
    requires writes == (Total(changes) > 0)
    requires d == a.(schema := if writes then a.schema - Triggers(Included(e, b.schema)) else a.schema)
    ensures AllReady(e, a, d, tables, changes, Results(e, a, b, tables))
  {
    if !writes { TotalZero(changes); }
    forall i | 0 <= i < |tables|
      ensures ReadyPlan(e, a, b, tables[i], d)
    {
      assert tables[i] in tables && changes[i] in changes;
      ReadyAt(e, a, b, tables[i], d, writes);
    }
    OthersNamed(e, a, tables);
    EachReady(e, a, b, tables, d);
  }

  lemma ReadyToCommit(e: Engine, a: Database, b: Database, tables: seq<Object>, changes: seq<Change>, dropped: set<Object>)
    requires Comparable(e, a, b)
    requires ApplyOrder(tables, Tables(e, a.schema)) && changes == Plans(e, a, b, tables)
    requires dropped == if Total(changes) > 0 then Triggers(Included(e, b.schema)) else {}
    ensures dropped <= a.schema
    ensures AllReady(e, a, a.(schema := a.schema - dropped), tables, changes, Results(e, a, b, tables))
  {
    assert a.schema - {} == a.schema;
    ReadyToApply(e, a, b, tables, changes, a.(schema := a.schema - dropped), Total(changes) > 0);
  }

  ghost predicate ReadyPlan(e: Engine, a: Database, b: Database, o: Object, d: Database) {
    o.name in d.tables && ReadyFor(e, a, d, o, Planned(e, a, b, o), Applied(e.shape(o), Planned(e, a, b, o), Rows(a, o)))
  }

  lemma EachReady(e: Engine, a: Database, b: Database, tables: seq<Object>, d: Database)
    requires d.tables == a.tables && OtherNames(tables)
    requires forall i :: 0 <= i < |tables| ==> ReadyPlan(e, a, b, tables[i], d)
    ensures AllReady(e, a, d, tables, Plans(e, a, b, tables), Results(e, a, b, tables))
  {
    forall i | 0 <= i < |tables|
      ensures ReadyFor(e, a, d, tables[i], Plans(e, a, b, tables)[i], Results(e, a, b, tables)[i])
    {
      assert ReadyPlan(e, a, b, tables[i], d);
    }
  }

  lemma ReadyAt(e: Engine, a: Database, b: Database, o: Object, d: Database, writes: bool)
    requires Comparable(e, a, b) && o in Tables(e, a.schema)
    requires d == a.(schema := if writes then a.schema - Triggers(Included(e, b.schema)) else a.schema)
    requires !writes ==> Count(Planned(e, a, b, o)) == 0
    ensures ReadyPlan(e, a, b, o, d)
  {
    ComparableTable(e, a, b, o);
    if writes { NothingFires(e, a, b, d, o.name); }
    ReadyOne(e, a, b, o, d);
  }

  lemma OthersNamed(e: Engine, a: Database, tables: seq<Object>)
    requires Stored(e, a) && ApplyOrder(tables, Tables(e, a.schema))
    ensures OtherNames(tables)
  {
    forall i, j | 0 <= i < j < |tables| ensures tables[i].name != tables[j].name {
      assert tables[i] in tables && tables[j] in tables;
    }
  }

  ghost predicate AllReady(e: Engine, a: Database, d: Database, tables: seq<Object>, changes: seq<Change>, results: seq<seq<Row>>) {
    && |changes| == |results| == |tables| && OtherNames(tables)
    && Progress(a, d, tables, results, 0)
    && (forall i :: 0 <= i < |tables| ==> ReadyFor(e, a, d, tables[i], changes[i], results[i]))
  }

  ghost predicate ReadyFor(e: Engine, a: Database, d: Database, o: Object, c: Change, result: seq<Row>) {
    && (AllKeys(e.shape(o)) ==> NoUpdates(ByKey(e.shape(o)), c, Rows(a, o)))
    && result == Applied(e.shape(o), c, Rows(a, o))
    && (Fires(d, o.name) ==> Idle(c))
  }

  /** `operations` is what some order of the tables adds up to. */
  ghost predicate Reports(e: Engine, a: Database, b: Database, tables: seq<Object>, operations: nat) {
    ApplyOrder(tables, Tables(e, a.schema)) && operations == Reported(e, a, b, tables)
  }

  ghost predicate ChangedAsPlanned(e: Engine, a: Database, b: Database, d: Database, operations: nat) {
    && Included(e, a.schema) == Included(e, b.schema)
    && PlanApplied(e, a, b, d)
    && (exists tables :: Reports(e, a, b, tables, operations))
  }

  predicate OtherNames(tables: seq<Object>) {
    forall i, j :: 0 <= i < j < |tables| ==> tables[i].name != tables[j].name
  }

  lemma Progresses(a: Database, d: Database, tables: seq<Object>, results: seq<seq<Row>>, i: nat, d': Database)
    requires |results| == |tables| && i < |tables| && OtherNames(tables)
    requires Progress(a, d, tables, results, i)
    requires d'.tables == d.tables[tables[i].name := results[i]]
    ensures Progress(a, d', tables, results, i + 1)
  {
    forall j | 0 <= j < |tables|
      ensures tables[j].name in d'.tables
      ensures Rows(d', tables[j]) == if j < i + 1 then results[j] else Rows(a, tables[j])
    {
      assert j != i ==> tables[j].name != tables[i].name;
    }
  }

  /** The new file while its tables are filled: `pending` are still empty. */
  ghost predicate Filling(e: Engine, b: Database, d: Database, pending: set<Object>) {
    && d.schema == Tables(e, b.schema) + SequenceObjects(e, b) && d.pragmas == b.pragmas
    && (forall o :: o in Tables(e, b.schema) ==> o.name in d.tables)
    && TablesEqual(e, d, b, Tables(e, b.schema) - pending)
    && (forall o :: o in pending ==> Rows(d, o) == [])
    && (NothingCounted(e, b) ==> d.sequence == [])
  }

  /** The tables are created, and with the first AUTOINCREMENT one the sequence table. */
  function NewFile(e: Engine, b: Database): Database {
    Database(Tables(e, b.schema) + SequenceObjects(e, b), b.pragmas, map n | n in TableNames(e, b) :: [], [])
  }

  lemma NewFileFilling(e: Engine, b: Database)
    ensures Filling(e, b, NewFile(e, b), Tables(e, b.schema))
  {
    assert Tables(e, b.schema) - Tables(e, b.schema) == {};
    assert forall o :: o in Tables(e, b.schema) ==> o.name in TableNames(e, b);
  }

  /** Filling one more table. */
  lemma Fills(e: Engine, b: Database, d: Database, pending: set<Object>, o: Object, d': Database, rows: seq<Row>)
    requires Stored(e, b) && Filling(e, b, d, pending) && pending <= Tables(e, b.schema) && o in pending
    requires d' == WithRows(d, o.name, rows).(sequence := d'.sequence)
    requires multiset(rows) == multiset(Rows(b, o)) && (NothingCounted(e, b) ==> d'.sequence == [])
    ensures Filling(e, b, d', pending - {o})
  {
    forall p | p in Tables(e, b.schema) && p != o ensures Rows(d', p) == Rows(d, p) {
      assert p.name != o.name;
    }
    forall p | p in Tables(e, b.schema) - (pending - {o}) ensures multiset(Rows(d', p)) == multiset(Rows(b, p)) {
      if p != o { assert p in Tables(e, b.schema) - pending; }
    }
  }

  /** A table of the new file has no trigger. */
  lemma NoTriggerYet(e: Engine, b: Database, d: Database, n: Name)
    requires d.schema == Tables(e, b.schema) + SequenceObjects(e, b)
    ensures !Fires(d, n)
  {
  }

  class ReplicaSync {
    const e: Engine
    const snapshot: File
    /** The live database and the two artifacts are different files. */
    const distinct: bool
    /** No disk or database error happens, but for the one of `lateFault`. */
    var calm: bool
    /** The fsync after a rename of the rebuilt replica fails. */
    var lateFault: bool
    /** How often a rebuilt replica was renamed into place. */
    ghost var renames: nat
    var replica: File
    var temporary: File
    /** The database an open transaction is changing. */
    var work: Database

    ghost predicate Valid()
      reads this
    {
      FileOk(e, snapshot) && FileOk(e, replica) && temporary.Absent?
    }

    constructor (e: Engine, snapshot: File, distinct: bool, calm: bool, lateFault: bool, replica: File)
      requires FileOk(e, snapshot) && FileOk(e, replica)
      ensures Valid() && this.e == e && this.snapshot == snapshot && this.replica == replica
      ensures this.distinct == distinct && this.calm == calm && this.lateFault == lateFault
    {
      this.e, this.snapshot, this.distinct, this.replica := e, snapshot, distinct, replica;
      this.calm, this.lateFault := calm, lateFault;
      this.temporary, this.work, this.renames := Absent, Database({}, [], map[], []), 0;
    }

    /** A command that fails with `error` unless the host is calm. */
    method Try(error: Status) returns (st: Status)
      ensures st.Fine? || st == error
      ensures calm ==> st.Fine?
    {
      var fails: bool := *;
      st := if fails && !calm then error else Fine;
    }

    // ---------------- checks ----------------

    /** `_validate_replica_shape` of the file `f` against the snapshot. */
    method ValidateShape(f: File) returns (st: Status)
      ensures st.Fine? || st.Invalid?
      ensures st.Fine? ==> f.Intact? && snapshot.Intact? && SameShape(e, f.db, snapshot.db)
      ensures calm && f.Intact? && snapshot.Intact? && SameShape(e, f.db, snapshot.db) ==> st.Fine?
    {
      if !f.Intact? || !snapshot.Intact? { return Invalid; }
      if HasFts(e, f.db.schema) { return Invalid; }
      if !Supported(e, f.db.schema) || !Supported(e, snapshot.db.schema) { return Invalid; }
      if Included(e, f.db.schema) != Included(e, snapshot.db.schema) { return Invalid; }
      if f.db.pragmas != snapshot.db.pragmas { return Invalid; }
      st := Try(Invalid);
    }

    /** One table of `reconcile_replica`. */
    method SameTable(o: Object, a: seq<Row>, b: seq<Row>) returns (same: bool)
      ensures same == SameDigest(e.hash, e.shape(o), a, b)
    {
      var s := e.shape(o);
      if Nullable(s, a, b) {
        var na, da := TableMultisetDigest(e.hash, a);
        var nb, db := TableMultisetDigest(e.hash, b);
        same := na == nb && da == db;
      } else {
        var na, da := TableDigest(e.hash, Ordered(s, a));
        var nb, db := TableDigest(e.hash, Ordered(s, b));
        SameLength(Ordered(s, a), a);
        SameLength(Ordered(s, b), b);
        same := na == nb && da == db;
      }
    }

    /** `reconcile_replica` of the file `f` against the snapshot. */
    method Reconcile(f: File) returns (st: Status)
      ensures st.Fine? || st.Invalid? || st.Mismatch? || st.Sqlite?
      ensures st.Fine? ==> f.Intact? && snapshot.Intact? && Agrees(e, f.db, snapshot.db)
      ensures calm && f.Intact? && snapshot.Intact? && Agrees(e, f.db, snapshot.db) ==> st.Fine?
    {
      st := ValidateShape(f);
      if st.IsFailure() { return; }
      var pending := Tables(e, f.db.schema);
      while pending != {}
        invariant pending <= Tables(e, f.db.schema)
        invariant forall o :: o in Tables(e, f.db.schema) - pending ==> e.shape(o).keys != []
        invariant TablesAgree(e, f.db, snapshot.db, Tables(e, f.db.schema) - pending)
        decreases |pending|
      {
        var o :| o in pending;
        if e.shape(o).keys == [] { return Invalid; }
        var same := SameTable(o, Rows(f.db, o), Rows(snapshot.db, o));
        if !same { return Mismatch; }
        pending := pending - {o};
      }
      if f.db.sequence != snapshot.db.sequence { return Mismatch; }
      st := Try(Sqlite);
    }

    // ---------------- statements ----------------

    /** A statement that leaves table `n` with these rows.  What a trigger would do
        instead is anything; an insert may move the sequence of an AUTOINCREMENT table. */
    method Execute(n: Name, rows: seq<Row>, counted: bool) returns (st: Status)
      modifies this`work
      ensures st.Fine? || st.Sqlite?
      ensures calm ==> st.Fine?
      ensures st.Fine? && !Fires(old(work), n) ==> work == WithRows(old(work), n, rows).(sequence := work.sequence)
      ensures !counted && !Fires(old(work), n) ==> work.sequence == old(work).sequence
    {
      if Fires(work, n) {
        var any: Database := *;
        work := any;
      } else {
        work := WithRows(work, n, rows);
        if counted {
          var moved: seq<(Name, int)> := *;
          work := work.(sequence := moved);
        }
      }
      st := Try(Sqlite);
    }

    /** Work differs from `before` in the rows of `n` and perhaps the sequence. */
    ghost predicate Wrote(before: Database, n: Name, rows: seq<Row>)
      reads this
    {
      work == WithRows(before, n, rows).(sequence := work.sequence)
    }

    method ExecuteDeletes(o: Object, d: RowKeying, ks: seq<Row>) returns (st: Status)
      requires !Fires(work, o.name) && o.name in work.tables
      modifies this`work
      ensures st.Fine? || st.Sqlite?
      ensures calm ==> st.Fine?
      ensures st.Fine? ==> Wrote(old(work), o.name, DeleteAll(d, Rows(old(work), o), ks))
    {
      ghost var before := work;
      ghost var final := DeleteAll(d, Rows(work, o), ks);
      assert ks[0..] == ks;
      for i := 0 to |ks|
        invariant o.name in work.tables && Wrote(before, o.name, Rows(work, o))
        invariant DeleteAll(d, Rows(work, o), ks[i..]) == final
      {
        DeleteAllStep(d, Rows(work, o), ks, i);
        :- Execute(o.name, DeleteRow(d, Rows(work, o), ks[i]), false);
      }
      DeleteAllStep(d, Rows(work, o), ks, |ks|);
      st := Fine;
    }

    method ExecuteInserts(o: Object, new_: seq<Row>) returns (st: Status)
      requires !Fires(work, o.name) && o.name in work.tables
      modifies this`work
      ensures st.Fine? || st.Sqlite?
      ensures calm ==> st.Fine?
      ensures st.Fine? ==> Wrote(old(work), o.name, Rows(old(work), o) + new_)
      ensures st.Fine? && !e.autoincrement(o) ==> work.sequence == old(work).sequence
    {
      ghost var before := work;
      for i := 0 to |new_|
        invariant o.name in work.tables && Wrote(before, o.name, Rows(work, o))
        invariant Rows(work, o) == Rows(before, o) + new_[..i]
        invariant !e.autoincrement(o) ==> work.sequence == before.sequence
      {
        Grows(new_, i);
        Assoc(Rows(before, o), new_[..i], [new_[i]]);
        :- Execute(o.name, Rows(work, o) + [new_[i]], e.autoincrement(o));
      }
      assert new_[..|new_|] == new_;
      st := Fine;
    }

    method ExecuteUpdates(o: Object, d: RowKeying, us: seq<Row>) returns (st: Status)
      requires !Fires(work, o.name) && o.name in work.tables
      modifies this`work
      ensures st.Fine? || st.Sqlite?
      ensures calm ==> st.Fine?
      ensures st.Fine? ==> Wrote(old(work), o.name, UpdateAll(d, Rows(old(work), o), us))
    {
      ghost var before := work;
      ghost var final := UpdateAll(d, Rows(work, o), us);
      assert us[0..] == us;
      for i := 0 to |us|
        invariant o.name in work.tables && Wrote(before, o.name, Rows(work, o))
        invariant UpdateAll(d, Rows(work, o), us[i..]) == final
      {
        UpdateAllStep(d, Rows(work, o), us, i);
        :- Execute(o.name, UpdateRows(d, Rows(work, o), us[i]), false);
      }
      UpdateAllStep(d, Rows(work, o), us, |us|);
      st := Fine;
    }


    // ---------------- the delta ----------------

    /** What is executed for one table. */
    method ApplyChange(o: Object, s: Shape, d: RowKeying, c: Change) returns (st: Status)
      requires o.name in work.tables && (Fires(work, o.name) ==> Idle(c))
      requires AllKeys(s) ==> NoUpdates(d, c, Rows(work, o))
      modifies this`work
      ensures st.Fine? || st.Sqlite?
      ensures calm ==> st.Fine?
      ensures st.Fine? ==> Wrote(old(work), o.name, AppliedBy(d, c, Rows(old(work), o)))
    {
      if Idle(c) {
        IdleIsIdentity(d, c, Rows(work, o));
        return Fine;
      }
      match c {
        case Replace(r, _) => st := ApplyReplace(o, r.value);
        case Delta(_, _, _) => st := ApplyDeletesInsertsUpdates(o, s, d, c);
      }
    }

    method ApplyReplace(o: Object, replacement: seq<Row>) returns (st: Status)
      requires !Fires(work, o.name)
      modifies this`work
      ensures st.Fine? || st.Sqlite?
      ensures calm ==> st.Fine?
      ensures st.Fine? ==> Wrote(old(work), o.name, replacement)
    {
      st := Execute(o.name, [], false);
      if st.IsFailure() { return; }
      st := ExecuteInserts(o, replacement);
      assert [] + replacement == replacement;
    }

    method ApplyDeletesInsertsUpdates(o: Object, s: Shape, d: RowKeying, c: Change) returns (st: Status)
      requires o.name in work.tables && !Fires(work, o.name) && c.Delta?
      requires AllKeys(s) ==> NoUpdates(d, c, Rows(work, o))
      modifies this`work
      ensures st.Fine? || st.Sqlite?
      ensures calm ==> st.Fine?
      ensures st.Fine? ==> Wrote(old(work), o.name, AppliedBy(d, c, Rows(old(work), o)))
    {
      ghost var before := work;
      st := ApplyDeletesInserts(o, d, c);
      if st.IsFailure() || AllKeys(s) { return; }
      ghost var mid := work;
      st := ExecuteUpdates(o, d, c.updates);
      if st.Fine? { WroteTwice(before, mid, work, o, Rows(mid, o), Rows(work, o)); }
    }

    method ApplyDeletesInserts(o: Object, d: RowKeying, c: Change) returns (st: Status)
      requires o.name in work.tables && !Fires(work, o.name) && c.Delta?
      modifies this`work
      ensures st.Fine? || st.Sqlite?
      ensures calm ==> st.Fine?
      ensures st.Fine? ==> Wrote(old(work), o.name, DeleteAll(d, Rows(old(work), o), c.deletes) + c.inserts)
      ensures st.Fine? ==> o.name in work.tables && !Fires(work, o.name)
      ensures st.Fine? ==> Rows(work, o) == DeleteAll(d, Rows(old(work), o), c.deletes) + c.inserts
    {
      ghost var before := work;
      st := ExecuteDeletes(o, d, c.deletes);
      if st.IsFailure() { return; }
      ghost var mid := work;
      st := ExecuteInserts(o, c.inserts);
      if st.Fine? { WroteTwice(before, mid, work, o, Rows(mid, o), Rows(work, o)); }
    }

    /** `sorted(tables)`, in any order that lists each table once. */
    method ListAll(all: set<Object>) returns (tables: seq<Object>)
      ensures forall o :: o in tables <==> o in all
      ensures forall i, j :: 0 <= i < j < |tables| ==> tables[i] != tables[j]
    {
      tables := [];
      var pending := all;
      while pending != {}
        invariant pending <= all
        invariant forall o :: o in tables <==> o in all - pending
        invariant forall i, j :: 0 <= i < j < |tables| ==> tables[i] != tables[j]
        decreases |pending|
      {
        var o :| o in pending;
        assert forall i :: 0 <= i < |tables| ==> tables[i] in tables;
        tables := tables + [o];
        pending := pending - {o};
      }
    }

    method ListTables(all: set<Object>) returns (tables: seq<Object>)
      requires forall o, p :: o in all && p in all && o.name == p.name ==> o == p
      ensures ApplyOrder(tables, all)
    {
      var first := set o | o in all && o.name != GENERATIONS;
      tables := ListAll(first);
      assert forall i :: 0 <= i < |tables| ==> tables[i] in first;
      if g: Object :| g in all && g.name == GENERATIONS {
        assert all == first + {g};
        tables := tables + [g];
      }
    }

    /** The change of one table. */
    method Plan(o: Object, a: Database, b: Database, ghost plan: Change) returns (c: Change)
      requires IsPlan(e, a, b, o, plan)
      ensures c == plan
    {
      var s := e.shape(o);
      if Nullable(s, Rows(a, o), Rows(b, o)) {
        var na, da := TableMultisetDigest(e.hash, Rows(a, o));
        var nb, db := TableMultisetDigest(e.hash, Rows(b, o));
        c := Replace(if na == nb && da == db then None else Some(InOrder(Rows(b, o))), na);
      } else {
        c := ChangeFor(e.hash, s, Rows(a, o), Rows(b, o));
      }
    }

    /** A table without a primary key is refused. */
    method AllHaveKeys(tables: seq<Object>) returns (ok: bool)
      ensures ok <==> forall i :: 0 <= i < |tables| ==> e.shape(tables[i]).keys != []
    {
      for i := 0 to |tables|
        invariant forall j :: 0 <= j < i ==> e.shape(tables[j]).keys != []
      {
        if e.shape(tables[i]).keys == [] { return false; }
      }
      ok := true;
    }

    /** The loop that fills `changes`; `plans` are the changes to come out. */
    method PlanAll(tables: seq<Object>, a: Database, b: Database, ghost plans: seq<Change>) returns (changes: seq<Change>)
      requires |plans| == |tables| && forall i :: 0 <= i < |tables| ==> IsPlan(e, a, b, tables[i], plans[i])
      ensures changes == plans
    {
      changes := [];
      for i := 0 to |tables|
        invariant changes == plans[..i]
      {
        var c := Plan(tables[i], a, b, plans[i]);
        Grows(plans, i);
        changes := changes + [c];
      }
    }

    method CountAll(changes: seq<Change>) returns (total: nat)
      ensures total == Total(changes)
    {
      total := 0;
      for i := 0 to |changes|
        invariant total == Total(changes[..i])
      {
        assert changes[..i + 1][..i] == changes[..i];
        total := total + Count(changes[i]);
      }
      assert changes[..|changes|] == changes;
    }

    method DropTriggers(triggers: set<Object>) returns (st: Status)
      modifies this`work
      ensures st.Fine? || st.Sqlite?
      ensures calm ==> st.Fine?
      ensures st.Fine? ==> work == old(work).(schema := old(work).schema - triggers)
    {
      var pending := triggers;
      while pending != {}
        invariant pending <= triggers
        invariant work == old(work).(schema := old(work).schema - (triggers - pending))
        decreases |pending|
      {
        var t :| t in pending;
        :- Try(Sqlite);
        work := work.(schema := work.schema - {t});
        pending := pending - {t};
      }
      st := Fine;
    }

    method CreateTriggers(triggers: set<Object>) returns (st: Status)
      modifies this`work
      ensures st.Fine? || st.Sqlite?
      ensures calm ==> st.Fine?
      ensures st.Fine? ==> work == old(work).(schema := old(work).schema + triggers)
    {
      var pending := triggers;
      while pending != {}
        invariant pending <= triggers
        invariant work == old(work).(schema := old(work).schema + (triggers - pending))
        decreases |pending|
      {
        var t :| t in pending;
        :- Try(Sqlite);
        work := work.(schema := work.schema + {t});
        pending := pending - {t};
      }
      st := Fine;
    }


    /** The tables one after the other. */
    method ApplyAll(tables: seq<Object>, changes: seq<Change>, ghost a: Database, ghost results: seq<seq<Row>>)
      returns (st: Status)
      requires AllReady(e, a, work, tables, changes, results)
      modifies this`work
      ensures st.Fine? || st.Sqlite?
      ensures calm ==> st.Fine?
      ensures st.Fine? ==> work.schema == old(work).schema && work.pragmas == old(work).pragmas
      ensures st.Fine? ==> old(work).tables.Keys <= work.tables.Keys
      ensures st.Fine? ==> Progress(a, work, tables, results, |tables|)
    {
      ghost var before := work;
      for i := 0 to |tables|
        invariant work.schema == before.schema && work.pragmas == before.pragmas
        invariant before.tables.Keys <= work.tables.Keys
        invariant Progress(a, work, tables, results, i)
      {
        ghost var d := work;
        var o := tables[i];
        assert Rows(work, o) == Rows(a, o);
        :- ApplyChange(o, e.shape(o), ByKey(e.shape(o)), changes[i]);
        Progresses(a, d, tables, results, i, work);
      }
      st := Fine;
    }

    /** Between BEGIN and COMMIT: without the triggers, if anything is to be written. */
    method Transact(tables: seq<Object>, changes: seq<Change>, dropped: set<Object>, a: Database, b: Database,
                    ghost results: seq<seq<Row>>)
      returns (st: Status)
      requires work == a && dropped <= a.schema
      requires AllReady(e, a, a.(schema := a.schema - dropped), tables, changes, results)
      modifies this`work
      ensures st.Fine? || st.Sqlite?
      ensures calm ==> st.Fine?
      ensures st.Fine? ==> Written(a, b, tables, results, a.schema, work)
    {
      st := DropTriggers(dropped);
      if st.IsFailure() { return; }
      :- WriteTables(tables, changes, a, b, results);
      st := CreateTriggers(dropped);
      assert a.schema - dropped + dropped == a.schema;
    }

    method WriteTables(tables: seq<Object>, changes: seq<Change>, a: Database, b: Database, ghost results: seq<seq<Row>>)
      returns (st: Status)
      requires AllReady(e, a, work, tables, changes, results)
      requires work == a.(schema := work.schema)
      modifies this`work
      ensures st.Fine? || st.Sqlite?
      ensures calm ==> st.Fine?
      ensures st.Fine? ==> Written(a, b, tables, results, old(work).schema, work)
    {
      st := ApplyAll(tables, changes, a, results);
      if st.IsFailure() { return; }
      st := Fine;
      if a.sequence != b.sequence {
        st := Try(Sqlite);
        work := work.(sequence := b.sequence);
      }
    }

    method Commit(tables: seq<Object>, changes: seq<Change>, dropped: set<Object>, a: Database, b: Database,
                  ghost results: seq<seq<Row>>) returns (st: Status)
      requires dropped <= a.schema
      requires AllReady(e, a, a.(schema := a.schema - dropped), tables, changes, results)
      modifies this`work
      ensures st.Fine? || st.Sqlite?
      ensures calm ==> st.Fine?
      ensures st.Fine? ==> Written(a, b, tables, results, a.schema, work)
    {
      work := a;
      :- Transact(tables, changes, dropped, a, b, results);
      st := Try(Sqlite);
    }

    /** Run the transaction and, when it commits, keep its result. */
    method Keep(tables: seq<Object>, changes: seq<Change>, dropped: set<Object>, a: Database, b: Database)
      returns (st: Status)
      requires Valid() && Comparable(e, a, b) && replica == Intact(a)
      requires ApplyOrder(tables, Tables(e, a.schema)) && changes == Plans(e, a, b, tables)
      requires dropped == if Total(changes) > 0 then Triggers(Included(e, b.schema)) else {}
      modifies this`replica, this`work
      ensures Valid()
      ensures st.Fine? || st.Sqlite?
      ensures !st.Fine? ==> replica == old(replica)
      ensures st.Fine? ==> replica.Intact? && PlanApplied(e, a, b, replica.db)
    {
      ReadyToCommit(e, a, b, tables, changes, dropped);
      :- Commit(tables, changes, dropped, a, b, Results(e, a, b, tables));
      PlanIsApplied(e, a, b, tables, work);
      DeltaStored(e, a, b, work);
      replica := Intact(work);
      st := Fine;
    }

    /** `_apply_delta`.  An error rolls the transaction back. */
    method ApplyDelta() returns (st: Status, operations: nat)
      requires Valid() && replica.Intact? && !HasFts(e, replica.db.schema)
      modifies this`replica, this`work
      ensures Valid()
      ensures !st.Fatal? && !st.Unforced?
      ensures !st.Fine? ==> replica == old(replica)
      ensures st.Fine? ==> snapshot.Intact? && replica.Intact?
      ensures st.Fine? ==> ChangedAsPlanned(e, old(replica).db, snapshot.db, replica.db, operations)
    {
      operations := 0;
      if !snapshot.Intact? { return Sqlite, 0; }
      var a, b := replica.db, snapshot.db;
      if !Supported(e, a.schema) || !Supported(e, b.schema) || Included(e, a.schema) != Included(e, b.schema) {
        return Invalid, 0;
      }
      var tables := ListTables(Tables(e, a.schema));
      var keyed := AllHaveKeys(tables);
      if !keyed { return Invalid, 0; }
      var changes := PlanAll(tables, a, b, Plans(e, a, b, tables));
      var total := CountAll(changes);
      operations := total + if a.sequence == b.sequence then 0 else |a.sequence| + |b.sequence|;
      st := Keep(tables, changes, if total > 0 then Triggers(Included(e, b.schema)) else {}, a, b);
      assert Reports(e, a, b, tables, operations);
    }

    // ---------------- rebuild ----------------

    /** The rows of one table into the new file. */
    method CopyTable(o: Object, rows: seq<Row>) returns (st: Status)
      requires !Fires(work, o.name) && o.name in work.tables && Rows(work, o) == []
      modifies this`work
      ensures st.Fine? || st.Sqlite?
      ensures calm ==> st.Fine?
      ensures st.Fine? ==> Wrote(old(work), o.name, Rows(work, o)) && multiset(Rows(work, o)) == multiset(rows)
      ensures st.Fine? && (e.autoincrement(o) ==> rows == []) ==> work.sequence == old(work).sequence
    {
      var s := e.shape(o);
      if HasNullKey(s, rows) {
        st := ExecuteInserts(o, InOrder(rows));
        assert [] + InOrder(rows) == InOrder(rows);
      } else {
        st := Execute(o.name, Ordered(s, rows), e.autoincrement(o) && rows != []);
      }
    }

    method FillTables(b: Database) returns (st: Status)
      requires Stored(e, b) && Filling(e, b, work, Tables(e, b.schema))
      modifies this`work
      ensures st.Fine? || st.Sqlite? || st.Invalid?
      ensures st.Fine? ==> Filling(e, b, work, {}) && forall o :: o in Tables(e, b.schema) ==> e.shape(o).keys != []
      ensures calm && (forall o :: o in Tables(e, b.schema) ==> e.shape(o).keys != []) ==> st.Fine?
    {
      var all := Tables(e, b.schema);
      var pending := all;
      while pending != {}
        invariant pending <= all && Filling(e, b, work, pending)
        invariant forall o :: o in all - pending ==> e.shape(o).keys != []
        decreases |pending|
      {
        var o :| o in pending;
        if e.shape(o).keys == [] { return Invalid; }
        ghost var d := work;
        NoTriggerYet(e, b, work, o.name);
        :- CopyTable(o, Rows(b, o));
        Fills(e, b, d, pending, o, work, Rows(work, o));
        pending := pending - {o};
      }
      st := Fine;
    }

    /** Sequences, then indexes, views and triggers, then COMMIT. */
    method FinishCopy(b: Database) returns (st: Status)
      requires Filling(e, b, work, {})
      modifies this`work, this`temporary
      ensures st.Fine? || st.Sqlite?
      ensures !st.Fine? ==> temporary == old(temporary)
      ensures st.Fine? ==> temporary.Intact? && CopyOf(e, b, temporary.db)
      ensures st.Fine? ==> b.sequence != [] ==> HasAutoincrement(e, b)
      ensures calm && (b.sequence != [] ==> HasAutoincrement(e, b)) ==> st.Fine?
    {
      if b.sequence != [] {
        if !HasAutoincrement(e, b) { return Sqlite; }
        work := work.(sequence := SequenceOf(e, b));
      }
      work := work.(schema := work.schema + NotTables(e, b.schema));
      :- Try(Sqlite);
      assert Tables(e, b.schema) - {} == Tables(e, b.schema);
      temporary := Intact(work);
      st := Fine;
    }

    /** `_build_base_copy` into the temporary file. */
    method BuildBaseCopy() returns (st: Status)
      requires FileOk(e, snapshot)
      modifies this`work, this`temporary
      ensures st.Fine? || st.Invalid? || st.Sqlite?
      ensures !st.Fine? ==> temporary == old(temporary)
      ensures st.Fine? ==> snapshot.Intact? && Buildable(e, snapshot.db)
      ensures st.Fine? ==> temporary.Intact? && CopyOf(e, snapshot.db, temporary.db)
      ensures calm && snapshot.Intact? && Buildable(e, snapshot.db) ==> st.Fine?
    {
      if !snapshot.Intact? { return Invalid; }
      var b := snapshot.db;
      if !Supported(e, b.schema) { return Invalid; }
      var all := Tables(e, b.schema);
      if exists o :: o in all && o.sql.Some? && e.isVirtual(o.sql.value) { return Invalid; }
      :- Try(Sqlite);
      work := NewFile(e, b);
      NewFileFilling(e, b);
      :- FillTables(b);
      st := FinishCopy(b);
    }

    /** `_replace_with_base_copy`.  A failed call has replaced the replica if and only if the
        rename took place and the fsync after it failed. */
    method ReplaceWithBaseCopy() returns (st: Status)
      requires Valid()
      modifies this`replica, this`temporary, this`work, this`renames
      ensures Valid()
      ensures renames == old(renames) + if st.Fine? || st.Unforced? then 1 else 0
      ensures if st.Fine? || st.Unforced? then Reconciled() else replica == old(replica)
      ensures calm ==> (st.Unforced? ==> lateFault) && (st.Fine? ==> !lateFault)
      ensures calm && snapshot.Intact? && Buildable(e, snapshot.db) && SequenceKept(e, snapshot.db) ==>
                st == if lateFault then Unforced else Fine
    {
      st := BuildBaseCopy();
      if st.Fine? {
        BuiltIsSound(e, snapshot.db, temporary.db);
        st := Reconcile(temporary);
        if st.Fine? { st := Publish(); }
      }
      temporary := Absent;
    }

    /** The replica has been compared with the snapshot in every table. */
    ghost predicate Reconciled()
      reads this
    {
      replica.Intact? && snapshot.Intact? && Agrees(e, replica.db, snapshot.db)
    }

    /** `os.replace`, then the fsync that may still fail. */
    method Publish() returns (st: Status)
      modifies this`replica, this`renames
      ensures st.Fine? || st.Fatal? || st.Unforced?
      ensures replica == if st.Fatal? then old(replica) else temporary
      ensures renames == old(renames) + if st.Fatal? then 0 else 1
      ensures calm ==> st == if lateFault then Unforced else Fine
    {
      st := Try(Fatal);
      if st.IsFailure() { return; }
      replica, renames := temporary, renames + 1;
      st := Try(Unforced);
      if lateFault { st := Unforced; }
    }

    // ---------------- the whole round ----------------

    /** Validate, delta, reconcile, fsync: the body of the `try`. */
    method Increment() returns (st: Status, operations: nat)
      requires Valid() && replica.Intact?
      modifies this`replica, this`work
      ensures Valid() && replica.Intact?
      ensures st.Fine? ==> Reconciled()
      ensures st.Fine? ==> ChangedAsPlanned(e, old(replica).db, snapshot.db, replica.db, operations)
      ensures replica == old(replica) || Delivered(old(replica).db)
      ensures st.Fine? ==> SameShape(e, old(replica).db, snapshot.db)
      ensures !st.Unforced? && (st.Fatal? ==> !calm)
    {
      operations := 0;
      st := ValidateShape(replica);
      if !st.Fine? { return; }
      st, operations := ApplyDelta();
      if !st.Fine? { return; }
      st := Reconcile(replica);
      if !st.Fine? { return; }
      st := Try(Fatal);
    }

    /** The replica is `a` after a committed delta to the snapshot. */
    ghost predicate Delivered(a: Database)
      reads this
    {
      replica.Intact? && snapshot.Intact? && PlanApplied(e, a, snapshot.db, replica.db)
    }

    /** `sync_replica`.  A failed round has published a rebuilt replica if and only if it
        ended in the fsync after the rename; otherwise the replica is the one before or,
        after a delta that did not reconcile, that one with the delta. */
    method Sync() returns (st: Status, mode: Mode, operations: nat)
      requires Valid()
      modifies this`replica, this`temporary, this`work, this`renames
      ensures Valid()
      ensures st.Fine? || st.Unforced? ==> Reconciled()
      ensures !st.Fine? ==> (renames != old(renames) <==> st.Unforced?)
      ensures renames == old(renames) ==>
                replica == old(replica) || (old(replica).Intact? && Delivered(old(replica).db))
      ensures renames != old(renames) <==> !mode.Incremental? && (st.Fine? || st.Unforced?)
      ensures st.Fine? && mode.Incremental? ==>
        old(replica).Intact? && ChangedAsPlanned(e, old(replica).db, snapshot.db, replica.db, operations)
      ensures st.Fine? ==> (mode.Bootstrap? <==> old(replica).Absent?)
      ensures mode.Incremental? && st.Fine? ==> SameShape(e, old(replica).db, snapshot.db)
      ensures calm && distinct && snapshot.Intact? && Buildable(e, snapshot.db) && SequenceKept(e, snapshot.db) ==>
                st == if lateFault && !mode.Incremental? then Unforced else Fine
    {
      mode, operations := Incremental, 0;
      if !distinct || snapshot.Absent? { return Fatal, mode, operations; }
      if replica.Absent? {
        mode := Bootstrap;
        st := ReplaceWithBaseCopy();
        return;
      }
      st := Invalid;
      if replica.Intact? {
        st, operations := Increment();
        if st.Fine? || st.Fatal? { return; }
      }
      mode, operations := SelfHeal, 0;
      st := ReplaceWithBaseCopy();
    }
  }

  /** It does happen: a round that heals a replica of another shape, or builds the first one,
      fails in its last fsync with the rebuilt replica published. */
  method FailedRoundPublishes(e: Engine, b: Database, was: File) returns (sync: ReplicaSync, st: Status)
    requires Stored(e, b) && Buildable(e, b) && SequenceKept(e, b) && FileOk(e, was)
    requires was.Intact? ==> !SameShape(e, was.db, b)
    ensures sync.snapshot == Intact(b) && sync.e == e && st.Unforced? && sync.Reconciled()
    ensures sync.replica != was
  {
    sync := new ReplicaSync(e, Intact(b), true, true, true, was);
    var mode, operations;
    st, mode, operations := sync.Sync();
  }

  /** A copy is a sound file, and agrees with its snapshot if the sequences could be kept. */
  lemma BuiltIsSound(e: Engine, b: Database, d: Database)
    requires Stored(e, b) && Buildable(e, b) && CopyOf(e, b, d)
    ensures FileOk(e, Intact(d))
    ensures SequenceKept(e, b) ==> Agrees(e, d, b)
  {
    CopyStored(e, b, d);
    if SequenceKept(e, b) {
      CopyIsEqual(e, b, d);
      EqualAgrees(e, d, b);
    }
  }

  /** A reconciled replica equals the snapshot: no FTS objects, the same schema, pragmas,
      typed rows and sequences. */
  lemma ReconciledIsEqual(e: Engine, a: Database, b: Database)
    requires Stored(e, a) && Stored(e, b) && NoClashes(e, a, b)
    requires Agrees(e, a, b)
    ensures Equal(e, a, b)
  {
    assert Tables(e, a.schema) == Tables(e, b.schema);
    AgreesIs(e, a, b);
  }

  /** The hash collides on none of the null-key tables that the delta compares. */
  ghost predicate NoDeltaClash(e: Engine, a: Database, b: Database) {
    forall o :: o in Tables(e, a.schema) && Nullable(e.shape(o), Rows(a, o), Rows(b, o)) ==>
      NoMultisetClash(e.hash, Rows(a, o), Rows(b, o))
  }

  /** Every table has null keys, or one representation for each row the two share. */
  ghost predicate Representable(e: Engine, a: Database, b: Database) {
    forall o :: o in Tables(e, a.schema) ==>
      Nullable(e.shape(o), Rows(a, o), Rows(b, o)) || OneRepresentation(e.shape(o), Rows(a, o), Rows(b, o))
  }

  /** The delta alone reaches the snapshot exactly for representable tables, provided the
      sequences came out right; for any other replica only the rebuild does. */
  lemma DeltaReachesSnapshot(e: Engine, a: Database, b: Database, d: Database)
    requires Comparable(e, a, b) && NoDeltaClash(e, a, b) && a.pragmas == b.pragmas
    requires PlanApplied(e, a, b, d)
    ensures Equal(e, d, b) <==> Representable(e, a, b) && d.sequence == b.sequence
  {
    forall o | o in Tables(e, a.schema)
      ensures (multiset(Rows(d, o)) == multiset(Rows(b, o)))
                <==> (Nullable(e.shape(o), Rows(a, o), Rows(b, o)) || OneRepresentation(e.shape(o), Rows(a, o), Rows(b, o)))
    {
      ComparableTable(e, a, b, o);
      ChangeIsExact(e.hash, e.shape(o), Rows(a, o), Rows(b, o));
    }
    assert Tables(e, a.schema) == Tables(e, b.schema);
  }

  lemma {:induction false} TotalZeroIff(changes: seq<Change>)
    ensures Total(changes) == 0 <==> forall c :: c in changes ==> Count(c) == 0
  {
    if changes != [] {
      var last := changes[|changes| - 1];
      TotalZeroIff(changes[..|changes| - 1]);
      assert changes == changes[..|changes| - 1] + [last];
      assert last in changes;
    }
  }

  lemma ReportsZero(e: Engine, a: Database, b: Database, tables: seq<Object>, operations: nat)
    requires Reports(e, a, b, tables, operations)
    ensures operations == 0 <==>
              a.sequence == b.sequence && forall o :: o in Tables(e, a.schema) ==> Count(Planned(e, a, b, o)) == 0
  {
    var changes := Plans(e, a, b, tables);
    TotalZeroIff(changes);
    MappedAll((o: Object) => Planned(e, a, b, o), tables, (c: Change) => Count(c) == 0);
  }

  lemma MappedAll<A(!new), B(!new)>(f: A -> B, s: seq<A>, p: B -> bool)
    ensures (forall y :: y in Map(f, s) ==> p(y)) <==> (forall x :: x in s ==> p(f(x)))
  {
    forall x | x in s ensures f(x) in Map(f, s) {
      var i :| 0 <= i < |s| && s[i] == x;
      assert Map(f, s)[i] == f(x);
    }
    forall y | y in Map(f, s) ensures exists x :: x in s && f(x) == y {
      var i :| 0 <= i < |s| && Map(f, s)[i] == y;
      assert s[i] in s;
    }
  }

  lemma TablesNeedNothing(e: Engine, a: Database, b: Database)
    requires Comparable(e, a, b) && NoDeltaClash(e, a, b)
    ensures TablesEqual(e, a, b, Tables(e, a.schema)) <==>
              Representable(e, a, b) && forall o :: o in Tables(e, a.schema) ==> Count(Planned(e, a, b, o)) == 0
  {
    forall o | o in Tables(e, a.schema)
      ensures (multiset(Rows(a, o)) == multiset(Rows(b, o)))
                <==> (Count(Planned(e, a, b, o)) == 0
                      && (Nullable(e.shape(o), Rows(a, o), Rows(b, o)) || OneRepresentation(e.shape(o), Rows(a, o), Rows(b, o))))
    {
      ComparableTable(e, a, b, o);
      NoCountIsEqual(e.hash, e.shape(o), Rows(a, o), Rows(b, o));
    }
  }

  /** Reporting no operations means, for representable tables, that the replica equalled
      the snapshot already, and conversely. */
  lemma NoOperationsIsEqual(e: Engine, a: Database, b: Database, tables: seq<Object>, operations: nat)
    requires Comparable(e, a, b) && NoDeltaClash(e, a, b) && a.pragmas == b.pragmas
    requires Reports(e, a, b, tables, operations)
    ensures Equal(e, a, b) <==> operations == 0 && Representable(e, a, b)
  {
    ReportsZero(e, a, b, tables, operations);
    TablesNeedNothing(e, a, b);
    assert Tables(e, a.schema) == Tables(e, b.schema);
  }
}
