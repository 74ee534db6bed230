/** A table of the replica, its delta to a target table, and when applying the delta
    gives that table. */
module KeyedTables {
  import opened Outcomes
  import opened Encodings
  import opened Digests
  import opened TableDigests
  import opened Deltas

  /** Visible columns, the primary key among them, and what SQL's `IS` takes for equal:
      the same `canon` in the same column. */
  datatype Shape = Shape(width: nat, keys: seq<nat>, canon: (nat, Value) -> Value, order: Listing)

  /** ORDER BY: for unique keys, one listing of the rows. */
  type Listing = f: multiset<Row> -> seq<Row> | forall m :: multiset(f(m)) == m
    ghost witness AnyOrder

  ghost function AnyOrder(m: multiset<Row>): (rows: seq<Row>)
    ensures multiset(rows) == m
    decreases |m|
  {
    if m == multiset{} then [] else
    var r :| r in m;
    [r] + AnyOrder(m - multiset{r})
  }

  ghost predicate ShapeOk(s: Shape) {
    && (forall k :: k in s.keys ==> k < s.width)
    && (forall c, v :: s.canon(c, v) == Null <==> v == Null)
  }

  function Cell(r: Row, c: nat): Value {
    if c < |r| then r[c] else Null
  }

  /** `typeof`. */
  function Kind(v: Value): nat {
    match v
    case Null => 0
    case Int(_) => 1
    case Real(_) => 2
    case Text(_) => 3
    case Blob(_) => 4
  }

  ghost predicate Wide(s: Shape, rows: seq<Row>) {
    forall r :: r in rows ==> |r| == s.width
  }

  function KeyOf(s: Shape, r: Row): (key: seq<Value>)
    ensures |key| == |s.keys|
  {
    seq(|s.keys|, i requires 0 <= i < |s.keys| => s.canon(s.keys[i], Cell(r, s.keys[i])))
  }

  /** `_has_null_primary_key`: some key column `IS NULL`. */
  predicate HasNullKey(s: Shape, rows: seq<Row>) {
    exists r, k :: r in rows && k in s.keys && Cell(r, k) == Null
  }

  /** The comparison of the update query: some column differs in value or in type. */
  predicate RowDiff(s: Shape, a: Row, b: Row) {
    exists c: nat :: c < s.width && ColumnDiff(s, a, b, c)
  }

  predicate ColumnDiff(s: Shape, a: Row, b: Row, c: nat) {
    !(s.canon(c, Cell(a, c)) == s.canon(c, Cell(b, c)) && Kind(Cell(a, c)) == Kind(Cell(b, c)))
  }

  /** `a` with the non-key columns of `b`. */
  function Merged(s: Shape, a: Row, b: Row): Row {
    seq(s.width, c requires 0 <= c < s.width => if c in s.keys then Cell(a, c) else Cell(b, c))
  }

  function ByKey(s: Shape): Keying<Row, seq<Value>> {
    Keying((r: Row) => KeyOf(s, r), (a: Row, b: Row) => RowDiff(s, a, b), (a: Row, b: Row) => Merged(s, a, b))
  }

  lemma ByKeyLawful(s: Shape)
    requires ShapeOk(s)
    ensures Lawful(ByKey(s))
    ensures forall r :: !ByKey(s).differs(r, r)
  {
    forall a, b ensures KeyOf(s, Merged(s, a, b)) == KeyOf(s, a) {
      MergedKey(s, a, b);
    }
  }

  lemma MergedKey(s: Shape, a: Row, b: Row)
    requires ShapeOk(s)
    ensures KeyOf(s, Merged(s, a, b)) == KeyOf(s, a)
  {
    forall i | 0 <= i < |s.keys| ensures Cell(Merged(s, a, b), s.keys[i]) == Cell(a, s.keys[i]) {
      assert s.keys[i] in s.keys;
    }
  }

  /** What a primary key promises of rows without null keys. */
  ghost predicate KeyedTable(s: Shape, rows: seq<Row>) {
    Wide(s, rows) && Keyed(ByKey(s), rows)
  }

  // ---------- when the delta is the target ----------

  /** A matched pair of rows is written alike wherever the update cannot rewrite it: in
      its key columns, and everywhere when the comparison sees no difference. */
  ghost predicate OneRepresentation(s: Shape, a: seq<Row>, b: seq<Row>) {
    forall o, t :: o in a && t in b && KeyOf(s, o) == KeyOf(s, t) ==> Alike(s, o, t)
  }

  ghost predicate Alike(s: Shape, o: Row, t: Row) {
    (forall k :: k in s.keys ==> Cell(o, k) == Cell(t, k)) && (RowDiff(s, o, t) || o == t)
  }

  lemma SettledIsTarget(s: Shape, o: Row, t: Row)
    requires ShapeOk(s) && |o| == |t| == s.width
    ensures Settled(ByKey(s), o, t) == t <==> Alike(s, o, t)
  {
    var m := Merged(s, o, t);
    if m == t {
      forall k | k in s.keys ensures Cell(o, k) == Cell(t, k) { assert m[k] == o[k]; }
    } else {
      var c :| 0 <= c < s.width && m[c] != t[c];
      assert c in s.keys && Cell(o, c) != Cell(t, c);
    }
  }

  lemma SettlesWhen(s: Shape, a: seq<Row>, b: seq<Row>)
    requires ShapeOk(s) && Wide(s, a) && Wide(s, b)
    ensures Settles(ByKey(s), a, b) <==> OneRepresentation(s, a, b)
  {
    forall o, t | o in a && t in b
      ensures Settled(ByKey(s), o, t) == t <==> Alike(s, o, t)
    {
      SettledIsTarget(s, o, t);
    }
  }

  /** Deletes, inserts and updates, in that order, turn a keyed table into its target
      exactly when every matched pair of rows has one representation. */
  lemma TableDeltaIsExact(s: Shape, a: seq<Row>, b: seq<Row>)
    requires ShapeOk(s) && KeyedTable(s, a) && KeyedTable(s, b)
    ensures multiset(AfterDelta(ByKey(s), a, b)) == multiset(b) <==> OneRepresentation(s, a, b)
  {
    ByKeyLawful(s);
    SettlesWhen(s, a, b);
    DeltaIsExact(ByKey(s), a, b);
  }

  /** A keyed table needs no operations, and hides no second representation, exactly when
      it is the target already. */
  lemma TableNothingToDo(s: Shape, a: seq<Row>, b: seq<Row>)
    requires ShapeOk(s) && KeyedTable(s, a) && KeyedTable(s, b)
    ensures multiset(a) == multiset(b) <==> Operations(ByKey(s), a, b) == 0 && OneRepresentation(s, a, b)
  {
    ByKeyLawful(s);
    SettlesWhen(s, a, b);
    NothingToDo(ByKey(s), a, b);
  }

  // ---------- a key with two representations ----------

  const ONE_AS_REAL: Bytes := [0x3f, 0xf0, 0, 0, 0, 0, 0, 0]

  /** Two columns, the first the key; SQL takes 1 and 1.0 for equal. */
  ghost function TwoColumns(): Shape {
    Shape(2, [0], OneIsOne, AnyOrder)
  }

  function OneIsOne(column: nat, v: Value): Value {
    if v == Real(ONE_AS_REAL) then Int(1) else v
  }

  lemma KeyAt(s: Shape, r: Row, i: nat)
    requires i < |s.keys|
    ensures KeyOf(s, r)[i] == s.canon(s.keys[i], Cell(r, s.keys[i]))
  {
  }

  lemma TwoRows(s: Shape, o: Row, t: Row)
    requires s == TwoColumns() && o == [Int(1), Text([97])] && t == [Real(ONE_AS_REAL), Text([98])]
    ensures KeyOf(s, o) == KeyOf(s, t) && RowDiff(s, o, t) && Merged(s, o, t) == [Int(1), Text([98])]
  {
    assert s.keys[0] == 0 && s.canon(0, o[0]) == Int(1) && s.canon(0, t[0]) == Int(1);
    KeyAt(s, o, 0);
    KeyAt(s, t, 0);
    assert KeyOf(s, o) == [Int(1)] && KeyOf(s, t) == [Int(1)];
    assert s.canon(1, o[1]) != s.canon(1, t[1]) by { assert o[1].utf8[0] != t[1].utf8[0]; }
    assert ColumnDiff(s, o, t, 1);
  }

  /** A replica row with key 1 and a target row with key 1.0: the update rewrites the
      other column and leaves the key an integer. */
  lemma DeltaKeepsKeyType(s: Shape, o: Row, t: Row, a: seq<Row>, b: seq<Row>)
    requires s == TwoColumns() && o == [Int(1), Text([97])] && t == [Real(ONE_AS_REAL), Text([98])]
    requires a == [o] && b == [t]
    ensures KeyedTable(s, a) && KeyedTable(s, b)
    ensures AfterDelta(ByKey(s), a, b) == [[Int(1), Text([98])]]
  {
    TwoRows(s, o, t);
    OneRowTables(s, ByKey(s), o, t, a, b);
  }

  lemma OneRowTables(s: Shape, d: Keying<Row, seq<Value>>, o: Row, t: Row, a: seq<Row>, b: seq<Row>)
    requires |o| == |t| == s.width && d.key(o) == d.key(t) && d.differs(o, t)
    requires a == [o] && b == [t]
    ensures Wide(s, a) && Wide(s, b) && Keyed(d, a) && Keyed(d, b)
    ensures AfterDelta(d, a, b) == [d.merge(o, t)]
  {
    OneRow(d, o, t);
  }

  // ---------- any table ----------

  /** How `_apply_delta` decides to bring the table `a` to `b`. */
  datatype Change =
    | Replace(replacement: Option<seq<Row>>, existing: nat)
    | Delta(inserts: seq<Row>, updates: seq<Row>, deletes: seq<Row>)

  predicate Nullable(s: Shape, a: seq<Row>, b: seq<Row>) {
    HasNullKey(s, a) || HasNullKey(s, b)
  }

  function RowInserted(x: Row, rows: seq<Row>): (r: seq<Row>)
    ensures multiset(r) == multiset(rows) + multiset{x}
    decreases |rows|
  {
    if rows == [] then [x]
    else
      assert rows == [rows[0]] + rows[1..];
      if Lex(EncodeRow(x), EncodeRow(rows[0])) then [x] + rows else [rows[0]] + RowInserted(x, rows[1..])
  }

  /** `_rows_in_deterministic_order`: sorted by encoding. */
  function InOrder(rows: seq<Row>): (r: seq<Row>)
    ensures multiset(r) == multiset(rows)
    decreases |rows|
  {
    if rows == [] then []
    else
      assert rows == [rows[0]] + rows[1..];
      RowInserted(rows[0], InOrder(rows[1..]))
  }

  /** All rows of the target, unless count and digest agree. */
  function ReplacementFor(h: Hash, a: seq<Row>, b: seq<Row>): Option<seq<Row>> {
    if |a| == |b| && MultisetDigestOf(h, a) == MultisetDigestOf(h, b) then None else Some(InOrder(b))
  }

  function ChangeFor(h: Hash, s: Shape, a: seq<Row>, b: seq<Row>): Change {
    if Nullable(s, a, b) then
      Replace(ReplacementFor(h, a, b), |a|)
    else
      Delta(Inserts(ByKey(s), a, b), Updates(ByKey(s), a, b), Deletes(ByKey(s), a, b))
  }

  type RowKeying = Keying<Row, seq<Value>>

  function AppliedBy(d: RowKeying, c: Change, a: seq<Row>): seq<Row> {
    match c
    case Replace(r, _) => if r.Some? then r.value else a
    case Delta(inserts, updates, deletes) => UpdateAll(d, DeleteAll(d, a, deletes) + inserts, updates)
  }

  function Applied(s: Shape, c: Change, a: seq<Row>): seq<Row> {
    AppliedBy(ByKey(s), c, a)
  }

  function Count(c: Change): nat {
    match c
    case Replace(r, existing) => if r.Some? then existing + |r.value| else 0
    case Delta(i, u, d) => |i| + |u| + |d|
  }

  /** What holds of a table as SQLite stores it. */
  ghost predicate TableOk(s: Shape, rows: seq<Row>) {
    ShapeOk(s) && Wide(s, rows) && RowsFit(rows) && (s.keys != [] && !HasNullKey(s, rows) ==> KeyedTable(s, rows))
  }

  lemma ReplacementIsExact(h: Hash, a: seq<Row>, b: seq<Row>)
    requires RowsFit(a) && RowsFit(b) && NoMultisetClash(h, a, b)
    ensures ReplacementFor(h, a, b).None? <==> multiset(a) == multiset(b)
  {
    MultisetDigestDetermines(h, a, b);
    if multiset(a) == multiset(b) { SameLength(a, b); }
  }

  lemma ReplaceApplied(s: Shape, r: Option<seq<Row>>, a: seq<Row>, b: seq<Row>)
    requires (r.None? && multiset(a) == multiset(b)) || (r == Some(InOrder(b)) && multiset(a) != multiset(b))
    ensures multiset(Applied(s, Replace(r, |a|), a)) == multiset(b)
    ensures multiset(a) == multiset(b) <==> Count(Replace(r, |a|)) == 0
  {
    SameLength(InOrder(b), b);
    if |a| + |b| == 0 { assert a == b; }
  }

  lemma ReplaceIsExact(h: Hash, s: Shape, a: seq<Row>, b: seq<Row>)
    requires RowsFit(a) && RowsFit(b) && NoMultisetClash(h, a, b) && Nullable(s, a, b)
    ensures multiset(Applied(s, ChangeFor(h, s, a, b), a)) == multiset(b)
    ensures multiset(a) == multiset(b) <==> Count(ChangeFor(h, s, a, b)) == 0
  {
    ReplacementIsExact(h, a, b);
    ReplaceApplied(s, ReplacementFor(h, a, b), a, b);
  }

  lemma DeltaApplied(h: Hash, s: Shape, a: seq<Row>, b: seq<Row>)
    requires !Nullable(s, a, b)
    ensures Applied(s, ChangeFor(h, s, a, b), a) == AfterDelta(ByKey(s), a, b)
    ensures Count(ChangeFor(h, s, a, b)) == Operations(ByKey(s), a, b)
  {
  }

  /** Either way the table becomes the target: a table with null keys always, another
      exactly when each matched pair has one representation. */
  lemma ChangeIsExact(h: Hash, s: Shape, a: seq<Row>, b: seq<Row>)
    requires TableOk(s, a) && TableOk(s, b) && s.keys != []
    requires Nullable(s, a, b) ==> NoMultisetClash(h, a, b)
    ensures (multiset(Applied(s, ChangeFor(h, s, a, b), a)) == multiset(b))
              <==> (Nullable(s, a, b) || OneRepresentation(s, a, b))
  {
    if Nullable(s, a, b) {
      ReplaceIsExact(h, s, a, b);
    } else {
      DeltaApplied(h, s, a, b);
      TableDeltaIsExact(s, a, b);
    }
  }

  /** An unchanged table counts no operation; with null keys or one representation a table
      that counts none is unchanged. */
  lemma NoCountIsEqual(h: Hash, s: Shape, a: seq<Row>, b: seq<Row>)
    requires TableOk(s, a) && TableOk(s, b) && s.keys != []
    requires Nullable(s, a, b) ==> NoMultisetClash(h, a, b)
    ensures (multiset(a) == multiset(b))
              <==> (Count(ChangeFor(h, s, a, b)) == 0 && (Nullable(s, a, b) || OneRepresentation(s, a, b)))
  {
    if Nullable(s, a, b) {
      ReplaceIsExact(h, s, a, b);
    } else {
      DeltaApplied(h, s, a, b);
      TableNothingToDo(s, a, b);
    }
  }

  // ---------- the result is a table again ----------

  lemma MergedFits(s: Shape, a: Row, b: Row)
    requires RowFits(a) && RowFits(b)
    ensures RowFits(Merged(s, a, b)) && |Merged(s, a, b)| == s.width
  {
    var m := Merged(s, a, b);
    forall v | v in m ensures Fits(v) {
      var c :| 0 <= c < |m| && m[c] == v;
      assert v == Cell(a, c) || v == Cell(b, c);
    }
  }

  lemma AfterDeltaOk(s: Shape, a: seq<Row>, b: seq<Row>)
    requires ShapeOk(s) && KeyedTable(s, a) && KeyedTable(s, b) && RowsFit(a) && RowsFit(b)
    ensures KeyedTable(s, AfterDelta(ByKey(s), a, b)) && RowsFit(AfterDelta(ByKey(s), a, b))
  {
    ByKeyLawful(s);
    forall o, t | RowFits(o) && RowFits(t) ensures RowFits(Merged(s, o, t)) && |Merged(s, o, t)| == s.width {
      MergedFits(s, o, t);
    }
    AfterDeltaKeeps(ByKey(s), a, b, (r: Row) => |r| == s.width && RowFits(r));
  }

  lemma AppliedOk(h: Hash, s: Shape, a: seq<Row>, b: seq<Row>)
    requires TableOk(s, a) && TableOk(s, b) && s.keys != []
    ensures TableOk(s, Applied(s, ChangeFor(h, s, a, b), a))
  {
    if Nullable(s, a, b) {
      PermutedOk(s, b, InOrder(b));
    } else {
      DeltaApplied(h, s, a, b);
      AfterDeltaOk(s, a, b);
    }
  }

  /** A table listed in another order is the same table. */
  lemma PermutedOk(s: Shape, a: seq<Row>, b: seq<Row>)
    requires TableOk(s, a) && multiset(a) == multiset(b)
    ensures TableOk(s, b) && HasNullKey(s, a) == HasNullKey(s, b)
  {
    assert forall r :: (r in a <==> r in multiset(a)) && (r in b <==> r in multiset(b));
    if KeyedTable(s, a) { KeyedPermuted(ByKey(s), a, b); }
  }

  // ---------- a table whose every column is in its key ----------

  predicate AllKeys(s: Shape) {
    forall c: nat :: c < s.width ==> c in s.keys
  }

  /** Its updates would change nothing, so `_apply_delta` leaves them out. */
  lemma {:induction false} UpdatesIdle(s: Shape, rows: seq<Row>, us: seq<Row>)
    requires AllKeys(s) && Wide(s, rows)
    ensures UpdateAll(ByKey(s), rows, us) == rows
    decreases |us|
  {
    if us != [] {
      var d, u := ByKey(s), us[0];
      forall i | 0 <= i < |rows| ensures UpdateOne(d, rows[i], u) == rows[i] {
        assert rows[i] in rows;
        assert Merged(s, rows[i], u) == rows[i];
      }
      assert UpdateRows(d, rows, u) == rows;
      UpdatesIdle(s, rows, us[1..]);
    }
  }
}
