/** The difference of two keyed lists, and what applying it in three passes gives. */
module Deltas {

  /** Rows with a key, a comparison of rows with the same key, and an update that
      takes all but the key from its second argument. */
  datatype Keying<!R(==), K(==)> = Keying(key: R -> K, differs: (R, R) -> bool, merge: (R, R) -> R)

  /** An update leaves the key as it is. */
  ghost predicate Lawful<R(!new), K>(d: Keying<R, K>) {
    forall a, b :: d.key(d.merge(a, b)) == d.key(a)
  }

  predicate HasKey<R(==, !new), K(==)>(d: Keying<R, K>, rows: seq<R>, key: K) {
    exists r :: r in rows && d.key(r) == key
  }

  /** No two rows have the same key. */
  ghost predicate Keyed<R(!new), K>(d: Keying<R, K>, rows: seq<R>)
    decreases |rows|
  {
    rows != [] ==> !HasKey(d, rows[1..], d.key(rows[0])) && Keyed(d, rows[1..])
  }

  function Filter<R(==, !new)>(rows: seq<R>, keep: R -> bool): (r: seq<R>)
    ensures forall x :: x in r <==> x in rows && keep(x)
    decreases |rows|
  {
    if rows == [] then [] else
    (if keep(rows[0]) then [rows[0]] else []) + Filter(rows[1..], keep)
  }

  lemma {:induction false} Joined<R(!new), K>(d: Keying<R, K>, x: seq<R>, y: seq<R>)
    requires Keyed(d, x) && Keyed(d, y)
    requires forall r :: r in x ==> !HasKey(d, y, d.key(r))
    ensures Keyed(d, x + y)
    decreases |x|
  {
    if x == [] {
      assert x + y == y;
    } else {
      Joined(d, x[1..], y);
      assert (x + y)[1..] == x[1..] + y;
      assert forall r :: r in x[1..] + y ==> r in x[1..] || r in y;
    }
  }

  /** Filtering keeps keys distinct. */
  lemma {:induction false} FilterKeyed<R(!new), K>(d: Keying<R, K>, rows: seq<R>, keep: R -> bool)
    requires Keyed(d, rows)
    ensures Keyed(d, Filter(rows, keep))
    decreases |rows|
  {
    if rows != [] {
      FilterKeyed(d, rows[1..], keep);
      if keep(rows[0]) {
        Cons(d, rows[0], Filter(rows[1..], keep));
      } else {
        assert Filter(rows, keep) == Filter(rows[1..], keep);
      }
    }
  }

  lemma Cons<R(!new), K>(d: Keying<R, K>, r: R, rest: seq<R>)
    requires Keyed(d, rest) && !HasKey(d, rest, d.key(r))
    ensures Keyed(d, [r] + rest)
  {
    assert ([r] + rest)[1..] == rest;
  }

  lemma {:induction false} SameKeySameRow<R(!new), K>(d: Keying<R, K>, rows: seq<R>, x: R, y: R)
    requires Keyed(d, rows) && x in rows && y in rows
    ensures d.key(x) == d.key(y) ==> x == y
    decreases |rows|
  {
    if x in rows[1..] && y in rows[1..] {
      SameKeySameRow(d, rows[1..], x, y);
    }
  }

  lemma {:induction false} KeyedCounts<R(!new), K>(d: Keying<R, K>, rows: seq<R>, r: R)
    requires Keyed(d, rows)
    ensures multiset(rows)[r] == if r in rows then 1 else 0
    decreases |rows|
  {
    if rows != [] {
      KeyedCounts(d, rows[1..], r);
      assert rows == [rows[0]] + rows[1..];
      assert rows[0] !in rows[1..];
    }
  }

  /** Tables with distinct keys and the same rows are the same table. */
  lemma SameRowsSameTable<R(!new), K>(d: Keying<R, K>, a: seq<R>, b: seq<R>)
    requires Keyed(d, a) && Keyed(d, b)
    ensures multiset(a) == multiset(b) <==> (forall r :: r in a <==> r in b)
  {
    if forall r :: r in a <==> r in b {
      forall r ensures multiset(a)[r] == multiset(b)[r] {
        KeyedCounts(d, a, r);
        KeyedCounts(d, b, r);
      }
    } else {
      assert forall r :: r in a <==> r in multiset(a);
      assert forall r :: r in b <==> r in multiset(b);
    }
  }

  /** Being keyed does not depend on the order of the rows. */
  lemma {:induction false} KeyedIs<R(!new), K>(d: Keying<R, K>, rows: seq<R>)
    ensures Keyed(d, rows) <==>
              && (forall r :: multiset(rows)[r] <= 1)
              && (forall x, y :: x in rows && y in rows && d.key(x) == d.key(y) ==> x == y)
    decreases |rows|
  {
    if rows != [] {
      KeyedIs(d, rows[1..]);
      assert rows == [rows[0]] + rows[1..];
      assert forall r :: multiset(rows)[r] == multiset(rows[1..])[r] + if r == rows[0] then 1 else 0;
      assert rows[0] in rows[1..] <==> multiset(rows[1..])[rows[0]] > 0;
    }
  }

  lemma KeyedPermuted<R(!new), K>(d: Keying<R, K>, a: seq<R>, b: seq<R>)
    requires Keyed(d, a) && multiset(a) == multiset(b)
    ensures Keyed(d, b)
  {
    KeyedIs(d, a);
    KeyedIs(d, b);
    assert forall r :: (r in a <==> r in multiset(a)) && (r in b <==> r in multiset(b));
  }

  // ---------- the three queries ----------

  /** The comparison of the update query, against a whole table. */
  predicate Differs<R(==, !new), K(==)>(d: Keying<R, K>, a: seq<R>, t: R) {
    exists o :: o in a && d.key(o) == d.key(t) && d.differs(o, t)
  }

  function Inserts<R(==, !new), K(==)>(d: Keying<R, K>, a: seq<R>, b: seq<R>): seq<R> {
    Filter(b, (r: R) => !HasKey(d, a, d.key(r)))
  }

  function Updates<R(==, !new), K(==)>(d: Keying<R, K>, a: seq<R>, b: seq<R>): seq<R> {
    Filter(b, (r: R) => Differs(d, a, r))
  }

  function Deletes<R(==, !new), K(==)>(d: Keying<R, K>, a: seq<R>, b: seq<R>): seq<R> {
    Filter(a, (r: R) => !HasKey(d, b, d.key(r)))
  }

  // ---------- the three statements ----------

  /** DELETE ... WHERE key IS that of `k`. */
  function DeleteRow<R(==, !new), K(==)>(d: Keying<R, K>, rows: seq<R>, k: R): seq<R> {
    Filter(rows, (r: R) => d.key(r) != d.key(k))
  }

  /** UPDATE ... SET non-keys WHERE key IS that of `b`. */
  function UpdateOne<R(==, !new), K(==)>(d: Keying<R, K>, a: R, b: R): (r: R) {
    if d.key(a) == d.key(b) then d.merge(a, b) else a
  }

  function UpdateRows<R(==, !new), K(==)>(d: Keying<R, K>, rows: seq<R>, b: R): (r: seq<R>)
    ensures |r| == |rows| && forall i :: 0 <= i < |rows| ==> r[i] == UpdateOne(d, rows[i], b)
  {
    seq(|rows|, i requires 0 <= i < |rows| => UpdateOne(d, rows[i], b))
  }

  /** Executing a statement for each row of a list. */
  function DeleteAll<R(==, !new), K(==)>(d: Keying<R, K>, rows: seq<R>, ks: seq<R>): (r: seq<R>)
    decreases |ks|
  {
    if ks == [] then rows else DeleteAll(d, DeleteRow(d, rows, ks[0]), ks[1..])
  }

  function UpdateAll<R(==, !new), K(==)>(d: Keying<R, K>, rows: seq<R>, us: seq<R>): (r: seq<R>)
    ensures |r| == |rows|
    decreases |us|
  {
    if us == [] then rows else UpdateAll(d, UpdateRows(d, rows, us[0]), us[1..])
  }

  lemma {:induction false} DeleteAllSubset<R(!new), K>(d: Keying<R, K>, rows: seq<R>, ks: seq<R>)
    ensures forall r :: r in DeleteAll(d, rows, ks) ==> r in rows
    decreases |ks|
  {
    if ks != [] { DeleteAllSubset(d, DeleteRow(d, rows, ks[0]), ks[1..]); }
  }

  lemma DeleteAllStep<R(!new), K>(d: Keying<R, K>, rows: seq<R>, ks: seq<R>, i: nat)
    requires i <= |ks|
    ensures DeleteAll(d, rows, ks[i..]) ==
              if i == |ks| then rows else DeleteAll(d, DeleteRow(d, rows, ks[i]), ks[i + 1..])
  {
    if i < |ks| { assert ks[i..][0] == ks[i] && ks[i..][1..] == ks[i + 1..]; }
  }

  lemma UpdateAllStep<R(!new), K>(d: Keying<R, K>, rows: seq<R>, us: seq<R>, i: nat)
    requires i <= |us|
    ensures UpdateAll(d, rows, us[i..]) ==
              if i == |us| then rows else UpdateAll(d, UpdateRows(d, rows, us[i]), us[i + 1..])
  {
    if i < |us| { assert us[i..][0] == us[i] && us[i..][1..] == us[i + 1..]; }
  }

  lemma {:induction false} DeleteAllIs<R(!new), K>(d: Keying<R, K>, rows: seq<R>, ks: seq<R>)
    requires Keyed(d, rows)
    ensures Keyed(d, DeleteAll(d, rows, ks))
    ensures forall r :: r in DeleteAll(d, rows, ks) <==> r in rows && !HasKey(d, ks, d.key(r))
    decreases |ks|
  {
    if ks != [] {
      FilterKeyed(d, rows, (r: R) => d.key(r) != d.key(ks[0]));
      DeleteAllIs(d, DeleteRow(d, rows, ks[0]), ks[1..]);
      assert forall k :: k in ks <==> k == ks[0] || k in ks[1..];
    }
  }

  /** Updating one row by a list. */
  function UpdatedBy<R(==, !new), K(==)>(d: Keying<R, K>, us: seq<R>, a: R): R
    decreases |us|
  {
    if us == [] then a else UpdatedBy(d, us[1..], UpdateOne(d, a, us[0]))
  }

  lemma {:induction false} UpdateAllIs<R(!new), K>(d: Keying<R, K>, rows: seq<R>, us: seq<R>)
    ensures forall i :: 0 <= i < |rows| ==> UpdateAll(d, rows, us)[i] == UpdatedBy(d, us, rows[i])
    decreases |us|
  {
    if us != [] {
      UpdateAllIs(d, UpdateRows(d, rows, us[0]), us[1..]);
    }
  }

  lemma {:induction false} NotUpdated<R(!new), K>(d: Keying<R, K>, us: seq<R>, a: R)
    requires !HasKey(d, us, d.key(a))
    ensures UpdatedBy(d, us, a) == a
    decreases |us|
  {
    if us != [] {
      assert us[0] in us && forall u :: u in us[1..] ==> u in us;
      NotUpdated(d, us[1..], a);
    }
  }

  /** With distinct keys among the updates, one of them rewrites the row. */
  lemma {:induction false} UpdatedOnce<R(!new), K>(d: Keying<R, K>, us: seq<R>, a: R, b: R)
    requires Lawful(d) && Keyed(d, us) && b in us && d.key(b) == d.key(a)
    ensures UpdatedBy(d, us, a) == d.merge(a, b)
    decreases |us|
  {
    if us[0] == b {
      NotUpdated(d, us[1..], d.merge(a, b));
    } else {
      assert b in us[1..];
      UpdatedOnce(d, us[1..], a, b);
    }
  }

  lemma {:induction false} UpdatesKeepKeyed<R(!new), K>(d: Keying<R, K>, rows: seq<R>, us: seq<R>)
    requires Lawful(d) && Keyed(d, rows)
    ensures Keyed(d, UpdateAll(d, rows, us))
    decreases |us|
  {
    if us != [] {
      UpdateKeepsKeyed(d, rows, us[0]);
      UpdatesKeepKeyed(d, UpdateRows(d, rows, us[0]), us[1..]);
    }
  }

  lemma {:induction false} UpdateKeepsKeyed<R(!new), K>(d: Keying<R, K>, rows: seq<R>, b: R)
    requires Lawful(d) && Keyed(d, rows)
    ensures Keyed(d, UpdateRows(d, rows, b))
    decreases |rows|
  {
    if rows != [] {
      var first, rest := UpdateOne(d, rows[0], b), UpdateRows(d, rows[1..], b);
      UpdateKeepsKeyed(d, rows[1..], b);
      forall r | r in rest ensures d.key(r) != d.key(first) {
        var i :| 0 <= i < |rest| && rest[i] == r;
        assert rows[1..][i] in rows[1..];
      }
      Cons(d, first, rest);
      assert UpdateRows(d, rows, b) == [first] + rest;
    }
  }

  // ---------- the delta ----------

  /** Deletes, then inserts. */
  function Exchanged<R(==, !new), K(==)>(d: Keying<R, K>, a: seq<R>, b: seq<R>): seq<R> {
    DeleteAll(d, a, Deletes(d, a, b)) + Inserts(d, a, b)
  }

  /** Then updates. */
  function AfterDelta<R(==, !new), K(==)>(d: Keying<R, K>, a: seq<R>, b: seq<R>): seq<R> {
    UpdateAll(d, Exchanged(d, a, b), Updates(d, a, b))
  }

  /** The rows of `a` that `b` has a row for, and the rows only `b` has. */
  lemma ExchangedIs<R(!new), K>(d: Keying<R, K>, a: seq<R>, b: seq<R>)
    requires Keyed(d, a) && Keyed(d, b)
    ensures Keyed(d, Exchanged(d, a, b))
    ensures forall r :: r in Exchanged(d, a, b) <==>
              (r in a && HasKey(d, b, d.key(r))) || (r in b && !HasKey(d, a, d.key(r)))
  {
    DeleteAllIs(d, a, Deletes(d, a, b));
    FilterKeyed(d, b, (r: R) => !HasKey(d, a, d.key(r)));
    forall r | r in a ensures HasKey(d, Deletes(d, a, b), d.key(r)) <==> !HasKey(d, b, d.key(r)) {
      assert !HasKey(d, b, d.key(r)) ==> r in Deletes(d, a, b);
    }
    Joined(d, DeleteAll(d, a, Deletes(d, a, b)), Inserts(d, a, b));
  }

  /** What becomes of a row `o` that the target has the row `t` for. */
  function Settled<R(==, !new), K(==)>(d: Keying<R, K>, o: R, t: R): R {
    if d.differs(o, t) then d.merge(o, t) else o
  }

  lemma UpdatesLeaveNew<R(!new), K>(d: Keying<R, K>, a: seq<R>, b: seq<R>, t: R)
    requires !HasKey(d, a, d.key(t))
    ensures UpdatedBy(d, Updates(d, a, b), t) == t
  {
    NotUpdated(d, Updates(d, a, b), t);
  }

  lemma UpdatesSettle<R(!new), K>(d: Keying<R, K>, a: seq<R>, b: seq<R>, o: R, t: R)
    requires Lawful(d) && Keyed(d, a) && Keyed(d, b) && o in a && t in b && d.key(o) == d.key(t)
    ensures UpdatedBy(d, Updates(d, a, b), o) == Settled(d, o, t)
  {
    var us := Updates(d, a, b);
    FilterKeyed(d, b, (r: R) => Differs(d, a, r));
    if d.differs(o, t) {
      UpdatedOnce(d, us, o, t);
    } else {
      forall u | u in us ensures d.key(u) != d.key(o) {
        var v :| v in a && d.key(v) == d.key(u) && d.differs(v, u);
        SameKeySameRow(d, a, v, o);
        SameKeySameRow(d, b, u, t);
      }
      NotUpdated(d, us, o);
    }
  }

  /** Membership after the delta: settled rows, and new ones. */
  ghost predicate Resulting<R(!new), K>(d: Keying<R, K>, a: seq<R>, b: seq<R>, r: R) {
    || (r in b && !HasKey(d, a, d.key(r)))
    || (exists o, t :: o in a && t in b && d.key(o) == d.key(t) && r == Settled(d, o, t))
  }

  lemma AfterDeltaOnly<R(!new), K>(d: Keying<R, K>, a: seq<R>, b: seq<R>, r: R)
    requires Lawful(d) && Keyed(d, a) && Keyed(d, b) && r in AfterDelta(d, a, b)
    ensures Resulting(d, a, b, r)
  {
    var mid := Exchanged(d, a, b);
    ExchangedIs(d, a, b);
    UpdateAllIs(d, mid, Updates(d, a, b));
    var i :| 0 <= i < |mid| && AfterDelta(d, a, b)[i] == r;
    var o := mid[i];
    if o in a && HasKey(d, b, d.key(o)) {
      var t :| t in b && d.key(t) == d.key(o);
      UpdatesSettle(d, a, b, o, t);
    } else {
      UpdatesLeaveNew(d, a, b, o);
    }
  }

  lemma AfterDeltaHas<R(!new), K>(d: Keying<R, K>, a: seq<R>, b: seq<R>, from: R)
    requires Keyed(d, a) && Keyed(d, b) && from in Exchanged(d, a, b)
    ensures UpdatedBy(d, Updates(d, a, b), from) in AfterDelta(d, a, b)
  {
    var mid := Exchanged(d, a, b);
    UpdateAllIs(d, mid, Updates(d, a, b));
    var i :| 0 <= i < |mid| && mid[i] == from;
    assert AfterDelta(d, a, b)[i] == UpdatedBy(d, Updates(d, a, b), from);
  }

  lemma AfterDeltaAll<R(!new), K>(d: Keying<R, K>, a: seq<R>, b: seq<R>, r: R)
    requires Lawful(d) && Keyed(d, a) && Keyed(d, b) && Resulting(d, a, b, r)
    ensures r in AfterDelta(d, a, b)
  {
    ExchangedIs(d, a, b);
    if r in b && !HasKey(d, a, d.key(r)) {
      UpdatesLeaveNew(d, a, b, r);
      AfterDeltaHas(d, a, b, r);
    } else {
      var o, t :| o in a && t in b && d.key(o) == d.key(t) && r == Settled(d, o, t);
      UpdatesSettle(d, a, b, o, t);
      AfterDeltaHas(d, a, b, o);
    }
  }

  // ---------- when it is the target ----------

  /** Every matched pair settles at the row of the target. */
  ghost predicate Settles<R(!new), K>(d: Keying<R, K>, a: seq<R>, b: seq<R>) {
    forall o, t :: o in a && t in b && d.key(o) == d.key(t) ==> Settled(d, o, t) == t
  }

  /** Deletes, inserts and updates, in that order, turn a keyed table into its target
      exactly when every matched pair of rows does. */
  lemma DeltaIsExact<R(!new), K>(d: Keying<R, K>, a: seq<R>, b: seq<R>)
    requires Lawful(d) && Keyed(d, a) && Keyed(d, b)
    ensures multiset(AfterDelta(d, a, b)) == multiset(b) <==> Settles(d, a, b)
  {
    ExchangedIs(d, a, b);
    UpdatesKeepKeyed(d, Exchanged(d, a, b), Updates(d, a, b));
    SameRowsSameTable(d, AfterDelta(d, a, b), b);
    if Settles(d, a, b) {
      forall r ensures r in AfterDelta(d, a, b) <==> r in b {
        DeltaReaches(d, a, b, r);
      }
    } else {
      DeltaMisses(d, a, b);
    }
  }

  lemma DeltaReaches<R(!new), K>(d: Keying<R, K>, a: seq<R>, b: seq<R>, r: R)
    requires Lawful(d) && Keyed(d, a) && Keyed(d, b) && Settles(d, a, b)
    ensures r in AfterDelta(d, a, b) <==> r in b
  {
    if r in AfterDelta(d, a, b) { AfterDeltaOnly(d, a, b, r); }
    if r in b { AfterDeltaAll(d, a, b, r); }
  }

  lemma DeltaMisses<R(!new), K>(d: Keying<R, K>, a: seq<R>, b: seq<R>)
    requires Lawful(d) && Keyed(d, a) && Keyed(d, b) && !Settles(d, a, b)
    ensures exists r :: r in AfterDelta(d, a, b) && r !in b
  {
    var o, t :| o in a && t in b && d.key(o) == d.key(t) && Settled(d, o, t) != t;
    var r := Settled(d, o, t);
    AfterDeltaAll(d, a, b, r);
    NotAnother(d, b, t, r);
  }

  lemma NotAnother<R(!new), K>(d: Keying<R, K>, rows: seq<R>, t: R, r: R)
    requires Keyed(d, rows) && t in rows && r != t && d.key(r) == d.key(t)
    ensures r !in rows
  {
    if r in rows { SameKeySameRow(d, rows, r, t); }
  }

  /** The result is keyed, and whatever merging keeps holds of its rows. */
  lemma AfterDeltaKeeps<R(!new), K>(d: Keying<R, K>, a: seq<R>, b: seq<R>, p: R -> bool)
    requires Lawful(d) && Keyed(d, a) && Keyed(d, b)
    requires forall r :: r in a || r in b ==> p(r)
    requires forall o, t :: p(o) && p(t) ==> p(d.merge(o, t))
    ensures Keyed(d, AfterDelta(d, a, b)) && forall r :: r in AfterDelta(d, a, b) ==> p(r)
  {
    ExchangedIs(d, a, b);
    UpdatesKeepKeyed(d, Exchanged(d, a, b), Updates(d, a, b));
    forall r | r in AfterDelta(d, a, b) ensures p(r) {
      AfterDeltaOnly(d, a, b, r);
    }
  }

  // ---------- when there is nothing to do ----------

  function Operations<R(==, !new), K(==)>(d: Keying<R, K>, a: seq<R>, b: seq<R>): nat {
    |Inserts(d, a, b)| + |Updates(d, a, b)| + |Deletes(d, a, b)|
  }

  /** No operations, and nothing that the comparison overlooks, exactly for equal tables. */
  lemma NothingToDo<R(!new), K>(d: Keying<R, K>, a: seq<R>, b: seq<R>)
    requires Lawful(d) && Keyed(d, a) && Keyed(d, b) && forall r :: !d.differs(r, r)
    ensures multiset(a) == multiset(b) <==> Operations(d, a, b) == 0 && Settles(d, a, b)
  {
    SameRowsSameTable(d, a, b);
    if Operations(d, a, b) == 0 && Settles(d, a, b) {
      DeltaIsExact(d, a, b);
      assert AfterDelta(d, a, b) == a;
    } else if multiset(a) == multiset(b) {
      EqualNeedsNothing(d, a, b);
    }
  }

  lemma EqualNeedsNothing<R(!new), K>(d: Keying<R, K>, a: seq<R>, b: seq<R>)
    requires Keyed(d, a) && Keyed(d, b) && forall r :: !d.differs(r, r)
    requires forall r :: r in a <==> r in b
    ensures Operations(d, a, b) == 0 && Settles(d, a, b)
  {
    forall o, t | o in a && t in b && d.key(o) == d.key(t) ensures o == t {
      SameKeySameRow(d, a, o, t);
    }
    FilterNone(b, (r: R) => !HasKey(d, a, d.key(r)));
    FilterNone(b, (r: R) => Differs(d, a, r));
    FilterNone(a, (r: R) => !HasKey(d, b, d.key(r)));
  }

  lemma {:induction false} FilterNone<R(!new)>(rows: seq<R>, keep: R -> bool)
    requires forall r :: r in rows ==> !keep(r)
    ensures Filter(rows, keep) == []
    decreases |rows|
  {
    if rows != [] { FilterNone(rows[1..], keep); }
  }

  lemma FilterOne<R(!new)>(r: R, keep: R -> bool)
    ensures Filter([r], keep) == if keep(r) then [r] else []
  {
    assert [r][1..] == [];
  }

  /** Two tables of one row each. */
  lemma OneRow<R(!new), K>(d: Keying<R, K>, o: R, t: R)
    requires d.key(o) == d.key(t) && d.differs(o, t)
    ensures Keyed(d, [o]) && Keyed(d, [t])
    ensures AfterDelta(d, [o], [t]) == [d.merge(o, t)]
  {
    assert o in [o] && t in [t];
    assert HasKey(d, [t], d.key(o)) && HasKey(d, [o], d.key(t)) && Differs(d, [o], t);
    FilterOne(o, (r: R) => !HasKey(d, [t], d.key(r)));
    FilterOne(t, (r: R) => !HasKey(d, [o], d.key(r)));
    FilterOne(t, (r: R) => Differs(d, [o], r));
    assert Deletes(d, [o], [t]) == [] && Inserts(d, [o], [t]) == [] && Updates(d, [o], [t]) == [t];
    assert Exchanged(d, [o], [t]) == [o];
    assert UpdateAll(d, [o], [t]) == UpdateRows(d, [o], t);
  }
}
