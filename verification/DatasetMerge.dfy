/** Merging frozen archives of observations: evals/_shared/dataset_merge.py. */
module DatasetMerge {
  import opened Outcomes

  type Key = string
  type Payload = string

  /** A raw item as fetched; `body` is all but the time it was fetched. */
  datatype Raw = Raw(source: string, url: string, body: string, fetched: string)

  datatype Row = Row(raw: Raw, run: string, payloadRun: string, observedAt: int)

  datatype Record = Record(variants: map<Payload, Row>, observations: nat)

  type Records = map<Key, Record>

  /** `news_key`, the older `legacy_news_key`, the digest without the fetch time, and the
      digest of everything. */
  datatype Digesting = Digesting(news: Raw -> Key, legacy: Raw -> Key, payload: Raw -> Payload, full: Raw -> string)

  // ---------- the order of observations ----------

  predicate StringLess(a: string, b: string) {
    b != [] && (a == [] || a[0] < b[0] || (a[0] == b[0] && StringLess(a[1..], b[1..])))
  }

  /** `observation_order`. */
  function OrderOf(g: Digesting, row: Row): (int, string, string) {
    (row.observedAt, row.run, g.full(row.raw))
  }

  predicate KeyLess(a: (int, string, string), b: (int, string, string)) {
    || a.0 < b.0
    || (a.0 == b.0 && (StringLess(a.1, b.1) || (a.1 == b.1 && StringLess(a.2, b.2))))
  }

  predicate Earlier(g: Digesting, a: Row, b: Row) {
    KeyLess(OrderOf(g, a), OrderOf(g, b))
  }

  lemma {:induction false} StringOrder(a: string, b: string)
    ensures StringLess(a, b) || StringLess(b, a) || a == b
    ensures !(StringLess(a, b) && StringLess(b, a)) && !StringLess(a, a)
    decreases |a|
  {
    if a != [] {
      StringOrder(a[1..], a[1..]);
      if b != [] {
        StringOrder(a[1..], b[1..]);
        assert a == [a[0]] + a[1..] && b == [b[0]] + b[1..];
      }
    }
  }

  lemma {:induction false} StringLessTransitive(a: string, b: string, c: string)
    requires StringLess(a, b) && StringLess(b, c)
    ensures StringLess(a, c)
  {
    if a != [] && a[0] == b[0] == c[0] { StringLessTransitive(a[1..], b[1..], c[1..]); }
  }

  lemma KeyOrder(a: (int, string, string), b: (int, string, string))
    ensures KeyLess(a, b) || KeyLess(b, a) || a == b
    ensures !KeyLess(a, a)
  {
    StringOrder(a.1, b.1);
    StringOrder(a.2, b.2);
    StringOrder(a.1, a.1);
    StringOrder(a.2, a.2);
  }

  lemma KeyLessTransitive(a: (int, string, string), b: (int, string, string), c: (int, string, string))
    requires KeyLess(a, b) && KeyLess(b, c)
    ensures KeyLess(a, c)
  {
    if StringLess(a.1, b.1) && StringLess(b.1, c.1) { StringLessTransitive(a.1, b.1, c.1); }
    if StringLess(a.2, b.2) && StringLess(b.2, c.2) { StringLessTransitive(a.2, b.2, c.2); }
  }

  // ---------- what the records of a set of observations are ----------

  /** A row of an archive, with the number of observations its record claims. */
  datatype Entry = Entry(row: Row, observations: nat)

  ghost predicate Under(g: Digesting, e: Entry, key: Key, payload: Payload) {
    g.news(e.row.raw) == key && g.payload(e.row.raw) == payload
  }

  function RowAt(r: Records, key: Key, payload: Payload): Option<Row> {
    if key in r && payload in r[key].variants then Some(r[key].variants[payload]) else None
  }

  /** Under each key and payload, the earliest of the rows there are; under each key, the
      largest count. */
  ghost predicate Represents(g: Digesting, r: Records, es: set<Entry>) {
    && (forall key :: key in r <==> exists e :: e in es && g.news(e.row.raw) == key)
    && (forall key, payload :: RowIs(g, RowAt(r, key, payload), es, key, payload))
    && (forall key :: key in r ==> CountIs(g, r[key].observations, es, key))
  }

  ghost predicate RowIs(g: Digesting, row: Option<Row>, es: set<Entry>, key: Key, payload: Payload) {
    match row
    case None => forall e :: e in es ==> !Under(g, e, key, payload)
    case Some(least) =>
      && (exists e :: e in es && Under(g, e, key, payload) && e.row == least)
      && (forall e :: e in es && Under(g, e, key, payload) ==> !Earlier(g, e.row, least))
  }

  ghost predicate CountIs(g: Digesting, count: nat, es: set<Entry>, key: Key) {
    && (exists e :: e in es && g.news(e.row.raw) == key && e.observations == count)
    && (forall e :: e in es && g.news(e.row.raw) == key ==> e.observations <= count)
  }

  /** Rows of one payload that sort alike are the same row. */
  ghost predicate NoTies(g: Digesting, es: set<Entry>) {
    forall e, f :: e in es && f in es ==> !Tied(g, e.row, f.row)
  }

  predicate Tied(g: Digesting, a: Row, b: Row) {
    a != b && g.payload(a.raw) == g.payload(b.raw) && OrderOf(g, a) == OrderOf(g, b)
  }

  /** There is only one way to represent a set of observations. */
  lemma OneRepresentation(g: Digesting, es: set<Entry>, r: Records, s: Records)
    requires Represents(g, r, es) && Represents(g, s, es) && NoTies(g, es)
    ensures r == s
  {
    assert r.Keys == s.Keys;
    forall key | key in r ensures r[key] == s[key] {
      SameCount(g, es, key, r[key].observations, s[key].observations);
      forall payload ensures RowAt(r, key, payload) == RowAt(s, key, payload) {
        SameRow(g, es, key, payload, RowAt(r, key, payload), RowAt(s, key, payload));
      }
      SameVariants(r, s, key);
    }
  }

  lemma SameVariants(r: Records, s: Records, key: Key)
    requires key in r && key in s && forall payload :: RowAt(r, key, payload) == RowAt(s, key, payload)
    ensures r[key].variants == s[key].variants
  {
    forall payload
      ensures payload in r[key].variants <==> payload in s[key].variants
      ensures payload in r[key].variants ==> r[key].variants[payload] == s[key].variants[payload]
    {
      assert RowAt(r, key, payload) == RowAt(s, key, payload);
    }
  }

  lemma SameCount(g: Digesting, es: set<Entry>, key: Key, a: nat, b: nat)
    requires CountIs(g, a, es, key) && CountIs(g, b, es, key)
    ensures a == b
  {
  }

  lemma SameRow(g: Digesting, es: set<Entry>, key: Key, payload: Payload, a: Option<Row>, b: Option<Row>)
    requires RowIs(g, a, es, key, payload) && RowIs(g, b, es, key, payload) && NoTies(g, es)
    ensures a == b
  {
    if a.Some? && b.Some? {
      KeyOrder(OrderOf(g, a.value), OrderOf(g, b.value));
    }
  }

  // ---------- adding one observation ----------

  function WithRow(g: Digesting, r: Records, row: Row): Records {
    var key, payload := g.news(row.raw), g.payload(row.raw);
    var record := if key in r then r[key] else Record(map[], 0);
    if payload !in record.variants || Earlier(g, row, record.variants[payload])
    then r[key := record.(variants := record.variants[payload := row])]
    else r[key := record]
  }

  function WithEntry(g: Digesting, r: Records, e: Entry): Records {
    var added, key := WithRow(g, r, e.row), g.news(e.row.raw);
    added[key := added[key].(observations := if added[key].observations < e.observations then e.observations else added[key].observations)]
  }

  lemma RowAfter(g: Digesting, r: Records, es: set<Entry>, e: Entry, key: Key, payload: Payload)
    requires RowIs(g, RowAt(r, key, payload), es, key, payload)
    ensures RowIs(g, RowAt(WithEntry(g, r, e), key, payload), es + {e}, key, payload)
  {
    var before, after := RowAt(r, key, payload), RowAt(WithEntry(g, r, e), key, payload);
    KeyOrder(OrderOf(g, e.row), OrderOf(g, e.row));
    if Under(g, e, key, payload) && before.Some? {
      if Earlier(g, e.row, before.value) {
        assert after == Some(e.row);
        forall f | f in es && Under(g, f, key, payload) ensures !Earlier(g, f.row, e.row) {
          KeyOrder(OrderOf(g, before.value), OrderOf(g, e.row));
          EarlierThanLeast(g, e.row, before.value, f.row);
        }
      } else {
        assert after == before;
      }
    }
  }

  lemma EarlierThanLeast(g: Digesting, e: Row, least: Row, f: Row)
    requires Earlier(g, e, least) && !Earlier(g, f, least)
    ensures !Earlier(g, f, e)
  {
    var x, y, z := OrderOf(g, e), OrderOf(g, least), OrderOf(g, f);
    if KeyLess(z, x) { KeyLessTransitive(z, x, y); }
  }

  lemma CountAfter(g: Digesting, r: Records, es: set<Entry>, e: Entry, key: Key)
    requires Represents(g, r, es) && key in WithEntry(g, r, e)
    ensures CountIs(g, WithEntry(g, r, e)[key].observations, es + {e}, key)
  {
    if key in r { assert CountIs(g, r[key].observations, es, key); }
  }

  /** One more observation in the records is one more in the set. */
  lemma EntryAdds(g: Digesting, r: Records, es: set<Entry>, e: Entry)
    requires Represents(g, r, es)
    ensures Represents(g, WithEntry(g, r, e), es + {e})
  {
    var after := WithEntry(g, r, e);
    forall key, payload ensures RowIs(g, RowAt(after, key, payload), es + {e}, key, payload) {
      RowAfter(g, r, es, e, key, payload);
    }
    forall key | key in after ensures CountIs(g, after[key].observations, es + {e}, key) {
      CountAfter(g, r, es, e, key);
    }
    forall key ensures key in after <==> exists f :: f in es + {e} && g.news(f.row.raw) == key {
      assert key in after <==> key in r || key == g.news(e.row.raw);
      assert e in es + {e};
    }
  }

  // ---------- the operations ----------

  /** Where the rows of an archive are: a key and a payload each. */
  function Places(archive: Records): set<(Key, Payload)> {
    set key, payload | key in archive && payload in archive[key].variants :: (key, payload)
  }

  function PlacesUnder(key: Key, payloads: set<Payload>): set<(Key, Payload)> {
    set payload | payload in payloads :: (key, payload)
  }

  function EntryAt(archive: Records, at: (Key, Payload)): Entry
    requires at in Places(archive)
  {
    Entry(archive[at.0].variants[at.1], archive[at.0].observations)
  }

  /** The observations at some places. */
  ghost function EntriesAt(archive: Records, places: set<(Key, Payload)>): set<Entry>
    requires places <= Places(archive)
  {
    set at | at in places :: EntryAt(archive, at)
  }

  ghost function EntriesOf(archive: Records): set<Entry> {
    EntriesAt(archive, Places(archive))
  }

  /** The row belongs under this key, the current one or the one used before. */
  predicate Belongs(g: Digesting, key: Key, raw: Raw) {
    key == g.news(raw) || key == g.legacy(raw)
  }

  predicate BelongsAt(g: Digesting, archive: Records, at: (Key, Payload))
    requires at in Places(archive)
  {
    Belongs(g, at.0, EntryAt(archive, at).row.raw)
  }

  predicate Sound(g: Digesting, archive: Records) {
    forall at :: at in Places(archive) ==> BelongsAt(g, archive, at)
  }

  class Collection {
    const g: Digesting
    var records: Records

    constructor (g: Digesting)
      ensures this.g == g && records == map[]
      ensures Represents(g, records, {})
    {
      this.g, this.records := g, map[];
    }

    /** `add_observation`: the current key decides where the row goes. */
    method AddObservation(row: Row) returns (key: Key)
      modifies this
      ensures key == g.news(row.raw) && records == WithRow(g, old(records), row)
    {
      key := g.news(row.raw);
      var payload := g.payload(row.raw);
      if key !in records { records := records[key := Record(map[], 0)]; }
      var record := records[key];
      if payload !in record.variants || Earlier(g, row, record.variants[payload]) {
        records := records[key := record.(variants := record.variants[payload := row])];
      }
    }

    /** `merge_records`, whatever order the dictionaries are walked in.  It fails exactly
        when some row belongs under neither key. */
    method MergeRecords(archive: Records, ghost es: set<Entry>) returns (r: Outcome)
      requires Represents(g, records, es)
      modifies this
      ensures r.Done? || r.Raised?
      ensures r.Done? <==> Sound(g, archive)
      ensures r.Done? ==> Represents(g, records, es + EntriesOf(archive))
    {
      var keys := archive.Keys;
      ghost var places: set<(Key, Payload)> := {};
      assert es + EntriesAt(archive, {}) == es;
      while keys != {}
        invariant keys <= archive.Keys
        invariant places == set at | at in Places(archive) && at.0 !in keys
        invariant Represents(g, records, es + EntriesAt(archive, places))
        invariant forall at :: at in places ==> BelongsAt(g, archive, at)
        decreases |keys|
      {
        var key :| key in keys;
        r, places := MergeRecord(archive, key, es, places);
        if r.Raised? { return; }
        keys := keys - {key};
      }
      assert places == Places(archive);
      r := Done;
    }

    /** The rows of one record. */
    method MergeRecord(archive: Records, key: Key, ghost es: set<Entry>, ghost before: set<(Key, Payload)>)
      returns (r: Outcome, ghost places: set<(Key, Payload)>)
      requires key in archive && before <= Places(archive)
      requires Represents(g, records, es + EntriesAt(archive, before))
      requires forall at :: at in before ==> BelongsAt(g, archive, at)
      modifies this
      ensures r.Done? || r.Raised?
      ensures r.Raised? ==> !Sound(g, archive)
      ensures places <= Places(archive)
      ensures r.Done? ==> forall at :: at in places ==> BelongsAt(g, archive, at)
      ensures r.Done? ==> places == before + PlacesUnder(key, archive[key].variants.Keys)
      ensures r.Done? ==> Represents(g, records, es + EntriesAt(archive, places))
    {
      var record := archive[key];
      var payloads := record.variants.Keys;
      places := before;
      while payloads != {}
        invariant payloads <= record.variants.Keys && places <= Places(archive)
        invariant places == before + PlacesUnder(key, record.variants.Keys - payloads)
        invariant forall at :: at in places ==> BelongsAt(g, archive, at)
        invariant Represents(g, records, es + EntriesAt(archive, places))
        decreases |payloads|
      {
        var payload :| payload in payloads;
        assert (key, payload) in Places(archive);
        r := MergeAt(archive, key, payload, es, places);
        if r.Raised? { return; }
        places := places + {(key, payload)};
        payloads := payloads - {payload};
      }
      r := Done;
    }

    method MergeAt(archive: Records, key: Key, payload: Payload, ghost es: set<Entry>, ghost places: set<(Key, Payload)>)
      returns (r: Outcome)
      requires (key, payload) in Places(archive) && places <= Places(archive)
      requires Represents(g, records, es + EntriesAt(archive, places))
      modifies this
      ensures r == if BelongsAt(g, archive, (key, payload)) then Done else Raised
      ensures r.Done? ==> Represents(g, records, es + EntriesAt(archive, places + {(key, payload)}))
    {
      var row := archive[key].variants[payload];
      if !Belongs(g, key, row.raw) { return Raised; }
      EntryAdds(g, records, es + EntriesAt(archive, places), EntryAt(archive, (key, payload)));
      MergeRow(row, archive[key].observations);
      OneMorePlace(archive, es, places, (key, payload));
      r := Done;
    }

    method MergeRow(row: Row, observations: nat)
      modifies this
      ensures records == WithEntry(g, old(records), Entry(row, observations))
    {
      var key := AddObservation(row);
      var merged := records[key];
      records := records[key := merged.(observations :=
        if merged.observations < observations then observations else merged.observations)];
    }
  }

  lemma OneMorePlace(archive: Records, es: set<Entry>, places: set<(Key, Payload)>, at: (Key, Payload))
    requires places <= Places(archive) && at in Places(archive)
    ensures es + EntriesAt(archive, places + {at}) == es + EntriesAt(archive, places) + {EntryAt(archive, at)}
  {
  }

  // ---------- any number of archives ----------

  ghost function AllEntries(archives: seq<Records>): set<Entry> {
    set i, e | 0 <= i < |archives| && e in EntriesOf(archives[i]) :: e
  }

  /** Merging archives one after the other. */
  method MergeAll(g: Digesting, archives: seq<Records>) returns (r: Outcome, records: Records)
    ensures r.Done? || r.Raised?
    ensures r.Done? <==> forall a :: a in archives ==> Sound(g, a)
    ensures r.Done? ==> Represents(g, records, AllEntries(archives))
  {
    var c := new Collection(g);
    for i := 0 to |archives|
      invariant fresh(c) && c.g == g && Represents(g, c.records, AllEntries(archives[..i]))
      invariant forall j :: 0 <= j < i ==> Sound(g, archives[j])
    {
      r := c.MergeRecords(archives[i], AllEntries(archives[..i]));
      if r.Raised? { return r, map[]; }
      MoreEntries(archives, i);
    }
    assert archives[..|archives|] == archives;
    r, records := Done, c.records;
  }

  lemma MoreEntries(archives: seq<Records>, i: nat)
    requires i < |archives|
    ensures AllEntries(archives[..i + 1]) == AllEntries(archives[..i]) + EntriesOf(archives[i])
  {
    forall e ensures e in AllEntries(archives[..i + 1]) <==> e in AllEntries(archives[..i]) || e in EntriesOf(archives[i]) {
      if e in EntriesOf(archives[i]) { assert archives[..i + 1][i] == archives[i]; }
      if e in AllEntries(archives[..i]) {
        var j :| 0 <= j < i && e in EntriesOf(archives[..i][j]);
        assert archives[..i + 1][j] == archives[..i][j];
      }
      if e in AllEntries(archives[..i + 1]) {
        var j :| 0 <= j < i + 1 && e in EntriesOf(archives[..i + 1][j]);
        if j < i { assert archives[..i][j] == archives[..i + 1][j]; }
      }
    }
  }

  /** Neither the order of the archives nor repeating any of them makes a difference. */
  lemma OrderAndRepetitionDoNotMatter(g: Digesting, a: seq<Records>, b: seq<Records>, r: Records, s: Records)
    requires forall x :: x in a <==> x in b
    requires Represents(g, r, AllEntries(a)) && Represents(g, s, AllEntries(b))
    requires NoTies(g, AllEntries(a))
    ensures r == s
  {
    SameEntries(a, b);
    OneRepresentation(g, AllEntries(a), r, s);
  }

  lemma SameEntries(a: seq<Records>, b: seq<Records>)
    requires forall x :: x in a <==> x in b
    ensures AllEntries(a) == AllEntries(b)
  {
    EntriesWithin(a, b);
    EntriesWithin(b, a);
  }

  lemma EntriesWithin(a: seq<Records>, b: seq<Records>)
    requires forall x :: x in a ==> x in b
    ensures AllEntries(a) <= AllEntries(b)
  {
    forall e | e in AllEntries(a) ensures e in AllEntries(b) {
      var i :| 0 <= i < |a| && e in EntriesOf(a[i]);
      assert a[i] in a;
      var j :| 0 <= j < |b| && b[j] == a[i];
    }
  }
}
