/** The digests of deploy/sync: of a keyed table, of a table with null keys, and of the
    FTS projection that producer and consumer compute each on their own. */
module TableDigests {
  import opened Encodings
  import opened Digests

  function Ascii(s: string): (b: Bytes)
    ensures |b| == |s|
  {
    seq(|s|, i requires 0 <= i < |s| => if s[i] < 128 as char then s[i] as Byte else 0)
  }

  const MULTISET_HEADER: Bytes := Ascii("ai-radar-table-multiset-v1\0")
  const FTS_ROW_HEADER: Bytes := Ascii("ai-radar-items-fts-row-v1\0")
  const FTS_TABLE_HEADER: Bytes := Ascii("ai-radar-items-fts-table-v1\0")

  lemma Assoc<T>(a: seq<T>, b: seq<T>, c: seq<T>)
    ensures (a + b) + c == a + (b + c)
  {
  }

  lemma Grows<T>(s: seq<T>, i: nat)
    requires i < |s|
    ensures s[..i + 1] == s[..i] + [s[i]]
  {
  }

  // ---------- keyed tables ----------

  /** `_table_digest` over the rows in the order the query returns them. */
  method TableDigest(h: Hash, listed: seq<Row>) returns (count: nat, digest: Bytes)
    ensures count == |listed| && digest == h(EncodeRows(listed))
  {
    var fed: Bytes := [];
    count := 0;
    for i := 0 to |listed|
      invariant count == i && fed == EncodeRows(listed[..i])
    {
      count := count + 1;
      fed := FeedRow(fed, listed[i]);
      JoinGrows(EncodeRow, listed[..i], listed[i]);
      Grows(listed, i);
    }
    assert listed[..|listed|] == listed;
    digest := h(fed);
  }

  /** The row mark, then each value. */
  method FeedRow(fed: Bytes, row: Row) returns (more: Bytes)
    ensures more == fed + EncodeRow(row)
  {
    more := fed + [TAG_ROW];
    for i := 0 to |row|
      invariant more == fed + ([TAG_ROW] + EncodeValues(row[..i]))
    {
      JoinGrows(EncodeValue, row[..i], row[i]);
      Grows(row, i);
      more := more + EncodeValue(row[i]);
    }
    assert row[..|row|] == row;
  }

  /** The same digest means the same rows in the same order. */
  lemma TableDigestDetermines(h: Hash, a: seq<Row>, b: seq<Row>)
    requires RowsFit(a) && RowsFit(b) && NoClash(h, EncodeRows(a), EncodeRows(b))
    ensures h(EncodeRows(a)) == h(EncodeRows(b)) <==> a == b
  {
    RowsRoundTrip(a);
    RowsRoundTrip(b);
  }

  // ---------- tables with null keys ----------

  function RowEncodings(rows: seq<Row>): seq<Bytes> {
    Map(EncodeRow, rows)
  }

  function MultisetDigestOf(h: Hash, rows: seq<Row>): Bytes {
    SortedDigest(h, MULTISET_HEADER, RowEncodings(rows))
  }

  /** `_table_multiset_digest`. */
  method TableMultisetDigest(h: Hash, rows: seq<Row>) returns (count: nat, digest: Bytes)
    ensures count == |rows| && digest == MultisetDigestOf(h, rows)
  {
    var hashes := RowHashes(h, rows);
    count := |hashes|;
    digest := FeedSorted(h, MULTISET_HEADER, hashes);
  }

  method RowHashes(h: Hash, rows: seq<Row>) returns (hashes: seq<Bytes>)
    ensures hashes == Map(h, RowEncodings(rows))
  {
    hashes := [];
    for i := 0 to |rows|
      invariant |hashes| == i && forall k :: 0 <= k < i ==> hashes[k] == h(EncodeRow(rows[k]))
    {
      hashes := hashes + [h(EncodeRow(rows[i]))];
    }
  }

  /** Header, count, and the hashes in ascending order. */
  method FeedSorted(h: Hash, header: Bytes, hashes: seq<Bytes>) returns (digest: Bytes)
    ensures digest == h(header + BigEndian(|hashes|, 8) + Concat(Sort(hashes)))
  {
    var ascending := Sort(hashes);
    var start := header + BigEndian(|hashes|, 8);
    var fed := start;
    for i := 0 to |ascending|
      invariant fed == start + Concat(ascending[..i])
    {
      JoinGrows((p: Bytes) => p, ascending[..i], ascending[i]);
      Grows(ascending, i);
      Assoc(start, Concat(ascending[..i]), ascending[i]);
      fed := fed + ascending[i];
    }
    assert ascending[..|ascending|] == ascending;
    digest := h(fed);
  }

  /** The hash collides on nothing that it was given for these two tables. */
  ghost predicate NoMultisetClash(h: Hash, a: seq<Row>, b: seq<Row>) {
    && Apart(h, RowEncodings(a), RowEncodings(b))
    && NoClash(h, SortedMessage(h, MULTISET_HEADER, RowEncodings(a)),
                  SortedMessage(h, MULTISET_HEADER, RowEncodings(b)))
  }

  /** The same digest means the same rows, counted, in whatever order. */
  lemma MultisetDigestDetermines(h: Hash, a: seq<Row>, b: seq<Row>)
    requires RowsFit(a) && RowsFit(b) && NoMultisetClash(h, a, b)
    ensures MultisetDigestOf(h, a) == MultisetDigestOf(h, b) <==> multiset(a) == multiset(b)
  {
    SortedDigestIs(h, MULTISET_HEADER, RowEncodings(a), RowEncodings(b));
    EncodingsDetermine(a, b);
  }

  lemma EncodingsDetermine(a: seq<Row>, b: seq<Row>)
    requires RowsFit(a) && RowsFit(b)
    ensures multiset(RowEncodings(a)) == multiset(RowEncodings(b)) <==> multiset(a) == multiset(b)
  {
    if multiset(a) == multiset(b) {
      MapMultiset(EncodeRow, a, b);
    } else if multiset(RowEncodings(a)) == multiset(RowEncodings(b)) {
      forall r, s | r in a && s in b && EncodeRow(r) == EncodeRow(s) ensures r == s {
        RowInjective(r, s);
      }
      InjectiveMapMultiset(EncodeRow, a, b);
    }
  }

  // ---------- the FTS projection ----------

  type TextRow = seq<Bytes>

  /** What the row hash is taken over. */
  function FtsRowMessage(row: TextRow): Bytes {
    FTS_ROW_HEADER + Frames(row)
  }

  function FtsMessages(rows: seq<TextRow>): seq<Bytes> {
    Map(FtsRowMessage, rows)
  }

  function FtsDigestOf(h: Hash, rows: seq<TextRow>): Bytes {
    SortedDigest(h, FTS_TABLE_HEADER, FtsMessages(rows))
  }

  /** `_row_hash` of the producer, and the consumer's inlined copy. */
  method RowHash(h: Hash, row: TextRow) returns (digest: Bytes)
    ensures digest == h(FtsRowMessage(row))
  {
    var fed := FeedFrames(FTS_ROW_HEADER, row);
    digest := h(fed);
  }

  method FeedFrames(start: Bytes, row: TextRow) returns (fed: Bytes)
    ensures fed == start + Frames(row)
  {
    fed := start;
    for i := 0 to |row|
      invariant fed == start + Frames(row[..i])
    {
      JoinGrows(Frame, row[..i], row[i]);
      Grows(row, i);
      Assoc(start, Frames(row[..i]), Frame(row[i]));
      fed := fed + Frame(row[i]);
    }
    assert row[..|row|] == row;
  }

  /** `_table_digest` of build_fts_manifest.py and `_fts_table_digest` of
      apply_db_update.py, which are the same steps. */
  method FtsTableDigest(h: Hash, rows: seq<TextRow>) returns (digest: Bytes)
    ensures digest == FtsDigestOf(h, rows)
  {
    var hashes: seq<Bytes> := [];
    for i := 0 to |rows|
      invariant |hashes| == i && forall k :: 0 <= k < i ==> hashes[k] == h(FtsRowMessage(rows[k]))
    {
      var one := RowHash(h, rows[i]);
      hashes := hashes + [one];
    }
    assert hashes == Map(h, FtsMessages(rows));
    digest := FeedSorted(h, FTS_TABLE_HEADER, hashes);
  }

  /** The consumer accepts the producer's digest whatever order either read its rows in. */
  lemma ProducerAndConsumerAgree(h: Hash, produced: seq<TextRow>, consumed: seq<TextRow>)
    requires multiset(produced) == multiset(consumed)
    ensures FtsDigestOf(h, produced) == FtsDigestOf(h, consumed)
  {
    MapMultiset(FtsRowMessage, produced, consumed);
    SortedDigestIgnoresOrder(h, FTS_TABLE_HEADER, FtsMessages(produced), FtsMessages(consumed));
  }

  ghost predicate NoFtsClash(h: Hash, a: seq<TextRow>, b: seq<TextRow>) {
    && Apart(h, FtsMessages(a), FtsMessages(b))
    && NoClash(h, SortedMessage(h, FTS_TABLE_HEADER, FtsMessages(a)),
                  SortedMessage(h, FTS_TABLE_HEADER, FtsMessages(b)))
  }

  lemma FtsMessageInjective(a: TextRow, b: TextRow)
    requires FramesFit(a) && FramesFit(b) && FtsRowMessage(a) == FtsRowMessage(b)
    ensures a == b
  {
    FramesRoundTrip(a);
    FramesRoundTrip(b);
    assert Frames(a) == FtsRowMessage(a)[|FTS_ROW_HEADER|..];
    assert Frames(b) == FtsRowMessage(b)[|FTS_ROW_HEADER|..];
  }

  /** And it accepts only the rows the producer had. */
  lemma FtsDigestDetermines(h: Hash, a: seq<TextRow>, b: seq<TextRow>)
    requires forall r :: r in a || r in b ==> FramesFit(r)
    requires NoFtsClash(h, a, b)
    ensures FtsDigestOf(h, a) == FtsDigestOf(h, b) <==> multiset(a) == multiset(b)
  {
    SortedDigestIs(h, FTS_TABLE_HEADER, FtsMessages(a), FtsMessages(b));
    FtsMessagesDetermine(a, b);
  }

  lemma FtsMessagesDetermine(a: seq<TextRow>, b: seq<TextRow>)
    requires forall r :: r in a || r in b ==> FramesFit(r)
    ensures multiset(FtsMessages(a)) == multiset(FtsMessages(b)) <==> multiset(a) == multiset(b)
  {
    if multiset(a) == multiset(b) {
      MapMultiset(FtsRowMessage, a, b);
    } else if multiset(FtsMessages(a)) == multiset(FtsMessages(b)) {
      forall r, s | r in a && s in b && FtsRowMessage(r) == FtsRowMessage(s) ensures r == s {
        FtsMessageInjective(r, s);
      }
      InjectiveMapMultiset(FtsRowMessage, a, b);
    }
  }
}
