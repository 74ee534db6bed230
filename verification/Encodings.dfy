/** The byte streams that replica digests are taken over: tagged, length-framed values
    (`_encode_value`) and framed strings (`_frame`). */
module Encodings {
  import opened Outcomes

  newtype Byte = b: int | 0 <= b < 256
  type Bytes = seq<Byte>

  /** A stored value: a double by its bit pattern, text by its UTF-8. */
  datatype Value = Null | Int(n: int) | Real(bits: Bytes) | Text(utf8: Bytes) | Blob(data: Bytes)

  type Row = seq<Value>

  function Pow256(k: nat): (p: nat)
    ensures p > 0
  {
    if k == 0 then 1 else Pow256(k - 1) * 256
  }

  const MAX_FRAME: nat := Pow256(8)

  /** What the encoder meets: 64-bit integers, 8-byte doubles, payloads with an 8-byte length. */
  predicate Fits(v: Value) {
    match v
    case Null => true
    case Int(n) => -0x8000_0000_0000_0000 <= n < 0x8000_0000_0000_0000
    case Real(b) => |b| == 8
    case Text(b) => |b| < MAX_FRAME
    case Blob(b) => |b| < MAX_FRAME
  }

  predicate RowFits(r: Row) {
    forall v :: v in r ==> Fits(v)
  }

  predicate RowsFit(rows: seq<Row>) {
    forall r :: r in rows ==> RowFits(r)
  }

  // ---------- numbers ----------

  /** `int.to_bytes(k, "big")`. */
  function BigEndian(n: nat, k: nat): (b: Bytes)
    ensures |b| == k
  {
    if k == 0 then [] else BigEndian(n / 256, k - 1) + [(n % 256) as Byte]
  }

  function FromBigEndian(b: Bytes): nat {
    if b == [] then 0 else FromBigEndian(b[..|b| - 1]) * 256 + b[|b| - 1] as nat
  }

  lemma {:induction false} BigEndianRoundTrip(n: nat, k: nat)
    requires n < Pow256(k)
    ensures FromBigEndian(BigEndian(n, k)) == n
  {
    if k > 0 {
      BigEndianRoundTrip(n / 256, k - 1);
      assert BigEndian(n, k)[..k - 1] == BigEndian(n / 256, k - 1);
    }
  }

  const MINUS: Byte := 45
  const ZERO: Byte := 48

  function Digits(n: nat): (b: Bytes)
    ensures 0 < |b| <= n + 1
    ensures forall d :: d in b ==> ZERO <= d < 58
  {
    if n < 10 then [ZERO + n as Byte] else Digits(n / 10) + [ZERO + (n % 10) as Byte]
  }

  /** `str(n).encode("ascii")`. */
  function Decimal(n: int): (b: Bytes)
    ensures 0 < |b|
    ensures b[0] == MINUS <==> n < 0
  {
    if n < 0 then [MINUS] + Digits(-n) else
    assert Digits(n)[0] in Digits(n);
    Digits(n)
  }

  function FromDigits(b: Bytes): int {
    if b == [] then 0 else FromDigits(b[..|b| - 1]) * 10 + (b[|b| - 1] as int - ZERO as int)
  }

  function FromDecimal(b: Bytes): int {
    if b != [] && b[0] == MINUS then -FromDigits(b[1..]) else FromDigits(b)
  }

  lemma {:induction false} DigitsRoundTrip(n: nat)
    ensures FromDigits(Digits(n)) == n
  {
    if n >= 10 {
      DigitsRoundTrip(n / 10);
      assert Digits(n)[..|Digits(n)| - 1] == Digits(n / 10);
    } else {
      assert Digits(n)[..0] == [];
    }
  }

  lemma DecimalRoundTrip(n: int)
    ensures FromDecimal(Decimal(n)) == n
  {
    if n < 0 {
      DigitsRoundTrip(-n);
      assert Decimal(n)[1..] == Digits(-n);
    } else {
      DigitsRoundTrip(n);
    }
  }

  lemma DecimalFits(n: int)
    requires Fits(Int(n))
    ensures |Decimal(n)| < MAX_FRAME
  {
    MaxFrameIs();
  }

  lemma MaxFrameIs()
    ensures MAX_FRAME == 0x1_0000_0000_0000_0000
  {
    assert Pow256(4) == 0x1_0000_0000;
    assert Pow256(6) == Pow256(4) * 256 * 256;
    assert Pow256(8) == Pow256(6) * 256 * 256;
  }

  // ---------- frames ----------

  /** `_frame`. */
  function Frame(payload: Bytes): (b: Bytes)
    ensures |b| == 8 + |payload|
  {
    BigEndian(|payload|, 8) + payload
  }

  /** The framed payload at the front, and what follows it. */
  function TakeFrame(b: Bytes): (r: Option<(Bytes, Bytes)>)
    ensures r.Some? ==> |r.value.1| + 8 <= |b|
  {
    if |b| < 8 then None
    else
      var n := FromBigEndian(b[..8]);
      if |b| < 8 + n then None else Some((b[8..8 + n], b[8 + n..]))
  }

  lemma TakeFrameOf(payload: Bytes, rest: Bytes)
    requires |payload| < MAX_FRAME
    ensures TakeFrame(Frame(payload) + rest) == Some((payload, rest))
  {
    var b := Frame(payload) + rest;
    BigEndianRoundTrip(|payload|, 8);
    assert b[..8] == BigEndian(|payload|, 8);
    assert b[8..8 + |payload|] == payload && b[8 + |payload|..] == rest;
  }

  /** The encodings of a list, one after the other. */
  function Join<T>(f: T -> Bytes, s: seq<T>): Bytes {
    if s == [] then [] else f(s[0]) + Join(f, s[1..])
  }

  /** A joined list grows at its end. */
  lemma {:induction false} JoinGrows<T>(f: T -> Bytes, s: seq<T>, x: T)
    ensures Join(f, s + [x]) == Join(f, s) + f(x)
  {
    if s == [] {
      assert [x][1..] == [];
    } else {
      JoinGrows(f, s[1..], x);
      assert (s + [x])[1..] == s[1..] + [x];
    }
  }

  function Frames(values: seq<Bytes>): Bytes {
    Join(Frame, values)
  }

  function TakeFrames(b: Bytes): Option<seq<Bytes>>
    decreases |b|
  {
    if b == [] then Some([])
    else
      var first := TakeFrame(b);
      if first.None? then None
      else
        var rest := TakeFrames(first.value.1);
        if rest.None? then None else Some([first.value.0] + rest.value)
  }

  predicate FramesFit(values: seq<Bytes>) {
    forall v :: v in values ==> |v| < MAX_FRAME
  }

  /** Framed strings read back as the same strings. */
  lemma {:induction false} FramesRoundTrip(values: seq<Bytes>)
    requires FramesFit(values)
    ensures TakeFrames(Frames(values)) == Some(values)
  {
    if values != [] {
      TakeFrameOf(values[0], Frames(values[1..]));
      FramesRoundTrip(values[1..]);
      assert values == [values[0]] + values[1..];
    }
  }

  // ---------- values and rows ----------

  const TAG_NULL: Byte := 110
  const TAG_INT: Byte := 105
  const TAG_REAL: Byte := 102
  const TAG_TEXT: Byte := 116
  const TAG_BLOB: Byte := 98
  const TAG_ROW: Byte := 114

  /** `_encode_value`. */
  function EncodeValue(v: Value): (b: Bytes)
    ensures |b| > 0 && b[0] != TAG_ROW
  {
    match v
    case Null => [TAG_NULL]
    case Int(n) => [TAG_INT] + Frame(Decimal(n))
    case Real(bits) => [TAG_REAL] + bits
    case Text(utf8) => [TAG_TEXT] + Frame(utf8)
    case Blob(data) => [TAG_BLOB] + Frame(data)
  }

  function EncodeValues(vs: Row): Bytes {
    Join(EncodeValue, vs)
  }

  /** `_encoded_row`. */
  function EncodeRow(r: Row): Bytes {
    [TAG_ROW] + EncodeValues(r)
  }

  /** All that `_table_digest` feeds its hash. */
  function EncodeRows(rows: seq<Row>): Bytes {
    Join(EncodeRow, rows)
  }

  /** The value at the front, and what follows it. */
  function TakeValue(b: Bytes): (r: Option<(Value, Bytes)>)
    ensures r.Some? ==> |r.value.1| < |b|
  {
    if b == [] then None
    else if b[0] == TAG_NULL then Some((Null, b[1..]))
    else if b[0] == TAG_REAL then
      if |b| < 9 then None else Some((Real(b[1..9]), b[9..]))
    else
      var frame := TakeFrame(b[1..]);
      if frame.None? then None
      else if b[0] == TAG_INT then Some((Int(FromDecimal(frame.value.0)), frame.value.1))
      else if b[0] == TAG_TEXT then Some((Text(frame.value.0), frame.value.1))
      else if b[0] == TAG_BLOB then Some((Blob(frame.value.0), frame.value.1))
      else None
  }

  lemma TakeTagged(tag: Byte, payload: Bytes, rest: Bytes)
    requires |payload| < MAX_FRAME
    ensures var b := [tag] + Frame(payload) + rest; b[0] == tag && TakeFrame(b[1..]) == Some((payload, rest))
  {
    TakeFrameOf(payload, rest);
    assert ([tag] + Frame(payload) + rest)[1..] == Frame(payload) + rest;
  }

  lemma TakeRealOf(bits: Bytes, rest: Bytes)
    requires |bits| == 8
    ensures TakeValue([TAG_REAL] + bits + rest) == Some((Real(bits), rest))
  {
    var b := [TAG_REAL] + bits + rest;
    assert b[1..9] == bits && b[9..] == rest;
  }

  lemma TakeIntOf(n: int, rest: Bytes)
    requires Fits(Int(n))
    ensures TakeValue([TAG_INT] + Frame(Decimal(n)) + rest) == Some((Int(n), rest))
  {
    DecimalFits(n);
    DecimalRoundTrip(n);
    TakeTagged(TAG_INT, Decimal(n), rest);
  }

  lemma TakeValueOf(v: Value, rest: Bytes)
    requires Fits(v)
    ensures TakeValue(EncodeValue(v) + rest) == Some((v, rest))
  {
    match v
    case Null => assert ([TAG_NULL] + rest)[1..] == rest;
    case Int(n) => TakeIntOf(n, rest);
    case Real(bits) => TakeRealOf(bits, rest);
    case Text(utf8) => TakeTagged(TAG_TEXT, utf8, rest);
    case Blob(data) => TakeTagged(TAG_BLOB, data, rest);
  }

  /** Values up to the end or the next row mark. */
  function TakeValues(b: Bytes): (r: Option<(Row, Bytes)>)
    ensures r.Some? ==> |r.value.1| <= |b|
    decreases |b|
  {
    if b == [] || b[0] == TAG_ROW then Some(([], b))
    else
      var first := TakeValue(b);
      if first.None? then None
      else
        var rest := TakeValues(first.value.1);
        if rest.None? then None else Some(([first.value.0] + rest.value.0, rest.value.1))
  }

  lemma TakeValuesStep(b: Bytes, v: Value, tail: Bytes, vs: Row, rest: Bytes)
    requires b != [] && b[0] != TAG_ROW && TakeValue(b) == Some((v, tail))
    requires TakeValues(tail) == Some((vs, rest))
    ensures TakeValues(b) == Some(([v] + vs, rest))
  {
  }

  lemma {:induction false} TakeValuesOf(vs: Row, rest: Bytes)
    requires RowFits(vs) && (rest == [] || rest[0] == TAG_ROW)
    ensures TakeValues(EncodeValues(vs) + rest) == Some((vs, rest))
    decreases |vs|
  {
    if vs == [] {
      assert EncodeValues(vs) + rest == rest;
    } else {
      var v, more := vs[0], vs[1..];
      TakeValuesOf(more, rest);
      TakeValueOf(v, EncodeValues(more) + rest);
      FirstValue(vs, rest);
      TakeValuesStep(EncodeValues(vs) + rest, v, EncodeValues(more) + rest, more, rest);
      assert vs == [v] + more;
    }
  }

  lemma FirstValue(vs: Row, rest: Bytes)
    requires vs != []
    ensures EncodeValues(vs) + rest == EncodeValue(vs[0]) + (EncodeValues(vs[1..]) + rest)
    ensures (EncodeValues(vs) + rest)[0] != TAG_ROW
  {
  }

  /** The decoder: rows back from the stream. */
  function DecodeRows(b: Bytes): Option<seq<Row>>
    decreases |b|
  {
    if b == [] then Some([])
    else if b[0] != TAG_ROW then None
    else
      var row := TakeValues(b[1..]);
      if row.None? then None
      else
        var rest := DecodeRows(row.value.1);
        if rest.None? then None else Some([row.value.0] + rest.value)
  }

  lemma DecodeRowsStep(b: Bytes, r: Row, tail: Bytes, rows: seq<Row>)
    requires b != [] && b[0] == TAG_ROW && TakeValues(b[1..]) == Some((r, tail))
    requires DecodeRows(tail) == Some(rows)
    ensures DecodeRows(b) == Some([r] + rows)
  {
  }

  lemma TakeRowOf(r: Row, tail: Bytes)
    requires RowFits(r) && (tail == [] || tail[0] == TAG_ROW)
    ensures TakeValues((EncodeRow(r) + tail)[1..]) == Some((r, tail))
  {
    assert (EncodeRow(r) + tail)[1..] == EncodeValues(r) + tail;
    TakeValuesOf(r, tail);
  }

  /** The stream of a table decodes to exactly its rows. */
  lemma {:induction false} RowsRoundTrip(rows: seq<Row>)
    requires RowsFit(rows)
    ensures DecodeRows(EncodeRows(rows)) == Some(rows)
    decreases |rows|
  {
    if rows != [] {
      var r, rest := rows[0], rows[1..];
      RowsRoundTrip(rest);
      TakeRowOf(r, EncodeRows(rest));
      DecodeRowsStep(EncodeRow(r) + EncodeRows(rest), r, EncodeRows(rest), rest);
      assert rows == [r] + rest;
    }
  }

  lemma RowInjective(a: Row, b: Row)
    requires RowFits(a) && RowFits(b) && EncodeRow(a) == EncodeRow(b)
    ensures a == b
  {
    TakeRowOf(a, []);
    TakeRowOf(b, []);
  }
}
