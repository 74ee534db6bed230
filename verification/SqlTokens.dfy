/** The SQL scanner of deploy/sync, and the trigger test built on it.  The same text is in
    logical_delta.py and build_fts_manifest.py. */
module SqlTokens {

  datatype Token = Token(text: string, quoted: bool)

  /** `isspace`, `isalnum` and `casefold`. */
  datatype Text = Text(space: char -> bool, alnum: char -> bool, fold: string -> string)

  const SPECIAL: set<char> := {'-', '/', '*', '\'', '"', '`', '[', ']', '.', '\n', '_', '$'}

  ghost predicate TextOk(t: Text) {
    && (forall c :: t.alnum(c) ==> !t.space(c))
    && (forall c :: c in SPECIAL ==> !t.alnum(c) && (t.space(c) ==> c == '\n'))
  }

  predicate WordChar(t: Text, c: char) {
    t.alnum(c) || c == '_' || c == '$'
  }

  // ---------- what the scanner computes ----------

  /** `str.find`: the first place of `p`, or -1. */
  function Find(s: string, p: string): (k: int)
    ensures k == -1 || 0 <= k <= |s| - |p|
    ensures k >= 0 ==> s[k..k + |p|] == p
  {
    if |s| < |p| then -1
    else if s[..|p|] == p then 0
    else if s == [] then -1
    else
      var k := Find(s[1..], p);
      if k == -1 then -1 else
        assert s[k + 1..k + 1 + |p|] == s[1..][k..k + |p|];
        k + 1
  }

  function After(s: string, p: string): (r: string)
    requires p != []
    ensures |r| <= |s|
  {
    var k := Find(s, p);
    if k == -1 then [] else s[k + |p|..]
  }

  /** Past a string literal: up to a quote that is not doubled. */
  function AfterLiteral(s: string): (r: string)
    ensures |r| <= |s|
    decreases |s|
  {
    if s == [] then []
    else if s[0] != '\'' then AfterLiteral(s[1..])
    else if |s| > 1 && s[1] == '\'' then AfterLiteral(s[2..])
    else s[1..]
  }

  /** An identifier up to a delimiter that is not doubled, and what follows. */
  function Identifier(d: char, s: string): (r: (string, string))
    ensures |r.1| <= |s|
    decreases |s|
  {
    if s == [] then ([], [])
    else if s[0] != d then
      var r := Identifier(d, s[1..]);
      ([s[0]] + r.0, r.1)
    else if |s| > 1 && s[1] == d then
      var r := Identifier(d, s[2..]);
      ([d] + r.0, r.1)
    else ([], s[1..])
  }

  function WordLength(t: Text, s: string): (n: nat)
    ensures n <= |s|
    ensures s != [] && WordChar(t, s[0]) ==> n > 0
    decreases |s|
  {
    if s == [] || !WordChar(t, s[0]) then 0 else 1 + WordLength(t, s[1..])
  }

  /** One turn of the scanner: the tokens it adds, and what is left. */
  function Turn(t: Text, s: string): (r: (seq<Token>, string))
    requires s != []
    ensures |r.1| < |s|
  {
    if t.space(s[0]) then ([], s[1..])
    else if "--" <= s then ([], After(s[2..], "\n"))
    else if "/*" <= s then ([], After(s[2..], "*/"))
    else if s[0] == '\'' then ([], AfterLiteral(s[1..]))
    else if s[0] == '"' || s[0] == '`' then
      var r := Identifier(s[0], s[1..]);
      ([Token(r.0, true)], r.1)
    else if s[0] == '[' then Bracketed(s[1..])
    else if WordChar(t, s[0]) then
      var n := WordLength(t, s);
      ([Token(s[..n], false)], s[n..])
    else ([Token([s[0]], false)], s[1..])
  }

  /** An identifier in brackets ends at the first closing one. */
  function Bracketed(s: string): (r: (seq<Token>, string))
    ensures |r.1| <= |s|
  {
    var k := Find(s, "]");
    if k == -1 then ([Token(s, true)], []) else ([Token(s[..k], true)], s[k + 1..])
  }

  /** `_sql_tokens`, on what is left to scan. */
  function Scan(t: Text, s: string): seq<Token>
    decreases |s|
  {
    if s == [] then [] else Turn(t, s).0 + Scan(t, Turn(t, s).1)
  }

  // ---------- the scanner ----------

  lemma Cut(s: string, i: nat, n: nat)
    requires i + n <= |s|
    ensures s[i..][n..] == s[i + n..] && s[i..][..n] == s[i..i + n]
  {
  }

  lemma Prepend(value: string, c: char, tail: string)
    ensures value + ([c] + tail) == (value + [c]) + tail
  {
  }

  /** `str.find(p, start)`. */
  method FindFrom(s: string, p: string, start: nat) returns (k: int)
    requires start <= |s|
    ensures k == -1 <==> Find(s[start..], p) == -1
    ensures k != -1 ==> k == start + Find(s[start..], p)
  {
    var at := Find(s[start..], p);
    k := if at == -1 then -1 else start + at;
  }

  method SkipLiteral(s: string, start: nat) returns (index: nat)
    requires start <= |s|
    ensures start <= index <= |s| && s[index..] == AfterLiteral(s[start..])
  {
    index := start;
    while index < |s|
      invariant start <= index <= |s|
      invariant AfterLiteral(s[index..]) == AfterLiteral(s[start..])
    {
      Cut(s, index, 1);
      if s[index] == '\'' {
        if index + 1 < |s| && s[index + 1] == '\'' {
          Cut(s, index, 2);
          index := index + 2;
          continue;
        }
        return index + 1;
      }
      index := index + 1;
    }
  }

  method ReadIdentifier(s: string, d: char, start: nat) returns (value: string, index: nat)
    requires start <= |s|
    ensures start <= index <= |s| && Identifier(d, s[start..]) == (value, s[index..])
  {
    index, value := start, [];
    ghost var all := Identifier(d, s[start..]);
    assert value + all.0 == all.0;
    while index < |s|
      invariant start <= index <= |s|
      invariant all.0 == value + Identifier(d, s[index..]).0 && all.1 == Identifier(d, s[index..]).1
    {
      Cut(s, index, 1);
      if s[index] == d {
        if index + 1 < |s| && s[index + 1] == d {
          Cut(s, index, 2);
          Prepend(value, d, Identifier(d, s[index + 2..]).0);
          value := value + [d];
          index := index + 2;
          continue;
        }
        assert value + [] == value;
        return value, index + 1;
      }
      Prepend(value, s[index], Identifier(d, s[index + 1..]).0);
      value := value + [s[index]];
      index := index + 1;
    }
    assert value + [] == value;
  }

  method WordEnd(t: Text, s: string, start: nat) returns (end: nat)
    requires start < |s| && WordChar(t, s[start])
    ensures start < end <= |s| && end == start + WordLength(t, s[start..])
  {
    Cut(s, start, 1);
    end := start + 1;
    while end < |s| && WordChar(t, s[end])
      invariant start < end <= |s|
      invariant WordLength(t, s[start..]) == end - start + WordLength(t, s[end..])
    {
      Cut(s, end, 1);
      end := end + 1;
    }
  }

  /** `_sql_tokens`: the index only moves forward, so the scan ends. */
  method Tokenize(t: Text, sql: string) returns (tokens: seq<Token>)
    ensures tokens == Scan(t, sql)
  {
    tokens := [];
    var index := 0;
    while index < |sql|
      invariant 0 <= index <= |sql|
      invariant Scan(t, sql) == tokens + Scan(t, sql[index..])
    {
      var more, next := OneTurn(t, sql, index);
      assert tokens + (more + Scan(t, sql[next..])) == (tokens + more) + Scan(t, sql[next..]);
      tokens, index := tokens + more, next;
    }
    assert tokens + [] == tokens;
  }

  /** Past a comment. */
  method SkipComment(sql: string, index: nat, end: string) returns (next: nat)
    requires index + 2 <= |sql| && end != []
    ensures index < next <= |sql|
    ensures sql[next..] == After(sql[index..][2..], end)
  {
    Cut(sql, index, 2);
    var closing := FindFrom(sql, end, index + 2);
    if closing == -1 {
      next := |sql|;
    } else {
      next := closing + |end|;
      Cut(sql, index + 2, next - (index + 2));
    }
  }

  method ReadBracketed(sql: string, start: nat) returns (more: seq<Token>, next: nat)
    requires start <= |sql|
    ensures start <= next <= |sql| && Bracketed(sql[start..]) == (more, sql[next..])
  {
    var closing := FindFrom(sql, "]", start);
    if closing == -1 {
      more, next := [Token(sql[start..], true)], |sql|;
      assert sql[|sql|..] == [];
    } else {
      Cut(sql, start, closing - start);
      Cut(sql, start, closing + 1 - start);
      more, next := [Token(sql[start..closing], true)], closing + 1;
    }
  }

  method OneTurn(t: Text, sql: string, index: nat) returns (more: seq<Token>, next: nat)
    requires index < |sql|
    ensures index < next <= |sql|
    ensures Turn(t, sql[index..]) == (more, sql[next..])
  {
    var c := sql[index];
    Cut(sql, index, 1);
    more := [];
    if t.space(c) {
      next := index + 1;
    } else if "--" <= sql[index..] {
      next := SkipComment(sql, index, "\n");
    } else if "/*" <= sql[index..] {
      next := SkipComment(sql, index, "*/");
    } else if c == '\'' {
      next := SkipLiteral(sql, index + 1);
    } else if c == '"' || c == '`' {
      var value;
      value, next := ReadIdentifier(sql, c, index + 1);
      more := [Token(value, true)];
    } else if c == '[' {
      more, next := ReadBracketed(sql, index + 1);
    } else if WordChar(t, c) {
      next := WordEnd(t, sql, index);
      Cut(sql, index, next - index);
      more := [Token(sql[index..next], false)];
    } else {
      more, next := [Token([c], false)], index + 1;
    }
  }

  // ---------- printing tokens back ----------

  datatype Style = DoubleQuotes | Backticks | Brackets

  /** What SQL text is made of: three kinds of token, and four of filling. */
  datatype Piece =
    | Word(text: string)
    | Mark(c: char)
    | Quoted(style: Style, value: string)
    | Blank(c: char)
    | LineComment(text: string)
    | BlockComment(text: string)
    | Literal(value: string)

  /** Each delimiter twice. */
  function Doubled(d: char, v: string): string {
    if v == [] then [] else (if v[0] == d then [d, d] else [v[0]]) + Doubled(d, v[1..])
  }

  function Print(p: Piece): string {
    match p
    case Word(text) => text
    case Mark(c) => [c]
    case Quoted(DoubleQuotes, v) => ['"'] + Doubled('"', v) + ['"']
    case Quoted(Backticks, v) => ['`'] + Doubled('`', v) + ['`']
    case Quoted(Brackets, v) => ['['] + v + [']']
    case Blank(c) => [c]
    case LineComment(text) => "--" + text + "\n"
    case BlockComment(text) => "/*" + text + "*/"
    case Literal(v) => ['\''] + Doubled('\'', v) + ['\'']
  }

  function TokenOf(p: Piece): seq<Token> {
    match p
    case Word(text) => [Token(text, false)]
    case Mark(c) => [Token([c], false)]
    case Quoted(_, v) => [Token(v, true)]
    case _ => []
  }

  /** The piece can be written so: words of word characters, marks that open nothing, no
      closing bracket within brackets, no end of a comment within it. */
  predicate Printable(t: Text, p: Piece) {
    match p
    case Word(text) => text != [] && forall c :: c in text ==> WordChar(t, c)
    case Mark(c) => !t.space(c) && !WordChar(t, c) && c !in {'\'', '"', '`', '['}
    case Quoted(Brackets, v) => Find(v, "]") == -1
    case Quoted(_, _) => true
    case Blank(c) => t.space(c)
    case LineComment(text) => Find(text, "\n") == -1
    case BlockComment(text) => Find(text + "*/", "*/") == |text|
    case Literal(_) => true
  }

  /** What may not come right after the piece: it would be read as part of it. */
  predicate MayFollow(t: Text, p: Piece, rest: string) {
    rest == [] ||
    match p
    case Word(_) => !WordChar(t, rest[0])
    case Mark(c) => !(c == '-' && rest[0] == '-') && !(c == '/' && rest[0] == '*')
    case Quoted(DoubleQuotes, _) => rest[0] != '"'
    case Quoted(Backticks, _) => rest[0] != '`'
    case Literal(_) => rest[0] != '\''
    case _ => true
  }

  predicate Readable(t: Text, ps: seq<Piece>)
    decreases |ps|
  {
    ps == [] || (Printable(t, ps[0]) && Readable(t, ps[1..]) && MayFollow(t, ps[0], PrintAll(ps[1..])))
  }

  function PrintAll(ps: seq<Piece>): string
    decreases |ps|
  {
    if ps == [] then [] else Print(ps[0]) + PrintAll(ps[1..])
  }

  function TokensOf(ps: seq<Piece>): seq<Token> {
    if ps == [] then [] else TokenOf(ps[0]) + TokensOf(ps[1..])
  }

  // ---------- scanning undoes printing ----------

  lemma {:induction false} WordIsRead(t: Text, text: string, rest: string)
    requires forall c :: c in text ==> WordChar(t, c)
    requires rest == [] || !WordChar(t, rest[0])
    ensures WordLength(t, text + rest) == |text|
  {
    if text == [] {
      assert text + rest == rest;
    } else {
      WordIsRead(t, text[1..], rest);
      assert (text + rest)[1..] == text[1..] + rest;
    }
  }

  lemma {:induction false} DoubledIsRead(d: char, v: string, rest: string)
    requires rest == [] || rest[0] != d
    ensures Identifier(d, Doubled(d, v) + [d] + rest) == (v, rest)
  {
    var s := Doubled(d, v) + [d] + rest;
    if v == [] {
      assert s == [d] + rest;
      assert s[1..] == rest;
    } else {
      var tail := Doubled(d, v[1..]) + [d] + rest;
      DoubledIsRead(d, v[1..], rest);
      assert v == [v[0]] + v[1..];
      if v[0] == d {
        assert s == [d, d] + tail;
        assert s[2..] == tail;
      } else {
        assert s == [v[0]] + tail;
        assert s[1..] == tail;
      }
    }
  }

  /** A literal ends where an identifier in the same quotes would. */
  lemma {:induction false} LiteralEnds(s: string)
    ensures AfterLiteral(s) == Identifier('\'', s).1
    decreases |s|
  {
    if s != [] {
      if s[0] != '\'' {
        LiteralEnds(s[1..]);
      } else if |s| > 1 && s[1] == '\'' {
        LiteralEnds(s[2..]);
      }
    }
  }

  lemma {:induction false} FindGrows(s: string, p: string, rest: string)
    requires Find(s, p) >= 0
    ensures Find(s + rest, p) == Find(s, p)
    decreases |s|
  {
    if s[..|p|] == p {
      assert (s + rest)[..|p|] == s[..|p|];
    } else {
      FindGrows(s[1..], p, rest);
      assert (s + rest)[..|p|] == s[..|p|];
      assert (s + rest)[1..] == s[1..] + rest;
    }
  }

  lemma {:induction false} FindAtEnd(s: string, c: char)
    requires Find(s, [c]) == -1
    ensures Find(s + [c], [c]) == |s|
    decreases |s|
  {
    if s == [] {
      assert (s + [c])[..1] == [c];
    } else {
      assert s[..1] == [s[0]] && (s + [c])[..1] == [s[0]];
      FindAtEnd(s[1..], c);
      assert (s + [c])[1..] == s[1..] + [c];
    }
  }

  lemma AfterEnd(text: string, p: string, rest: string)
    requires p != [] && Find(text + p, p) == |text|
    ensures After(text + p + rest, p) == rest
  {
    FindGrows(text + p, p, rest);
    assert (text + p + rest)[|text| + |p|..] == rest;
  }

  lemma QuotedIsRead(t: Text, d: char, v: string, rest: string)
    requires TextOk(t) && (d == '"' || d == '`') && (rest == [] || rest[0] != d)
    ensures Turn(t, [d] + Doubled(d, v) + [d] + rest) == ([Token(v, true)], rest)
  {
    var s := [d] + Doubled(d, v) + [d] + rest;
    assert s[1..] == Doubled(d, v) + [d] + rest;
    DoubledIsRead(d, v, rest);
  }

  lemma LiteralIsRead(t: Text, v: string, rest: string)
    requires TextOk(t) && (rest == [] || rest[0] != '\'')
    ensures Turn(t, ['\''] + Doubled('\'', v) + ['\''] + rest) == ([], rest)
  {
    var s := ['\''] + Doubled('\'', v) + ['\''] + rest;
    assert s[1..] == Doubled('\'', v) + ['\''] + rest;
    DoubledIsRead('\'', v, rest);
    LiteralEnds(s[1..]);
  }

  lemma BracketedOf(v: string, rest: string)
    requires Find(v, "]") == -1
    ensures Bracketed(v + [']'] + rest) == ([Token(v, true)], rest)
  {
    FindAtEnd(v, ']');
    FindGrows(v + [']'], [']'], rest);
    var s := v + [']'] + rest;
    assert s[..|v|] == v && s[|v| + 1..] == rest;
  }

  lemma BracketTurn(t: Text, body: string)
    requires TextOk(t)
    ensures Turn(t, ['['] + body) == Bracketed(body)
  {
    assert (['['] + body)[1..] == body;
  }

  lemma BracketedIsRead(t: Text, v: string, rest: string)
    requires TextOk(t) && Find(v, "]") == -1
    ensures Turn(t, ['['] + v + [']'] + rest) == ([Token(v, true)], rest)
  {
    BracketedOf(v, rest);
    BracketTurn(t, v + [']'] + rest);
    Regroup(['['], v, [']'], rest);
  }

  lemma LineIsRead(t: Text, text: string, rest: string)
    requires TextOk(t) && Find(text, "\n") == -1
    ensures Turn(t, "--" + text + "\n" + rest) == ([], rest)
  {
    var s := "--" + text + "\n" + rest;
    assert s[2..] == text + "\n" + rest;
    FindAtEnd(text, '\n');
    AfterEnd(text, "\n", rest);
  }

  lemma BlockIsRead(t: Text, text: string, rest: string)
    requires TextOk(t) && Find(text + "*/", "*/") == |text|
    ensures Turn(t, "/*" + text + "*/" + rest) == ([], rest)
  {
    var body := text + "*/" + rest;
    BlockTurn(t, body);
    AfterEnd(text, "*/", rest);
    Regroup("/*", text, "*/", rest);
  }

  lemma Regroup(a: string, b: string, c: string, d: string)
    ensures a + b + c + d == a + (b + c + d)
  {
  }

  lemma BlockTurn(t: Text, body: string)
    requires TextOk(t)
    ensures Turn(t, "/*" + body) == ([], After(body, "*/"))
  {
    assert ("/*" + body)[2..] == body;
  }

  lemma WordPieceIsRead(t: Text, text: string, rest: string)
    requires TextOk(t) && Printable(t, Word(text)) && MayFollow(t, Word(text), rest)
    ensures Turn(t, text + rest) == ([Token(text, false)], rest)
  {
    WordIsRead(t, text, rest);
    assert text[0] in text && (text + rest)[0] == text[0];
    assert (text + rest)[..|text|] == text && (text + rest)[|text|..] == rest;
  }

  lemma PieceIsRead(t: Text, p: Piece, rest: string)
    requires TextOk(t) && Printable(t, p) && MayFollow(t, p, rest)
    ensures Print(p) != [] && Turn(t, Print(p) + rest) == (TokenOf(p), rest)
  {
    match p
    case Word(text) => WordPieceIsRead(t, text, rest);
    case Mark(c) => assert ([c] + rest)[1..] == rest;
    case Quoted(DoubleQuotes, v) => QuotedIsRead(t, '"', v, rest);
    case Quoted(Backticks, v) => QuotedIsRead(t, '`', v, rest);
    case Quoted(Brackets, v) => BracketedIsRead(t, v, rest);
    case Blank(c) => assert ([c] + rest)[1..] == rest;
    case LineComment(text) => LineIsRead(t, text, rest);
    case BlockComment(text) => BlockIsRead(t, text, rest);
    case Literal(v) => LiteralIsRead(t, v, rest);
  }

  /** Printed tokens, with any filling between them, scan back to the same tokens. */
  lemma {:induction false} ScanUndoesPrint(t: Text, ps: seq<Piece>)
    requires TextOk(t) && Readable(t, ps)
    ensures Scan(t, PrintAll(ps)) == TokensOf(ps)
    decreases |ps|
  {
    if ps != [] {
      PieceIsRead(t, ps[0], PrintAll(ps[1..]));
      ScanUndoesPrint(t, ps[1..]);
    }
  }
}
