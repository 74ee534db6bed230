/** `_trigger_mutates_items_fts`: does a trigger's SQL write to the FTS table? */
module SqlTriggers {
  import opened Outcomes
  import opened SqlTokens

  const FTS_TABLE := "items_fts"
  const ACTIONS: set<string> := {"rollback", "abort", "replace", "fail", "ignore"}
  const KEYWORDS: set<string> := {"insert", "replace", "update", "delete", "or", "into", "from"} + ACTIONS

  /** The unquoted word `w` stands at `i`. */
  predicate WordAt(t: Text, ts: seq<Token>, i: nat, w: string) {
    i < |ts| && !ts[i].quoted && t.fold(ts[i].text) == w
  }

  predicate ActionAt(t: Text, ts: seq<Token>, i: nat) {
    i < |ts| && !ts[i].quoted && t.fold(ts[i].text) in ACTIONS
  }

  // ---------- what the test means ----------

  /** The statements it looks for, and the words each begins with. */
  datatype Verb =
    | Insert(conflict: Option<string>, into: bool)
    | Replace(into: bool)
    | Update(conflict: Option<string>)
    | Delete

  function Or(conflict: Option<string>): seq<string> {
    if conflict.Some? then ["or", conflict.value] else []
  }

  function Into(into: bool): seq<string> {
    if into then ["into"] else []
  }

  function WordsOf(v: Verb): (ws: seq<string>) {
    match v
    case Insert(conflict, into) => ["insert"] + Or(conflict) + Into(into)
    case Replace(into) => ["replace"] + Into(into)
    case Update(conflict) => ["update"] + Or(conflict)
    case Delete => ["delete", "from"]
  }

  predicate Known(v: Verb) {
    match v
    case Insert(conflict, _) => conflict.Some? ==> conflict.value in ACTIONS
    case Update(conflict) => conflict.Some? ==> conflict.value in ACTIONS
    case _ => true
  }

  predicate Begins(t: Text, ts: seq<Token>, i: nat, ws: seq<string>) {
    forall j :: 0 <= j < |ws| ==> WordAt(t, ts, i + j, ws[j])
  }

  /** The words go on where `v` says they end. */
  predicate GoesOn(t: Text, ts: seq<Token>, v: Verb, k: nat) {
    match v
    case Insert(conflict, into) => !into && (WordAt(t, ts, k, "into") || (conflict.None? && OrAt(t, ts, k)))
    case Replace(into) => !into && WordAt(t, ts, k, "into")
    case Update(conflict) => conflict.None? && OrAt(t, ts, k)
    case Delete => false
  }

  predicate OrAt(t: Text, ts: seq<Token>, k: nat) {
    WordAt(t, ts, k, "or") && ActionAt(t, ts, k + 1)
  }

  /** The name at `k`, with or without a schema before it, is that of the FTS table. */
  predicate NamesFts(t: Text, ts: seq<Token>, k: nat) {
    if k + 2 < |ts| && t.fold(ts[k + 1].text) == "." then t.fold(ts[k + 2].text) == t.fold(FTS_TABLE)
    else k < |ts| && t.fold(ts[k].text) == t.fold(FTS_TABLE)
  }

  /** A statement that writes to the FTS table starts at `i`. */
  ghost predicate WritesAt(t: Text, ts: seq<Token>, i: nat) {
    exists v :: Statement(t, ts, i, v)
  }

  predicate Statement(t: Text, ts: seq<Token>, i: nat, v: Verb) {
    && Known(v) && Begins(t, ts, i, WordsOf(v))
    && !GoesOn(t, ts, v, i + |WordsOf(v)|)
    && NamesFts(t, ts, i + |WordsOf(v)|)
  }

  ghost predicate Writes(t: Text, ts: seq<Token>) {
    exists i: nat :: i < |ts| && WritesAt(t, ts, i)
  }

  // ---------- what the test does ----------

  function SkipOr(t: Text, ts: seq<Token>, k: nat): nat {
    if OrAt(t, ts, k) then k + 2 else k
  }

  function SkipInto(t: Text, ts: seq<Token>, k: nat): nat {
    if WordAt(t, ts, k, "into") then k + 1 else k
  }

  /** Where the name would stand if a statement started at `i`. */
  function Target(t: Text, ts: seq<Token>, i: nat): Option<nat>
    requires i < |ts|
  {
    if WordAt(t, ts, i, "insert") then Some(SkipInto(t, ts, SkipOr(t, ts, i + 1)))
    else if WordAt(t, ts, i, "replace") then Some(SkipInto(t, ts, i + 1))
    else if WordAt(t, ts, i, "update") then Some(SkipOr(t, ts, i + 1))
    else if WordAt(t, ts, i, "delete") && WordAt(t, ts, i + 1, "from") then Some(i + 2)
    else None
  }

  /** The words the scan has read when it stops at the target. */
  function Read(t: Text, ts: seq<Token>, i: nat): Verb
    requires i < |ts|
  {
    if WordAt(t, ts, i, "insert") then
      Insert(ActionOf(t, ts, i + 1), WordAt(t, ts, SkipOr(t, ts, i + 1), "into"))
    else if WordAt(t, ts, i, "replace") then Replace(WordAt(t, ts, i + 1, "into"))
    else if WordAt(t, ts, i, "update") then Update(ActionOf(t, ts, i + 1))
    else Delete
  }

  function ActionOf(t: Text, ts: seq<Token>, k: nat): Option<string> {
    if OrAt(t, ts, k) then Some(t.fold(ts[k + 1].text)) else None
  }

  lemma BeginsPlus(t: Text, ts: seq<Token>, i: nat, a: seq<string>, b: seq<string>)
    ensures Begins(t, ts, i, a + b) <==> Begins(t, ts, i, a) && Begins(t, ts, i + |a|, b)
  {
    if Begins(t, ts, i, a + b) {
      forall j | 0 <= j < |a| ensures WordAt(t, ts, i + j, a[j]) { assert (a + b)[j] == a[j]; }
      forall j | 0 <= j < |b| ensures WordAt(t, ts, i + |a| + j, b[j]) { assert (a + b)[|a| + j] == b[j]; }
    }
  }

  lemma BeginsOne(t: Text, ts: seq<Token>, i: nat, w: string)
    ensures Begins(t, ts, i, [w]) <==> WordAt(t, ts, i, w)
  {
    assert WordAt(t, ts, i + 0, [w][0]) == WordAt(t, ts, i, w);
  }

  lemma BeginsOr(t: Text, ts: seq<Token>, k: nat, conflict: Option<string>)
    requires conflict.Some? ==> conflict.value in ACTIONS
    ensures conflict.Some? ==>
      (Begins(t, ts, k, Or(conflict)) <==> OrAt(t, ts, k) && ActionOf(t, ts, k) == conflict)
    ensures conflict.None? ==> Begins(t, ts, k, Or(conflict))
  {
    if conflict.Some? {
      BeginsPlus(t, ts, k, ["or"], [conflict.value]);
      assert Or(conflict) == ["or"] + [conflict.value];
      BeginsOne(t, ts, k, "or");
      BeginsOne(t, ts, k + 1, conflict.value);
    }
  }

  lemma BeginsInto(t: Text, ts: seq<Token>, k: nat, into: bool)
    ensures Begins(t, ts, k, Into(into)) <==> (into ==> WordAt(t, ts, k, "into"))
  {
    if into { BeginsOne(t, ts, k, "into"); }
  }

  /** Each verb's words, one after the other. */
  lemma VerbBegins(t: Text, ts: seq<Token>, i: nat, v: Verb)
    requires Known(v)
    ensures Begins(t, ts, i, WordsOf(v)) <==>
      match v
      case Insert(conflict, into) =>
        WordAt(t, ts, i, "insert") && Begins(t, ts, i + 1, Or(conflict)) && Begins(t, ts, i + 1 + |Or(conflict)|, Into(into))
      case Replace(into) => WordAt(t, ts, i, "replace") && Begins(t, ts, i + 1, Into(into))
      case Update(conflict) => WordAt(t, ts, i, "update") && Begins(t, ts, i + 1, Or(conflict))
      case Delete => WordAt(t, ts, i, "delete") && WordAt(t, ts, i + 1, "from")
  {
    match v
    case Insert(conflict, into) =>
      BeginsPlus(t, ts, i, ["insert"] + Or(conflict), Into(into));
      BeginsPlus(t, ts, i, ["insert"], Or(conflict));
      BeginsOne(t, ts, i, "insert");
    case Replace(into) =>
      BeginsPlus(t, ts, i, ["replace"], Into(into));
      BeginsOne(t, ts, i, "replace");
    case Update(conflict) =>
      BeginsPlus(t, ts, i, ["update"], Or(conflict));
      BeginsOne(t, ts, i, "update");
    case Delete =>
      BeginsPlus(t, ts, i, ["delete"], ["from"]);
      assert WordsOf(v) == ["delete"] + ["from"];
      BeginsOne(t, ts, i, "delete");
      BeginsOne(t, ts, i + 1, "from");
  }

  /** The words are told apart by their first letter or their length. */
  lemma WordsDiffer(t: Text, ts: seq<Token>, i: nat)
    ensures WordAt(t, ts, i, "insert") ==> !WordAt(t, ts, i, "replace") && !WordAt(t, ts, i, "update") && !WordAt(t, ts, i, "delete")
    ensures WordAt(t, ts, i, "replace") ==> !WordAt(t, ts, i, "update") && !WordAt(t, ts, i, "delete")
    ensures WordAt(t, ts, i, "update") ==> !WordAt(t, ts, i, "delete")
    ensures WordAt(t, ts, i, "or") ==> !WordAt(t, ts, i, "into")
  {
    assert "insert"[0] == 'i' && "replace"[0] == 'r' && "update"[0] == 'u' && "delete"[0] == 'd' && "or"[0] == 'o' && "into"[0] == 'i';
  }

  /** Where the test looks, a statement's words end: they do not go on. */
  lemma ReadIsStatement(t: Text, ts: seq<Token>, i: nat)
    requires i < |ts| && Target(t, ts, i).Some?
    ensures var v := Read(t, ts, i);
            && Known(v) && Begins(t, ts, i, WordsOf(v)) && i + |WordsOf(v)| == Target(t, ts, i).value
            && !GoesOn(t, ts, v, i + |WordsOf(v)|)
  {
    var v := Read(t, ts, i);
    VerbBegins(t, ts, i, v);
    WordsDiffer(t, ts, i + 1);
    match v
    case Insert(conflict, into) =>
      BeginsOr(t, ts, i + 1, conflict);
      BeginsInto(t, ts, SkipOr(t, ts, i + 1), into);
    case Replace(into) => BeginsInto(t, ts, i + 1, into);
    case Update(conflict) => BeginsOr(t, ts, i + 1, conflict);
    case Delete =>
  }

  /** And a statement whose words do not go on ends where the test looks. */
  lemma OnlyOneReading(t: Text, ts: seq<Token>, i: nat, v: Verb)
    requires i < |ts| && Known(v) && Begins(t, ts, i, WordsOf(v)) && !GoesOn(t, ts, v, i + |WordsOf(v)|)
    ensures Target(t, ts, i) == Some(i + |WordsOf(v)|)
  {
    VerbBegins(t, ts, i, v);
    WordsDiffer(t, ts, i);
    WordsDiffer(t, ts, i + 1);
    match v
    case Insert(conflict, into) =>
      BeginsOr(t, ts, i + 1, conflict);
      BeginsInto(t, ts, i + 1 + |Or(conflict)|, into);
    case Replace(into) => BeginsInto(t, ts, i + 1, into);
    case Update(conflict) => BeginsOr(t, ts, i + 1, conflict);
    case Delete =>
  }

  predicate HitAt(t: Text, ts: seq<Token>, i: nat)
    requires i < |ts|
  {
    var k := Target(t, ts, i);
    k.Some? && NamesFts(t, ts, k.value)
  }

  lemma HitIsWrite(t: Text, ts: seq<Token>, i: nat)
    requires i < |ts|
    ensures HitAt(t, ts, i) <==> WritesAt(t, ts, i)
  {
    if HitAt(t, ts, i) {
      ReadIsStatement(t, ts, i);
      assert Statement(t, ts, i, Read(t, ts, i));
    }
    if WritesAt(t, ts, i) {
      var v :| Statement(t, ts, i, v);
      OnlyOneReading(t, ts, i, v);
    }
  }

  /** `_trigger_mutates_items_fts`: true exactly when some statement of the trigger, read
      with the longest run of its words, names the FTS table. */
  method TriggerMutatesFts(t: Text, sql: Option<string>) returns (mutates: bool)
    ensures mutates <==> sql.Some? && Writes(t, Scan(t, sql.value))
  {
    if sql.None? { return false; }
    var tokens := Tokenize(t, sql.value);
    for index := 0 to |tokens|
      invariant forall i: nat :: i < index ==> !WritesAt(t, tokens, i)
    {
      var hit := WritesFrom(t, tokens, index);
      if hit { return true; }
    }
    mutates := false;
  }

  /** One turn of the loop: the name at the target, after its schema if it has one. */
  method WritesFrom(t: Text, tokens: seq<Token>, index: nat) returns (hit: bool)
    requires index < |tokens|
    ensures hit <==> WritesAt(t, tokens, index)
  {
    HitIsWrite(t, tokens, index);
    var target := FindTarget(t, tokens, index);
    if target.None? || target.value >= |tokens| { return false; }
    var k := target.value;
    if k + 2 < |tokens| && t.fold(tokens[k + 1].text) == "." { k := k + 2; }
    hit := t.fold(tokens[k].text) == t.fold(FTS_TABLE);
  }

  /** The branches that set `target_index`. */
  method FindTarget(t: Text, tokens: seq<Token>, index: nat) returns (target: Option<nat>)
    requires index < |tokens|
    ensures target == Target(t, tokens, index)
  {
    if WordAt(t, tokens, index, "insert") {
      var k := index + 1;
      if OrAt(t, tokens, k) { k := k + 2; }
      if WordAt(t, tokens, k, "into") { k := k + 1; }
      target := Some(k);
    } else if WordAt(t, tokens, index, "replace") {
      var k := index + 1;
      if WordAt(t, tokens, k, "into") { k := k + 1; }
      target := Some(k);
    } else if WordAt(t, tokens, index, "update") {
      var k := index + 1;
      if OrAt(t, tokens, k) { k := k + 2; }
      target := Some(k);
    } else if WordAt(t, tokens, index, "delete") && WordAt(t, tokens, index + 1, "from") {
      target := Some(index + 2);
    } else {
      target := None;
    }
  }

  // ---------- what the test does not depend on ----------

  /** The same tokens up to case, and up to quoting wherever no keyword is meant. */
  ghost predicate SameReading(t: Text, ts: seq<Token>, us: seq<Token>) {
    |ts| == |us| && forall i :: 0 <= i < |ts| ==> SameToken(t, ts[i], us[i])
  }

  predicate SameToken(t: Text, a: Token, b: Token) {
    t.fold(a.text) == t.fold(b.text) && (t.fold(a.text) in KEYWORDS ==> a.quoted == b.quoted)
  }

  lemma SameWords(t: Text, ts: seq<Token>, us: seq<Token>, i: nat, w: string)
    requires SameReading(t, ts, us) && w in KEYWORDS
    ensures WordAt(t, ts, i, w) == WordAt(t, us, i, w) && ActionAt(t, ts, i) == ActionAt(t, us, i)
  {
    if i < |ts| { assert SameToken(t, ts[i], us[i]); }
  }

  lemma SameTarget(t: Text, ts: seq<Token>, us: seq<Token>, i: nat)
    requires SameReading(t, ts, us) && i < |ts|
    ensures Target(t, ts, i) == Target(t, us, i)
  {
    SameWords(t, ts, us, i, "insert");
    SameWords(t, ts, us, i, "replace");
    SameWords(t, ts, us, i, "update");
    SameWords(t, ts, us, i, "delete");
    SameWords(t, ts, us, i + 1, "from");
    SameWords(t, ts, us, i + 1, "or");
    SameWords(t, ts, us, i + 2, "or");
    SameWords(t, ts, us, i + 1, "into");
    SameWords(t, ts, us, i + 3, "into");
  }

  lemma SameHit(t: Text, ts: seq<Token>, us: seq<Token>, i: nat)
    requires SameReading(t, ts, us) && i < |ts|
    ensures HitAt(t, ts, i) == HitAt(t, us, i)
  {
    SameTarget(t, ts, us, i);
    if Target(t, ts, i).Some? {
      var k := Target(t, ts, i).value;
      assert forall j :: 0 <= j < |ts| ==> SameToken(t, ts[j], us[j]);
    }
  }

  lemma SameReadingSameAnswer(t: Text, ts: seq<Token>, us: seq<Token>)
    requires SameReading(t, ts, us)
    ensures Writes(t, ts) <==> Writes(t, us)
  {
    forall i: nat | i < |ts| ensures WritesAt(t, ts, i) == WritesAt(t, us, i) {
      SameHit(t, ts, us, i);
      HitIsWrite(t, ts, i);
      HitIsWrite(t, us, i);
    }
  }

  /** Two ways to write a trigger, whatever their layout, comments and literals, the case
      of their words, or the quoting of their names: one answer. */
  lemma LayoutDoesNotMatter(t: Text, ps: seq<Piece>, qs: seq<Piece>)
    requires TextOk(t) && Readable(t, ps) && Readable(t, qs)
    requires SameReading(t, TokensOf(ps), TokensOf(qs))
    ensures Writes(t, Scan(t, PrintAll(ps))) <==> Writes(t, Scan(t, PrintAll(qs)))
  {
    ScanUndoesPrint(t, ps);
    ScanUndoesPrint(t, qs);
    SameReadingSameAnswer(t, TokensOf(ps), TokensOf(qs));
  }
}
