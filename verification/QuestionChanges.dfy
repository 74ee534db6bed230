/** `changes_for` of evals/_shared/dataset_merge.py: what became of each question. */
module QuestionChanges {

  /** A question is a news item and a field; its state is its group and two digests. */
  datatype Question = Question(caseId: string, field: string)

  datatype State = State(group: string, input: string, reference: string)

  datatype Status = Added | Removed | Retained | Updated

  datatype Counts = Counts(added: nat, removed: nat, retained: nat, updated: nat)

  type History = map<Question, seq<State>>

  /** The states a question had, each once. */
  ghost predicate HistoryOf(h: History, entries: seq<(Question, State)>) {
    && (forall q, s :: (q in h && s in h[q]) <==> (q, s) in entries)
    && (forall q :: q in h ==> h[q] != [] && NoRepeats(h[q]))
  }

  predicate NoRepeats(s: seq<State>) {
    forall i, j :: 0 <= i < j < |s| ==> s[i] != s[j]
  }

  /** The parents' questions, without repeating a state. */
  method Previous(entries: seq<(Question, State)>) returns (h: History)
    ensures HistoryOf(h, entries)
    ensures |h| <= |entries|
  {
    h := map[];
    for i := 0 to |entries|
      invariant HistoryOf(h, entries[..i]) && |h| <= i
    {
      h := Remember(h, entries[..i], entries[i]);
      assert entries[..i + 1] == entries[..i] + [entries[i]];
    }
    assert entries[..|entries|] == entries;
  }

  method Remember(h: History, ghost seen: seq<(Question, State)>, e: (Question, State)) returns (r: History)
    requires HistoryOf(h, seen)
    ensures HistoryOf(r, seen + [e]) && |r| <= |h| + 1
  {
    var states := if e.0 in h then h[e.0] else [];
    if e.1 in states {
      r := h;
    } else {
      r := h[e.0 := states + [e.1]];
      assert r.Keys == h.Keys + {e.0};
    }
    forall q, s ensures (q in r && s in r[q]) <==> (q, s) in seen + [e] {
      assert (q, s) in seen + [e] <==> (q, s) in seen || (q, s) == e;
      assert q in h && s in h[q] <==> (q, s) in seen;
    }
  }

  /** No later entry is about the same question. */
  predicate LastAt(entries: seq<(Question, State)>, i: nat)
    requires i < |entries|
  {
    forall j :: i < j < |entries| ==> entries[j].0 != entries[i].0
  }

  /** The current questions, those of the supplement after the others: the last state given
      for each stands. */
  method Current(entries: seq<(Question, State)>) returns (m: map<Question, State>)
    ensures forall i :: 0 <= i < |entries| ==> entries[i].0 in m
    ensures forall i :: 0 <= i < |entries| && LastAt(entries, i) ==> m[entries[i].0] == entries[i].1
    ensures forall q :: q in m ==> exists i :: 0 <= i < |entries| && entries[i].0 == q
  {
    m := map[];
    for k := 0 to |entries|
      invariant forall i :: 0 <= i < k ==> entries[i].0 in m
      invariant forall i :: 0 <= i < k && LastAt(entries[..k], i) ==> m[entries[i].0] == entries[i].1
      invariant forall q :: q in m ==> exists i :: 0 <= i < k && entries[i].0 == q
    {
      ghost var before, longer := entries[..k], entries[..k + 1];
      forall i | 0 <= i < k && LastAt(longer, i)
        ensures LastAt(before, i) && entries[i].0 != entries[k].0
      {
        assert longer[k] == entries[k] && longer[i] == entries[i];
        forall j | i < j < k ensures before[j].0 != before[i].0 { assert longer[j] == before[j]; }
      }
      m := m[entries[k].0 := entries[k].1];
    }
    assert entries[..|entries|] == entries;
  }

  function StatusOf(previous: History, current: map<Question, State>, q: Question): Status {
    if q !in previous || previous[q] == [] then Added
    else if q !in current then Removed
    else if previous[q] == [current[q]] then Retained
    else Updated
  }

  function Having(f: Question -> Status, questions: set<Question>, s: Status): set<Question> {
    set q | q in questions && f(q) == s
  }

  ghost predicate CountsAre(f: Question -> Status, questions: set<Question>, c: Counts) {
    && c.added == |Having(f, questions, Added)|
    && c.removed == |Having(f, questions, Removed)|
    && c.retained == |Having(f, questions, Retained)|
    && c.updated == |Having(f, questions, Updated)|
  }

  function Counted(c: Counts, s: Status): Counts {
    match s
    case Added => c.(added := c.added + 1)
    case Removed => c.(removed := c.removed + 1)
    case Retained => c.(retained := c.retained + 1)
    case Updated => c.(updated := c.updated + 1)
  }

  /** One more question counts once, under its status. */
  lemma CountOne(f: Question -> Status, seen: set<Question>, q: Question, c: Counts)
    requires q !in seen && CountsAre(f, seen, c)
    ensures CountsAre(f, seen + {q}, Counted(c, f(q)))
  {
    CountUnder(f, seen, q, Added);
    CountUnder(f, seen, q, Removed);
    CountUnder(f, seen, q, Retained);
    CountUnder(f, seen, q, Updated);
  }

  lemma CountUnder(f: Question -> Status, seen: set<Question>, q: Question, s: Status)
    requires q !in seen
    ensures |Having(f, seen + {q}, s)| == |Having(f, seen, s)| + if f(q) == s then 1 else 0
  {
    assert Having(f, seen + {q}, s) == if f(q) == s then Having(f, seen, s) + {q} else Having(f, seen, s);
  }

  /** Three statuses share out the questions that have one of them. */
  lemma Shared(f: Question -> Status, all: set<Question>, part: set<Question>, x: Status, y: Status, z: Status)
    requires x != y && y != z && x != z
    requires forall q :: q in part <==> q in all && (f(q) == x || f(q) == y || f(q) == z)
    ensures |Having(f, all, x)| + |Having(f, all, y)| + |Having(f, all, z)| == |part|
  {
    var a, b, c := Having(f, all, x), Having(f, all, y), Having(f, all, z);
    assert part == a + b + c;
    assert |a + b| == |a| + |b|;
    assert |a + b + c| == |a + b| + |c|;
  }

  /** The status of each question of either side, and the counts: of the previous
      questions every one is retained, updated or removed, of the current ones every one
      added, retained or updated. */
  method ChangesFor(previous: History, current: map<Question, State>)
    returns (statuses: map<Question, Status>, counts: Counts)
    requires forall q :: q in previous ==> previous[q] != []
    ensures statuses.Keys == previous.Keys + current.Keys
    ensures forall q :: q in statuses ==> statuses[q] == StatusOf(previous, current, q)
    ensures counts.retained + counts.updated + counts.removed == |previous|
    ensures counts.added + counts.retained + counts.updated == |current|
  {
    var f := (q: Question) => StatusOf(previous, current, q);
    var all := previous.Keys + current.Keys;
    statuses, counts := Tally(f, all);
    Shared(f, all, previous.Keys, Retained, Updated, Removed);
    Shared(f, all, current.Keys, Added, Retained, Updated);
  }

  /** The loop over the questions. */
  method Tally(f: Question -> Status, all: set<Question>) returns (statuses: map<Question, Status>, counts: Counts)
    ensures statuses.Keys == all && (forall q :: q in all ==> statuses[q] == f(q))
    ensures CountsAre(f, all, counts)
  {
    statuses, counts := map[], Counts(0, 0, 0, 0);
    var pending := all;
    while pending != {}
      invariant pending <= all && statuses.Keys == all - pending
      invariant forall q :: q in statuses ==> statuses[q] == f(q)
      invariant CountsAre(f, all - pending, counts)
      decreases |pending|
    {
      var q :| q in pending;
      CountOne(f, all - pending, q, counts);
      assert all - (pending - {q}) == all - pending + {q};
      statuses, counts := statuses[q := f(q)], Counted(counts, f(q));
      pending := pending - {q};
    }
    assert all - {} == all;
  }

  function QuestionsOf(entries: seq<(Question, State)>): set<Question> {
    set e | e in entries :: e.0
  }

  lemma PreviousKeys(h: History, entries: seq<(Question, State)>)
    requires HistoryOf(h, entries)
    ensures h.Keys == QuestionsOf(entries)
  {
    forall q | q in h ensures q in QuestionsOf(entries) { assert (q, h[q][0]) in entries; }
    forall e | e in entries ensures e.0 in h { assert (e.0, e.1) in entries; }
  }

  lemma CurrentKeys(m: map<Question, State>, entries: seq<(Question, State)>)
    requires forall i :: 0 <= i < |entries| ==> entries[i].0 in m
    requires forall q :: q in m ==> exists i :: 0 <= i < |entries| && entries[i].0 == q
    ensures m.Keys == QuestionsOf(entries)
  {
    forall q | q in m ensures q in QuestionsOf(entries) {
      var i :| 0 <= i < |entries| && entries[i].0 == q;
      assert entries[i] in entries;
    }
  }

  /** From the parents' entries and the current ones to the counts: they share out the
      questions of either side, whatever repeats there are. */
  method Changes(parents: seq<(Question, State)>, entries: seq<(Question, State)>)
    returns (statuses: map<Question, Status>, counts: Counts)
    ensures statuses.Keys == QuestionsOf(parents) + QuestionsOf(entries)
    ensures counts.retained + counts.updated + counts.removed == |QuestionsOf(parents)|
    ensures counts.added + counts.retained + counts.updated == |QuestionsOf(entries)|
  {
    var previous := Previous(parents);
    var current := Current(entries);
    PreviousKeys(previous, parents);
    CurrentKeys(current, entries);
    statuses, counts := ChangesFor(previous, current);
  }
}
