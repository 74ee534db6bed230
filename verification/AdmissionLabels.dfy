/** `ObservedAdmissionIndex` of evals/_shared/admission_labels.py. */
module AdmissionLabels {
  import opened Outcomes
  import opened Digests

  /** Microseconds, the resolution of `datetime`. */
  type Instant = int

  type Slug = string
  type Id = string
  type NewsKey = string

  const WEEK: int := 7 * 24 * 3600 * 1_000_000

  // ---------- references ----------

  /** An item of one pass; `source` is the configured source its publisher maps to. */
  datatype Item = Item(id: Id, source: Option<Slug>, at: Instant, key: NewsKey)

  /** One pass over the reference: its items, the publishers that map to nothing, and the
      HTTP dates of its first and last page. */
  datatype Pass = Pass(items: seq<Item>, unresolved: set<string>, first: Instant, last: Instant)

  datatype Reference = Reference(key: string, passes: seq<Pass>)

  type Listing = map<Slug, seq<(Id, Instant)>>

  /** A window both of the last two passes saw in full. */
  datatype Proof = Proof(left: Instant, right: Instant, ref: string, first: Listing, second: Listing, uncertain: set<string>)

  function Entries(l: Listing, source: Slug): seq<(Id, Instant)> {
    if source in l then l[source] else []
  }

  // ---------- the index ----------

  function Add(l: Listing, item: Item): Listing {
    if item.source.None? then l
    else l[item.source.value := Entries(l, item.source.value) + [(item.id, item.at)]]
  }

  function BySource(items: seq<Item>): Listing {
    if items == [] then map[] else Add(BySource(items[..|items| - 1]), items[|items| - 1])
  }

  function Unresolved(passes: seq<Pass>): set<string> {
    set p, n | p in passes && n in p.unresolved :: n
  }

  function Max(a: int, b: int): int {
    if a < b then b else a
  }

  function Min(a: int, b: int): int {
    if a < b then a else b
  }

  /** The proof of a reference, if it was read twice. */
  function ProofOf(ref: Reference): Option<Proof> {
    if |ref.passes| < 2 then None
    else
      var a, b := ref.passes[|ref.passes| - 2], ref.passes[|ref.passes| - 1];
      Some(Proof(Max(a.last, b.last) - WEEK, Min(a.first, b.first), ref.key,
                 BySource(a.items), BySource(b.items), Unresolved(ref.passes)))
  }

  function Proofs(refs: seq<Reference>): seq<Proof> {
    if refs == [] then []
    else
      var before, last := Proofs(refs[..|refs| - 1]), ProofOf(refs[|refs| - 1]);
      if last.None? then before else before + [last.value]
  }

  type Matches = map<NewsKey, seq<(Id, string)>>

  function At(m: Matches, key: NewsKey): seq<(Id, string)> {
    if key in m then m[key] else []
  }

  function AddItems(m: Matches, items: seq<Item>, ref: string): Matches {
    if items == [] then m
    else
      var before, item := AddItems(m, items[..|items| - 1], ref), items[|items| - 1];
      if item.source.None? then before else before[item.key := At(before, item.key) + [(item.id, ref)]]
  }

  function AddPasses(m: Matches, passes: seq<Pass>, ref: string): Matches {
    if passes == [] then m
    else AddItems(AddPasses(m, passes[..|passes| - 1], ref), passes[|passes| - 1].items, ref)
  }

  function AllMatches(refs: seq<Reference>): Matches {
    if refs == [] then map[]
    else AddPasses(AllMatches(refs[..|refs| - 1]), refs[|refs| - 1].passes, refs[|refs| - 1].key)
  }

  /** The item `w` names is among these. */
  ghost predicate Lists(items: seq<Item>, key: NewsKey, ref: string, w: (Id, string)) {
    w.1 == ref && exists item :: item in items && item.source.Some? && item.key == key && item.id == w.0
  }

  ghost predicate Matching(refs: seq<Reference>, key: NewsKey, w: (Id, string)) {
    exists r, p :: r in refs && p in r.passes && Lists(p.items, key, r.key, w)
  }

  lemma {:induction false} AddItemsIs(m: Matches, items: seq<Item>, ref: string, key: NewsKey, w: (Id, string))
    ensures w in At(AddItems(m, items, ref), key) <==> w in At(m, key) || Lists(items, key, ref, w)
  {
    if items != [] {
      var before, last := items[..|items| - 1], items[|items| - 1];
      AddItemsIs(m, before, ref, key, w);
      assert items == before + [last];
    }
  }

  lemma {:induction false} AddPassesIs(m: Matches, passes: seq<Pass>, ref: string, key: NewsKey, w: (Id, string))
    ensures w in At(AddPasses(m, passes, ref), key) <==>
              w in At(m, key) || exists p :: p in passes && Lists(p.items, key, ref, w)
  {
    if passes != [] {
      var before, last := passes[..|passes| - 1], passes[|passes| - 1];
      AddPassesIs(m, before, ref, key, w);
      AddItemsIs(AddPasses(m, before, ref), last.items, ref, key, w);
      assert passes == before + [last];
    }
  }

  /** A question's witnesses are exactly the items of any pass with its key. */
  lemma {:induction false} AllMatchesIs(refs: seq<Reference>, key: NewsKey, w: (Id, string))
    ensures w in At(AllMatches(refs), key) <==> Matching(refs, key, w)
  {
    if refs != [] {
      var before, last := refs[..|refs| - 1], refs[|refs| - 1];
      AllMatchesIs(before, key, w);
      AddPassesIs(AllMatches(before), last.passes, last.key, key, w);
      assert refs == before + [last];
    }
  }

  /** `max((p[1] for p in self.proofs), default=None)`. */
  function Latest(proofs: seq<Proof>): (t: Option<Instant>)
    ensures t.None? <==> proofs == []
    ensures t.Some? ==> forall p :: p in proofs ==> p.right <= t.value
    ensures t.Some? ==> exists p :: p in proofs && p.right == t.value
  {
    if proofs == [] then None
    else
      var before, last := Latest(proofs[..|proofs| - 1]), proofs[|proofs| - 1];
      assert proofs == proofs[..|proofs| - 1] + [last];
      assert last in proofs;
      if before.Some? && before.value >= last.right then before else Some(last.right)
  }

  /** Both listings hold exactly the items of their pass, source by source. */
  lemma {:induction false} BySourceIs(items: seq<Item>, source: Slug, id: Id, at: Instant)
    ensures (id, at) in Entries(BySource(items), source) <==>
              exists i :: i in items && i.source == Some(source) && i.id == id && i.at == at
  {
    if items != [] {
      var before, last := items[..|items| - 1], items[|items| - 1];
      BySourceIs(before, source, id, at);
      assert items == before + [last];
    }
  }

  // ---------- the greedy cover ----------

  function Members(l: Listing, source: Slug, start: Instant, end: Instant): set<Id> {
    set e | e in Entries(l, source) && start <= e.1 < end :: e.0
  }

  predicate SameMembers(p: Proof, source: Slug, start: Instant, end: Instant) {
    Members(p.first, source, start, end) == Members(p.second, source, start, end)
  }

  /** Where a window takes the cover from `cursor`. */
  function Advanced(p: Proof, source: Slug, names: set<string>, cursor: Instant, to: Instant): Instant {
    var end := Min(to, p.right);
    if p.left <= cursor < end && p.uncertain !! names && SameMembers(p, source, cursor, end) then end else cursor
  }

  /** Where the windows, each used where it can be, in this order, take the cover. */
  function CoverEnd(sorted: seq<Proof>, source: Slug, names: set<string>, from: Instant, to: Instant): Instant {
    if sorted == [] then from
    else Advanced(sorted[|sorted| - 1], source, names, CoverEnd(sorted[..|sorted| - 1], source, names, from, to), to)
  }

  lemma {:induction false} CoverStays(sorted: seq<Proof>, i: nat, source: Slug, names: set<string>,
                                      from: Instant, to: Instant)
    requires i <= |sorted| && CoverEnd(sorted[..i], source, names, from, to) == to
    ensures CoverEnd(sorted, source, names, from, to) == to
    decreases |sorted|
  {
    if i < |sorted| {
      assert sorted[..|sorted| - 1][..i] == sorted[..i];
      CoverStays(sorted[..|sorted| - 1], i, source, names, from, to);
    } else {
      assert sorted[..i] == sorted;
    }
  }

  /** The window begins by `from` and reaches beyond it. */
  predicate Reaches(p: Proof, from: Instant, to: Instant) {
    p.left <= from < Min(to, p.right)
  }

  /** The part of a window that was used, from where the cover had got to. */
  datatype Part = Part(proof: Proof, start: Instant, end: Instant)

  ghost predicate PartOk(u: Part, proofs: seq<Proof>, source: Slug, names: set<string>) {
    && u.proof in proofs && u.proof.left <= u.start < u.end <= u.proof.right
    && u.proof.uncertain !! names
    && SameMembers(u.proof, source, u.start, u.end)
  }

  /** The parts follow one another from `from` to `to`. */
  ghost predicate Chain(parts: seq<Part>, from: Instant, to: Instant)
    decreases |parts|
  {
    if parts == [] then from == to
    else parts[|parts| - 1].end == to && Chain(parts[..|parts| - 1], from, parts[|parts| - 1].start)
  }

  /** No instant between the ends of a chain lies outside its parts. */
  lemma {:induction false} ChainCovers(parts: seq<Part>, from: Instant, to: Instant, t: Instant)
    requires Chain(parts, from, to) && from <= t < to
    ensures exists u :: u in parts && u.start <= t < u.end
    decreases |parts|
  {
    if parts != [] {
      var before, last := parts[..|parts| - 1], parts[|parts| - 1];
      if t < last.start {
        ChainCovers(before, from, last.start, t);
        var u :| u in before && u.start <= t < u.end;
        assert u in parts;
      } else {
        assert last in parts;
      }
    }
  }

  /** A window that was read the same twice and leaves nothing open about the source. */
  ghost predicate Sound(p: Proof, source: Slug, names: set<string>) {
    && p.uncertain !! names
    && forall e: (Id, Instant) :: p.left <= e.1 < p.right ==> (e in Entries(p.first, source) <==> e in Entries(p.second, source))
  }

  lemma SoundMembers(p: Proof, source: Slug, names: set<string>, start: Instant, end: Instant)
    requires Sound(p, source, names) && p.left <= start && end <= p.right
    ensures SameMembers(p, source, start, end)
  {
    forall i ensures i in Members(p.first, source, start, end) <==> i in Members(p.second, source, start, end) {
      if i in Members(p.first, source, start, end) {
        var e :| e in Entries(p.first, source) && start <= e.1 < end && e.0 == i;
        assert e in Entries(p.second, source);
      }
      if i in Members(p.second, source, start, end) {
        var e :| e in Entries(p.second, source) && start <= e.1 < end && e.0 == i;
        assert e in Entries(p.first, source);
      }
    }
  }

  /** The sound windows leave no gap between `from` and `to`. */
  ghost predicate SoundlyCovered(proofs: seq<Proof>, source: Slug, names: set<string>, from: Instant, to: Instant) {
    forall t :: from <= t < to ==> SoundlyCoveredAt(proofs, source, names, t)
  }

  ghost predicate SoundlyCoveredAt(proofs: seq<Proof>, source: Slug, names: set<string>, t: Instant) {
    exists p :: SoundAt(proofs, source, names, t, p)
  }

  ghost predicate SoundAt(proofs: seq<Proof>, source: Slug, names: set<string>, t: Instant, p: Proof) {
    p in proofs && Sound(p, source, names) && p.left <= t < p.right
  }

  // ---------- the order of the windows ----------

  predicate StringLeq(a: string, b: string) {
    a == [] || (b != [] && (a[0] < b[0] || (a[0] == b[0] && StringLeq(a[1..], b[1..]))))
  }

  predicate Before(p: Proof, q: Proof) {
    || p.left < q.left
    || (p.left == q.left && (p.right < q.right || (p.right == q.right && StringLeq(p.ref, q.ref))))
  }

  function Place(p: Proof, sorted: seq<Proof>): (r: seq<Proof>)
    ensures multiset(r) == multiset(sorted) + multiset{p}
    decreases |sorted|
  {
    if sorted == [] then [p]
    else
      assert sorted == [sorted[0]] + sorted[1..];
      if Before(p, sorted[0]) then [p] + sorted else [sorted[0]] + Place(p, sorted[1..])
  }

  /** `sorted(self.proofs, key=lambda p: p[:3])`. */
  function InOrder(proofs: seq<Proof>): (r: seq<Proof>)
    ensures multiset(r) == multiset(proofs)
  {
    if proofs == [] then []
    else
      assert proofs == proofs[..|proofs| - 1] + [proofs[|proofs| - 1]];
      Place(proofs[|proofs| - 1], InOrder(proofs[..|proofs| - 1]))
  }

  predicate Leftmost(s: seq<Proof>) {
    forall i, j :: 0 <= i < j < |s| ==> s[i].left <= s[j].left
  }

  lemma {:induction false} PlaceKeepsLeftmost(p: Proof, s: seq<Proof>)
    requires Leftmost(s)
    ensures Leftmost(Place(p, s))
    decreases |s|
  {
    if s != [] && !Before(p, s[0]) {
      var tail := Place(p, s[1..]);
      PlaceKeepsLeftmost(p, s[1..]);
      forall j | 0 <= j < |tail| ensures s[0].left <= tail[j].left {
        assert tail[j] in multiset(tail);
        if tail[j] != p {
          assert tail[j] in s[1..];
        }
      }
    }
  }

  lemma {:induction false} InOrderIsLeftmost(proofs: seq<Proof>)
    ensures Leftmost(InOrder(proofs))
  {
    if proofs != [] {
      InOrderIsLeftmost(proofs[..|proofs| - 1]);
      PlaceKeepsLeftmost(proofs[|proofs| - 1], InOrder(proofs[..|proofs| - 1]));
    }
  }

  lemma InOrderHas(proofs: seq<Proof>, p: Proof)
    ensures p in InOrder(proofs) <==> p in proofs
  {
    assert p in multiset(InOrder(proofs)) <==> p in multiset(proofs);
  }

  // ---------- labels ----------

  /** What `label` reads of a case and its record. */
  datatype Question = Question(
    key: NewsKey, source: Slug, blank: bool, versions: nat, bound: Option<Instant>, arrived: Option<Instant>)

  datatype Label =
    | Main
    | UnusableInput
    | AmbiguousVersion
    | RecallOnly
    | UnknownBound
    | ArrivalOutside
    | IncompleteHistory
    | UnknownSource

  class ObservedAdmissionIndex {
    var matches: Matches
    var proofs: seq<Proof>
    var horizon: Option<Instant>
    var names: map<Slug, set<string>>

    /** Every reference read at least twice gives one proof, in the order they came. */
    constructor (refs: seq<Reference>, names: map<Slug, set<string>>)
      ensures this.names == names && proofs == Proofs(refs) && matches == AllMatches(refs)
      ensures horizon.None? <==> proofs == []
      ensures horizon.Some? ==> forall p :: p in proofs ==> p.right <= horizon.value
      ensures horizon.Some? ==> exists p :: p in proofs && p.right == horizon.value
    {
      this.names := names;
      this.matches, this.proofs, this.horizon := map[], [], None;
      new;
      for i := 0 to |refs|
        invariant this.names == names && proofs == Proofs(refs[..i]) && matches == AllMatches(refs[..i])
      {
        assert refs[..i + 1][..i] == refs[..i];
        Match(refs[i]);
        var proof := ProofOf(refs[i]);
        if proof.Some? { proofs := proofs + [proof.value]; }
      }
      assert refs[..|refs|] == refs;
      horizon := Latest(proofs);
    }

    /** The items a question may match, with the reference they are from. */
    method Match(ref: Reference)
      modifies this`matches
      ensures matches == AddPasses(old(matches), ref.passes, ref.key)
    {
      for i := 0 to |ref.passes|
        invariant matches == AddPasses(old(matches), ref.passes[..i], ref.key)
      {
        var items := ref.passes[i].items;
        ghost var before := matches;
        for j := 0 to |items|
          invariant matches == AddItems(before, items[..j], ref.key)
        {
          assert items[..j + 1][..j] == items[..j];
          var item := items[j];
          if item.source.Some? {
            matches := matches[item.key := Witness(item.key) + [(item.id, ref.key)]];
          }
        }
        assert items[..|items|] == items && ref.passes[..i + 1][..i] == ref.passes[..i];
      }
      assert ref.passes[..|ref.passes|] == ref.passes;
    }

    function Witness(key: NewsKey): seq<(Id, string)>
      reads this`matches
    {
      At(matches, key)
    }

    function NamesOf(source: Slug): set<string>
      reads this`names
    {
      if source in names then names[source] else {}
    }

    /** The loop of `label`.  It is done when the parts it used reach the horizon, and
        fails at a window it could use for a source without names. */
    method Cover(source: Slug, bound: Instant, to: Instant) returns (reached: bool, known: bool, ghost used: seq<Part>)
      requires bound <= to
      ensures reached ==> bound < to && Chain(used, bound, to)
      ensures forall u :: u in used ==> PartOk(u, proofs, source, NamesOf(source))
      ensures reached <==> source in names && bound < to
                           && CoverEnd(InOrder(proofs), source, NamesOf(source), bound, to) == to
      ensures !known <==> source !in names && exists p :: p in proofs && Reaches(p, bound, to)
      ensures known && bound < to && SoundlyCovered(proofs, source, NamesOf(source), bound, to) ==> reached
    {
      var cursor := bound;
      reached, known, used := false, true, [];
      var sorted := InOrder(proofs);
      CoverSuffices(proofs, source, NamesOf(source), bound, to);
      forall p ensures p in sorted <==> p in proofs { InOrderHas(proofs, p); }
      for i := 0 to |sorted|
        invariant bound <= cursor <= to && Chain(used, bound, cursor) && (bound < to ==> cursor < to)
        invariant forall u :: u in used ==> PartOk(u, proofs, source, NamesOf(source))
        invariant cursor == CoverEnd(sorted[..i], source, NamesOf(source), bound, to)
        invariant source !in names ==> cursor == bound && forall j :: 0 <= j < i ==> !Reaches(sorted[j], bound, to)
      {
        var p := sorted[i];
        assert p in sorted && sorted[..i + 1][..i] == sorted[..i];
        var end := Min(to, p.right);
        if Max(cursor, p.left) <= cursor < end {
          if source !in names { return false, false, used; }
          if p.uncertain !! names[source] && SameMembers(p, source, cursor, end) {
            used := OneMore(used, Part(p, cursor, end), bound, source);
            cursor := end;
            if cursor >= to {
              CoverStays(sorted, i + 1, source, NamesOf(source), bound, to);
              return true, true, used;
            }
          }
        }
      }
      assert sorted[..|sorted|] == sorted;
    }

    /** A part that takes up where the others end. */
    ghost method OneMore(used: seq<Part>, part: Part, bound: Instant, source: Slug) returns (more: seq<Part>)
      requires Chain(used, bound, part.start) && forall u :: u in used ==> PartOk(u, proofs, source, NamesOf(source))
      requires PartOk(part, proofs, source, NamesOf(source))
      ensures Chain(more, bound, part.end) && forall u :: u in more ==> PartOk(u, proofs, source, NamesOf(source))
    {
      more := used + [part];
      assert more[..|used|] == used;
    }

    /** `label`.  A "main" label means that used windows cover the time from the bound to
        the horizon without a gap, each read the same twice where it was used; and sound
        windows that cover this time are enough for it. */
    method LabelOf(q: Question) returns (l: Label, ghost used: seq<Part>)
      requires horizon == Latest(proofs)
      ensures l.Main? ==> Answerable(q) && Chain(used, q.bound.value, horizon.value)
      ensures l.Main? ==> forall u :: u in used ==> PartOk(u, proofs, q.source, NamesOf(q.source))
      ensures (Answerable(q) && q.source in names && Enough(q)) ==> l.Main?
      ensures l.UnusableInput? <==> q.blank
      ensures l.AmbiguousVersion? <==> !q.blank && q.versions != 1
      ensures l.Main? <==> Usable(q) && Covered(q)
      ensures l.UnknownSource? <==> Usable(q) && Unnamed(q)
      ensures l.RecallOnly? <==> Usable(q) && !Covered(q) && !Unnamed(q) && Witness(q.key) != []
      ensures l.UnknownBound? <==> Usable(q) && !Dated(q) && Witness(q.key) == []
      ensures l.ArrivalOutside? <==> Usable(q) && Dated(q) && !InRange(q) && Witness(q.key) == []
      ensures l.IncompleteHistory? <==>
                Usable(q) && InRange(q) && !Covered(q) && !Unnamed(q) && Witness(q.key) == []
    {
      used := [];
      if q.blank { return UnusableInput, used; }
      if q.versions != 1 { return AmbiguousVersion, used; }
      l := UnknownBound;
      if q.bound.Some? && horizon.Some? && q.arrived.Some? {
        l := IncompleteHistory;
        if q.bound.value <= q.arrived.value <= horizon.value {
          var reached, known;
          reached, known, used := Cover(q.source, q.bound.value, horizon.value);
          if !known { return UnknownSource, used; }
          if reached { return Main, used; }
        } else {
          l := ArrivalOutside;
        }
      }
      if Witness(q.key) != [] { l := RecallOnly; }
    }

    predicate Usable(q: Question) {
      !q.blank && q.versions == 1
    }

    predicate Dated(q: Question)
      reads this`horizon
    {
      q.bound.Some? && q.arrived.Some? && horizon.Some?
    }

    /** It was asked within the known history. */
    predicate InRange(q: Question)
      reads this`horizon
    {
      Dated(q) && q.bound.value <= q.arrived.value <= horizon.value
    }

    /** The windows, from the left, take the cover to the horizon. */
    predicate Covered(q: Question)
      reads this
    {
      && InRange(q) && q.source in names && q.bound.value < horizon.value
      && CoverEnd(InOrder(proofs), q.source, NamesOf(q.source), q.bound.value, horizon.value) == horizon.value
    }

    /** A window could be used, but the source has no names to hold against it. */
    predicate Unnamed(q: Question)
      reads this
    {
      InRange(q) && q.source !in names && exists p :: p in proofs && Reaches(p, q.bound.value, horizon.value)
    }

    ghost predicate Enough(q: Question)
      requires q.bound.Some? && horizon.Some?
      reads this
    {
      SoundlyCovered(proofs, q.source, NamesOf(q.source), q.bound.value, horizon.value)
    }

    /** The question is usable, and was asked within the known history. */
    predicate Answerable(q: Question)
      reads this`horizon
    {
      && !q.blank && q.versions == 1
      && q.bound.Some? && q.arrived.Some? && horizon.Some?
      && q.bound.value <= q.arrived.value <= horizon.value && q.bound.value < horizon.value
    }
  }

  /** Every sound window among the first `i` that begins by the cursor has been used up. */
  ghost predicate Consumed(sorted: seq<Proof>, i: nat, source: Slug, names: set<string>, cursor: Instant, to: Instant) {
    forall j :: 0 <= j < i && j < |sorted| ==> UsedUp(sorted[j], source, names, cursor, to)
  }

  ghost predicate UsedUp(p: Proof, source: Slug, names: set<string>, cursor: Instant, to: Instant) {
    Sound(p, source, names) && p.left <= cursor ==> Min(to, p.right) <= cursor
  }

  /** One turn of the loop: since the windows come by left end, no earlier one begins
      between the old cursor and the new. */
  lemma Consumes(sorted: seq<Proof>, i: nat, source: Slug, names: set<string>,
                 was: Instant, cursor: Instant, to: Instant)
    requires i < |sorted| && Leftmost(sorted) && Consumed(sorted, i, source, names, was, to)
    requires was <= cursor && (cursor != was ==> sorted[i].left <= was && cursor == Min(to, sorted[i].right))
    requires cursor == was && sorted[i].left <= was < Min(to, sorted[i].right) ==>
               !(sorted[i].uncertain !! names && SameMembers(sorted[i], source, was, Min(to, sorted[i].right)))
    ensures Consumed(sorted, i + 1, source, names, cursor, to)
  {
    forall j | 0 <= j < i + 1 ensures UsedUp(sorted[j], source, names, cursor, to) {
      if j < i {
        assert UsedUp(sorted[j], source, names, was, to) && sorted[j].left <= sorted[i].left;
      } else if Sound(sorted[i], source, names) && sorted[i].left <= was {
        SoundMembers(sorted[i], source, names, was, Min(to, sorted[i].right));
      }
    }
  }

  /** When all windows are used up short of the horizon, no sound one covers the cursor. */
  lemma NotCovered(proofs: seq<Proof>, sorted: seq<Proof>, source: Slug, names: set<string>,
                   cursor: Instant, bound: Instant, to: Instant)
    requires sorted == InOrder(proofs) && Consumed(sorted, |sorted|, source, names, cursor, to)
    requires bound <= cursor < to
    ensures !SoundlyCovered(proofs, source, names, bound, to)
  {
    forall p ensures !SoundAt(proofs, source, names, cursor, p) {
      if p in proofs {
        InOrderHas(proofs, p);
        var j :| 0 <= j < |sorted| && sorted[j] == p;
        assert UsedUp(sorted[j], source, names, cursor, to);
      }
    }
    assert !SoundlyCoveredAt(proofs, source, names, cursor);
  }

  /** The cover has used up the sound windows it has come past. */
  lemma {:induction false} CoverConsumes(sorted: seq<Proof>, i: nat, source: Slug, names: set<string>,
                                         from: Instant, to: Instant)
    requires i <= |sorted| && Leftmost(sorted) && from <= to
    ensures from <= CoverEnd(sorted[..i], source, names, from, to) <= to
    ensures Consumed(sorted, i, source, names, CoverEnd(sorted[..i], source, names, from, to), to)
    decreases i
  {
    if i > 0 {
      CoverConsumes(sorted, i - 1, source, names, from, to);
      assert sorted[..i][..i - 1] == sorted[..i - 1];
      Consumes(sorted, i - 1, source, names, CoverEnd(sorted[..i - 1], source, names, from, to),
               CoverEnd(sorted[..i], source, names, from, to), to);
    }
  }

  /** Sound windows that leave no gap are enough to get to the end. */
  lemma CoverSuffices(proofs: seq<Proof>, source: Slug, names: set<string>, from: Instant, to: Instant)
    requires from <= to
    ensures SoundlyCovered(proofs, source, names, from, to) ==> CoverEnd(InOrder(proofs), source, names, from, to) == to
  {
    var sorted := InOrder(proofs);
    InOrderIsLeftmost(proofs);
    CoverConsumes(sorted, |sorted|, source, names, from, to);
    assert sorted[..|sorted|] == sorted;
    var cursor := CoverEnd(sorted, source, names, from, to);
    if cursor < to { NotCovered(proofs, sorted, source, names, cursor, from, to); }
  }

  /** Where every window is sound, a chain exists only if the windows leave no gap: then
      "main" is exactly coverage. */
  lemma ChainIsCover(parts: seq<Part>, proofs: seq<Proof>, source: Slug, names: set<string>, from: Instant, to: Instant)
    requires Chain(parts, from, to) && forall u :: u in parts ==> PartOk(u, proofs, source, names)
    requires forall p :: p in proofs ==> Sound(p, source, names)
    ensures SoundlyCovered(proofs, source, names, from, to)
  {
    forall t | from <= t < to ensures SoundlyCoveredAt(proofs, source, names, t) {
      ChainCovers(parts, from, to, t);
      var u :| u in parts && u.start <= t < u.end;
      assert PartOk(u, proofs, source, names);
      assert SoundAt(proofs, source, names, t, u.proof);
    }
  }
}
