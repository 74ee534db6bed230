/** What holds of the host after every single effect of the release machine, for every
    schedule of runs, command failures, crashes and reboots. */
module ReleaseInvariant {
  import opened Outcomes
  import opened Manifests
  import opened ReleaseTypes

  /** Where a probe enters: at a slot's own port, or through nginx from outside or over
      the loopback. */
  datatype Vantage = Direct | Public | Route

  /** A probe that reached `port`, whose slot held `db`, and got the expected answers;
      `alone` says that the other slot was down. */
  datatype Sighting = Sighting(from: Vantage, port: Port, db: Option<Bytes>, terms: Terms, answers: Answers, alone: bool)

  /** What has happened so far.  Claims are numbered; `port`, `db`, `basis` and
      `receipt` are those of the last commit (or of the installation). */
  datatype History = History(
    claim: nat,
    attempts: map<nat, seq<Verifier>>,  // rebuilds of each claim, by verifier version
    stranded: set<nat>,                 // claims a later run found in a pending-consumer state
    committed: set<nat>,
    port: Port,
    db: Bytes,
    basis: Option<Bytes>,
    receipt: Option<Receipt>,
    bases: set<Bytes>,                  // base-only contents that may become the basis
    seen: set<Sighting>,                // probes passed since the last rebuild began
    origin: Option<Disk>,               // the disk a quarantine intent was written on
    stored: bool,                       // since the last commit another basis was stored,
    filed: bool,                        // and another receipt
    disturbed: bool)                    // some effect retired or rewrote the slot nginx has loaded

  /** The history after the disk effect `d -> next`. */
  ghost function Advance(h: History, u: Units, d: Disk, next: Disk): History {
    var h := h.(disturbed := h.disturbed || SlotOf(d, u.loaded) != SlotOf(next, u.loaded),
                stored := h.stored || next.basis != d.basis,
                filed := h.filed || next.receipt != d.receipt);
    if next.journal == d.journal || next.journal.None? then h else
    match next.journal.value
    case Claiming(_, _) =>
      h.(claim := h.claim + 1, attempts := h.attempts[h.claim + 1 := []], seen := {})
    case Committed(port, _, _) =>
      h.(committed := h.committed + {h.claim}, port := port,
         db := if port in next.slots then next.slots[port] else h.db,
         basis := next.basis, receipt := next.receipt, stored := false, filed := false)
    case Quarantining(_, _, _, _, _) =>
      if d.journal.Some? && d.journal.value.Quarantining? then h else h.(origin := Some(d))
    case _ => h
  }

  /** Stopping or disabling a unit retires its slot. */
  ghost function AfterCommand(h: History, u: Units, c: UnitCommand): History {
    h.(disturbed := h.disturbed || ((c.Stop? || c.Disable?) && c.p == u.loaded))
  }

  function Effect(c: UnitCommand, d: Disk, u: Units): Units {
    match c
    case Restart(p) => u.(running := if p in d.slots then u.running[p := d.slots[p]] else u.running - {p})
    case Stop(p) => u.(running := u.running - {p})
    case Enable(p) => u.(enabled := u.enabled + {p})
    case Disable(p) => u.(enabled := u.enabled - {p})
    case ReloadNginx => u.(loaded := d.upstream)
  }

  // ---------- the parts of the invariant ----------

  /** The previously committed slot is intact, and is what its process serves. */
  ghost predicate OldSlotOk(d: Disk, u: Units, h: History) {
    && SlotOf(d, h.port) == Some(h.db)
    && (h.port in u.running ==> u.running[h.port] == h.db)
  }

  ghost predicate ClaimsOk(h: History) {
    && h.stranded !! h.committed
    && (forall c :: c in h.stranded || c in h.committed || c in h.attempts ==> c <= h.claim)
    && h.claim in h.attempts
    && (forall c :: c in h.attempts ==> AttemptsOk(h.attempts[c]))
  }

  ghost predicate AttemptsOk(a: seq<Verifier>) {
    |a| <= 2 && (|a| == 2 ==> a[0] == a[1])
  }

  ghost predicate BasesOk(e: World, d: Disk, h: History) {
    && (forall b :: b in h.bases ==> e.baseOnly(b))
    && (d.basis.Some? ==> d.basis.value in h.bases)
  }

  ghost predicate Always(e: World, d: Disk, u: Units, h: History) {
    && !h.disturbed
    && OldSlotOk(d, u, h)
    && d.upstream in u.enabled && u.loaded in u.enabled
    && ClaimsOk(h)
    && BasesOk(e, d, h)
    && (h.stored <==> d.basis != h.basis) && (h.filed <==> d.receipt != h.receipt)
    && (forall q :: q in d.quarantine ==> q.id < d.nextId)
  }

  /** Route, basis and receipt are those of the last commit. */
  ghost predicate Resting(d: Disk, u: Units, h: History) {
    && d.upstream == h.port && u.loaded == h.port
    && d.basis == h.basis && d.receipt == h.receipt
  }

  ghost predicate Fresh(h: History) {
    h.claim !in h.stranded && h.claim !in h.committed
  }

  ghost predicate InFlight(d: Disk, h: History, rel: Release) {
    && rel.candidate == h.port.Other()
    && rel.retry <= 1
    && Bound(d, rel)
    && h.claim !in h.committed
  }

  ghost predicate Saw(h: History, v: Vantage, p: Port, db: Bytes, terms: Terms, answers: Answers) {
    || Sighting(v, p, Some(db), terms, answers, true) in h.seen
    || Sighting(v, p, Some(db), terms, answers, false) in h.seen
  }

  /** What a release must have shown before it may be committed: its answers at its own
      port and to the public, and both nginx views again while the old slot was down. */
  ghost predicate Proven(h: History, p: Port, db: Bytes, body: Body) {
    && Saw(h, Direct, p, db, body.terms, body.http)
    && Saw(h, Public, p, db, body.terms, body.http)
    && Sighting(Route, p, Some(db), body.terms, body.http, true) in h.seen
    && Sighting(Public, p, Some(db), body.terms, body.http, true) in h.seen
  }

  ghost predicate CandidateOk(e: World, d: Disk, u: Units, h: History, rel: Release)
    requires Bound(d, rel)
  {
    var body := d.sidecars[rel.snapshot].body;
    && rel.candidate in d.slots
    && var db := d.slots[rel.candidate];
    && Saw(h, Direct, rel.candidate, db, body.terms, body.http)
    && e.ftsOk(db, body)
    && (e.honest ==> e.serve(db, body.terms) == body.http)
    && (rel.candidate in u.running ==> u.running[rel.candidate] == db)
    && e.baseOnly(d.claimed.value)
    && d.claimed.value in h.bases
  }

  ghost predicate OracleOk(e: World, d: Disk, h: History, rel: Release, o: Oracle) {
    && OracleHolds(d, rel, o)
    && (e.honest ==> o.results == e.serve(h.db, o.terms))
  }

  /** Traffic may be on either slot; everything old is still in place. */
  ghost predicate Undecided(e: World, d: Disk, u: Units, h: History, rel: Release, o: Oracle) {
    && InFlight(d, h, rel)
    && h.port in u.enabled
    && CandidateOk(e, d, u, h, rel)
    && OracleOk(e, d, h, rel, o)
    && d.basis == h.basis && d.receipt == h.receipt
  }

  ghost predicate PublicPassed(d: Disk, h: History, rel: Release) {
    && rel.candidate in d.slots
    && Saw(h, Public, rel.candidate, d.slots[rel.candidate], rel.manifest.of.terms, rel.manifest.of.http)
  }

  /** Basis first, then receipt: the only pairs on the way to a commit. */
  ghost predicate FinalPair(d: Disk, h: History, rel: Release)
    requires d.claimed.Some?
  {
    var new_ := Receipt(rel.snapshot, rel.manifest, rel.candidate);
    || (d.basis == h.basis && d.receipt == h.receipt)
    || (d.basis == d.claimed && d.receipt == h.receipt)
    || (d.basis == d.claimed && d.receipt == Some(new_))
  }

  ghost predicate Finalizing(e: World, d: Disk, u: Units, h: History, rel: Release) {
    && InFlight(d, h, rel)
    && CandidateOk(e, d, u, h, rel)
    && d.upstream == rel.candidate && u.loaded == rel.candidate
    && h.claim !in h.stranded
    && FinalPair(d, h, rel)
    && Proven(h, rel.candidate, d.slots[rel.candidate], rel.manifest.of)
  }

  /** Each captured file is at exactly one of its two places, with its original bytes;
      all other files of the quarantine are as they were. */
  ghost predicate Moving(o: Disk, d: Disk, entry: Entry)
    requires entry.Quarantining?
  {
    var i := entry.intent;
    && i.id < d.nextId
    && entry.retries <= 1
    && (i.retirementFailed ==> i.retireFirst)
    && i.base != NotApplicable && i.manifest != NotApplicable
    && (o.claimed.None? ==> i.base == MissingAtFailure)
    && (o.claimed.Some? ==> i.base == Captured)
    && (forall q :: q in o.quarantine ==> q.id != i.id)
    && (forall q :: q in o.quarantine ==> q in d.quarantine && d.quarantine[q] == o.quarantine[q])
    && (forall q :: q in d.quarantine && q !in o.quarantine ==> q.id == i.id && q.dir == entry.snapshot)
    && LabelOk(o, d, entry, BaseFile)
    && LabelOk(o, d, entry, CandidateFile)
    && LabelOk(o, d, entry, ManifestFile)
  }

  ghost predicate LabelOk(o: Disk, d: Disk, entry: Entry, l: Label)
    requires entry.Quarantining?
  {
    var source := Source(o, l, entry.from, entry.snapshot);
    var now := Source(d, l, entry.from, entry.snapshot);
    var there := At(d.quarantine, QPath(entry.snapshot, l, entry.intent.id));
    if entry.intent.Of(l) == Captured
    then source.Some? && ((now == source && there.None?) || (now.None? && there == source))
    else now == source && there.None?
  }

  ghost predicate Stage(e: World, d: Disk, u: Units, h: History, entry: Entry)
    requires ClaimsOk(h)
  {
      match entry
      case Idle => Resting(d, u, h) && d.claimed.None?
      case Claiming(c, v) =>
        && Resting(d, u, h) && c == h.port.Other() && Fresh(h)
        && h.attempts[h.claim] == []
      case Rebuilding(rel, v) =>
        Resting(d, u, h) && InFlight(d, h, rel) && Fresh(h) && Tried(h, rel.retry, v)
      case Prepared(rel, v) =>
        Resting(d, u, h) && InFlight(d, h, rel) && Fresh(h) && Tried(h, rel.retry, v)
      case RetryBlocked(rel, v, observed) =>
        Resting(d, u, h) && InFlight(d, h, rel) && Fresh(h)
      case Pending(phase, rel, o) =>
        && Undecided(e, d, u, h, rel, o)
        && (phase == OldStopping ==> PublicPassed(d, h, rel))
      case RollbackFailed(rel, o, _) => Undecided(e, d, u, h, rel, o)
      case RollbackBlocked(rel, o) => Undecided(e, d, u, h, rel, o)
      case ConsumerVerified(rel) => Finalizing(e, d, u, h, rel)
      case FinalizeBlocked(rel) => Finalizing(e, d, u, h, rel)
      case Quarantining(from, snapshot, _, _, _) =>
        && Resting(d, u, h) && from == h.port.Other() && h.claim !in h.committed
        && h.origin.Some? && Moving(h.origin.value, d, entry)
      case Quarantined(_, _) =>
        Resting(d, u, h) && d.claimed.None? && QuarantinedOk(entry, d.quarantine)
      case Committed(port, base, manifest) =>
        && Resting(d, u, h) && h.port == port && h.claim in h.committed
        && (d.claimed.Some? ==> SnapshotId(d.claimed.value) == base)
        && BindDb(d.basis) == Some(base)
        && d.receipt == Some(Receipt(base, manifest, port))
        && Proven(h, port, h.db, manifest.of)
  }

  /** With retry count r at most r + 1 rebuilds have begun, all under this verifier. */
  ghost predicate Tried(h: History, retry: nat, v: Verifier)
    requires h.claim in h.attempts
  {
    && |h.attempts[h.claim]| <= retry + 1
    && (forall x :: x in h.attempts[h.claim] ==> x == v)
  }

  ghost predicate Inv(e: World, d: Disk, u: Units, h: History) {
    match d.journal
    case None => Always(e, d, u, h) && Resting(d, u, h) && d.claimed.None?
    case Some(entry) => Always(e, d, u, h) && Stage(e, d, u, h, entry)
  }

  // ---------- what keeps the invariant ----------

  /** Each live unit of `v` was live in `u` or has just opened its slot's database. */
  ghost predicate UnitsFrom(d: Disk, u: Units, v: Units) {
    && v.loaded == u.loaded
    && d.upstream in v.enabled && v.loaded in v.enabled
    && forall p :: p in v.running ==>
         (p in u.running && v.running[p] == u.running[p]) || SlotOf(d, p) == Some(v.running[p])
  }

  /** Traffic may still be moved back to the old slot. */
  predicate Revertible(j: Option<Entry>) {
    j.Some? && (j.value.Pending? || j.value.RollbackFailed? || j.value.RollbackBlocked?)
  }

  lemma UnitsKeepInv(e: World, d: Disk, u: Units, v: Units, h: History)
    requires Inv(e, d, u, h) && UnitsFrom(d, u, v)
    requires Revertible(d.journal) ==> h.port in v.enabled
    ensures Inv(e, d, v, h)
  {
  }

  /** In an undecided state either slot may be included or loaded. */
  lemma RouteKeepsInv(e: World, d: Disk, u: Units, h: History, p: Port)
    requires Inv(e, d, u, h) && p in u.enabled
    requires Undecidable(d.journal) || (d.upstream == p && u.loaded == p)
    ensures var next := d.(upstream := p); Inv(e, next, u, Advance(h, u, d, next))
    ensures d.upstream == p ==> Inv(e, d, u.(loaded := p), h)
  {
    var next := d.(upstream := p);
    assert Always(e, next, u, Advance(h, u, d, next));
  }

  predicate Undecidable(j: Option<Entry>) {
    j.Some? && (j.value.Pending? || j.value.RollbackFailed?)
  }

  lemma SeeingKeepsInv(e: World, d: Disk, u: Units, h: History, x: Sighting)
    requires Inv(e, d, u, h)
    ensures Inv(e, d, u, h.(seen := h.seen + {x}))
  {
  }
}
