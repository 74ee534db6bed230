/** What a run leaves behind besides the disk: every disk state it went through and by
    which effect, which replacements may not have been forced out, and which live units
    were restarted. */
module ReleaseTrail {
  import opened Outcomes
  import opened Manifests
  import opened ReleaseTypes
  import opened ReleaseInvariant
  import opened ReleaseSteps
  import opened ReleaseQuarantine

  /** The effects of the program and of the producer on the disk. */
  datatype Change =
    | Journalled
    | IncludeWritten
    | BasisStored
    | ReceiptStored
    | Taken
    | ClaimDropped
    | SidecarDropped(id: SnapshotId)
    | SlotCopied(slot: Port)
    | SlotRebuilt(slot: Port)
    | EvidenceMoved(of: Label)
    | RecordFiled
    | Pruned
    | Uploaded(id: SnapshotId)

  /** Files whose last replacement may have been cut short before its fsync. */
  datatype Piece = IncludePiece | BasisPiece | ReceiptPiece | RecordPiece | EvidencePiece(of: Label)

  /** A disk state, and the pieces that were open then. */
  datatype Mark = Mark(disk: Disk, open: set<Piece>)

  /** A health check of a slot, the state it was made in, and whether it was answered. */
  datatype HealthCheck = HealthCheck(port: Port, journal: Option<Entry>, units: Units, answered: bool)

  /** A restart of the live unit nginx had loaded; `committed` is the slot last committed,
      `check` the last health check before. */
  datatype Bounce = Bounce(journal: Option<Entry>, port: Port, committed: Port, check: Option<HealthCheck>)

  datatype Trail = Trail(marks: seq<Mark>, open: set<Piece>, bounces: seq<Bounce>)

  function PieceOf(x: Change): Option<Piece> {
    match x
    case IncludeWritten => Some(IncludePiece)
    case BasisStored => Some(BasisPiece)
    case ReceiptStored => Some(ReceiptPiece)
    case RecordFiled => Some(RecordPiece)
    case EvidenceMoved(l) => Some(EvidencePiece(l))
    case _ => None
  }

  const EVIDENCE: set<Piece> :=
    {RecordPiece, EvidencePiece(BaseFile), EvidencePiece(CandidateFile), EvidencePiece(ManifestFile)}

  /** A new quarantine starts with nothing filed. */
  function Reopened(a: Disk, b: Disk, open: set<Piece>): set<Piece> {
    if b.journal.Some? && b.journal.value.Quarantining? && !(a.journal.Some? && a.journal.value.Quarantining?)
    then open - EVIDENCE else open
  }

  /** A record filed before a move has to be filed again. */
  function OpenAfter(x: Change, a: Disk, b: Disk, open: set<Piece>, cut: bool): set<Piece> {
    var rest := Reopened(a, b, open) + if x.EvidenceMoved? then {RecordPiece} else {};
    if PieceOf(x).None? then rest
    else if cut then rest + {PieceOf(x).value} else rest - {PieceOf(x).value}
  }

  // ---------- one effect ----------

  /** Which entry may replace which. */
  predicate Follows(j: Option<Entry>, k: Entry) {
    match k
    case Idle => j.Some? && j.value.Claiming?
    case Claiming(_, _) => Settled(j)
    case Rebuilding(_, _) => BeforeTraffic(j)
    case Prepared(_, _) => j.Some? && (j.value.Rebuilding? || j.value.Prepared?)
    case RetryBlocked(_, _, _) => j.Some? && (j.value.Rebuilding? || j.value.Prepared?)
    case Pending(_, _, _) => Undecidable(j) || (j.Some? && j.value.Prepared?)
    case RollbackFailed(_, _, _) => Undecidable(j)
    case RollbackBlocked(_, _) => Undecidable(j)
    case ConsumerVerified(_) => j.Some? && (j.value.Pending? || j.value.ConsumerVerified?)
    case FinalizeBlocked(_) => j.Some? && j.value.ConsumerVerified?
    case Quarantining(_, _, _, _, _) =>
      BeforeTraffic(j) || Undecidable(j) || (j.Some? && j.value.Quarantining?)
    case Quarantined(path, _) => j.Some? && j.value.Quarantining? && path == PathOf(j.value, FailureFile)
    case Committed(port, base, manifest) =>
      && j.Some? && j.value.ConsumerVerified?
      && var rel := j.value.rel;
      port == rel.candidate && base == rel.snapshot && manifest == rel.manifest
  }

  /** A quarantine begins under paths not used before, and keeps them. */
  predicate KeepsPaths(a: Disk, k: Entry) {
    k.Quarantining? ==>
      if a.journal.Some? && a.journal.value.Quarantining? then
        forall l :: PathOf(a.journal.value, l) == PathOf(k, l)
      else
        forall l :: PathOf(k, l) !in a.quarantine
  }

  /** Going on from here takes the old release's answers, so its unit must be up. */
  predicate BeforeTraffic(j: Option<Entry>) {
    j.Some? && (j.value.Claiming? || j.value.Rebuilding? || j.value.Prepared?)
  }

  predicate Undropped(j: Option<Entry>) {
    j.Some? && j.value.Committed?
  }

  /** The producer publishes a sidecar without replacing one, then the database.  It does
      not send the snapshot again whose quarantine is under way. */
  predicate Publishable(d: Disk, id: SnapshotId, sidecar: Sidecar) {
    && (id in d.sidecars ==> d.sidecars[id] == sidecar)
    && (d.journal.Some? && d.journal.value.Quarantining? ==> d.journal.value.snapshot != id)
  }

  /** `b` is `a` after the effect `x`. */
  predicate Fits(x: Change, a: Disk, b: Disk) {
    match x
    case Journalled =>
      && b.journal.Some? && Follows(a.journal, b.journal.value) && KeepsPaths(a, b.journal.value)
      && b == a.(journal := b.journal, nextId := b.nextId)
    case IncludeWritten =>
      && b == a.(upstream := b.upstream)
      && (Undecidable(a.journal) || (a.journal.Some? && a.journal.value.Prepared?))
    case BasisStored =>
      && a.journal.Some? && a.journal.value.ConsumerVerified? && a.claimed.Some?
      && b == a.(basis := a.claimed)
    case ReceiptStored =>
      && a.journal.Some? && a.journal.value.ConsumerVerified?
      && var rel := a.journal.value.rel;
      b == a.(receipt := Some(Receipt(rel.snapshot, rel.manifest, rel.candidate)))
    case Taken =>
      && a.journal.Some? && a.journal.value.Claiming? && a.incoming.Some?
      && b == a.(incoming := None, claimed := a.incoming)
    case ClaimDropped => Undropped(a.journal) && b == a.(claimed := None)
    case SidecarDropped(id) => Undropped(a.journal) && b == a.(sidecars := a.sidecars - {id})
    case SlotCopied(p) => p in b.slots && BeforeTraffic(a.journal) && b == a.(slots := a.slots[p := b.slots[p]])
    case SlotRebuilt(p) => p in b.slots && BeforeTraffic(a.journal) && b == a.(slots := a.slots[p := b.slots[p]])
    case EvidenceMoved(l) =>
      && a.journal.Some? && a.journal.value.Quarantining?
      && var entry := a.journal.value;
      && Source(a, l, entry.from, entry.snapshot).Some? && PathOf(entry, l) !in a.quarantine
      && b == Moved(a, l, entry.from, entry.snapshot, entry.intent.id)
    case RecordFiled =>
      && a.journal.Some? && a.journal.value.Quarantining?
      && var q := PathOf(a.journal.value, FailureFile);
      q in b.quarantine && b == a.(quarantine := a.quarantine[q := b.quarantine[q]])
    case Pruned =>
      && a.journal.Some? && a.journal.value.Quarantined?
      && b == a.(quarantine := b.quarantine)
      && (forall q :: q in b.quarantine ==> q in a.quarantine && b.quarantine[q] == a.quarantine[q])
      && (forall q :: q in a.quarantine && q.dir == a.journal.value.path.dir ==> q in b.quarantine)
    case Uploaded(id) =>
      && b.incoming.Some? && id == SnapshotId(b.incoming.value) && id in b.sidecars
      && Publishable(a, id, b.sidecars[id])
      && b == a.(incoming := b.incoming, sidecars := a.sidecars[id := b.sidecars[id]])
  }

  // ---------- what holds of every state ----------

  /** The journal does not lead the disk: a commit record is only there once the include,
      basis and receipt are, the base outlives the commit record, and a quarantine is only
      closed with all its evidence. */
  ghost predicate NotLeading(d: Disk) {
    d.journal.Some? ==>
      match d.journal.value
      case Committed(port, base, manifest) =>
        && d.upstream == port
        && BindDb(d.basis) == Some(base)
        && d.receipt == Some(Receipt(base, manifest, port))
      case ConsumerVerified(rel) =>
        && d.upstream == rel.candidate
        && BindDb(d.claimed) == Some(rel.snapshot)
      case Quarantined(_, _) => QuarantinedOk(d.journal.value, d.quarantine)
      case _ => true
  }

  lemma InvDoesNotLead(e: World, d: Disk, u: Units, h: History)
    requires Inv(e, d, u, h)
    ensures NotLeading(d)
  {
  }

  /** The pieces an entry speaks about are closed. */
  predicate Closed(j: Option<Entry>, open: set<Piece>) {
    j.Some? ==>
      match j.value
      case ConsumerVerified(_) => IncludePiece !in open
      case FinalizeBlocked(_) => IncludePiece !in open
      case Committed(_, _, _) => IncludePiece !in open && BasisPiece !in open && ReceiptPiece !in open
      case Quarantined(_, _) => RecordPiece !in open
      case _ => true
  }

  ghost predicate MarkOk(m: Mark) {
    NotLeading(m.disk) && Closed(m.disk.journal, m.open)
  }

  predicate StepBy(m: Mark, n: Mark, x: Change, cut: bool) {
    Fits(x, m.disk, n.disk) && n.open == OpenAfter(x, m.disk, n.disk, m.open, cut)
  }

  ghost predicate StepOk(m: Mark, n: Mark) {
    MarkOk(n) && exists x, cut :: StepBy(m, n, x, cut)
  }

  /** A history starts on a freshly installed host with everything on disk. */
  ghost predicate Untouched(d: Disk) {
    d.journal.None? && d.claimed.None? && d.quarantine == map[]
  }

  ghost predicate Stepwise(marks: seq<Mark>) {
    && marks != [] && Untouched(marks[0].disk) && marks[0].open == {}
    && forall k :: 0 < k < |marks| ==> StepOk(marks[k - 1], marks[k])
  }

  /** A restart may take the loaded slot's unit down only here: the old slot before traffic
      is moved back to it, and the candidate while it is being finalized. */
  predicate Bounceable(j: Option<Entry>, committed: Port, p: Port) {
    || (Undecidable(j) && p == committed)
    || (j.Some? && j.value.ConsumerVerified? && p == j.value.rel.candidate)
  }

  /** Right before, a health check of the live unit had got no answer. */
  predicate Unanswered(b: Bounce) {
    && b.check.Some?
    && var c := b.check.value;
    c.port == b.port && c.journal == b.journal && b.port in c.units.running && c.units.loaded == b.port && !c.answered
  }

  ghost predicate TrailOk(t: Trail, d: Disk) {
    && Stepwise(t.marks)
    && t.marks[|t.marks| - 1] == Mark(d, t.open)
    && Closed(d.journal, t.open)
    && (forall b :: b in t.bounces ==> Unanswered(b) && Bounceable(b.journal, b.committed, b.port))
  }

  /** What the entry speaks about stays closed, also when the effect is cut short. */
  predicate StaysClosed(x: Change, a: Disk, b: Disk, open: set<Piece>) {
    Closed(b.journal, OpenAfter(x, a, b, open, false)) && Closed(b.journal, OpenAfter(x, a, b, open, true))
  }

  /** The trail after the effect `x`. */
  function Trodden(t: Trail, x: Change, a: Disk, b: Disk, cut: bool): Trail {
    var open := OpenAfter(x, a, b, t.open, cut);
    t.(marks := t.marks + [Mark(b, open)], open := open)
  }

  lemma TrailExtends(t: Trail, x: Change, a: Disk, b: Disk, cut: bool)
    requires TrailOk(t, a) && Fits(x, a, b) && NotLeading(b)
    requires StaysClosed(x, a, b, t.open)
    ensures TrailOk(Trodden(t, x, a, b, cut), b)
  {
    var n := Mark(b, OpenAfter(x, a, b, t.open, cut));
    assert StepBy(t.marks[|t.marks| - 1], n, x, cut);
    assert StepOk(t.marks[|t.marks| - 1], n);
  }
}
