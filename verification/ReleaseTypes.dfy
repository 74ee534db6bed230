/** The state that `Deploy` of deploy/sync/apply_db_update.py works on: files on
    disk, service units, and the route nginx has loaded. */
module ReleaseTypes {
  import opened Outcomes
  import opened Manifests

  type Verifier = nat

  datatype Port = P8000 | P8001 {
    function Other(): Port { if P8000? then P8001 else P8000 }
  }

  datatype ReceiptId = ReceiptId(of: Receipt)
  datatype RecordId = RecordId(of: Failure)
  datatype FileId = FileId(of: QFile)

  datatype Receipt = Receipt(snapshot: SnapshotId, manifest: ManifestId, port: Port)

  /** What must still hold of the old release before traffic may be moved back. */
  datatype Oracle = Oracle(
    previous: Port,
    oldDb: Option<SnapshotId>,
    basis: Option<SnapshotId>,
    receipt: Option<ReceiptId>,
    snapshot: SnapshotId,
    manifest: ManifestId,
    terms: Terms,
    results: Answers)

  datatype Category =
    | DeterministicGate | CheckpointMissing | VerifierChanged | RetryExhausted
    | SwitchFailed | ConsumerGateFailed | RouteIdentityFailed | CrashRecovered

  datatype Label = BaseFile | CandidateFile | ManifestFile | FailureFile

  datatype Status = Captured | NotApplicable | MissingAtFailure

  datatype Intent = Intent(
    id: nat,
    category: Category,
    active: Option<Port>,
    retireFirst: bool,
    retirementFailed: bool,
    base: Status,
    candidate: Status,
    manifest: Status)
  {
    function Of(l: Label): Status {
      match l
      case BaseFile => base
      case CandidateFile => candidate
      case ManifestFile => manifest
      case FailureFile => NotApplicable
    }
  }

  /** The release an in-flight journal entry is about. */
  datatype Release = Release(candidate: Port, snapshot: SnapshotId, manifest: ManifestId, retry: nat)

  datatype Phase = Switching | Switched | OldStopping

  datatype Entry =
    | Idle
    | Claiming(candidate: Port, verifier: Verifier)
    | Rebuilding(rel: Release, verifier: Verifier)
    | Prepared(rel: Release, verifier: Verifier)
    | RetryBlocked(rel: Release, verifier: Verifier, observed: Verifier)
    | Pending(phase: Phase, rel: Release, oracle: Oracle)
    | RollbackFailed(rel: Release, oracle: Oracle, cause: Category)
    | RollbackBlocked(rel: Release, oracle: Oracle)
    | ConsumerVerified(rel: Release)
    | FinalizeBlocked(rel: Release)
    | Quarantining(from: Port, snapshot: SnapshotId, declared: Option<ManifestId>, retries: nat, intent: Intent)
    | Quarantined(path: QPath, record: RecordId)
    | Committed(port: Port, base: SnapshotId, manifest: ManifestId)

  /** A file of the quarantine: one directory a snapshot, one failure id a visit. */
  datatype QPath = QPath(dir: SnapshotId, kind: Label, id: nat)

  datatype Identity = Verified | Mismatch | Unavailable

  datatype Evidence = Evidence(status: Status, sha: Option<FileId>)

  datatype Failure = Failure(
    id: nat,
    snapshot: SnapshotId,
    declared: Option<ManifestId>,
    observed: Option<ManifestId>,
    manifestIdentity: Identity,
    snapshotIdentity: Identity,
    candidate: Port,
    active: Option<Port>,
    category: Category,
    retries: nat,
    exhausted: bool,
    retireFirst: bool,
    retirementFailed: bool,
    base: Evidence,
    candidateDb: Evidence,
    manifest: Evidence)

  datatype QFile = DbFile(db: Bytes) | SidecarFile(sidecar: Sidecar) | FailureRecord(failure: Failure)

  datatype Disk = Disk(
    journal: Option<Entry>,
    incoming: Option<Bytes>,
    claimed: Option<Bytes>,
    slots: map<Port, Bytes>,
    basis: Option<Bytes>,
    receipt: Option<Receipt>,
    sidecars: map<SnapshotId, Sidecar>,
    quarantine: map<QPath, QFile>,
    upstream: Port,    // what the nginx include file names
    nextId: nat)       // failure ids below this are used up

  /** `running` maps a live unit to the database content it opened. */
  datatype Units = Units(running: map<Port, Bytes>, enabled: set<Port>, loaded: Port)

  datatype UnitCommand = Restart(p: Port) | Stop(p: Port) | Enable(p: Port) | Disable(p: Port) | ReloadNginx

  /** What the outside world decides.  `rebuild` is what the full-text rebuild of
      an installed version makes of a base; `honest` says that every probe that returns
      answers returns those of the slot it reaches. */
  datatype World = World(
    ftsOk: (Bytes, Body) -> bool,
    baseOnly: Bytes -> bool,
    rebuild: (Bytes, Verifier) -> Bytes,
    serve: (Bytes, Terms) -> Answers,
    honest: bool)

  /** `_file_binding` of a database file. */
  function BindDb(x: Option<Bytes>): Option<SnapshotId> {
    if x.Some? then Some(SnapshotId(x.value)) else None
  }

  function BindReceipt(x: Option<Receipt>): Option<ReceiptId> {
    if x.Some? then Some(ReceiptId(x.value)) else None
  }

  function SlotOf(d: Disk, p: Port): Option<Bytes> {
    if p in d.slots then Some(d.slots[p]) else None
  }

  /** `_load_manifest`: present, self-consistent, about this snapshot, consumable. */
  predicate Loadable(d: Disk, snapshot: SnapshotId) {
    && snapshot in d.sidecars
    && d.sidecars[snapshot].Manifest?
    && d.sidecars[snapshot].body.snapshot == snapshot
    && d.sidecars[snapshot].consumable
  }

  /** The claimed base and its sidecar are still the ones the journal names. */
  predicate Bound(d: Disk, rel: Release) {
    && d.claimed.Some?
    && SnapshotId(d.claimed.value) == rel.snapshot
    && Loadable(d, rel.snapshot)
    && ManifestId(d.sidecars[rel.snapshot].body) == rel.manifest
  }

  /** `_validate_rollback_oracle` and `_validate_pending_rollback_inputs`. */
  predicate OracleHolds(d: Disk, rel: Release, o: Oracle) {
    && Bound(d, rel)
    && o.previous == rel.candidate.Other()
    && o.snapshot == rel.snapshot
    && o.manifest == rel.manifest
    && BindDb(SlotOf(d, o.previous)) == o.oldDb
    && BindDb(d.basis) == o.basis
    && BindReceipt(d.receipt) == o.receipt
    && o.terms == d.sidecars[rel.snapshot].body.terms
  }

  /** `_validate_consumer_verified_authority` finds no mismatch. */
  predicate AuthorityHolds(d: Disk, rel: Release) {
    && d.upstream == rel.candidate
    && d.claimed.Some?
    && SnapshotId(d.claimed.value) == rel.snapshot
    && rel.snapshot in d.sidecars
    && d.sidecars[rel.snapshot].Manifest?
    && d.sidecars[rel.snapshot].body.snapshot == rel.snapshot
    && ManifestId(d.sidecars[rel.snapshot].body) == rel.manifest
  }

  // ---------- quarantine ----------

  /** Where an evidence file is taken from. */
  function Source(d: Disk, l: Label, candidate: Port, snapshot: SnapshotId): Option<QFile> {
    match l
    case BaseFile => if d.claimed.Some? then Some(DbFile(d.claimed.value)) else None
    case CandidateFile => if candidate in d.slots then Some(DbFile(d.slots[candidate])) else None
    case ManifestFile => if snapshot in d.sidecars then Some(SidecarFile(d.sidecars[snapshot])) else None
    case FailureFile => None
  }

  /** One rename of `_move_to_quarantine`. */
  function Moved(d: Disk, l: Label, candidate: Port, snapshot: SnapshotId, id: nat): Disk {
    var f := Source(d, l, candidate, snapshot);
    if f.None? then d else
    var q := d.quarantine[QPath(snapshot, l, id) := f.value];
    match l
    case BaseFile => d.(claimed := None, quarantine := q)
    case CandidateFile => d.(slots := d.slots - {candidate}, quarantine := q)
    case ManifestFile => d.(sidecars := d.sidecars - {snapshot}, quarantine := q)
    case FailureFile => d
  }

  function EvidenceOf(f: Option<QFile>, s: Status): Evidence {
    if s.Captured? then Evidence(s, if f.Some? then Some(FileId(f.value)) else None) else Evidence(s, None)
  }

  function ObservedManifest(f: Option<QFile>): Option<ManifestId> {
    if f.Some? && f.value.SidecarFile? && f.value.sidecar.Manifest?
    then Some(ManifestId(f.value.sidecar.body)) else None
  }

  function ManifestIdentity(f: Option<QFile>, snapshot: SnapshotId, declared: Option<ManifestId>): Identity {
    if f.None? then Unavailable
    else if f.value.SidecarFile? && f.value.sidecar.Manifest?
         && f.value.sidecar.body.snapshot == snapshot
         && ObservedManifest(f) == declared
    then Verified
    else Mismatch
  }

  function SnapshotIdentity(f: Option<QFile>, snapshot: SnapshotId): Identity {
    if f.None? then Unavailable
    else if f.value.DbFile? && SnapshotId(f.value.db) == snapshot then Verified
    else Mismatch
  }

  /** The failure record for evidence files `b`, `c`, `m` (None when not captured). */
  function RecordFor(entry: Entry, b: Option<QFile>, c: Option<QFile>, m: Option<QFile>): Failure
    requires entry.Quarantining?
  {
    var i := entry.intent;
    Failure(i.id, entry.snapshot, entry.declared, ObservedManifest(m),
            ManifestIdentity(m, entry.snapshot, entry.declared),
            SnapshotIdentity(b, entry.snapshot),
            entry.from, i.active, i.category, entry.retries, i.category == RetryExhausted,
            i.retireFirst, i.retirementFailed,
            EvidenceOf(b, i.base), EvidenceOf(c, i.candidate), EvidenceOf(m, i.manifest))
  }

  function At(q: map<QPath, QFile>, p: QPath): Option<QFile> {
    if p in q then Some(q[p]) else None
  }

  predicate EvidenceMatches(q: map<QPath, QFile>, p: QPath, e: Evidence) {
    if e.status.Captured?
    then p in q && e.sha == Some(FileId(q[p]))
    else e.sha == None
  }

  /** `_validate_quarantined_entry`. */
  predicate QuarantinedOk(entry: Entry, q: map<QPath, QFile>)
    requires entry.Quarantined?
  {
    && entry.path.kind == FailureFile
    && entry.path in q
    && q[entry.path].FailureRecord?
    && RecordId(q[entry.path].failure) == entry.record
    && var f := q[entry.path].failure;
    && f.id == entry.path.id
    && f.snapshot == entry.path.dir
    && !f.base.status.NotApplicable?
    && !f.manifest.status.NotApplicable?
    && var b := QPath(f.snapshot, BaseFile, f.id);
    && var c := QPath(f.snapshot, CandidateFile, f.id);
    && var m := QPath(f.snapshot, ManifestFile, f.id);
    && EvidenceMatches(q, b, f.base)
    && EvidenceMatches(q, c, f.candidateDb)
    && EvidenceMatches(q, m, f.manifest)
    && f.snapshotIdentity == SnapshotIdentity(if f.base.status.Captured? then At(q, b) else None, f.snapshot)
    && var file := if f.manifest.status.Captured? then At(q, m) else None;
    && f.manifestIdentity == ManifestIdentity(file, f.snapshot, f.declared)
    && f.observed == ObservedManifest(file)
    && (f.retirementFailed ==> f.retireFirst)
    && f.retries <= 1
  }
}
