/** The effects of the release machine on a volume that may lose power.  A process may die
    between any two calls; what it had not forced out by then stays in the balance until a
    later call forces it out. */
module PowerLoss {
  import opened Outcomes
  import opened Manifests
  import opened ReleaseTypes
  import opened ReleaseInvariant
  import opened ReleaseSteps
  import opened ReleaseQuarantine
  import opened ReleaseTrail
  import opened DiskCalls
  import D = Durability
  import Runs = ReleaseRuns

  ghost predicate SureIs(v: Vol, d: Disk, f: D.File) {
    D.Sure(v, f, View(d, f), true)
  }

  ghost predicate PiecesOk(v: Vol, m: Mark) {
    && (IncludePiece !in m.open ==> SureIs(v, m.disk, D.Include))
    && (BasisPiece !in m.open ==> SureIs(v, m.disk, D.Basis))
    && (ReceiptPiece !in m.open ==> SureIs(v, m.disk, D.Receipt))
  }

  /** A power loss may bring back the journal as it is or, until that was forced out, the
      entry before. */
  ghost predicate JournalOk(v: Vol, m: Mark) {
    forall x :: D.May(v, D.Journal, x) ==>
      D.Holds(v, x, JournalView(m.disk.journal), true) || BringsBack(v, x, m.disk.journal)
  }

  ghost predicate BringsBack(v: Vol, x: Option<nat>, j: Option<Entry>) {
    j.Some? && exists old_ :: Follows(old_, j.value) && D.Holds(v, x, JournalView(old_), true)
  }

  /** All that the entry `j` speaks about is on disk. */
  ghost predicate Covered(v: Vol, m: Mark, j: Entry, care: bool) {
    match j
    case Committed(port, base, manifest) => Backs(v, port, base, manifest)
    case ConsumerVerified(rel) =>
      if Undropped(m.disk.journal) then Backs(v, rel.candidate, rel.snapshot, rel.manifest)
      else && D.Sure(v, D.Include, Some(IncludeOf(rel.candidate)), true)
           && D.Sure(v, D.Claimed, Some(DbOf(rel.snapshot.of)), care)
    case Quarantined(_, _) => exists q :: Archived(v, m, j, q)
    case _ => true
  }

  /** Include, basis and receipt are those of this release. */
  ghost predicate Backs(v: Vol, port: Port, base: SnapshotId, manifest: ManifestId) {
    && D.Sure(v, D.Include, Some(IncludeOf(port)), true)
    && D.Sure(v, D.Basis, Some(DbOf(base.of)), true)
    && D.Sure(v, D.Receipt, Some(ReceiptOf(Receipt(base, manifest, port))), true)
  }

  ghost predicate Archived(v: Vol, m: Mark, j: Entry, q: map<QPath, QFile>)
    requires j.Quarantined?
  {
    && QuarantinedOk(j, q)
    && forall p :: p in q && p.dir == j.path.dir && p.id == j.path.id ==>
         SureFile(v, m, p, q[p])
  }

  /** The file is filed under `p`; its content is sure unless its move was cut short. */
  ghost predicate SureFile(v: Vol, m: Mark, p: QPath, file: QFile) {
    D.Sure(v, D.Evidence(p), Some(FileOf(file)), EvidencePiece(p.kind) !in m.open)
  }

  ghost predicate Good(v: Vol, m: Mark, care: bool) {
    forall x, j :: D.May(v, D.Journal, x) && D.Holds(v, x, Some(JournalOf(j)), true) ==> Covered(v, m, j, care)
  }

  /** What is filed so far of a quarantine that is under way. */
  ghost predicate FiledOk(v: Vol, m: Mark) {
    m.disk.journal.Some? && m.disk.journal.value.Quarantining? ==>
      var entry := m.disk.journal.value;
      && (forall l :: PathOf(entry, l) in m.disk.quarantine && EvidencePiece(l) !in m.open && l != FailureFile ==>
            Clean(v, D.Evidence(PathOf(entry, l))))
      && (RecordPiece !in m.open && PathOf(entry, FailureFile) in m.disk.quarantine ==>
            && Clean(v, D.Evidence(PathOf(entry, FailureFile)))
            && forall l :: D.Placed(v, D.Evidence(PathOf(entry, l))))
  }

  ghost predicate VolInv(v: Vol, m: Mark, care: bool) {
    && Sane(v) && Tracks(v, m.disk)
    && PiecesOk(v, m) && JournalOk(v, m) && Good(v, m, care) && FiledOk(v, m)
    && (care ==> Clean(v, D.Incoming) && Clean(v, D.Claimed))
  }

  // ---------- what an entry that may come back speaks about ----------

  /** The journal holds `j`, or may still bring it back. */
  predicate Recent(j: Entry, now: Option<Entry>) {
    now.Some? && (now.value == j || Follows(Some(j), now.value))
  }

  predicate Covers(m: Mark, j: Entry, f: D.File) {
    match j
    case Committed(_, _, _) => f == D.Include || f == D.Basis || f == D.Receipt
    case ConsumerVerified(_) =>
      f == D.Include || (if Undropped(m.disk.journal) then f == D.Basis || f == D.Receipt else f == D.Claimed)
    case Quarantined(path, _) => f.Evidence? && f.path.dir == path.dir && f.path.id == path.id
    case _ => false
  }

  lemma CandidateRecent(v: Vol, m: Mark, x: Option<nat>, j: Entry)
    requires JournalOk(v, m) && D.May(v, D.Journal, x) && D.Holds(v, x, Some(JournalOf(j)), true)
    ensures Recent(j, m.disk.journal)
  {
  }

  /** No effect but a journal entry is about a file that such an entry speaks about. */
  lemma NotInvolved(x: Change, m: Mark, b: Disk, j: Entry, f: D.File)
    requires Fits(x, m.disk, b) && !x.Journalled? && Recent(j, m.disk.journal) && Covers(m, j, f)
    ensures !Involves(x, m.disk, b, f)
  {
  }

  /** Nor does it close a piece of evidence that was filed before. */
  lemma StaysOpen(x: Change, m: Mark, b: Disk, j: Entry, cut: bool, l: Label)
    requires Fits(x, m.disk, b) && j.Quarantined? && EvidencePiece(l) in m.open
    requires if x.Journalled? then b.journal.Some? && !b.journal.value.Quarantining? else Recent(j, m.disk.journal)
    ensures EvidencePiece(l) in OpenAfter(x, m.disk, b, m.open, cut)
  {
  }

  lemma CoveredKeeps(v: Vol, m: Mark, w: Vol, n: Mark, j: Entry, care: bool)
    requires Covered(v, m, j, care) && forall f :: Covers(m, j, f) ==> D.Keeps(v, w, f)
    requires j.ConsumerVerified? ==> (Undropped(m.disk.journal) <==> Undropped(n.disk.journal))
    requires j.Quarantined? ==> forall l :: EvidencePiece(l) in m.open ==> EvidencePiece(l) in n.open
    ensures Covered(w, n, j, care)
  {
    match j
    case Committed(port, base, manifest) => BacksKeeps(v, w, port, base, manifest);
    case ConsumerVerified(rel) =>
      if Undropped(m.disk.journal) {
        BacksKeeps(v, w, rel.candidate, rel.snapshot, rel.manifest);
      } else {
        D.KeepsSure(v, w, D.Include, Some(IncludeOf(rel.candidate)), true);
        D.KeepsSure(v, w, D.Claimed, Some(DbOf(rel.snapshot.of)), care);
      }
    case Quarantined(_, _) =>
      var q :| Archived(v, m, j, q);
      ArchivedKeeps(v, m, w, n, j, q);
    case _ =>
  }

  lemma BacksKeeps(v: Vol, w: Vol, port: Port, base: SnapshotId, manifest: ManifestId)
    requires Backs(v, port, base, manifest)
    requires D.Keeps(v, w, D.Include) && D.Keeps(v, w, D.Basis) && D.Keeps(v, w, D.Receipt)
    ensures Backs(w, port, base, manifest)
  {
    D.KeepsSure(v, w, D.Include, Some(IncludeOf(port)), true);
    D.KeepsSure(v, w, D.Basis, Some(DbOf(base.of)), true);
    D.KeepsSure(v, w, D.Receipt, Some(ReceiptOf(Receipt(base, manifest, port))), true);
  }

  lemma ArchivedKeeps(v: Vol, m: Mark, w: Vol, n: Mark, j: Entry, q: map<QPath, QFile>)
    requires j.Quarantined? && Archived(v, m, j, q)
    requires forall f :: Covers(m, j, f) ==> D.Keeps(v, w, f)
    requires forall l :: EvidencePiece(l) in m.open ==> EvidencePiece(l) in n.open
    ensures Archived(w, n, j, q)
  {
    forall p | p in q && p.dir == j.path.dir && p.id == j.path.id
      ensures SureFile(w, n, p, q[p])
    {
      assert Covers(m, j, D.Evidence(p)) && SureFile(v, m, p, q[p]);
      D.KeepsSure(v, w, D.Evidence(p), Some(FileOf(q[p])), EvidencePiece(p.kind) !in m.open);
    }
  }

  // ---------- effects other than journal entries ----------

  /** `w` is `v` after `k` calls of the effect `x`. */
  ghost predicate Called(x: Change, a: Disk, b: Disk, v: Vol, i: nat, k: nat, care: bool, w: Vol) {
    Fits(x, a, b) && FreshInode(v, i) && k <= Calls(x) && w == AfterCalls(x, a, b, v, i, k, care)
  }

  lemma CalledKeeps(x: Change, a: Disk, b: Disk, v: Vol, i: nat, k: nat, care: bool, w: Vol, f: D.File)
    requires Called(x, a, b, v, i, k, care, w)
    ensures !Involves(x, a, b, f) || (k < Visible(x) && !f.Temp?) ==> D.Keeps(v, w, f)
  {
    if !Involves(x, a, b, f) {
      CallsKeep(x, a, b, v, i, k, care, f);
    } else if k < Visible(x) && !f.Temp? {
      EarlyKeep(x, a, b, v, i, k, care, f);
    }
  }

  lemma JournalKeeps(v: Vol, m: Mark, w: Vol, n: Mark)
    requires JournalOk(v, m) && D.Keeps(v, w, D.Journal) && n.disk.journal == m.disk.journal
    ensures JournalOk(w, n)
  {
    forall x | D.May(w, D.Journal, x)
      ensures D.Holds(w, x, JournalView(n.disk.journal), true) || BringsBack(w, x, n.disk.journal)
    {
      assert D.May(v, D.Journal, x);
      if !D.Holds(v, x, JournalView(m.disk.journal), true) {
        var old_ :| Follows(old_, m.disk.journal.value) && D.Holds(v, x, JournalView(old_), true);
        assert D.Holds(w, x, JournalView(old_), true);
      }
    }
  }

  lemma CandidateBefore(v: Vol, m: Mark, w: Vol, x: Option<nat>, j: Entry)
    requires JournalOk(v, m) && D.Keeps(v, w, D.Journal)
    requires D.May(w, D.Journal, x) && D.Holds(w, x, Some(JournalOf(j)), true)
    ensures D.May(v, D.Journal, x) && D.Holds(v, x, Some(JournalOf(j)), true)
  {
    assert D.May(v, D.Journal, x);
    if !D.Holds(v, x, JournalView(m.disk.journal), true) {
      var old_ :| Follows(old_, m.disk.journal.value) && D.Holds(v, x, JournalView(old_), true);
    }
  }

  /** Everything is kept when nothing but a temporary was touched. */
  lemma EarlyGood(x: Change, v: Vol, m: Mark, b: Disk, i: nat, k: nat, care: bool, w: Vol)
    requires Good(v, m, care) && JournalOk(v, m)
    requires Called(x, m.disk, b, v, i, k, care, w) && k < Visible(x)
    ensures Good(w, m, care) && JournalOk(w, m)
  {
    CalledKeeps(x, m.disk, b, v, i, k, care, w, D.Journal);
    JournalKeeps(v, m, w, m);
    forall y, j | D.May(w, D.Journal, y) && D.Holds(w, y, Some(JournalOf(j)), true)
      ensures Covered(w, m, j, care)
    {
      CandidateBefore(v, m, w, y, j);
      forall f | Covers(m, j, f) ensures D.Keeps(v, w, f) { CalledKeeps(x, m.disk, b, v, i, k, care, w, f); }
      CoveredKeeps(v, m, w, m, j, care);
    }
  }

  lemma LaterGood(x: Change, v: Vol, m: Mark, b: Disk, i: nat, k: nat, cut: bool, care: bool, w: Vol)
    requires Good(v, m, care) && JournalOk(v, m) && !x.Journalled?
    requires Called(x, m.disk, b, v, i, k, care, w)
    ensures var n := Mark(b, OpenAfter(x, m.disk, b, m.open, cut)); Good(w, n, care) && JournalOk(w, n)
  {
    var n := Mark(b, OpenAfter(x, m.disk, b, m.open, cut));
    CalledKeeps(x, m.disk, b, v, i, k, care, w, D.Journal);
    JournalKeeps(v, m, w, n);
    forall y, j | D.May(w, D.Journal, y) && D.Holds(w, y, Some(JournalOf(j)), true)
      ensures Covered(w, n, j, care)
    {
      CandidateBefore(v, m, w, y, j);
      CandidateRecent(v, m, y, j);
      forall f | Covers(m, j, f) ensures D.Keeps(v, w, f) {
        NotInvolved(x, m, b, j, f);
        CalledKeeps(x, m.disk, b, v, i, k, care, w, f);
      }
      if j.Quarantined? {
        forall l | EvidencePiece(l) in m.open ensures EvidencePiece(l) in n.open { StaysOpen(x, m, b, j, cut, l); }
      }
      CoveredKeeps(v, m, w, n, j, care);
    }
  }

  lemma SureReplaced(v: Vol, f: D.File, i: nat, c: Content)
    requires D.Coherent(v) && i !in v.data && !f.Temp?
    ensures D.Sure(D.ReplaceAt(v, f, i, c, 6), f, Some(c), true)
  {
    D.ReplaceInode(v, f, i, c, 6);
    forall x | D.May(D.ReplaceAt(v, f, i, c, 6), f, x)
      ensures D.Holds(D.ReplaceAt(v, f, i, c, 6), x, Some(c), true)
    {
      D.ReplaceMay(v, f, i, c, 6, x);
    }
  }

  lemma PieceKeeps(x: Change, v: Vol, m: Mark, b: Disk, i: nat, k: nat, care: bool, w: Vol, f: D.File)
    requires Called(x, m.disk, b, v, i, k, care, w) && Sane(v) && !f.Temp?
    requires if Involves(x, m.disk, b, f) then Replaces(x) && k == 6 else SureIs(v, m.disk, f)
    ensures SureIs(w, b, f)
  {
    if Involves(x, m.disk, b, f) {
      SureReplaced(v, f, i, View(b, f).value);
    } else {
      CalledKeeps(x, m.disk, b, v, i, k, care, w, f);
      D.KeepsSure(v, w, f, View(m.disk, f), true);
      SameView(x, m.disk, b, f);
    }
  }

  /** The effect took place, and was forced out unless it was cut short. */
  ghost predicate Took(x: Change, v: Vol, m: Mark, b: Disk, i: nat, k: nat, cut: bool, care: bool, w: Vol, n: Mark) {
    && Called(x, m.disk, b, v, i, k, care, w) && Visible(x) <= k && (cut || k == Calls(x))
    && n == Mark(b, OpenAfter(x, m.disk, b, m.open, cut))
  }

  predicate PieceFile(p: Piece, f: D.File) {
    (p == IncludePiece && f == D.Include) || (p == BasisPiece && f == D.Basis) || (p == ReceiptPiece && f == D.Receipt)
  }

  /** A piece is only closed by a complete replacement of its file. */
  lemma ClosedBy(x: Change, m: Mark, b: Disk, cut: bool, p: Piece, f: D.File)
    requires Fits(x, m.disk, b) && PieceFile(p, f) && p !in OpenAfter(x, m.disk, b, m.open, cut)
    ensures if Involves(x, m.disk, b, f) then Replaces(x) && !cut else p !in m.open
  {
  }

  lemma LaterPiece(x: Change, v: Vol, m: Mark, b: Disk, i: nat, k: nat, cut: bool, care: bool, w: Vol, n: Mark,
                   p: Piece, f: D.File)
    requires Took(x, v, m, b, i, k, cut, care, w, n) && Sane(v) && PiecesOk(v, m) && PieceFile(p, f)
    ensures p !in n.open ==> SureIs(w, b, f)
  {
    if p !in n.open {
      ClosedBy(x, m, b, cut, p, f);
      PieceKeeps(x, v, m, b, i, k, care, w, f);
    }
  }

  lemma LaterPieces(x: Change, v: Vol, m: Mark, b: Disk, i: nat, k: nat, cut: bool, care: bool, w: Vol, n: Mark)
    requires Took(x, v, m, b, i, k, cut, care, w, n) && Sane(v) && PiecesOk(v, m)
    ensures PiecesOk(w, n)
  {
    LaterPiece(x, v, m, b, i, k, cut, care, w, n, IncludePiece, D.Include);
    LaterPiece(x, v, m, b, i, k, cut, care, w, n, BasisPiece, D.Basis);
    LaterPiece(x, v, m, b, i, k, cut, care, w, n, ReceiptPiece, D.Receipt);
  }

  lemma KeepsClean(v: Vol, w: Vol, f: D.File)
    requires Sane(v) && D.Keeps(v, w, f) && Clean(v, f)
    ensures Clean(w, f)
  {
  }

  /** Where the producer forces its uploads out, the claimed base is never unsure. */
  lemma LaterClean(x: Change, v: Vol, m: Mark, b: Disk, i: nat, k: nat, w: Vol)
    requires Called(x, m.disk, b, v, i, k, true, w) && Sane(v) && Visible(x) <= k
    requires Clean(v, D.Incoming) && Clean(v, D.Claimed)
    ensures Clean(w, D.Incoming) && Clean(w, D.Claimed)
  {
    if x.Taken? {
      D.RenameEntry(v, D.Incoming, D.Claimed);
    } else {
      IncomingClean(x, v, m, b, i, k, w);
      ClaimedClean(x, v, m, b, i, k, w);
    }
  }

  lemma IncomingClean(x: Change, v: Vol, m: Mark, b: Disk, i: nat, k: nat, w: Vol)
    requires Called(x, m.disk, b, v, i, k, true, w) && Sane(v) && Visible(x) <= k && !x.Taken?
    requires Clean(v, D.Incoming)
    ensures Clean(w, D.Incoming)
  {
    if x.Uploaded? {
      UploadClean(v, m.disk, b, x.id, i);
    } else {
      IncomingBy(x, m.disk, b);
      CalledKeeps(x, m.disk, b, v, i, k, true, w, D.Incoming);
      KeepsClean(v, w, D.Incoming);
    }
  }

  lemma IncomingBy(x: Change, a: Disk, b: Disk)
    requires Fits(x, a, b) && !x.Taken? && !x.Uploaded?
    ensures !Involves(x, a, b, D.Incoming)
  {
  }

  lemma UploadClean(v: Vol, a: Disk, b: Disk, id: SnapshotId, i: nat)
    requires View(b, D.Sidecar(id)).Some? && View(b, D.Incoming).Some?
    ensures Clean(UploadAt(v, a, b, id, i, true), D.Incoming)
  {
    CreatedEntry(PublishAt(v, a, b, id, i), D.Incoming, i + 1, View(b, D.Incoming).value);
  }

  lemma CreatedEntry(v: Vol, f: D.File, i: nat, c: Content)
    ensures D.Entry(D.Create(v, f, i, c).now, f) == Some(i)
  {
  }

  lemma ClaimedClean(x: Change, v: Vol, m: Mark, b: Disk, i: nat, k: nat, w: Vol)
    requires Called(x, m.disk, b, v, i, k, true, w) && Sane(v) && Visible(x) <= k && !x.Taken?
    requires Clean(v, D.Claimed)
    ensures Clean(w, D.Claimed)
  {
    if Involves(x, m.disk, b, D.Claimed) { ClaimedBy(x, m.disk, b); }
    if x.ClaimDropped? {
      RemovedEntry(v, D.Claimed);
    } else if x == EvidenceMoved(BaseFile) {
      MovedAway(v, D.Claimed, D.Evidence(PathOf(m.disk.journal.value, BaseFile)), k);
    } else {
      CalledKeeps(x, m.disk, b, v, i, k, true, w, D.Claimed);
      KeepsClean(v, w, D.Claimed);
    }
  }

  lemma ClaimedBy(x: Change, a: Disk, b: Disk)
    requires Fits(x, a, b) && Involves(x, a, b, D.Claimed)
    ensures x.Taken? || x.ClaimDropped? || x == EvidenceMoved(BaseFile)
  {
  }

  lemma MovedAway(v: Vol, f: D.File, g: D.File, k: nat)
    requires f != g && k > 0
    ensures Clean(MoveAt(v, f, g, k), f)
  {
    D.RenameEntry(v, f, g);
  }

  lemma RemovedEntry(v: Vol, f: D.File)
    ensures f !in D.Remove(v, {f}).now
  {
  }

  // ---------- filing a quarantine ----------

  lemma LaterFiled(x: Change, v: Vol, m: Mark, b: Disk, i: nat, k: nat, cut: bool, care: bool, w: Vol, n: Mark)
    requires Took(x, v, m, b, i, k, cut, care, w, n) && Sane(v) && FiledOk(v, m)
    ensures FiledOk(w, n)
  {
    if b.journal.Some? && b.journal.value.Quarantining? && m.disk.journal.Some? && m.disk.journal.value.Quarantining? {
      StaysUnderWay(x, m.disk, b);
      forall l | PathOf(b.journal.value, l) in b.quarantine && EvidencePiece(l) !in n.open && l != FailureFile
        ensures Clean(w, D.Evidence(PathOf(b.journal.value, l)))
      {
        EvidenceClean(x, v, m, b, i, k, cut, care, w, n, l);
      }
      if RecordPiece !in n.open && PathOf(b.journal.value, FailureFile) in b.quarantine {
        RecordPlaced(x, v, m, b, i, k, cut, care, w, n);
      }
    }
  }

  /** A quarantine that is and stays under way. */
  predicate UnderWay(a: Disk, b: Disk) {
    && a.journal.Some? && a.journal.value.Quarantining? && b.journal.Some? && b.journal.value.Quarantining?
    && forall l :: PathOf(b.journal.value, l) == PathOf(a.journal.value, l)
  }

  lemma StaysUnderWay(x: Change, a: Disk, b: Disk)
    requires Fits(x, a, b)
    requires a.journal.Some? && a.journal.value.Quarantining? && b.journal.Some? && b.journal.value.Quarantining?
    ensures UnderWay(a, b)
  {
  }

  /** What may concern a piece of evidence that is there, and not open, afterwards. */
  lemma EvidenceChange(x: Change, m: Mark, b: Disk, cut: bool, l: Label)
    requires Fits(x, m.disk, b) && UnderWay(m.disk, b) && l != FailureFile
    requires EvidencePiece(l) !in OpenAfter(x, m.disk, b, m.open, cut)
    ensures Involves(x, m.disk, b, D.Evidence(PathOf(m.disk.journal.value, l))) ==> x == EvidenceMoved(l) && !cut
    ensures x != EvidenceMoved(l) ==> EvidencePiece(l) !in m.open
  {
  }

  lemma EvidenceClean(x: Change, v: Vol, m: Mark, b: Disk, i: nat, k: nat, cut: bool, care: bool, w: Vol, n: Mark,
                      l: Label)
    requires Took(x, v, m, b, i, k, cut, care, w, n) && Sane(v) && FiledOk(v, m) && UnderWay(m.disk, b)
    requires PathOf(b.journal.value, l) in b.quarantine && EvidencePiece(l) !in n.open && l != FailureFile
    ensures Clean(w, D.Evidence(PathOf(b.journal.value, l)))
  {
    var entry := m.disk.journal.value;
    var f := D.Evidence(PathOf(entry, l));
    EvidenceChange(x, m, b, cut, l);
    if x == EvidenceMoved(l) {
      MovedClean(v, SourceName(entry, l), f);
    } else {
      SameView(x, m.disk, b, f);
      CalledKeeps(x, m.disk, b, v, i, k, care, w, f);
      KeepsClean(v, w, f);
    }
  }

  lemma MovedClean(v: Vol, f: D.File, g: D.File)
    requires f != g
    ensures Clean(MoveAt(v, f, g, 3), g)
  {
    D.RenameEntry(v, f, g);
  }

  /** What may concern the files of a quarantine whose record is closed afterwards. */
  lemma RecordChange(x: Change, m: Mark, b: Disk, cut: bool, l: Label)
    requires Fits(x, m.disk, b) && UnderWay(m.disk, b)
    requires RecordPiece !in OpenAfter(x, m.disk, b, m.open, cut)
    ensures Involves(x, m.disk, b, D.Evidence(PathOf(m.disk.journal.value, l))) ==> x.RecordFiled?
    ensures if x.RecordFiled? then !cut else RecordPiece !in m.open
  {
  }

  /** A complete filing of the record forces out the whole directory. */
  lemma RecordPlaced(x: Change, v: Vol, m: Mark, b: Disk, i: nat, k: nat, cut: bool, care: bool, w: Vol, n: Mark)
    requires Took(x, v, m, b, i, k, cut, care, w, n) && Sane(v) && FiledOk(v, m) && UnderWay(m.disk, b)
    requires RecordPiece !in n.open && PathOf(b.journal.value, FailureFile) in b.quarantine
    ensures Clean(w, D.Evidence(PathOf(b.journal.value, FailureFile)))
    ensures forall l :: D.Placed(w, D.Evidence(PathOf(b.journal.value, l)))
  {
    var entry := m.disk.journal.value;
    var f := D.Evidence(PathOf(entry, FailureFile));
    RecordChange(x, m, b, cut, FailureFile);
    if x.RecordFiled? {
      var c := View(b, f).value;
      ReplacedClean(v, f, i, c);
      forall l ensures D.Placed(w, D.Evidence(PathOf(entry, l))) { RecordReplaced(v, entry, i, c, l); }
    } else {
      SameView(x, m.disk, b, f);
      forall l ensures D.Placed(w, D.Evidence(PathOf(entry, l))) {
        RecordChange(x, m, b, cut, l);
        CalledKeeps(x, m.disk, b, v, i, k, care, w, D.Evidence(PathOf(entry, l)));
        KeepsPlaced(v, w, D.Evidence(PathOf(entry, l)));
      }
      CalledKeeps(x, m.disk, b, v, i, k, care, w, f);
      KeepsClean(v, w, f);
    }
  }

  lemma KeepsPlaced(v: Vol, w: Vol, f: D.File)
    requires D.Placed(v, f) && D.Keeps(v, w, f)
    ensures D.Placed(w, f)
  {
  }

  lemma ReplacedClean(v: Vol, f: D.File, i: nat, c: Content)
    requires i !in v.data && !f.Temp?
    ensures Clean(D.ReplaceAt(v, f, i, c, 6), f)
  {
    D.ReplaceInode(v, f, i, c, 6);
  }

  lemma RecordReplaced(v: Vol, entry: Entry, i: nat, c: Content, l: Label)
    requires D.Coherent(v) && i !in v.data && entry.Quarantining?
    ensures D.Placed(D.ReplaceAt(v, D.Evidence(PathOf(entry, FailureFile)), i, c, 6), D.Evidence(PathOf(entry, l)))
  {
    ReplacedPlaced(v, D.Evidence(PathOf(entry, FailureFile)), i, c, D.Evidence(PathOf(entry, l)));
  }

  lemma ReplacedPlaced(v: Vol, f: D.File, i: nat, c: Content, g: D.File)
    requires D.Coherent(v) && i !in v.data && !f.Temp? && !g.Temp? && D.DirOf(g) == D.DirOf(f)
    ensures D.Placed(D.ReplaceAt(v, f, i, c, 6), g)
  {
    if g != f {
      D.ReplacePlaces(v, f, i, c, 6, g);
    } else {
      D.ReplaceInode(v, f, i, c, 6);
      forall x | D.May(D.ReplaceAt(v, f, i, c, 6), f, x)
        ensures x == Some(i)
      {
        D.ReplaceMay(v, f, i, c, 6, x);
      }
    }
  }

  // ---------- journal entries ----------

  /** `w` is `v` after `k` calls of journalling the entry of `b`, the rename among them. */
  ghost predicate Entered(v: Vol, m: Mark, b: Disk, i: nat, k: nat, w: Vol, n: Mark) {
    && Fits(Journalled, m.disk, b) && FreshInode(v, i) && 4 <= k <= 6
    && w == D.ReplaceAt(v, D.Journal, i, JournalOf(b.journal.value), k)
    && n == Mark(b, Reopened(m.disk, b, m.open))
  }

  lemma PlacedSure(v: Vol, f: D.File, c: Content, clean: bool)
    requires Sane(v) && D.Placed(v, f) && D.Now(v, f) == Some(c) && (clean ==> Clean(v, f))
    ensures D.Sure(v, f, Some(c), clean)
  {
  }

  lemma EnteredKeeps(v: Vol, m: Mark, b: Disk, i: nat, k: nat, w: Vol, n: Mark, f: D.File)
    requires Entered(v, m, b, i, k, w, n) && f != D.Journal && f != D.Temp(D.Journal)
    ensures D.Keeps(v, w, f)
  {
    D.ReplaceKeeps(v, D.Journal, i, JournalOf(b.journal.value), k, f);
  }

  /** The entry that is replaced was surely on disk as it is. */
  lemma OldEntry(v: Vol, m: Mark)
    requires Sane(v) && Tracks(v, m.disk) && JournalOk(v, m)
    ensures D.May(v, D.Journal, D.Entry(v.now, D.Journal))
    ensures D.Holds(v, D.Entry(v.now, D.Journal), JournalView(m.disk.journal), true)
  {
    D.EntryAfter(v.dirs, v.pending, D.Journal);
    assert D.Now(v, D.Journal) == View(m.disk, D.Journal);
  }

  lemma EnteredCandidates(v: Vol, m: Mark, b: Disk, i: nat, k: nat, w: Vol, n: Mark, x: Option<nat>)
    requires Entered(v, m, b, i, k, w, n) && Sane(v) && Tracks(v, m.disk) && JournalOk(v, m)
    requires D.May(w, D.Journal, x)
    ensures (D.Holds(w, x, JournalView(b.journal), true) && x == Some(i))
            || (D.Holds(w, x, JournalView(m.disk.journal), true) && x == D.Entry(v.now, D.Journal))
  {
    var c := JournalOf(b.journal.value);
    D.ReplaceMay(v, D.Journal, i, c, k, x);
    D.ReplaceInode(v, D.Journal, i, c, k);
    if x != Some(i) {
      OldEntry(v, m);
      EnteredKeeps(v, m, b, i, k, w, n, D.Include);
    }
  }

  lemma EnteredJournal(v: Vol, m: Mark, b: Disk, i: nat, k: nat, w: Vol, n: Mark)
    requires Entered(v, m, b, i, k, w, n) && Sane(v) && Tracks(v, m.disk) && JournalOk(v, m)
    ensures JournalOk(w, n)
  {
    forall x | D.May(w, D.Journal, x)
      ensures D.Holds(w, x, JournalView(b.journal), true) || BringsBack(w, x, b.journal)
    {
      EnteredCandidates(v, m, b, i, k, w, n, x);
      assert Follows(m.disk.journal, b.journal.value);
    }
  }

  /** A commit record is entered over files that are all on disk. */
  lemma CommitBacks(v: Vol, m: Mark, b: Disk, i: nat, k: nat, w: Vol, n: Mark)
    requires Entered(v, m, b, i, k, w, n) && PiecesOk(v, m) && MarkOk(n) && Undropped(b.journal)
    ensures var j := b.journal.value; Backs(w, j.port, j.base, j.manifest)
  {
    var j := b.journal.value;
    assert Backs(v, j.port, j.base, j.manifest);
    EnteredKeeps(v, m, b, i, k, w, n, D.Include);
    EnteredKeeps(v, m, b, i, k, w, n, D.Basis);
    EnteredKeeps(v, m, b, i, k, w, n, D.Receipt);
    BacksKeeps(v, w, j.port, j.base, j.manifest);
  }

  /** The entry before is still covered while it may come back. */
  lemma OldCovered(v: Vol, m: Mark, b: Disk, i: nat, k: nat, w: Vol, n: Mark, care: bool)
    requires Entered(v, m, b, i, k, w, n) && MarkOk(n) && PiecesOk(v, m)
    requires m.disk.journal.Some? && Covered(v, m, m.disk.journal.value, care)
    ensures Covered(w, n, m.disk.journal.value, care)
  {
    var j := m.disk.journal.value;
    if Undropped(b.journal) {
      CommitBacks(v, m, b, i, k, w, n);
    } else {
      forall f | Covers(m, j, f) ensures D.Keeps(v, w, f) { EnteredKeeps(v, m, b, i, k, w, n, f); }
      if j.Quarantined? {
        forall l | EvidencePiece(l) in m.open ensures EvidencePiece(l) in n.open { }
      }
      CoveredKeeps(v, m, w, n, j, care);
    }
  }

  lemma VerifiedCovered(v: Vol, m: Mark, b: Disk, i: nat, k: nat, w: Vol, n: Mark, care: bool)
    requires Entered(v, m, b, i, k, w, n) && MarkOk(n) && PiecesOk(v, m) && Sane(v) && Sane(w) && Tracks(w, b)
    requires b.journal.value.ConsumerVerified? && (care ==> Clean(v, D.Claimed))
    ensures Covered(w, n, b.journal.value, care)
  {
    var rel := b.journal.value.rel;
    EnteredKeeps(v, m, b, i, k, w, n, D.Include);
    D.KeepsSure(v, w, D.Include, Some(IncludeOf(rel.candidate)), true);
    D.ReplacePlaces(v, D.Journal, i, JournalOf(b.journal.value), k, D.Claimed);
    EnteredKeeps(v, m, b, i, k, w, n, D.Claimed);
    if care { KeepsClean(v, w, D.Claimed); }
    assert D.Now(w, D.Claimed) == View(b, D.Claimed);
    PlacedSure(w, D.Claimed, DbOf(rel.snapshot.of), care);
  }

  /** A quarantine is closed over an archive that is all on disk. */
  lemma ClosedFile(v: Vol, m: Mark, b: Disk, i: nat, k: nat, w: Vol, n: Mark, p: QPath)
    requires Entered(v, m, b, i, k, w, n) && MarkOk(n) && Sane(v) && Tracks(v, m.disk) && FiledOk(v, m)
    requires b.journal.value.Quarantined?
    requires p in b.quarantine && p.dir == b.journal.value.path.dir && p.id == b.journal.value.path.id
    ensures D.Placed(w, D.Evidence(p)) && SureFile(w, n, p, b.quarantine[p])
  {
    var entry := m.disk.journal.value;
    assert QuarantinedOk(b.journal.value, b.quarantine);
    assert p == PathOf(entry, p.kind);
    assert D.Placed(v, D.Evidence(PathOf(entry, p.kind)));
    assert D.Now(v, D.Evidence(p)) == View(m.disk, D.Evidence(p));
    PlacedSure(v, D.Evidence(p), FileOf(b.quarantine[p]), EvidencePiece(p.kind) !in n.open);
    EnteredKeeps(v, m, b, i, k, w, n, D.Evidence(p));
    KeepsPlaced(v, w, D.Evidence(p));
    D.KeepsSure(v, w, D.Evidence(p), Some(FileOf(b.quarantine[p])), EvidencePiece(p.kind) !in n.open);
  }

  lemma ClosedCovered(v: Vol, m: Mark, b: Disk, i: nat, k: nat, w: Vol, n: Mark, care: bool)
    requires Entered(v, m, b, i, k, w, n) && MarkOk(n) && Sane(v) && Tracks(v, m.disk) && FiledOk(v, m)
    requires b.journal.value.Quarantined?
    ensures Covered(w, n, b.journal.value, care)
  {
    var j := b.journal.value;
    assert QuarantinedOk(j, b.quarantine);
    forall p | p in b.quarantine && p.dir == j.path.dir && p.id == j.path.id
      ensures SureFile(w, n, p, b.quarantine[p])
    {
      ClosedFile(v, m, b, i, k, w, n, p);
    }
    assert Archived(w, n, j, b.quarantine);
  }

  lemma NewCovered(v: Vol, m: Mark, b: Disk, i: nat, k: nat, w: Vol, n: Mark, care: bool)
    requires VolInv(v, m, care) && Entered(v, m, b, i, k, w, n) && MarkOk(n) && Sane(w) && Tracks(w, b)
    ensures Covered(w, n, b.journal.value, care)
  {
    match b.journal.value
    case Committed(_, _, _) => CommitBacks(v, m, b, i, k, w, n);
    case ConsumerVerified(_) => VerifiedCovered(v, m, b, i, k, w, n, care);
    case Quarantined(_, _) => ClosedCovered(v, m, b, i, k, w, n, care);
    case _ =>
  }

  lemma EnteredGood(v: Vol, m: Mark, b: Disk, i: nat, k: nat, w: Vol, n: Mark, care: bool)
    requires VolInv(v, m, care) && Entered(v, m, b, i, k, w, n) && MarkOk(n) && Sane(w) && Tracks(w, b)
    ensures Good(w, n, care)
  {
    NewCovered(v, m, b, i, k, w, n, care);
    forall x, j | D.May(w, D.Journal, x) && D.Holds(w, x, Some(JournalOf(j)), true)
      ensures Covered(w, n, j, care)
    {
      EnteredCandidates(v, m, b, i, k, w, n, x);
      if j != b.journal.value {
        OldEntry(v, m);
        OldCovered(v, m, b, i, k, w, n, care);
      }
    }
  }

  // ---------- one attempted effect ----------

  lemma EarlyInv(x: Change, v: Vol, m: Mark, b: Disk, i: nat, k: nat, care: bool, w: Vol)
    requires VolInv(v, m, care) && Called(x, m.disk, b, v, i, k, care, w) && k < Visible(x)
    ensures VolInv(w, m, care)
  {
    CallsSane(x, m.disk, b, v, i, k, care);
    CallsTrack(x, m.disk, b, v, i, k, care);
    EarlyGood(x, v, m, b, i, k, care, w);
    forall f: D.File | !f.Temp? ensures D.Keeps(v, w, f) { CalledKeeps(x, m.disk, b, v, i, k, care, w, f); }
    EarlyPieces(v, m, w, care);
  }

  lemma EarlyPieces(v: Vol, m: Mark, w: Vol, care: bool)
    requires VolInv(v, m, care) && forall f: D.File :: !f.Temp? ==> D.Keeps(v, w, f)
    ensures PiecesOk(w, m) && FiledOk(w, m) && (care ==> Clean(w, D.Incoming) && Clean(w, D.Claimed))
  {
    if IncludePiece !in m.open { D.KeepsSure(v, w, D.Include, View(m.disk, D.Include), true); }
    if BasisPiece !in m.open { D.KeepsSure(v, w, D.Basis, View(m.disk, D.Basis), true); }
    if ReceiptPiece !in m.open { D.KeepsSure(v, w, D.Receipt, View(m.disk, D.Receipt), true); }
    if care { KeepsClean(v, w, D.Incoming); KeepsClean(v, w, D.Claimed); }
    if m.disk.journal.Some? && m.disk.journal.value.Quarantining? { EarlyFiled(v, m, w, m.disk.journal.value); }
  }

  lemma EarlyFiled(v: Vol, m: Mark, w: Vol, entry: Entry)
    requires Sane(v) && FiledOk(v, m) && m.disk.journal == Some(entry) && entry.Quarantining?
    requires forall f: D.File :: !f.Temp? ==> D.Keeps(v, w, f)
    ensures FiledOk(w, m)
  {
    forall l
      ensures Clean(v, D.Evidence(PathOf(entry, l))) ==> Clean(w, D.Evidence(PathOf(entry, l)))
      ensures D.Placed(v, D.Evidence(PathOf(entry, l))) ==> D.Placed(w, D.Evidence(PathOf(entry, l)))
    {
      assert D.Keeps(v, w, D.Evidence(PathOf(entry, l)));
    }
  }

  lemma TookInv(x: Change, v: Vol, m: Mark, b: Disk, i: nat, k: nat, cut: bool, care: bool, w: Vol, n: Mark)
    requires VolInv(v, m, care) && Took(x, v, m, b, i, k, cut, care, w, n) && MarkOk(n)
    ensures VolInv(w, n, care)
  {
    CallsSane(x, m.disk, b, v, i, k, care);
    CallsTrack(x, m.disk, b, v, i, k, care);
    LaterPieces(x, v, m, b, i, k, cut, care, w, n);
    LaterFiled(x, v, m, b, i, k, cut, care, w, n);
    if care { LaterClean(x, v, m, b, i, k, w); }
    if x.Journalled? {
      EnteredJournal(v, m, b, i, k, w, n);
      EnteredGood(v, m, b, i, k, w, n, care);
    } else {
      LaterGood(x, v, m, b, i, k, cut, care, w);
    }
  }

  /** Whatever was pending in the journal's directory, like the renames of a claim or of a
      quarantine, is forced out by the next entry: nothing of it is left to chance. */
  lemma JournalForces(v: Vol, m: Mark, b: Disk, i: nat, care: bool, w: Vol, n: Mark, f: D.File)
    requires VolInv(v, m, care) && Took(Journalled, v, m, b, i, 6, false, care, w, n) && MarkOk(n)
    requires D.DirOf(f) == D.Data && !f.Temp?
    ensures VolInv(w, n, care) && D.Placed(w, f) && D.Now(w, f) == View(b, f)
  {
    TookInv(Journalled, v, m, b, i, 6, false, care, w, n);
    ReplacedPlaced(v, D.Journal, i, JournalOf(b.journal.value), f);
  }

  // ---------- runs ----------

  /** An attempted effect, of which `calls` calls were made; `cut` says that it took place
      but may not have been forced out. */
  datatype Move = Move(change: Change, next: Disk, inode: nat, calls: nat, cut: bool)

  ghost predicate MoveOk(v: Vol, m: Mark, x: Move) {
    && Fits(x.change, m.disk, x.next)
    && FreshInode(v, x.inode)
    && x.calls <= Calls(x.change) && (x.cut || x.calls == Calls(x.change) || x.calls < Visible(x.change))
  }

  function MarkAfter(m: Mark, x: Move): Mark {
    if x.calls < Visible(x.change) then m
    else Mark(x.next, OpenAfter(x.change, m.disk, x.next, m.open, x.cut))
  }

  function MarkOf(m: Mark, moves: seq<Move>): Mark {
    if moves == [] then m else MarkAfter(MarkOf(m, moves[..|moves| - 1]), moves[|moves| - 1])
  }

  /** The marks the moves leave, in order: only those that took place leave one. */
  function MarksOf(m: Mark, moves: seq<Move>): seq<Mark> {
    if moves == [] then [m]
    else
      var before, x := moves[..|moves| - 1], moves[|moves| - 1];
      if x.calls < Visible(x.change) then MarksOf(m, before) else MarksOf(m, before) + [MarkOf(m, moves)]
  }

  /** The volume after the moves, each of them one the program or the producer makes. */
  ghost predicate Reaches(v: Vol, m: Mark, moves: seq<Move>, w: Vol, care: bool) {
    if moves == [] then w == v
    else
      var before, x := moves[..|moves| - 1], moves[|moves| - 1];
      exists u: Vol ::
        && Reaches(v, m, before, u, care) && MoveOk(u, MarkOf(m, before), x)
        && w == AfterCalls(x.change, MarkOf(m, before).disk, x.next, u, x.inode, x.calls, care)
  }

  /** A freshly installed host with everything on disk. */
  ghost predicate Settled(v: Vol, d: Disk) {
    && Untouched(d) && v.pending == [] && v.dirty == {} && Sane(v) && Tracks(v, d)
  }

  lemma SettledInv(v: Vol, d: Disk, care: bool)
    requires Settled(v, d)
    ensures VolInv(v, Mark(d, {}), care)
  {
    forall f: D.File | !f.Temp? ensures SureIs(v, d, f) {
      assert D.Now(v, f) == View(d, f);
      assert v.dirs == v.now;
    }
    assert SureIs(v, d, D.Journal);
  }

  ghost function Above(s: set<nat>): (i: nat)
    ensures forall k :: k in s ==> k < i
  {
    if s == {} then 0
    else
      var x :| x in s;
      var i := Above(s - {x});
      assert forall k :: k in s ==> k == x || k in s - {x};
      if x < i then i else x + 1
  }

  /** `moves` carry out the whole history. */
  ghost predicate CarriedOut(marks: seq<Mark>, v: Vol, care: bool, moves: seq<Move>, w: Vol)
    requires marks != []
  {
    && Reaches(v, marks[0], moves, w, care)
    && MarksOf(marks[0], moves) == marks && MarkOf(marks[0], moves) == marks[|marks| - 1]
  }

  /** Every history of the machine can be carried out on a volume. */
  lemma {:induction false} HistoryIsCarriedOut(marks: seq<Mark>, v: Vol, care: bool)
    requires Stepwise(marks)
    ensures exists moves, w :: CarriedOut(marks, v, care, moves, w)
    decreases |marks|
  {
    if |marks| == 1 {
      assert CarriedOut(marks, v, care, [], v);
    } else {
      var before, last := marks[..|marks| - 1], marks[|marks| - 1];
      ShorterHistory(marks);
      HistoryIsCarriedOut(before, v, care);
      var moves, u :| CarriedOut(before, v, care, moves, u);
      CarriesOn(before, last, v, care, moves, u);
    }
  }

  lemma ShorterHistory(marks: seq<Mark>)
    requires Stepwise(marks) && |marks| > 1
    ensures var before, last := marks[..|marks| - 1], marks[|marks| - 1];
            Stepwise(before) && StepOk(before[|before| - 1], last) && marks == before + [last]
  {
    var before := marks[..|marks| - 1];
    forall k | 0 < k < |before| ensures StepOk(before[k - 1], before[k]) {
      assert StepOk(marks[k - 1], marks[k]);
    }
    assert StepOk(marks[|marks| - 2], marks[|marks| - 1]);
  }

  lemma CarriesOn(before: seq<Mark>, last: Mark, v: Vol, care: bool, moves: seq<Move>, u: Vol)
    requires before != [] && CarriedOut(before, v, care, moves, u) && StepOk(before[|before| - 1], last)
    ensures exists all, w :: CarriedOut(before + [last], v, care, all, w)
  {
    var m := before[|before| - 1];
    var x, cut :| StepBy(m, last, x, cut);
    var move := Move(x, last.disk, Above(u.data.Keys), Calls(x), cut);
    var w := AfterCalls(x, m.disk, last.disk, u, move.inode, Calls(x), care);
    OneMore(v, before[0], moves, u, move, w, care);
    assert CarriedOut(before + [last], v, care, moves + [move], w);
  }

  lemma OneMore(v: Vol, m: Mark, moves: seq<Move>, u: Vol, x: Move, w: Vol, care: bool)
    requires Reaches(v, m, moves, u, care) && MoveOk(u, MarkOf(m, moves), x) && x.calls >= Visible(x.change)
    requires w == AfterCalls(x.change, MarkOf(m, moves).disk, x.next, u, x.inode, x.calls, care)
    ensures Reaches(v, m, moves + [x], w, care)
    ensures MarkOf(m, moves + [x]) == MarkAfter(MarkOf(m, moves), x)
    ensures MarksOf(m, moves + [x]) == MarksOf(m, moves) + [MarkAfter(MarkOf(m, moves), x)]
  {
    OneMoreMark(m, moves, x);
    var all := moves + [x];
    var before, last := all[..|all| - 1], all[|all| - 1];
    assert before == moves && last == x;
    assert Reaches(v, m, before, u, care) && MoveOk(u, MarkOf(m, before), last)
           && w == AfterCalls(last.change, MarkOf(m, before).disk, last.next, u, last.inode, last.calls, care);
  }

  lemma OneMoreMark(m: Mark, moves: seq<Move>, x: Move)
    requires x.calls >= Visible(x.change)
    ensures MarkOf(m, moves + [x]) == MarkAfter(MarkOf(m, moves), x)
    ensures MarksOf(m, moves + [x]) == MarksOf(m, moves) + [MarkAfter(MarkOf(m, moves), x)]
  {
    assert (moves + [x])[..|moves|] == moves;
  }

  lemma {:induction false} RunInv(v: Vol, m: Mark, moves: seq<Move>, w: Vol, care: bool)
    requires VolInv(v, m, care) && Reaches(v, m, moves, w, care)
    requires forall n :: n in MarksOf(m, moves) ==> MarkOk(n)
    ensures VolInv(w, MarkOf(m, moves), care)
  {
    if moves != [] {
      var before, x := moves[..|moves| - 1], moves[|moves| - 1];
      var u: Vol :| Reaches(v, m, before, u, care) && MoveOk(u, MarkOf(m, before), x)
                    && w == AfterCalls(x.change, MarkOf(m, before).disk, x.next, u, x.inode, x.calls, care);
      RunInv(v, m, before, u, care);
      if x.calls < Visible(x.change) {
        EarlyInv(x.change, u, MarkOf(m, before), x.next, x.inode, x.calls, care, w);
      } else {
        TookInv(x.change, u, MarkOf(m, before), x.next, x.inode, x.calls, x.cut, care, w, MarkOf(m, moves));
      }
    }
  }

  // ---------- an effect on a volume where nothing is in the balance ----------

  /** The effect replaces or unlinks one file, durably. */
  predicate Durable(x: Change) {
    Replaces(x) || x.ClaimDropped? || x.SidecarDropped?
  }

  function DurableFile(x: Change, a: Disk): D.File
    requires Durable(x) && (x.RecordFiled? ==> a.journal.Some? && a.journal.value.Quarantining?)
  {
    if x.ClaimDropped? then D.Claimed else if x.SidecarDropped? then D.Sidecar(x.id) else Target(x, a)
  }

  ghost predicate Shows(e: D.Entries, data: map<nat, Content>, d: Disk) {
    forall f: D.File :: !f.Temp? ==> D.Read(e, data, f) == View(d, f)
  }

  /** Power loss during a durable effect leaves the disk before it or the disk after it. */
  lemma EffectImage(x: Change, v: Vol, a: Disk, b: Disk, i: nat, k: nat, care: bool, w: Vol,
                    keep: seq<bool>, e: D.Entries, data: map<nat, Content>)
    requires Called(x, a, b, v, i, k, care, w) && Durable(x) && Sane(v)
    requires forall f: D.File :: !f.Temp? ==> SureIs(v, a, f)
    requires D.Image(w, keep, e, data)
    ensures Shows(e, data, a) || Shows(e, data, b)
  {
    var f := DurableFile(x, a);
    EffectIsWrite(x, v, a, b, i, k, care, w);
    assert SureIs(v, a, f);
    D.WriteIsAtomic(v, f, View(a, f), View(b, f), i, k, keep, e, data);
    forall g: D.File | !g.Temp? && g != f
      ensures D.Read(e, data, g) == View(a, g) && View(b, g) == View(a, g)
    {
      assert SureIs(v, a, g);
      OtherFile(x, a, b, g);
      SameView(x, a, b, g);
    }
  }

  lemma OtherFile(x: Change, a: Disk, b: Disk, g: D.File)
    requires Fits(x, a, b) && Durable(x) && !g.Temp? && g != DurableFile(x, a)
    ensures !Involves(x, a, b, g)
  {
  }

  lemma EffectIsWrite(x: Change, v: Vol, a: Disk, b: Disk, i: nat, k: nat, care: bool, w: Vol)
    requires Called(x, a, b, v, i, k, care, w) && Durable(x)
    ensures var f := DurableFile(x, a); !f.Temp? && k <= 6 && w == D.WriteAt(v, f, View(b, f), i, k)
  {
    if Replaces(x) {
      assert View(b, Target(x, a)).Some?;
    } else if x.ClaimDropped? {
      assert View(b, D.Claimed) == None;
    } else {
      assert View(b, D.Sidecar(x.id)) == None;
    }
  }

  // ---------- the theorem ----------

  /** A commit record on disk comes with the include, basis and receipt it names.  A release
      that only goes forward has its include, and its base, whole if the producer forces
      uploads out, or else basis and receipt are there already.  A closed quarantine has an
      archive that is accepted, each file in its place and, unless its move was cut short,
      whole. */
  ghost predicate JournalDoesNotLead(e: D.Entries, data: map<nat, Content>, open: set<Piece>, care: bool) {
    var j: Option<Content> := D.Read(e, data, D.Journal);
    match j
    case Some(JournalOf(Committed(port, base, manifest))) => AllThere(e, data, port, base, manifest)
    case Some(JournalOf(ConsumerVerified(rel))) =>
      || AllThere(e, data, rel.candidate, rel.snapshot, rel.manifest)
      || (&& D.Read(e, data, D.Include) == Some(IncludeOf(rel.candidate))
          && D.Claimed in e && (care ==> D.Read(e, data, D.Claimed) == Some(DbOf(rel.snapshot.of))))
    case Some(JournalOf(Quarantined(path, record))) =>
      exists q :: ArchiveThere(e, data, open, Quarantined(path, record), q)
    case Some(JournalOf(_)) => true
    case Some(_) => false
    case None => true
  }

  ghost predicate AllThere(e: D.Entries, data: map<nat, Content>, port: Port, base: SnapshotId, manifest: ManifestId) {
    && D.Read(e, data, D.Include) == Some(IncludeOf(port))
    && D.Read(e, data, D.Basis) == Some(DbOf(base.of))
    && D.Read(e, data, D.Receipt) == Some(ReceiptOf(Receipt(base, manifest, port)))
  }

  ghost predicate ArchiveThere(e: D.Entries, data: map<nat, Content>, open: set<Piece>, j: Entry, q: map<QPath, QFile>)
    requires j.Quarantined?
  {
    && QuarantinedOk(j, q)
    && forall p :: p in q && p.dir == j.path.dir && p.id == j.path.id ==> FileThere(e, data, open, p, q[p])
  }

  ghost predicate FileThere(e: D.Entries, data: map<nat, Content>, open: set<Piece>, p: QPath, file: QFile) {
    && D.Evidence(p) in e
    && (EvidencePiece(p.kind) !in open ==> D.Read(e, data, D.Evidence(p)) == Some(FileOf(file)))
  }

  lemma ArchiveShown(v: Vol, m: Mark, j: Entry, q: map<QPath, QFile>,
                     keep: seq<bool>, e: D.Entries, data: map<nat, Content>)
    requires j.Quarantined? && Archived(v, m, j, q) && D.Image(v, keep, e, data)
    ensures ArchiveThere(e, data, m.open, j, q)
  {
    forall p | p in q && p.dir == j.path.dir && p.id == j.path.id
      ensures FileThere(e, data, m.open, p, q[p])
    {
      assert SureFile(v, m, p, q[p]);
      D.SureShown(v, keep, e, data, D.Evidence(p), Some(FileOf(q[p])), EvidencePiece(p.kind) !in m.open);
    }
  }

  lemma BacksShown(v: Vol, port: Port, base: SnapshotId, manifest: ManifestId,
                   keep: seq<bool>, e: D.Entries, data: map<nat, Content>)
    requires Backs(v, port, base, manifest) && D.Image(v, keep, e, data)
    ensures AllThere(e, data, port, base, manifest)
  {
    D.SureShown(v, keep, e, data, D.Include, Some(IncludeOf(port)), true);
    D.SureShown(v, keep, e, data, D.Basis, Some(DbOf(base.of)), true);
    D.SureShown(v, keep, e, data, D.Receipt, Some(ReceiptOf(Receipt(base, manifest, port))), true);
  }

  lemma CoveredShown(v: Vol, m: Mark, j: Entry, care: bool, keep: seq<bool>, e: D.Entries, data: map<nat, Content>)
    requires Covered(v, m, j, care) && D.Image(v, keep, e, data) && D.Read(e, data, D.Journal) == Some(JournalOf(j))
    ensures JournalDoesNotLead(e, data, m.open, care)
  {
    match j
    case Committed(port, base, manifest) => BacksShown(v, port, base, manifest, keep, e, data);
    case ConsumerVerified(rel) =>
      if Undropped(m.disk.journal) {
        BacksShown(v, rel.candidate, rel.snapshot, rel.manifest, keep, e, data);
      } else {
        D.SureShown(v, keep, e, data, D.Include, Some(IncludeOf(rel.candidate)), true);
        D.SureShown(v, keep, e, data, D.Claimed, Some(DbOf(rel.snapshot.of)), care);
      }
    case Quarantined(path, record) =>
      var q :| Archived(v, m, j, q);
      ArchiveShown(v, m, j, q, keep, e, data);
    case _ =>
  }

  lemma InvShown(v: Vol, m: Mark, care: bool, keep: seq<bool>, e: D.Entries, data: map<nat, Content>)
    requires VolInv(v, m, care) && D.Image(v, keep, e, data)
    ensures JournalDoesNotLead(e, data, m.open, care)
  {
    D.ImageMay(v, keep, e, data, D.Journal);
    var x := D.Entry(e, D.Journal);
    if x.Some? {
      var j: Entry :| D.Holds(v, x, Some(JournalOf(j)), true);
      CoveredShown(v, m, j, care, keep, e, data);
    }
  }

  /** The history is any the machine can have, and `moves` any way to carry out its effects,
      with attempts that failed in between and processes that died anywhere.  Whatever then
      survives a loss of power, the journal on disk does not lead the files it speaks of. */
  lemma PowerLossNeverLeads(marks: seq<Mark>, v: Vol, moves: seq<Move>, w: Vol, care: bool,
                            keep: seq<bool>, e: D.Entries, data: map<nat, Content>)
    requires Stepwise(marks) && Settled(v, marks[0].disk)
    requires Reaches(v, marks[0], moves, w, care) && MarksOf(marks[0], moves) == marks
    requires D.Image(w, keep, e, data)
    ensures JournalDoesNotLead(e, data, MarkOf(marks[0], moves).open, care)
  {
    SettledInv(v, marks[0].disk, care);
    forall n | n in marks ensures MarkOk(n) {
      var k :| 0 <= k < |marks| && marks[k] == n;
      if k > 0 { assert StepOk(marks[k - 1], marks[k]); }
    }
    RunInv(v, marks[0], moves, w, care);
    InvShown(w, MarkOf(marks[0], moves), care, keep, e, data);
  }

  /** So it is after every schedule: this is what `ReleaseRuns.Schedule` promises. */
  lemma ScheduleSurvivesPowerLoss(env: World, d: Disk, u: Units, h: History, t: Trail,
                                  v: Vol, moves: seq<Move>, w: Vol, care: bool,
                                  keep: seq<bool>, e: D.Entries, data: map<nat, Content>)
    requires Runs.Promises(env, d, u, h, t) && Settled(v, t.marks[0].disk)
    requires Reaches(v, t.marks[0], moves, w, care) && MarksOf(t.marks[0], moves) == t.marks
    requires D.Image(w, keep, e, data)
    ensures JournalDoesNotLead(e, data, MarkOf(t.marks[0], moves).open, care)
  {
    PowerLossNeverLeads(t.marks, v, moves, w, care, keep, e, data);
  }
}
