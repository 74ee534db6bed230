/** The limits of what a durable journal is sure to come with: when exactly a power loss
    leaves a verified release without its base, or a closed quarantine with a torn file. */
module PowerLimits {
  import opened Outcomes
  import opened Manifests
  import opened ReleaseTypes
  import opened ReleaseInvariant
  import opened ReleaseSteps
  import opened ReleaseQuarantine
  import opened ReleaseTrail
  import opened DiskCalls
  import opened PowerLoss
  import D = Durability

  // ---------- what is pending ----------

  /** Every change pending for the name leads where the running system sees it lead. */
  predicate Latest(v: Vol, f: D.File) {
    forall c :: c in v.pending && f in c ==> c[f] == D.Entry(v.now, f)
  }

  /** The journal as the running system sees it has not been forced out: the disk surely
      holds the entry before. */
  predicate Exposed(v: Vol) {
    D.Entry(v.dirs, D.Journal) != D.Entry(v.now, D.Journal)
  }

  ghost predicate IsVerified(v: Vol, x: Option<nat>) {
    exists rel :: D.Holds(v, x, Some(JournalOf(ConsumerVerified(rel))), true)
  }

  const UNLINKED: D.Change := map[D.Claimed := None]

  /** All that is pending for the claimed base are unlinks. */
  predicate Unlinking(v: Vol) {
    forall c :: c in v.pending && D.Claimed in c ==> c == UNLINKED
  }

  /** Under a commit record that is not forced out, the disk surely holds the claimed base,
      and the verified release it belongs to. */
  ghost predicate Committing(v: Vol, m: Mark) {
    Undropped(m.disk.journal) ==>
      && Unlinking(v)
      && (Exposed(v) ==> D.Claimed in v.dirs && IsVerified(v, D.Entry(v.dirs, D.Journal)))
  }

  predicate Belongs(j: Option<Entry>, p: QPath) {
    j.Some? && j.value.Quarantined? && p.dir == j.value.path.dir && p.id == j.value.path.id
  }

  ghost predicate Shelved(v: Vol, m: Mark) {
    && (m.disk.journal.Some? && m.disk.journal.value.ConsumerVerified? ==> D.Placed(v, D.Claimed))
    && (forall p :: p in m.disk.quarantine && Belongs(m.disk.journal, p) ==>
          D.Placed(v, D.Evidence(p)) && SureFile(v, m, p, m.disk.quarantine[p]))
  }

  ghost predicate LimitInv(v: Vol, m: Mark) {
    Latest(v, D.Journal) && Committing(v, m) && Shelved(v, m)
  }

  lemma KeepsLatest(v: Vol, w: Vol, f: D.File)
    requires Latest(v, f) && D.Keeps(v, w, f)
    ensures Latest(w, f)
  {
  }

  lemma KeepsVerified(v: Vol, w: Vol, x: Option<nat>)
    requires IsVerified(v, x) && D.Keeps(v, w, D.Journal)
    ensures IsVerified(w, x)
  {
    var rel :| D.Holds(v, x, Some(JournalOf(ConsumerVerified(rel))), true);
    assert D.Holds(w, x, Some(JournalOf(ConsumerVerified(rel))), true);
  }

  lemma PlacedNow(v: Vol, f: D.File)
    requires D.Placed(v, f)
    ensures D.Entry(v.dirs, f) == D.Entry(v.now, f)
  {
    assert D.May(v, f, D.Entry(v.dirs, f));
  }

  // ---------- effects under a commit record ----------

  /** Under a commit record nothing is forced out without the journal. */
  ghost predicate SameDirs(v: Vol, w: Vol) {
    w.dirs == v.dirs || D.Placed(w, D.Journal)
  }

  lemma {:induction false} FirstCalls(v: Vol, f: D.File, i: nat, c: Content, k: nat)
    requires k <= 2
    ensures D.ReplaceAt(v, f, i, c, k).dirs == v.dirs
    decreases k
  {
    if k > 0 { FirstCalls(v, f, i, c, k - 1); }
  }

  lemma EarlyDirs(x: Change, v: Vol, m: Mark, b: Disk, i: nat, k: nat, care: bool, w: Vol)
    requires Called(x, m.disk, b, v, i, k, care, w) && k < Visible(x) && Sane(v) && Undropped(m.disk.journal)
    ensures SameDirs(v, w)
  {
    if x.Journalled? {
      FirstDirs(v, i, View(b, D.Journal).value, k);
    } else {
      OnlyTheJournal(x, m.disk, b);
      NoCalls(x, m.disk, b, v, i, care);
    }
  }

  lemma FirstDirs(v: Vol, i: nat, c: Content, k: nat)
    requires Sane(v) && i !in v.data && k < 4
    ensures SameDirs(v, D.ReplaceAt(v, D.Journal, i, c, k))
  {
    if k <= 2 {
      FirstCalls(v, D.Journal, i, c, k);
    } else {
      D.ReplacePlaces(v, D.Journal, i, c, 3, D.Journal);
    }
  }

  /** Of the files that are replaced, only the journal is under a commit record. */
  lemma OnlyTheJournal(x: Change, a: Disk, b: Disk)
    requires Fits(x, a, b) && Undropped(a.journal) && !x.Journalled?
    ensures !Replaces(x)
  {
  }

  lemma NoCalls(x: Change, a: Disk, b: Disk, v: Vol, i: nat, care: bool)
    requires Fits(x, a, b) && !Replaces(x)
    ensures AfterCalls(x, a, b, v, i, 0, care) == v
  {
  }

  lemma RemovedDirs(v: Vol, f: D.File, k: nat)
    requires D.Coherent(v) && D.DirOf(f) == D.Data
    ensures SameDirs(v, D.RemoveAt(v, f, k))
  {
    if k > 1 {
      D.ChangedCoherent(v, D.Unlinks({f}));
      D.SyncDirPlaces(D.Remove(v, {f}), D.Data, D.Journal);
    }
  }

  lemma LaterDirs(x: Change, v: Vol, m: Mark, b: Disk, i: nat, k: nat, care: bool, w: Vol)
    requires Called(x, m.disk, b, v, i, k, care, w) && !x.Journalled? && Sane(v) && Undropped(m.disk.journal)
    ensures SameDirs(v, w)
  {
    match x
    case ClaimDropped => RemovedDirs(v, D.Claimed, k);
    case SidecarDropped(id) => RemovedDirs(v, D.Sidecar(id), k);
    case _ =>
  }

  lemma DropUnlinks(v: Vol, k: nat)
    requires Unlinking(v)
    ensures Unlinking(D.RemoveAt(v, D.Claimed, k))
  {
    assert D.Unlinks({D.Claimed}) == UNLINKED;
    D.ForcedAmong(D.Remove(v, {D.Claimed}).pending, D.Data, {});
  }

  lemma StillUnlinking(x: Change, v: Vol, m: Mark, b: Disk, i: nat, k: nat, care: bool, w: Vol)
    requires Called(x, m.disk, b, v, i, k, care, w) && !x.Journalled? && Undropped(m.disk.journal) && Unlinking(v)
    ensures Unlinking(w)
  {
    if x.ClaimDropped? {
      DropUnlinks(v, k);
    } else {
      CalledKeeps(x, m.disk, b, v, i, k, care, w, D.Claimed);
    }
  }

  lemma CommittingKeeps(v: Vol, m: Mark, w: Vol, n: Mark)
    requires Committing(v, m) && D.Keeps(v, w, D.Journal) && n.disk.journal == m.disk.journal
    requires Undropped(m.disk.journal) ==> Unlinking(w) && SameDirs(v, w)
    ensures Committing(w, n)
  {
    if Undropped(m.disk.journal) && Exposed(w) {
      if D.Placed(w, D.Journal) { PlacedNow(w, D.Journal); }
      KeepsVerified(v, w, D.Entry(v.dirs, D.Journal));
    }
  }

  // ---------- any effect ----------

  lemma EarlyLimits(x: Change, v: Vol, m: Mark, b: Disk, i: nat, k: nat, care: bool, w: Vol)
    requires LimitInv(v, m) && Sane(v) && Called(x, m.disk, b, v, i, k, care, w) && k < Visible(x)
    ensures LimitInv(w, m)
  {
    CalledKeeps(x, m.disk, b, v, i, k, care, w, D.Journal);
    CalledKeeps(x, m.disk, b, v, i, k, care, w, D.Claimed);
    KeepsLatest(v, w, D.Journal);
    if Undropped(m.disk.journal) { EarlyDirs(x, v, m, b, i, k, care, w); }
    CommittingKeeps(v, m, w, m);
    if m.disk.journal.Some? && m.disk.journal.value.ConsumerVerified? { KeepsPlaced(v, w, D.Claimed); }
    forall p | p in m.disk.quarantine && Belongs(m.disk.journal, p)
      ensures D.Placed(w, D.Evidence(p)) && SureFile(w, m, p, m.disk.quarantine[p])
    {
      CalledKeeps(x, m.disk, b, v, i, k, care, w, D.Evidence(p));
      KeepsPlaced(v, w, D.Evidence(p));
      D.KeepsSure(v, w, D.Evidence(p), Some(FileOf(m.disk.quarantine[p])), EvidencePiece(p.kind) !in m.open);
    }
  }

  /** No effect but a journal entry is about the journal, nor about what it speaks of. */
  lemma Aside(x: Change, m: Mark, b: Disk)
    requires Fits(x, m.disk, b) && !x.Journalled?
    ensures !Involves(x, m.disk, b, D.Journal) && b.journal == m.disk.journal
    ensures m.disk.journal.Some? && m.disk.journal.value.ConsumerVerified? ==> !Involves(x, m.disk, b, D.Claimed)
  {
  }

  lemma ShelvedFile(x: Change, v: Vol, m: Mark, b: Disk, i: nat, k: nat, cut: bool, care: bool, w: Vol, n: Mark,
                    p: QPath)
    requires Took(x, v, m, b, i, k, cut, care, w, n) && !x.Journalled? && Shelved(v, m)
    requires p in b.quarantine && Belongs(b.journal, p)
    ensures D.Placed(w, D.Evidence(p)) && SureFile(w, n, p, b.quarantine[p])
  {
    var j, f := m.disk.journal.value, D.Evidence(p);
    Aside(x, m, b);
    NotInvolved(x, m, b, j, f);
    SameView(x, m.disk, b, f);
    CalledKeeps(x, m.disk, b, v, i, k, care, w, f);
    KeepsPlaced(v, w, f);
    if EvidencePiece(p.kind) in m.open { StaysOpen(x, m, b, j, cut, p.kind); }
    D.KeepsSure(v, w, f, Some(FileOf(m.disk.quarantine[p])), EvidencePiece(p.kind) !in m.open);
  }

  lemma LaterLimits(x: Change, v: Vol, m: Mark, b: Disk, i: nat, k: nat, cut: bool, care: bool, w: Vol, n: Mark)
    requires LimitInv(v, m) && Sane(v) && Took(x, v, m, b, i, k, cut, care, w, n) && !x.Journalled?
    ensures LimitInv(w, n)
  {
    Aside(x, m, b);
    CalledKeeps(x, m.disk, b, v, i, k, care, w, D.Journal);
    KeepsLatest(v, w, D.Journal);
    if Undropped(m.disk.journal) {
      LaterDirs(x, v, m, b, i, k, care, w);
      StillUnlinking(x, v, m, b, i, k, care, w);
    }
    CommittingKeeps(v, m, w, n);
    if m.disk.journal.Some? && m.disk.journal.value.ConsumerVerified? {
      CalledKeeps(x, m.disk, b, v, i, k, care, w, D.Claimed);
      KeepsPlaced(v, w, D.Claimed);
    }
    forall p | p in b.quarantine && Belongs(b.journal, p)
      ensures D.Placed(w, D.Evidence(p)) && SureFile(w, n, p, b.quarantine[p])
    {
      ShelvedFile(x, v, m, b, i, k, cut, care, w, n, p);
    }
  }

  /** A commit record is entered while the claimed base and the verified entry are on disk. */
  lemma EnteredCommitting(v: Vol, m: Mark, b: Disk, i: nat, k: nat, w: Vol, n: Mark)
    requires Entered(v, m, b, i, k, w, n) && Sane(v) && Tracks(v, m.disk) && JournalOk(v, m) && NotLeading(m.disk)
    ensures Committing(w, n)
  {
    if Undropped(b.journal) {
      var c := JournalOf(b.journal.value);
      D.ReplacePending(v, D.Journal, i, c, k);
      assert Unlinking(w) by {
        forall x | x in w.pending ensures D.Claimed !in x { D.OnlyToNone(x, D.Journal, i, D.Claimed); }
      }
      D.ReplacePlaces(v, D.Journal, i, c, k, D.Claimed);
      PlacedNow(w, D.Claimed);
      assert D.Now(v, D.Claimed) == View(m.disk, D.Claimed);
      D.ReplaceInode(v, D.Journal, i, c, k);
      if Exposed(w) { EnteredOver(v, m, b, i, k, w, n); }
    }
  }

  lemma EnteredOver(v: Vol, m: Mark, b: Disk, i: nat, k: nat, w: Vol, n: Mark)
    requires Entered(v, m, b, i, k, w, n) && Sane(v) && Tracks(v, m.disk) && JournalOk(v, m)
    requires Undropped(b.journal) && Exposed(w) && D.Entry(w.now, D.Journal) == Some(i)
    ensures IsVerified(w, D.Entry(w.dirs, D.Journal))
  {
    var x := D.Entry(w.dirs, D.Journal);
    assert D.May(w, D.Journal, x);
    EnteredCandidates(v, m, b, i, k, w, n, x);
    var rel := m.disk.journal.value.rel;
    assert D.Holds(w, x, Some(JournalOf(ConsumerVerified(rel))), true);
  }

  lemma EnteredLimits(v: Vol, m: Mark, b: Disk, i: nat, k: nat, w: Vol, n: Mark, care: bool)
    requires VolInv(v, m, care) && Entered(v, m, b, i, k, w, n) && NotLeading(m.disk) && MarkOk(n)
    ensures LimitInv(w, n)
  {
    var c := JournalOf(b.journal.value);
    D.ReplacePending(v, D.Journal, i, c, k);
    D.ReplaceInode(v, D.Journal, i, c, k);
    forall x | x in w.pending && D.Journal in x ensures x[D.Journal] == Some(i) { assert D.OnlyTo(x, D.Journal, i); }
    EnteredCommitting(v, m, b, i, k, w, n);
    D.ReplacePlaces(v, D.Journal, i, c, k, D.Claimed);
    forall p | p in b.quarantine && Belongs(b.journal, p)
      ensures D.Placed(w, D.Evidence(p)) && SureFile(w, n, p, b.quarantine[p])
    {
      ClosedFile(v, m, b, i, k, w, n, p);
    }
  }

  lemma {:induction false} RunLimits(v: Vol, m: Mark, moves: seq<Move>, w: Vol, care: bool)
    requires VolInv(v, m, care) && LimitInv(v, m) && Reaches(v, m, moves, w, care)
    requires forall n :: n in MarksOf(m, moves) ==> MarkOk(n)
    ensures VolInv(w, MarkOf(m, moves), care) && LimitInv(w, MarkOf(m, moves))
  {
    RunInv(v, m, moves, w, care);
    if moves != [] {
      var before, x := moves[..|moves| - 1], moves[|moves| - 1];
      var u: Vol :| Reaches(v, m, before, u, care) && MoveOk(u, MarkOf(m, before), x)
                    && w == AfterCalls(x.change, MarkOf(m, before).disk, x.next, u, x.inode, x.calls, care);
      RunLimits(v, m, before, u, care);
      LastMark(m, before);
      MoveLimits(u, MarkOf(m, before), x, w, care);
    }
  }

  lemma LastMark(m: Mark, moves: seq<Move>)
    ensures MarkOf(m, moves) in MarksOf(m, moves)
  {
    if moves != [] { LastMark(m, moves[..|moves| - 1]); }
  }

  lemma MoveEntered(u: Vol, m: Mark, x: Move, w: Vol, care: bool)
    requires MoveOk(u, m, x) && x.change.Journalled? && x.calls >= Visible(x.change)
    requires w == AfterCalls(x.change, m.disk, x.next, u, x.inode, x.calls, care)
    ensures Entered(u, m, x.next, x.inode, x.calls, w, MarkAfter(m, x))
  {
  }

  lemma MoveTook(u: Vol, m: Mark, x: Move, w: Vol, care: bool)
    requires MoveOk(u, m, x) && x.calls >= Visible(x.change)
    requires w == AfterCalls(x.change, m.disk, x.next, u, x.inode, x.calls, care)
    ensures Took(x.change, u, m, x.next, x.inode, x.calls, x.cut, care, w, MarkAfter(m, x))
  {
  }

  lemma MoveCalled(u: Vol, m: Mark, x: Move, w: Vol, care: bool)
    requires MoveOk(u, m, x) && w == AfterCalls(x.change, m.disk, x.next, u, x.inode, x.calls, care)
    ensures Called(x.change, m.disk, x.next, u, x.inode, x.calls, care, w)
  {
  }

  lemma MoveLimits(u: Vol, m: Mark, x: Move, w: Vol, care: bool)
    requires VolInv(u, m, care) && LimitInv(u, m) && MoveOk(u, m, x) && MarkOk(m) && MarkOk(MarkAfter(m, x))
    requires w == AfterCalls(x.change, m.disk, x.next, u, x.inode, x.calls, care)
    ensures LimitInv(w, MarkAfter(m, x))
  {
    var n := MarkAfter(m, x);
    if x.calls < Visible(x.change) {
      MoveCalled(u, m, x, w, care);
      EarlyLimits(x.change, u, m, x.next, x.inode, x.calls, care, w);
    } else if x.change.Journalled? {
      MoveEntered(u, m, x, w, care);
      EnteredLimits(u, m, x.next, x.inode, x.calls, w, n, care);
    } else {
      MoveTook(u, m, x, w, care);
      LaterLimits(x.change, u, m, x.next, x.inode, x.calls, x.cut, care, w, n);
    }
  }

  lemma SettledLimits(v: Vol, d: Disk)
    requires PowerLoss.Settled(v, d)
    ensures LimitInv(v, Mark(d, {}))
  {
  }

  // ---------- a verified release whose base is gone ----------

  predicate ShowsVerified(e: D.Entries, data: map<nat, Content>) {
    && var j := D.Read(e, data, D.Journal);
    j.Some? && j.value.JournalOf? && j.value.entry.ConsumerVerified?
  }

  ghost predicate Orphaned(v: Vol, keep: seq<bool>, e: D.Entries, data: map<nat, Content>) {
    D.Image(v, keep, e, data) && ShowsVerified(e, data) && D.Claimed !in e
  }

  /** A power loss leaves a verified release without its claimed base if and only if the
      commit record after it was still pending and did not survive, and an unlink of the
      base did. */
  lemma OrphanedExactly(v: Vol, m: Mark, care: bool, keep: seq<bool>, e: D.Entries, data: map<nat, Content>)
    requires VolInv(v, m, care) && LimitInv(v, m) && D.Image(v, keep, e, data)
    ensures Orphaned(v, keep, e, data)
            <==> Undropped(m.disk.journal) && Exposed(v)
                 && !D.SomeKept(v.pending, keep, D.Journal) && D.SomeKept(v.pending, keep, D.Claimed)
  {
    D.SurvivorsEntry(v.dirs, v.pending, keep, D.Journal, D.Entry(v.now, D.Journal));
    OldEntry(v, m);
    if Undropped(m.disk.journal) {
      D.SurvivorsEntry(v.dirs, v.pending, keep, D.Claimed, None);
      if Exposed(v) && !D.SomeKept(v.pending, keep, D.Journal) {
        var rel :| D.Holds(v, D.Entry(v.dirs, D.Journal), Some(JournalOf(ConsumerVerified(rel))), true);
      }
    } else if Orphaned(v, keep, e, data) {
      HasBase(v, m, care, keep, e, data);
    }
  }

  /** Before a commit record is entered the base of a verified release is there. */
  lemma HasBase(v: Vol, m: Mark, care: bool, keep: seq<bool>, e: D.Entries, data: map<nat, Content>)
    requires VolInv(v, m, care) && D.Image(v, keep, e, data) && !Undropped(m.disk.journal) && ShowsVerified(e, data)
    ensures D.Claimed in e
  {
    D.ImageMay(v, keep, e, data, D.Journal);
    var x := D.Entry(e, D.Journal);
    var j: Entry :| D.Holds(v, x, Some(JournalOf(j)), true);
    assert Covered(v, m, j, care);
    D.SureShown(v, keep, e, data, D.Claimed, Some(DbOf(j.rel.snapshot.of)), care);
  }

  ghost predicate MayBeOrphaned(v: Vol) {
    exists keep, e, data :: Orphaned(v, keep, e, data)
  }

  predicate PendingFor(v: Vol, f: D.File) {
    exists c :: c in v.pending && f in c
  }

  /** So there is such a power loss exactly while the commit record and an unlink of the base
      are both pending. */
  lemma MayBeOrphanedExactly(v: Vol, m: Mark, care: bool)
    requires VolInv(v, m, care) && LimitInv(v, m)
    ensures MayBeOrphaned(v) <==> Undropped(m.disk.journal) && Exposed(v) && PendingFor(v, D.Claimed)
  {
    if keep, e, data :| Orphaned(v, keep, e, data) {
      OrphanedExactly(v, m, care, keep, e, data);
      var k :| 0 <= k < |v.pending| && keep[k] && D.Claimed in v.pending[k];
      assert v.pending[k] in v.pending;
    }
    if Undropped(m.disk.journal) && Exposed(v) && PendingFor(v, D.Claimed) {
      var c :| c in v.pending && D.Claimed in c;
      var i :| 0 <= i < |v.pending| && v.pending[i] == c;
      D.OneLeft(v, i);
      OrphanedExactly(v, m, care, D.Only(|v.pending|, i), D.Apply(v.dirs, c), v.data);
      assert Orphaned(v, D.Only(|v.pending|, i), D.Apply(v.dirs, c), v.data) by {
        assert D.Only(|v.pending|, i)[i];
      }
    }
  }

  // ---------- torn files ----------

  /** The journal is as it was, and the file `f` is not whole. */
  ghost predicate Torn(v: Vol, j: Option<Entry>, f: D.File, c: Content, keep: seq<bool>, e: D.Entries,
                       data: map<nat, Content>) {
    && D.Image(v, keep, e, data) && D.Read(e, data, D.Journal) == JournalView(j)
    && D.Read(e, data, f) != Some(c)
  }

  ghost predicate MayBeTorn(v: Vol, j: Option<Entry>, f: D.File, c: Content) {
    exists keep, e, data :: Torn(v, j, f, c, keep, e, data)
  }

  lemma TornExactly(v: Vol, m: Mark, f: D.File, c: Content)
    requires Sane(v) && Tracks(v, m.disk) && JournalOk(v, m) && D.Placed(v, f) && D.Now(v, f) == Some(c)
    ensures MayBeTorn(v, m.disk.journal, f, c) <==> !Clean(v, f)
  {
    OldEntry(v, m);
    if keep, e, data :| Torn(v, m.disk.journal, f, c, keep, e, data) {
      D.ImageMay(v, keep, e, data, f);
    }
    if !Clean(v, f) {
      D.AllLeft(v, v.now[f]);
      assert Torn(v, m.disk.journal, f, c, D.All(|v.pending|), v.now, v.data - {v.now[f]});
    }
  }

  /** A verified release may be left with a base that is not whole if and only if the base's
      content has not been forced out. */
  lemma BaseTornExactly(v: Vol, m: Mark, care: bool, rel: Release)
    requires VolInv(v, m, care) && LimitInv(v, m) && NotLeading(m.disk)
    requires m.disk.journal == Some(ConsumerVerified(rel))
    ensures MayBeTorn(v, m.disk.journal, D.Claimed, DbOf(rel.snapshot.of)) <==> !Clean(v, D.Claimed)
  {
    assert D.Now(v, D.Claimed) == View(m.disk, D.Claimed);
    TornExactly(v, m, D.Claimed, DbOf(rel.snapshot.of));
  }

  /** A closed quarantine may be left with a file that is not whole if and only if its content
      has not been forced out; and only if its move was cut short. */
  lemma EvidenceTornExactly(v: Vol, m: Mark, care: bool, p: QPath)
    requires VolInv(v, m, care) && LimitInv(v, m) && p in m.disk.quarantine && Belongs(m.disk.journal, p)
    ensures MayBeTorn(v, m.disk.journal, D.Evidence(p), FileOf(m.disk.quarantine[p])) <==> !Clean(v, D.Evidence(p))
    ensures !Clean(v, D.Evidence(p)) ==> EvidencePiece(p.kind) in m.open
  {
    assert D.Now(v, D.Evidence(p)) == View(m.disk, D.Evidence(p));
    TornExactly(v, m, D.Evidence(p), FileOf(m.disk.quarantine[p]));
    D.EntryAfter(v.dirs, v.pending, D.Evidence(p));
    assert SureFile(v, m, p, m.disk.quarantine[p]);
    assert D.May(v, D.Evidence(p), D.Entry(v.now, D.Evidence(p)));
  }
}
