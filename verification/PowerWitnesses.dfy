/** The limits are reached: for every history of the machine that can meet one of them there
    is a way to carry it out, and a power loss after it, that does. */
module PowerWitnesses {
  import opened Outcomes
  import opened Manifests
  import opened ReleaseTypes
  import opened ReleaseInvariant
  import opened ReleaseSteps
  import opened ReleaseQuarantine
  import opened ReleaseTrail
  import opened DiskCalls
  import opened PowerLoss
  import opened PowerLimits
  import D = Durability

  // ---------- files nobody has forced out ----------

  /** The content of `f` has not been forced out, and no other name leads to it. */
  predicate Unforced(v: Vol, f: D.File) {
    f in v.now && v.now[f] in v.dirty && forall g :: g in v.now && g != f ==> v.now[g] != v.now[f]
  }

  lemma CreateUnforced(v: Vol, g: D.File, i: nat, c: Content, f: D.File)
    requires Sane(v) && Unforced(v, f) && g != f && i !in v.data
    ensures Unforced(D.Create(v, g, i, c), f)
  {
  }

  lemma CreatedUnforced(v: Vol, f: D.File, i: nat, c: Content)
    requires Sane(v) && i !in v.data
    ensures Unforced(D.Create(v, f, i, c), f)
  {
  }

  lemma RenameUnforced(v: Vol, g: D.File, h: D.File, f: D.File)
    requires Unforced(v, f) && g != f && h != f
    ensures Unforced(D.Rename(v, g, h), f)
  {
  }

  lemma RenamedUnforced(v: Vol, f: D.File, g: D.File)
    requires Unforced(v, f) && f != g
    ensures Unforced(D.Rename(v, f, g), g)
  {
  }

  lemma RemoveUnforced(v: Vol, fs: set<D.File>, f: D.File)
    requires Unforced(v, f) && f !in fs
    ensures Unforced(D.Remove(v, fs), f)
  {
  }

  lemma SyncUnforced(v: Vol, g: D.File, f: D.File)
    requires Unforced(v, f) && g != f
    ensures Unforced(D.SyncFile(v, g), f)
  {
  }

  lemma {:induction false} ReplaceUnforced(v: Vol, g: D.File, i: nat, c: Content, k: nat, f: D.File)
    requires Sane(v) && Unforced(v, f) && i !in v.data && k <= 6 && f != g && f != D.Temp(g)
    ensures Unforced(D.ReplaceAt(v, g, i, c, k), f)
    decreases k
  {
    if k > 0 {
      ReplaceUnforced(v, g, i, c, k - 1, f);
      CallUnforced(D.ReplaceAt(v, g, i, c, k - 1), v, g, i, c, k, f);
    }
  }

  lemma CallUnforced(u: Vol, v: Vol, g: D.File, i: nat, c: Content, k: nat, f: D.File)
    requires Sane(v) && Unforced(u, f) && i !in v.data && (k == 1 ==> u == v) && f != g && f != D.Temp(g)
    ensures Unforced(D.ReplaceCall(u, g, i, c, k), f)
  {
    if k == 1 { CreateUnforced(u, D.Temp(g), i, c, f); }
    SyncUnforced(u, D.Temp(g), f);
    RenameUnforced(u, D.Temp(g), g, f);
    SyncUnforced(u, g, f);
  }

  /** What an effect is not about, it does not force out. */
  lemma CallsUnforced(x: Change, a: Disk, b: Disk, v: Vol, i: nat, k: nat, care: bool, f: D.File)
    requires Fits(x, a, b) && FreshInode(v, i) && k <= Calls(x) && Sane(v) && !Involves(x, a, b, f) && Unforced(v, f)
    ensures Unforced(AfterCalls(x, a, b, v, i, k, care), f)
  {
    if Replaces(x) {
      ReplaceUnforced(v, Target(x, a), i, View(b, Target(x, a)).value, k, f);
    } else {
      match x
      case Taken => RenameUnforced(v, D.Incoming, D.Claimed, f);
      case ClaimDropped => RemoveUnforced(v, {D.Claimed}, f);
      case SidecarDropped(id) => RemoveUnforced(v, {D.Sidecar(id)}, f);
      case SlotRebuilt(p) => RebuildUnforced(v, D.Slot(p), i, View(b, D.Slot(p)).value, k, f);
      case EvidenceMoved(l) =>
        MoveUnforced(v, SourceName(a.journal.value, l), D.Evidence(PathOf(a.journal.value, l)), k, f);
      case Pruned => RemoveUnforced(v, GoneFiles(a, b), f);
      case Uploaded(id) => UploadUnforced(v, a, b, id, i, care, f);
      case _ =>
    }
  }

  lemma RebuildUnforced(v: Vol, g: D.File, i: nat, c: Content, k: nat, f: D.File)
    requires Sane(v) && Unforced(v, f) && g != f && i !in v.data
    ensures Unforced(RebuildAt(v, g, i, c, k), f)
  {
    CreateUnforced(v, g, i, c, f);
    SyncUnforced(D.Create(v, g, i, c), g, f);
  }

  lemma MoveUnforced(v: Vol, g: D.File, h: D.File, k: nat, f: D.File)
    requires Unforced(v, f) && g != f && h != f
    ensures Unforced(MoveAt(v, g, h, k), f)
  {
    RenameUnforced(v, g, h, f);
    SyncUnforced(D.Rename(v, g, h), h, f);
  }

  lemma UploadUnforced(v: Vol, a: Disk, b: Disk, id: SnapshotId, i: nat, care: bool, f: D.File)
    requires View(b, D.Sidecar(id)).Some? && View(b, D.Incoming).Some? && Sane(v) && FreshInode(v, i)
    requires Unforced(v, f) && f != D.Sidecar(id) && f != D.Incoming
    ensures Unforced(UploadAt(v, a, b, id, i, care), f)
  {
    if id !in a.sidecars {
      CreateUnforced(v, D.Sidecar(id), i, View(b, D.Sidecar(id)).value, f);
      CreateSane(v, D.Sidecar(id), i, View(b, D.Sidecar(id)).value);
    }
    CreateUnforced(PublishAt(v, a, b, id, i), D.Incoming, i + 1, View(b, D.Incoming).value, f);
  }

  // ---------- uploads nobody has forced out ----------

  /** Neither the upload nor the claimed base has been forced out. */
  predicate Careless(v: Vol) {
    (D.Incoming in v.now ==> Unforced(v, D.Incoming)) && (D.Claimed in v.now ==> Unforced(v, D.Claimed))
  }

  lemma StaysUnforced(x: Change, a: Disk, b: Disk, v: Vol, i: nat, k: nat, f: D.File)
    requires Fits(x, a, b) && FreshInode(v, i) && k <= Calls(x) && Sane(v) && !Involves(x, a, b, f)
    requires f in v.now ==> Unforced(v, f)
    ensures var w := AfterCalls(x, a, b, v, i, k, false); f in w.now ==> Unforced(w, f)
  {
    CallsKeep(x, a, b, v, i, k, false, f);
    if f in v.now { CallsUnforced(x, a, b, v, i, k, false, f); }
  }

  lemma IncomingUnforced(x: Change, a: Disk, b: Disk, v: Vol, i: nat, k: nat)
    requires Fits(x, a, b) && FreshInode(v, i) && k <= Calls(x) && Sane(v) && Careless(v)
    ensures var w := AfterCalls(x, a, b, v, i, k, false); D.Incoming in w.now ==> Unforced(w, D.Incoming)
  {
    if x.Uploaded? {
      if k > 0 {
        var c := View(b, D.Sidecar(x.id)).value;
        if x.id !in a.sidecars { CreateSane(v, D.Sidecar(x.id), i, c); }
        CreatedUnforced(PublishAt(v, a, b, x.id, i), D.Incoming, i + 1, View(b, D.Incoming).value);
      }
    } else if !x.Taken? {
      StaysUnforced(x, a, b, v, i, k, D.Incoming);
    }
  }

  lemma TakenUnforced(a: Disk, b: Disk, v: Vol, i: nat, k: nat)
    requires Fits(Taken, a, b) && Tracks(v, a) && Careless(v)
    ensures var w := AfterCalls(Taken, a, b, v, i, k, false); D.Claimed in w.now ==> Unforced(w, D.Claimed)
  {
    assert D.Now(v, D.Incoming) == View(a, D.Incoming);
    RenamedUnforced(v, D.Incoming, D.Claimed);
  }

  lemma ClaimedUnforced(x: Change, a: Disk, b: Disk, v: Vol, i: nat, k: nat)
    requires Fits(x, a, b) && FreshInode(v, i) && k <= Calls(x) && Sane(v) && Tracks(v, a) && Careless(v)
    ensures var w := AfterCalls(x, a, b, v, i, k, false); D.Claimed in w.now ==> Unforced(w, D.Claimed)
  {
    if !Involves(x, a, b, D.Claimed) {
      StaysUnforced(x, a, b, v, i, k, D.Claimed);
    } else {
      ClaimedBy(x, a, b);
      if x.Taken? {
        TakenUnforced(a, b, v, i, k);
      } else if k > 0 {
        ClaimGone(x, a, b, v, i, k);
      }
    }
  }

  lemma ClaimGone(x: Change, a: Disk, b: Disk, v: Vol, i: nat, k: nat)
    requires Fits(x, a, b) && k > 0 && (x.ClaimDropped? || x == EvidenceMoved(BaseFile))
    ensures D.Claimed !in AfterCalls(x, a, b, v, i, k, false).now
  {
    if x.ClaimDropped? {
      RemovedEntry(v, D.Claimed);
    } else {
      D.RenameEntry(v, D.Claimed, D.Evidence(PathOf(a.journal.value, BaseFile)));
    }
  }

  lemma SaneAfter(v: Vol, m: Mark, moves: seq<Move>, w: Vol, care: bool)
    requires PowerLoss.Settled(v, m.disk) && m.open == {} && Reaches(v, m, moves, w, care)
    requires forall n :: n in MarksOf(m, moves) ==> MarkOk(n)
    ensures VolInv(w, MarkOf(m, moves), care) && LimitInv(w, MarkOf(m, moves))
  {
    SettledInv(v, m.disk, care);
    SettledLimits(v, m.disk);
    RunLimits(v, m, moves, w, care);
  }

  /** A producer that forces nothing out leaves bases that nobody forces out. */
  lemma {:induction false} StaysCareless(v: Vol, m: Mark, moves: seq<Move>, w: Vol)
    requires PowerLoss.Settled(v, m.disk) && m.open == {} && m.disk.incoming.None? && Reaches(v, m, moves, w, false)
    requires forall n :: n in MarksOf(m, moves) ==> MarkOk(n)
    ensures Careless(w)
  {
    if moves == [] {
      assert D.Now(v, D.Incoming) == View(m.disk, D.Incoming) && D.Now(v, D.Claimed) == View(m.disk, D.Claimed);
    } else {
      var before, x := moves[..|moves| - 1], moves[|moves| - 1];
      var u: Vol :| Reaches(v, m, before, u, false) && MoveOk(u, MarkOf(m, before), x)
                    && w == AfterCalls(x.change, MarkOf(m, before).disk, x.next, u, x.inode, x.calls, false);
      StaysCareless(v, m, before, u);
      SaneAfter(v, m, before, u, false);
      IncomingUnforced(x.change, MarkOf(m, before).disk, x.next, u, x.inode, x.calls);
      ClaimedUnforced(x.change, MarkOf(m, before).disk, x.next, u, x.inode, x.calls);
    }
  }

  lemma AllMarksOk(marks: seq<Mark>)
    requires Stepwise(marks)
    ensures forall n :: n in marks ==> MarkOk(n)
  {
    forall n | n in marks ensures MarkOk(n) {
      var k :| 0 <= k < |marks| && marks[k] == n;
      if k > 0 { assert StepOk(marks[k - 1], marks[k]); }
    }
  }

  function Last(marks: seq<Mark>): Mark
    requires marks != []
  {
    marks[|marks| - 1]
  }

  /** In every history of a host that started without an upload, and however it is carried
      out: a power loss may leave a verified release with a base that is not whole if and
      only if the producer does not force out its uploads. */
  lemma BaseIsAsDurable(marks: seq<Mark>, v: Vol, moves: seq<Move>, w: Vol, care: bool, rel: Release)
    requires Stepwise(marks) && PowerLoss.Settled(v, marks[0].disk) && marks[0].disk.incoming.None?
    requires CarriedOut(marks, v, care, moves, w) && Last(marks).disk.journal == Some(ConsumerVerified(rel))
    ensures MayBeTorn(w, Last(marks).disk.journal, D.Claimed, DbOf(rel.snapshot.of)) <==> !care
  {
    AllMarksOk(marks);
    SaneAfter(v, marks[0], moves, w, care);
    assert Last(marks) in marks;
    BaseTornExactly(w, Last(marks), care, rel);
    if !care {
      StaysCareless(v, marks[0], moves, w);
      assert D.Now(w, D.Claimed) == View(Last(marks).disk, D.Claimed);
    }
  }

  // ---------- one more effect ----------

  /** The history, carried out, and one more effect of which `calls` calls are made. */
  lemma CarryOne(marks: seq<Mark>, v: Vol, care: bool, moves: seq<Move>, u: Vol, x: Change, cut: bool, calls: nat)
    returns (more: seq<Move>, w: Vol, i: nat)
    requires Stepwise(marks) && |marks| > 1 && CarriedOut(marks[..|marks| - 1], v, care, moves, u)
    requires StepBy(marks[|marks| - 2], Last(marks), x, cut)
    requires Visible(x) <= calls <= Calls(x) && (cut || calls == Calls(x))
    ensures CarriedOut(marks, v, care, more, w)
    ensures FreshInode(u, i) && w == AfterCalls(x, marks[|marks| - 2].disk, Last(marks).disk, u, i, calls, care)
  {
    i := Above(u.data.Keys);
    var move := Move(x, Last(marks).disk, i, calls, cut);
    w := AfterCalls(x, marks[|marks| - 2].disk, Last(marks).disk, u, i, calls, care);
    more := moves + [move];
    OneMore(v, marks[0], moves, u, move, w, care);
    assert marks == marks[..|marks| - 1] + [Last(marks)];
  }

  lemma LastStep(marks: seq<Mark>) returns (x: Change, cut: bool)
    requires Stepwise(marks) && |marks| > 1
    ensures Stepwise(marks[..|marks| - 1]) && StepBy(marks[|marks| - 2], Last(marks), x, cut)
    ensures MarkOk(marks[|marks| - 2]) && MarkOk(Last(marks))
  {
    ShorterHistory(marks);
    AllMarksOk(marks);
    assert marks[|marks| - 2] in marks && Last(marks) in marks;
    x, cut :| StepBy(marks[|marks| - 2], Last(marks), x, cut);
  }

  // ---------- a commit record that may be lost ----------

  /** The commit record is still pending, and so is the unlink of the base if that is gone. */
  predicate Undone(w: Vol, m: Mark) {
    Exposed(w) && (m.disk.claimed.None? ==> PendingFor(w, D.Claimed))
  }

  lemma EnteredLate(v: Vol, i: nat, c: Content)
    requires Sane(v) && FreshInode(v, i)
    ensures Exposed(D.ReplaceAt(v, D.Journal, i, c, 4))
  {
    D.ReplacePlaces(v, D.Journal, i, c, 3, D.Journal);
    PlacedNow(D.ReplaceAt(v, D.Journal, i, c, 3), D.Journal);
    D.ReplaceInode(v, D.Journal, i, c, 4);
  }

  lemma OneCallLater(x: Change, m: Mark, n: Mark, u: Vol, i: nat, care: bool)
    requires Fits(x, m.disk, n.disk) && Undropped(m.disk.journal) && !x.Journalled? && FreshInode(u, i) && Undone(u, m)
    ensures Undone(AfterCalls(x, m.disk, n.disk, u, i, 1, care), n)
  {
    var w := AfterCalls(x, m.disk, n.disk, u, i, 1, care);
    Aside(x, m, n.disk);
    CallsKeep(x, m.disk, n.disk, u, i, 1, care, D.Journal);
    assert w.dirs == u.dirs && u.pending <= w.pending;
    if x.ClaimDropped? {
      var c := D.Unlinks({D.Claimed});
      assert w.pending == u.pending + [c];
      assert c in w.pending && D.Claimed in c;
    } else if n.disk.claimed.None? {
      var c :| c in u.pending && D.Claimed in c;
      assert c in w.pending;
    }
  }

  lemma LateEntry(marks: seq<Mark>, v: Vol, care: bool, cut: bool) returns (moves: seq<Move>, w: Vol)
    requires Stepwise(marks) && |marks| > 1 && PowerLoss.Settled(v, marks[0].disk)
    requires Stepwise(marks[..|marks| - 1]) && StepBy(marks[|marks| - 2], Last(marks), Journalled, cut)
    ensures CarriedOut(marks, v, care, moves, w) && Exposed(w)
  {
    var before := marks[..|marks| - 1];
    HistoryIsCarriedOut(before, v, care);
    var u, i;
    moves, u :| CarriedOut(before, v, care, moves, u);
    AllMarksOk(before);
    SaneAfter(v, marks[0], moves, u, care);
    assert StepBy(marks[|marks| - 2], Last(marks), Journalled, true);
    moves, w, i := CarryOne(marks, v, care, moves, u, Journalled, true, 4);
    EnteredLate(u, i, JournalOf(Last(marks).disk.journal.value));
  }

  /** After every commit there is a way in which neither the commit record nor what has been
      dropped since has been forced out. */
  lemma {:induction false} LateCommit(marks: seq<Mark>, v: Vol, care: bool) returns (moves: seq<Move>, w: Vol)
    requires Stepwise(marks) && PowerLoss.Settled(v, marks[0].disk) && Undropped(Last(marks).disk.journal)
    ensures CarriedOut(marks, v, care, moves, w) && Undone(w, Last(marks))
    decreases |marks|
  {
    var before := marks[..|marks| - 1];
    var m := marks[|marks| - 2];
    var x, cut := LastStep(marks);
    var u, i;
    if x.Journalled? {
      moves, w := LateEntry(marks, v, care, cut);
    } else {
      Aside(x, m, Last(marks).disk);
      moves, u := LateCommit(before, v, care);
      moves, w, i := CarryOne(marks, v, care, moves, u, x, true, 1);
      OneCallLater(x, m, Last(marks), u, i, care);
    }
  }

  /** So in every history that ends with a commit record and its base gone, a power loss may
      bring the verified release back without its base. */
  lemma CommitMayBeUndone(marks: seq<Mark>, v: Vol, care: bool) returns (moves: seq<Move>, w: Vol)
    requires Stepwise(marks) && PowerLoss.Settled(v, marks[0].disk)
    requires Undropped(Last(marks).disk.journal) && Last(marks).disk.claimed.None?
    ensures CarriedOut(marks, v, care, moves, w) && MayBeOrphaned(w)
  {
    moves, w := LateCommit(marks, v, care);
    AllMarksOk(marks);
    SaneAfter(v, marks[0], moves, w, care);
    MayBeOrphanedExactly(w, Last(marks), care);
  }

  // ---------- evidence that may be torn ----------

  predicate InQuarantine(j: Option<Entry>) {
    j.Some? && (j.value.Quarantining? || j.value.Quarantined?)
  }

  /** Where the base is kept by the quarantine that is under way, or closed. */
  function BasePath(j: Option<Entry>): QPath
    requires InQuarantine(j)
  {
    if j.value.Quarantining? then PathOf(j.value, BaseFile) else QPath(j.value.path.dir, BaseFile, j.value.path.id)
  }

  /** The base has been filed, by a move that was cut short. */
  predicate CutShort(m: Mark) {
    && InQuarantine(m.disk.journal) && BasePath(m.disk.journal) in m.disk.quarantine
    && EvidencePiece(BaseFile) in m.open
  }

  predicate Unfiled(w: Vol, m: Mark) {
    CutShort(m) ==> Unforced(w, D.Evidence(BasePath(m.disk.journal)))
  }

  /** Only the move itself leads to such a state. */
  lemma CutBefore(x: Change, m: Mark, n: Mark, cut: bool)
    requires StepBy(m, n, x, cut) && CutShort(n) && x != EvidenceMoved(BaseFile)
    ensures CutShort(m) && BasePath(m.disk.journal) == BasePath(n.disk.journal)
    ensures !Involves(x, m.disk, n.disk, D.Evidence(BasePath(m.disk.journal)))
  {
  }

  lemma CutNow(m: Mark, n: Mark, cut: bool)
    requires StepBy(m, n, EvidenceMoved(BaseFile), cut) && CutShort(n)
    ensures cut && m.disk.claimed.Some?
    ensures BasePath(n.disk.journal) == PathOf(m.disk.journal.value, BaseFile)
  {
  }

  /** In every history there is a way in which a base whose move was cut short has never been
      forced out. */
  lemma {:induction false} LateEvidence(marks: seq<Mark>, v: Vol) returns (moves: seq<Move>, w: Vol)
    requires Stepwise(marks) && PowerLoss.Settled(v, marks[0].disk) && marks[0].disk.incoming.None?
    ensures CarriedOut(marks, v, false, moves, w) && Unfiled(w, Last(marks))
    decreases |marks|
  {
    if |marks| == 1 {
      moves, w := [], v;
    } else {
      var m, n := marks[|marks| - 2], Last(marks);
      var x, cut := LastStep(marks);
      var u, i;
      moves, u := LateEvidence(marks[..|marks| - 1], v);
      AllMarksOk(marks[..|marks| - 1]);
      SaneAfter(v, marks[0], moves, u, false);
      StaysCareless(v, marks[0], moves, u);
      var calls := if x == EvidenceMoved(BaseFile) && cut then 1 else Calls(x);
      moves, w, i := CarryOne(marks, v, false, moves, u, x, cut, calls);
      UnfiledStep(m, n, x, cut, u, i, calls);
    }
  }

  lemma UnfiledStep(m: Mark, n: Mark, x: Change, cut: bool, u: Vol, i: nat, calls: nat)
    requires StepBy(m, n, x, cut) && Sane(u) && Tracks(u, m.disk) && Careless(u) && Unfiled(u, m)
    requires FreshInode(u, i) && calls == if x == EvidenceMoved(BaseFile) && cut then 1 else Calls(x)
    ensures Unfiled(AfterCalls(x, m.disk, n.disk, u, i, calls, false), n)
  {
    if CutShort(n) {
      if x == EvidenceMoved(BaseFile) {
        CutNow(m, n, cut);
        assert D.Now(u, D.Claimed) == View(m.disk, D.Claimed);
        RenamedUnforced(u, D.Claimed, D.Evidence(PathOf(m.disk.journal.value, BaseFile)));
      } else {
        CutBefore(x, m, n, cut);
        CallsUnforced(x, m.disk, n.disk, u, i, calls, false, D.Evidence(BasePath(m.disk.journal)));
      }
    }
  }

  /** So in every history that closes a quarantine over a base whose move was cut short, a
      power loss may leave the base torn under the durable record, if the producer had not
      forced it out. */
  lemma EvidenceMayBeTorn(marks: seq<Mark>, v: Vol) returns (moves: seq<Move>, w: Vol)
    requires Stepwise(marks) && PowerLoss.Settled(v, marks[0].disk) && marks[0].disk.incoming.None?
    requires CutShort(Last(marks)) && Last(marks).disk.journal.value.Quarantined?
    ensures CarriedOut(marks, v, false, moves, w)
    ensures var d, p := Last(marks).disk, BasePath(Last(marks).disk.journal);
            MayBeTorn(w, d.journal, D.Evidence(p), FileOf(d.quarantine[p]))
  {
    moves, w := LateEvidence(marks, v);
    AllMarksOk(marks);
    SaneAfter(v, marks[0], moves, w, false);
    EvidenceTornExactly(w, Last(marks), false, BasePath(Last(marks).disk.journal));
  }

  // ---------- such histories, and volumes to carry them out on ----------

  /** The history after one more effect. */
  lemma Longer(marks: seq<Mark>, x: Change, b: Disk, cut: bool) returns (more: seq<Mark>)
    requires Stepwise(marks) && Fits(x, Last(marks).disk, b) && NotLeading(b)
    requires Closed(b.journal, OpenAfter(x, Last(marks).disk, b, Last(marks).open, cut))
    ensures Stepwise(more) && more[0] == marks[0]
    ensures Last(more) == Mark(b, OpenAfter(x, Last(marks).disk, b, Last(marks).open, cut))
  {
    var n := Mark(b, OpenAfter(x, Last(marks).disk, b, Last(marks).open, cut));
    more := marks + [n];
    assert StepBy(Last(marks), n, x, cut);
    forall k | 0 < k < |more| ensures StepOk(more[k - 1], more[k]) {
      if k < |marks| { assert StepOk(marks[k - 1], marks[k]); }
    }
  }

  function Claimed(d: Disk, db: Bytes): Disk {
    d.(journal := Some(Claiming(d.upstream.Other(), 0)), claimed := Some(db), incoming := None)
  }

  /** A malformed sidecar's upload, claimed. */
  lemma ClaimedHistory(d: Disk, db: Bytes) returns (marks: seq<Mark>, c: Disk)
    requires Untouched(d) && SnapshotId(db) !in d.sidecars
    ensures Stepwise(marks) && marks[0] == Mark(d, {}) && Last(marks) == Mark(c, {})
    ensures c == Claimed(d, db).(sidecars := d.sidecars[SnapshotId(db) := Malformed("")])
  {
    var a := d.(incoming := Some(db), sidecars := d.sidecars[SnapshotId(db) := Malformed("")]);
    var b := a.(journal := Some(Claiming(d.upstream.Other(), 0)));
    c := b.(incoming := None, claimed := Some(db));
    marks := [Mark(d, {})];
    marks := Longer(marks, Uploaded(SnapshotId(db)), a, false);
    marks := Longer(marks, Journalled, b, false);
    marks := Longer(marks, Taken, c, false);
  }

  function Captures(d: Disk, id: SnapshotId): Entry {
    Quarantining(d.upstream.Other(), id, None, 0,
                 Intent(d.nextId, DeterministicGate, None, false, false, Captured, NotApplicable, Captured))
  }

  /** Both its files are filed, the base by a move that is cut short and recognised by the
      replay, and the quarantine is closed. */
  lemma CutHistory(d: Disk, db: Bytes) returns (marks: seq<Mark>)
    requires Untouched(d) && SnapshotId(db) !in d.sidecars
    ensures Stepwise(marks) && marks[0] == Mark(d, {})
    ensures CutShort(Last(marks)) && Last(marks).disk.journal.value.Quarantined?
  {
    var id := SnapshotId(db);
    var c;
    marks, c := ClaimedHistory(d, db);
    var entry := Captures(d, id);
    var f := c.(journal := Some(entry), nextId := c.nextId + 1);
    var g := Moved(f, BaseFile, entry.from, id, entry.intent.id);
    var h := Moved(g, ManifestFile, entry.from, id, entry.intent.id);
    marks := Longer(marks, Journalled, f, false);
    marks := Longer(marks, EvidenceMoved(BaseFile), g, true);
    marks := Longer(marks, EvidenceMoved(ManifestFile), h, false);
    marks := CloseHistory(marks, f, h, entry);
  }

  lemma CloseHistory(marks: seq<Mark>, f: Disk, h: Disk, entry: Entry) returns (more: seq<Mark>)
    requires Stepwise(marks) && Last(marks) == Mark(h, {EvidencePiece(BaseFile), RecordPiece})
    requires entry.Quarantining? && entry == Captures(f.(nextId := entry.intent.id), entry.snapshot)
    requires f.journal == Some(entry) && f.quarantine == map[] && f.claimed.Some? && entry.snapshot in f.sidecars
    requires h == Moved(Moved(f, BaseFile, entry.from, entry.snapshot, entry.intent.id),
                        ManifestFile, entry.from, entry.snapshot, entry.intent.id)
    ensures Stepwise(more) && more[0] == marks[0]
    ensures CutShort(Last(more)) && Last(more).disk.journal.value.Quarantined?
  {
    var record := Filed(f, entry);
    var q := PathOf(entry, FailureFile);
    var k := h.(quarantine := h.quarantine[q := FailureRecord(record)]);
    more := RecordHistory(marks, h, entry, record);
    FiledIsAccepted(f, h, entry);
    more := Longer(more, Journalled, k.(journal := Some(Quarantined(q, RecordId(record)))), false);
  }

  lemma RecordHistory(marks: seq<Mark>, h: Disk, entry: Entry, record: Failure) returns (more: seq<Mark>)
    requires Stepwise(marks) && Last(marks) == Mark(h, {EvidencePiece(BaseFile), RecordPiece})
    requires h.journal == Some(entry) && entry.Quarantining?
    ensures Stepwise(more) && more[0] == marks[0]
    ensures Last(more) == Mark(h.(quarantine := h.quarantine[PathOf(entry, FailureFile) := FailureRecord(record)]),
                               {EvidencePiece(BaseFile)})
  {
    var q := PathOf(entry, FailureFile);
    more := Longer(marks, RecordFiled, h.(quarantine := h.quarantine[q := FailureRecord(record)]), false);
  }

  function Filed(f: Disk, entry: Entry): Failure
    requires entry.Quarantining?
  {
    RecordFor(entry, Source(f, BaseFile, entry.from, entry.snapshot), None,
              Source(f, ManifestFile, entry.from, entry.snapshot))
  }

  lemma FiledIsAccepted(f: Disk, h: Disk, entry: Entry)
    requires entry.Quarantining? && entry == Captures(f.(nextId := entry.intent.id), entry.snapshot)
    requires f.quarantine == map[] && f.claimed.Some? && entry.snapshot in f.sidecars
    requires h == Moved(Moved(f, BaseFile, entry.from, entry.snapshot, entry.intent.id),
                        ManifestFile, entry.from, entry.snapshot, entry.intent.id)
    ensures var q := PathOf(entry, FailureFile);
            QuarantinedOk(Quarantined(q, RecordId(Filed(f, entry))),
                          h.quarantine[q := FailureRecord(Filed(f, entry))])
  {
  }

  function Present(d: Disk): set<D.File> {
    {D.Include} + (if d.basis.Some? then {D.Basis} else {}) + (if d.receipt.Some? then {D.Receipt} else {})
    + (if d.incoming.Some? then {D.Incoming} else {})
    + (set p | p in d.slots :: D.Slot(p)) + (set id | id in d.sidecars :: D.Sidecar(id))
  }

  /** Every installed disk is that of some volume. */
  lemma SomeVolume(d: Disk) returns (v: Vol)
    requires Untouched(d)
    ensures PowerLoss.Settled(v, d)
  {
    v := Holding(d, Present(d));
    forall f: D.File | !f.Temp? ensures D.Now(v, f) == View(d, f) {
      assert f in Present(d) <==> View(d, f).Some?;
    }
  }

  lemma {:induction false} Holding(d: Disk, fs: set<D.File>) returns (v: Vol)
    requires forall f :: f in fs ==> View(d, f).Some?
    ensures v.dirs == v.now && v.pending == [] && v.dirty == {} && Sane(v) && v.now.Keys == fs
    ensures forall f :: f in fs ==> D.Now(v, f) == View(d, f)
    decreases |fs|
  {
    if fs == {} {
      v := D.Volume(map[], map[], [], map[], {});
    } else {
      var f :| f in fs;
      var u := Holding(d, fs - {f});
      var i := Above(u.data.Keys);
      v := D.Volume(u.now[f := i], u.now[f := i], [], u.data[i := View(d, f).value], {});
    }
  }
}
