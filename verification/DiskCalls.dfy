/** The effects of the release machine on the disk as sequences of system calls on a volume:
    what each has done to it after any number of its calls. */
module DiskCalls {
  import opened Outcomes
  import opened Manifests
  import opened ReleaseTypes
  import opened ReleaseInvariant
  import opened ReleaseSteps
  import opened ReleaseQuarantine
  import opened ReleaseTrail
  import D = Durability

  datatype Content = JournalOf(entry: Entry) | IncludeOf(port: Port) | ReceiptOf(receipt: Receipt) | FileOf(file: QFile)

  type Vol = D.Volume<Content>

  function DbOf(db: Bytes): Content {
    FileOf(DbFile(db))
  }

  function DbView(x: Option<Bytes>): Option<Content> {
    if x.Some? then Some(DbOf(x.value)) else None
  }

  function JournalView(j: Option<Entry>): Option<Content> {
    if j.Some? then Some(JournalOf(j.value)) else None
  }

  function View(d: Disk, f: D.File): Option<Content> {
    match f
    case Journal => JournalView(d.journal)
    case Include => Some(IncludeOf(d.upstream))
    case Basis => DbView(d.basis)
    case Receipt => if d.receipt.Some? then Some(ReceiptOf(d.receipt.value)) else None
    case Claimed => DbView(d.claimed)
    case Incoming => DbView(d.incoming)
    case Slot(p) => DbView(SlotOf(d, p))
    case Sidecar(id) => if id in d.sidecars then Some(FileOf(SidecarFile(d.sidecars[id]))) else None
    case Evidence(q) => if q in d.quarantine then Some(FileOf(d.quarantine[q])) else None
    case Temp(_) => None
  }

  // ---------- the calls of an effect ----------

  /** Written by replacing a temporary: six calls, visible after the fourth. */
  predicate Replaces(x: Change) {
    x.Journalled? || x.IncludeWritten? || x.BasisStored? || x.ReceiptStored? || x.SlotCopied? || x.RecordFiled?
  }

  function Target(x: Change, a: Disk): D.File
    requires Replaces(x) && (x.RecordFiled? ==> a.journal.Some? && a.journal.value.Quarantining?)
  {
    match x
    case Journalled => D.Journal
    case IncludeWritten => D.Include
    case BasisStored => D.Basis
    case ReceiptStored => D.Receipt
    case SlotCopied(p) => D.Slot(p)
    case RecordFiled => D.Evidence(PathOf(a.journal.value, FailureFile))
  }

  function Calls(x: Change): nat {
    if Replaces(x) then 6
    else if x.SlotRebuilt? || x.EvidenceMoved? then 3
    else if x.ClaimDropped? || x.SidecarDropped? then 2
    else 1
  }

  /** The running system sees the change from this call on. */
  function Visible(x: Change): nat {
    if Replaces(x) then 4 else 1
  }

  /** Where a piece of evidence is taken from. */
  function SourceName(entry: Entry, l: Label): D.File
    requires entry.Quarantining?
  {
    match l
    case BaseFile => D.Claimed
    case CandidateFile => D.Slot(entry.from)
    case ManifestFile => D.Sidecar(entry.snapshot)
    case FailureFile => D.Evidence(PathOf(entry, FailureFile))
  }

  function GoneFiles(a: Disk, b: Disk): set<D.File> {
    set q | q in a.quarantine && q !in b.quarantine :: D.Evidence(q)
  }

  /** A slot rebuilt in place is taken as a new inode: its content is unsure until it has
      been forced out. */
  function RebuildAt(v: Vol, f: D.File, i: nat, c: Content, k: nat): Vol {
    if k == 0 then v
    else if k == 1 then D.Create(v, f, i, c)
    else if k == 2 then D.SyncFile(D.Create(v, f, i, c), f)
    else D.SyncDir(D.SyncFile(D.Create(v, f, i, c), f), D.DirOf(f))
  }

  /** `_move_to_quarantine`. */
  function MoveAt(v: Vol, f: D.File, g: D.File, k: nat): Vol {
    if k == 0 then v
    else if k == 1 then D.Rename(v, f, g)
    else if k == 2 then D.SyncFile(D.Rename(v, f, g), g)
    else D.SyncDir(D.SyncFile(D.Rename(v, f, g), g), D.DirOf(g))
  }

  /** The sidecar, if it is not there yet, then the database; `care` says that the producer
      forces its files' contents out. */
  function UploadAt(v: Vol, a: Disk, b: Disk, id: SnapshotId, i: nat, care: bool): Vol
    requires View(b, D.Sidecar(id)).Some? && View(b, D.Incoming).Some?
  {
    var w := D.Create(PublishAt(v, a, b, id, i), D.Incoming, i + 1, View(b, D.Incoming).value);
    if care then w.(dirty := w.dirty - {i, i + 1}) else w
  }

  function PublishAt(v: Vol, a: Disk, b: Disk, id: SnapshotId, i: nat): Vol
    requires View(b, D.Sidecar(id)).Some?
  {
    if id in a.sidecars then v else D.Create(v, D.Sidecar(id), i, View(b, D.Sidecar(id)).value)
  }

  /** The volume after the first `k` calls of the effect `x` from `a` to `b`. */
  function AfterCalls(x: Change, a: Disk, b: Disk, v: Vol, i: nat, k: nat, care: bool): Vol
    requires Fits(x, a, b)
  {
    if Replaces(x) then D.ReplaceAt(v, Target(x, a), i, View(b, Target(x, a)).value, k)
    else
      match x
      case Taken => if k == 0 then v else D.Rename(v, D.Incoming, D.Claimed)
      case ClaimDropped => D.RemoveAt(v, D.Claimed, k)
      case SidecarDropped(id) => D.RemoveAt(v, D.Sidecar(id), k)
      case SlotRebuilt(p) => RebuildAt(v, D.Slot(p), i, View(b, D.Slot(p)).value, k)
      case EvidenceMoved(l) =>
        MoveAt(v, SourceName(a.journal.value, l), D.Evidence(PathOf(a.journal.value, l)), k)
      case Pruned => if k == 0 then v else D.Remove(v, GoneFiles(a, b))
      case Uploaded(id) => if k == 0 then v else UploadAt(v, a, b, id, i, care)
      case _ => v
  }

  // ---------- what the calls do ----------

  ghost predicate Tracks(v: Vol, d: Disk) {
    forall f: D.File :: !f.Temp? ==> D.Now(v, f) == View(d, f)
  }

  ghost predicate Sane(v: Vol) {
    D.Coherent(v) && forall f :: f in v.now ==> v.now[f] in v.data
  }

  /** The content of `f` has been forced out. */
  predicate Clean(v: Vol, f: D.File) {
    f in v.now ==> v.now[f] !in v.dirty
  }

  /** The names the effect is about. */
  predicate Involves(x: Change, a: Disk, b: Disk, f: D.File)
    requires Fits(x, a, b)
  {
    if Replaces(x) then f == Target(x, a) || f == D.Temp(Target(x, a))
    else
      match x
      case Taken => f == D.Incoming || f == D.Claimed
      case ClaimDropped => f == D.Claimed
      case SidecarDropped(id) => f == D.Sidecar(id)
      case SlotRebuilt(p) => f == D.Slot(p)
      case EvidenceMoved(l) =>
        f == SourceName(a.journal.value, l) || f == D.Evidence(PathOf(a.journal.value, l))
      case Pruned => f in GoneFiles(a, b)
      case Uploaded(id) => f == D.Sidecar(id) || f == D.Incoming
      case _ => false
  }

  ghost predicate FreshInode(v: Vol, i: nat) {
    forall k :: k in v.data ==> k < i
  }

  lemma CallsKeep(x: Change, a: Disk, b: Disk, v: Vol, i: nat, k: nat, care: bool, f: D.File)
    requires Fits(x, a, b) && FreshInode(v, i) && k <= Calls(x) && !Involves(x, a, b, f)
    ensures D.Keeps(v, AfterCalls(x, a, b, v, i, k, care), f)
  {
    if Replaces(x) {
      D.ReplaceKeeps(v, Target(x, a), i, View(b, Target(x, a)).value, k, f);
    } else {
      match x
      case Taken => RenameKeeps(v, D.Incoming, D.Claimed, f);
      case ClaimDropped => D.RemoveAtKeeps(v, D.Claimed, k, f);
      case SidecarDropped(id) => D.RemoveAtKeeps(v, D.Sidecar(id), k, f);
      case SlotRebuilt(p) => RebuildKeeps(v, D.Slot(p), i, View(b, D.Slot(p)).value, k, f);
      case EvidenceMoved(l) =>
        MoveKeeps(v, SourceName(a.journal.value, l), D.Evidence(PathOf(a.journal.value, l)), k, f);
      case Pruned => D.RemoveKeeps(v, GoneFiles(a, b), f);
      case Uploaded(id) => UploadKeeps(v, a, b, id, i, care, f);
      case _ =>
    }
  }

  /** Before an effect is visible, it has touched no more than a temporary. */
  lemma EarlyKeep(x: Change, a: Disk, b: Disk, v: Vol, i: nat, k: nat, care: bool, f: D.File)
    requires Fits(x, a, b) && FreshInode(v, i) && k < Visible(x) && !f.Temp?
    ensures D.Keeps(v, AfterCalls(x, a, b, v, i, k, care), f)
  {
    if Replaces(x) {
      D.ReplaceKeeps(v, Target(x, a), i, View(b, Target(x, a)).value, k, f);
    }
  }

  lemma RenameKeeps(v: Vol, f: D.File, g: D.File, h: D.File)
    requires h != f && h != g
    ensures D.Keeps(v, D.Rename(v, f, g), h)
  {
    D.ChangedKeeps(v, map[f := None, g := D.Entry(v.now, f)], h);
  }

  lemma RebuildKeeps(v: Vol, f: D.File, i: nat, c: Content, k: nat, h: D.File)
    requires i !in v.data && h != f
    ensures D.Keeps(v, RebuildAt(v, f, i, c, k), h)
  {
    D.CreateKeeps(v, f, i, c, h);
    D.SyncFileKeeps(D.Create(v, f, i, c), f, h);
    D.SyncDirKeeps(D.SyncFile(D.Create(v, f, i, c), f), D.DirOf(f), h);
  }

  lemma MoveKeeps(v: Vol, f: D.File, g: D.File, k: nat, h: D.File)
    requires h != f && h != g
    ensures D.Keeps(v, MoveAt(v, f, g, k), h)
  {
    RenameKeeps(v, f, g, h);
    D.SyncFileKeeps(D.Rename(v, f, g), g, h);
    D.SyncDirKeeps(D.SyncFile(D.Rename(v, f, g), g), D.DirOf(g), h);
  }

  lemma UploadKeeps(v: Vol, a: Disk, b: Disk, id: SnapshotId, i: nat, care: bool, h: D.File)
    requires View(b, D.Sidecar(id)).Some? && View(b, D.Incoming).Some?
    requires FreshInode(v, i) && h != D.Sidecar(id) && h != D.Incoming
    ensures D.Keeps(v, UploadAt(v, a, b, id, i, care), h)
  {
    if id !in a.sidecars { D.CreateKeeps(v, D.Sidecar(id), i, View(b, D.Sidecar(id)).value, h); }
    D.CreateKeeps(PublishAt(v, a, b, id, i), D.Incoming, i + 1, View(b, D.Incoming).value, h);
  }

  lemma CallsSane(x: Change, a: Disk, b: Disk, v: Vol, i: nat, k: nat, care: bool)
    requires Fits(x, a, b) && FreshInode(v, i) && k <= Calls(x) && Sane(v)
    ensures Sane(AfterCalls(x, a, b, v, i, k, care))
  {
    if Replaces(x) {
      ReplaceSane(v, Target(x, a), i, View(b, Target(x, a)).value, k);
    } else {
      match x
      case Taken => RenameSane(v, D.Incoming, D.Claimed);
      case ClaimDropped => RemoveAtSane(v, D.Claimed, k);
      case SidecarDropped(id) => RemoveAtSane(v, D.Sidecar(id), k);
      case SlotRebuilt(p) => RebuildSane(v, D.Slot(p), i, View(b, D.Slot(p)).value, k);
      case EvidenceMoved(l) => MoveSane(v, SourceName(a.journal.value, l), D.Evidence(PathOf(a.journal.value, l)), k);
      case Pruned => RemoveSane(v, GoneFiles(a, b));
      case Uploaded(id) => UploadSane(v, a, b, id, i, care);
      case _ =>
    }
  }

  lemma {:induction false} ReplaceSane(v: Vol, f: D.File, i: nat, c: Content, k: nat)
    requires i !in v.data && k <= 6 && Sane(v)
    ensures Sane(D.ReplaceAt(v, f, i, c, k))
    decreases k
  {
    if k > 0 {
      ReplaceSane(v, f, i, c, k - 1);
      CallSane(D.ReplaceAt(v, f, i, c, k - 1), f, i, c, k);
    }
  }

  lemma CallSane(u: Vol, f: D.File, i: nat, c: Content, k: nat)
    requires Sane(u)
    ensures Sane(D.ReplaceCall(u, f, i, c, k))
  {
    CreateSane(u, D.Temp(f), i, c);
    SyncFileSane(u, D.Temp(f));
    RenameSane(u, D.Temp(f), f);
    SyncFileSane(u, f);
    SyncDirSane(u, D.DirOf(f));
  }

  lemma SyncFileSane(v: Vol, f: D.File)
    requires Sane(v)
    ensures Sane(D.SyncFile(v, f))
  {
  }

  lemma SyncDirSane(v: Vol, d: D.Dir)
    requires Sane(v)
    ensures Sane(D.SyncDir(v, d))
  {
    D.SyncDirCoherent(v, d);
  }

  lemma RenameSane(v: Vol, f: D.File, g: D.File)
    requires Sane(v)
    ensures Sane(D.Rename(v, f, g))
  {
    D.ChangedCoherent(v, map[f := None, g := D.Entry(v.now, f)]);
  }

  lemma CreateSane(v: Vol, f: D.File, i: nat, c: Content)
    requires Sane(v)
    ensures Sane(D.Create(v, f, i, c))
  {
    D.ChangedCoherent(v, map[f := Some(i)]);
  }

  lemma RemoveSane(v: Vol, fs: set<D.File>)
    requires Sane(v)
    ensures Sane(D.Remove(v, fs))
  {
    D.ChangedCoherent(v, D.Unlinks(fs));
  }

  lemma RemoveAtSane(v: Vol, f: D.File, k: nat)
    requires Sane(v)
    ensures Sane(D.RemoveAt(v, f, k))
  {
    RemoveSane(v, {f});
    SyncDirSane(D.Remove(v, {f}), D.DirOf(f));
  }

  lemma RebuildSane(v: Vol, f: D.File, i: nat, c: Content, k: nat)
    requires Sane(v)
    ensures Sane(RebuildAt(v, f, i, c, k))
  {
    CreateSane(v, f, i, c);
    SyncFileSane(D.Create(v, f, i, c), f);
    SyncDirSane(D.SyncFile(D.Create(v, f, i, c), f), D.DirOf(f));
  }

  lemma MoveSane(v: Vol, f: D.File, g: D.File, k: nat)
    requires Sane(v)
    ensures Sane(MoveAt(v, f, g, k))
  {
    RenameSane(v, f, g);
    SyncFileSane(D.Rename(v, f, g), g);
    SyncDirSane(D.SyncFile(D.Rename(v, f, g), g), D.DirOf(g));
  }

  lemma UploadSane(v: Vol, a: Disk, b: Disk, id: SnapshotId, i: nat, care: bool)
    requires View(b, D.Sidecar(id)).Some? && View(b, D.Incoming).Some? && Sane(v)
    ensures Sane(UploadAt(v, a, b, id, i, care))
  {
    if id !in a.sidecars { CreateSane(v, D.Sidecar(id), i, View(b, D.Sidecar(id)).value); }
    CreateSane(PublishAt(v, a, b, id, i), D.Incoming, i + 1, View(b, D.Incoming).value);
  }

  // ---------- the running system sees the effect ----------

  lemma KeepsNow(v: Vol, w: Vol, f: D.File)
    requires Sane(v) && D.Keeps(v, w, f)
    ensures D.Now(w, f) == D.Now(v, f)
  {
  }

  /** An effect changes only what it is about. */
  lemma SameView(x: Change, a: Disk, b: Disk, f: D.File)
    requires Fits(x, a, b) && !Involves(x, a, b, f) && !f.Temp?
    ensures View(b, f) == View(a, f)
  {
    if Replaces(x) {
      if f.Evidence? && x.RecordFiled? { assert f.path != PathOf(a.journal.value, FailureFile); }
    } else if x.EvidenceMoved? {
      MovedView(a, a.journal.value, x.of, f);
    } else if x.Pruned? && f.Evidence? {
      assert f.path in a.quarantine && f.path !in b.quarantine ==> f in GoneFiles(a, b);
    }
  }

  lemma MovedView(a: Disk, entry: Entry, l: Label, f: D.File)
    requires entry.Quarantining? && Source(a, l, entry.from, entry.snapshot).Some?
    requires f != SourceName(entry, l) && f != D.Evidence(PathOf(entry, l))
    ensures View(Moved(a, l, entry.from, entry.snapshot, entry.intent.id), f) == View(a, f)
  {
  }

  lemma CallsTrack(x: Change, a: Disk, b: Disk, v: Vol, i: nat, k: nat, care: bool)
    requires Fits(x, a, b) && FreshInode(v, i) && k <= Calls(x) && Sane(v) && Tracks(v, a)
    ensures Tracks(AfterCalls(x, a, b, v, i, k, care), if k < Visible(x) then a else b)
  {
    var w := AfterCalls(x, a, b, v, i, k, care);
    forall f: D.File | !f.Temp?
      ensures D.Now(w, f) == View(if k < Visible(x) then a else b, f)
    {
      if k < Visible(x) {
        EarlyKeep(x, a, b, v, i, k, care, f);
        KeepsNow(v, w, f);
      } else if !Involves(x, a, b, f) {
        CallsKeep(x, a, b, v, i, k, care, f);
        KeepsNow(v, w, f);
        SameView(x, a, b, f);
      } else {
        Shows(x, a, b, v, i, k, care, f);
      }
    }
  }

  lemma Shows(x: Change, a: Disk, b: Disk, v: Vol, i: nat, k: nat, care: bool, f: D.File)
    requires Fits(x, a, b) && FreshInode(v, i) && Visible(x) <= k <= Calls(x) && Sane(v) && Tracks(v, a)
    requires Involves(x, a, b, f) && !f.Temp?
    ensures D.Now(AfterCalls(x, a, b, v, i, k, care), f) == View(b, f)
  {
    if Replaces(x) {
      D.ReplaceInode(v, f, i, View(b, f).value, k);
    } else {
      match x
      case Taken => RenameShows(v, D.Incoming, D.Claimed);
      case EvidenceMoved(l) => EvidenceShows(a, b, v, k, a.journal.value, l);
      case ClaimDropped => RemoveShows(v, {D.Claimed}, D.Claimed);
      case SidecarDropped(id) => RemoveShows(v, {D.Sidecar(id)}, D.Sidecar(id));
      case Pruned => RemoveShows(v, GoneFiles(a, b), f);
      case SlotRebuilt(p) => CreateShows(v, D.Slot(p), i, View(b, D.Slot(p)).value);
      case Uploaded(id) => UploadShows(v, a, b, id, i, care);
      case _ =>
    }
  }

  lemma CreateShows(v: Vol, f: D.File, i: nat, c: Content)
    ensures D.Now(D.Create(v, f, i, c), f) == Some(c)
  {
  }

  lemma RemoveShows(v: Vol, fs: set<D.File>, f: D.File)
    requires f in fs
    ensures D.Now(D.Remove(v, fs), f) == None
  {
  }

  lemma UploadShows(v: Vol, a: Disk, b: Disk, id: SnapshotId, i: nat, care: bool)
    requires Fits(Uploaded(id), a, b) && FreshInode(v, i) && Sane(v) && Tracks(v, a)
    ensures D.Now(UploadAt(v, a, b, id, i, care), D.Sidecar(id)) == View(b, D.Sidecar(id))
    ensures D.Now(UploadAt(v, a, b, id, i, care), D.Incoming) == View(b, D.Incoming)
  {
    var c := View(b, D.Incoming).value;
    assert D.Now(v, D.Sidecar(id)) == View(a, D.Sidecar(id));
    PublishShows(v, a, b, id, i);
    CreateShows(PublishAt(v, a, b, id, i), D.Incoming, i + 1, c);
    CreateKeepsNow(PublishAt(v, a, b, id, i), D.Incoming, i + 1, c, D.Sidecar(id));
  }

  lemma PublishShows(v: Vol, a: Disk, b: Disk, id: SnapshotId, i: nat)
    requires View(b, D.Sidecar(id)).Some? && Sane(v) && FreshInode(v, i)
    requires id in a.sidecars ==> D.Now(v, D.Sidecar(id)) == View(b, D.Sidecar(id))
    ensures var u := PublishAt(v, a, b, id, i);
            Sane(u) && FreshInode(u, i + 1) && D.Now(u, D.Sidecar(id)) == View(b, D.Sidecar(id))
  {
    if id !in a.sidecars {
      CreateShows(v, D.Sidecar(id), i, View(b, D.Sidecar(id)).value);
      CreateSane(v, D.Sidecar(id), i, View(b, D.Sidecar(id)).value);
    }
  }

  lemma CreateKeepsNow(v: Vol, f: D.File, i: nat, c: Content, h: D.File)
    requires Sane(v) && FreshInode(v, i) && h != f
    ensures D.Now(D.Create(v, f, i, c), h) == D.Now(v, h)
  {
    D.CreateKeeps(v, f, i, c, h);
    KeepsNow(v, D.Create(v, f, i, c), h);
  }

  lemma EvidenceShows(a: Disk, b: Disk, v: Vol, k: nat, entry: Entry, l: Label)
    requires Fits(EvidenceMoved(l), a, b) && entry == a.journal.value && Tracks(v, a) && k > 0
    ensures var w := MoveAt(v, SourceName(entry, l), D.Evidence(PathOf(entry, l)), k);
            && D.Now(w, D.Evidence(PathOf(entry, l))) == View(b, D.Evidence(PathOf(entry, l)))
            && D.Now(w, SourceName(entry, l)) == View(b, SourceName(entry, l))
  {
    MoveShows(v, SourceName(entry, l), D.Evidence(PathOf(entry, l)), k);
    assert D.Now(v, SourceName(entry, l)) == View(a, SourceName(entry, l));
  }

  lemma RenameShows(v: Vol, f: D.File, g: D.File)
    requires f != g
    ensures D.Now(D.Rename(v, f, g), g) == D.Now(v, f) && D.Now(D.Rename(v, f, g), f) == None
  {
    D.RenameEntry(v, f, g);
  }

  lemma MoveShows(v: Vol, f: D.File, g: D.File, k: nat)
    requires f != g && k > 0
    ensures D.Now(MoveAt(v, f, g, k), g) == D.Now(v, f) && D.Now(MoveAt(v, f, g, k), f) == None
  {
    RenameShows(v, f, g);
  }
}
