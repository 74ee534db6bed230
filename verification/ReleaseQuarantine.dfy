/** Quarantine as a transformation of the disk: which files a finished quarantine
    leaves, and that no step on the way breaks the invariant. */
module ReleaseQuarantine {
  import opened Outcomes
  import opened Manifests
  import opened ReleaseTypes
  import opened ReleaseInvariant

  function Put(q: map<QPath, QFile>, p: QPath, f: Option<QFile>): map<QPath, QFile> {
    if f.Some? then q[p := f.value] else q
  }

  /** The file that `o` held for an evidence label, when the intent captures it. */
  function CapturedFile(o: Disk, entry: Entry, l: Label): Option<QFile>
    requires entry.Quarantining?
  {
    if entry.intent.Of(l) == Captured then Source(o, l, entry.from, entry.snapshot) else None
  }

  function PathOf(entry: Entry, l: Label): QPath
    requires entry.Quarantining?
  {
    QPath(entry.snapshot, l, entry.intent.id)
  }

  function RecordOf(o: Disk, entry: Entry): Failure
    requires entry.Quarantining?
  {
    RecordFor(entry, CapturedFile(o, entry, BaseFile), CapturedFile(o, entry, CandidateFile),
              CapturedFile(o, entry, ManifestFile))
  }

  /** The evidence files of the intent, added to what `o` already kept. */
  function EvidenceFiles(o: Disk, entry: Entry): map<QPath, QFile>
    requires entry.Quarantining?
  {
    Put(Put(Put(o.quarantine,
                PathOf(entry, BaseFile), CapturedFile(o, entry, BaseFile)),
            PathOf(entry, CandidateFile), CapturedFile(o, entry, CandidateFile)),
        PathOf(entry, ManifestFile), CapturedFile(o, entry, ManifestFile))
  }

  /** The quarantine after the intent `entry`, written on disk `o`, is complete. */
  function Archive(o: Disk, entry: Entry): map<QPath, QFile>
    requires entry.Quarantining?
  {
    EvidenceFiles(o, entry)[PathOf(entry, FailureFile) := FailureRecord(RecordOf(o, entry))]
  }

  function ClosedEntry(o: Disk, entry: Entry): Entry
    requires entry.Quarantining?
  {
    Quarantined(PathOf(entry, FailureFile), RecordId(RecordOf(o, entry)))
  }

  /** Everything captured has arrived. */
  ghost predicate AllMoved(o: Disk, d: Disk, entry: Entry)
    requires entry.Quarantining?
  {
    forall l :: entry.intent.Of(l) == Captured ==>
      PathOf(entry, l) in d.quarantine && Source(d, l, entry.from, entry.snapshot).None?
  }

  /** Whatever moves and crashes led from `o` to `d`, once everything captured has
      arrived and the record is written, the quarantine is the same. */
  lemma ArchiveReached(o: Disk, d: Disk, entry: Entry)
    requires entry.Quarantining? && Moving(o, d, entry) && AllMoved(o, d, entry)
    ensures d.quarantine[PathOf(entry, FailureFile) := FailureRecord(RecordOf(o, entry))] == Archive(o, entry)
    ensures d.claimed.None?
    ensures forall l :: l != FailureFile ==> At(d.quarantine, PathOf(entry, l)) == CapturedFile(o, entry, l)
  {
    forall l | l != FailureFile
      ensures At(d.quarantine, PathOf(entry, l)) == CapturedFile(o, entry, l)
    {
      assert LabelOk(o, d, entry, l);
    }
    var left := d.quarantine[PathOf(entry, FailureFile) := FailureRecord(RecordOf(o, entry))];
    var right := Archive(o, entry);
    assert LabelOk(o, d, entry, BaseFile);
    forall q | q in left || q in right
      ensures At(left, q) == At(right, q)
    {
      if q in d.quarantine && q !in o.quarantine {
        assert q == PathOf(entry, q.kind);
      }
      if q == PathOf(entry, q.kind) {
        assert q !in o.quarantine;
      }
    }
    assert forall q :: q in left <==> q in right by {
      forall q ensures q in left <==> q in right { assert At(left, q) == At(right, q) || (q !in left && q !in right); }
    }
    assert left == right by {
      forall q | q in left ensures left[q] == right[q] { assert At(left, q) == At(right, q); }
    }
  }

  /** The finished quarantine passes `_validate_quarantined_entry`. */
  lemma ArchiveAccepted(o: Disk, d: Disk, entry: Entry)
    requires entry.Quarantining? && Moving(o, d, entry) && AllMoved(o, d, entry)
    ensures QuarantinedOk(ClosedEntry(o, entry), Archive(o, entry))
  {
    ArchiveReached(o, d, entry);
    var q := Archive(o, entry);
    var f := RecordOf(o, entry);
    assert q[PathOf(entry, FailureFile)] == FailureRecord(f);
    forall l | l != FailureFile
      ensures At(q, PathOf(entry, l)) == CapturedFile(o, entry, l)
    {
      assert At(q, PathOf(entry, l)) == At(d.quarantine, PathOf(entry, l));
    }
  }

  // ---------- no step breaks the invariant ----------

  /** The intent `_quarantine` writes for the disk it sees. */
  predicate IntentFor(d: Disk, entry: Entry) {
    && entry.Quarantining?
    && var i := entry.intent;
    && i.id == d.nextId
    && !i.retirementFailed
    && i.base == (if d.claimed.Some? then Captured else MissingAtFailure)
    && (i.candidate.Captured? <==> i.candidate != NotApplicable && entry.from in d.slots)
    && i.manifest == (if entry.snapshot in d.sidecars then Captured else MissingAtFailure)
  }

  lemma IntentKeepsInv(e: World, d: Disk, u: Units, h: History, entry: Entry)
    requires Inv(e, d, u, h) && Resting(d, u, h)
    requires d.journal.Some? && !d.journal.value.Quarantining? && h.claim !in h.committed
    requires IntentFor(d, entry) && entry.from == h.port.Other() && entry.retries <= 1
    ensures var next := d.(journal := Some(entry), nextId := d.nextId + 1);
            Inv(e, next, u, Advance(h, u, d, next))
  {
    var next := d.(journal := Some(entry), nextId := d.nextId + 1);
    var h' := Advance(h, u, d, next);
    assert h'.origin == Some(d);
    assert Moving(d, next, entry);
  }

  /** A quarantine step that leaves the old release alone keeps the invariant as soon
      as the evidence is still accounted for. */
  lemma StepKeepsInv(e: World, d: Disk, u: Units, h: History, entry: Entry, next: Disk)
    requires Inv(e, d, u, h) && entry.Quarantining? && entry.from == h.port.Other()
    requires d.journal.Some? && d.journal.value.Quarantining? && next.journal == Some(entry)
    requires SlotOf(next, h.port) == SlotOf(d, h.port) && next.upstream == d.upstream
    requires next.basis == d.basis && next.receipt == d.receipt && next.nextId == d.nextId
    requires Moving(h.origin.value, next, entry)
    requires forall q :: q in next.quarantine ==> q.id < d.nextId
    ensures Inv(e, next, u, Advance(h, u, d, next))
  {
  }

  /** The same intent, now with a recorded retirement failure. */
  lemma RetirementFailureKeepsInv(e: World, d: Disk, u: Units, h: History, entry: Entry)
    requires Inv(e, d, u, h) && d.journal == Some(entry) && entry.Quarantining? && entry.intent.retireFirst
    ensures var next := d.(journal := Some(entry.(intent := entry.intent.(retirementFailed := true))));
            Inv(e, next, u, Advance(h, u, d, next))
  {
    var failed := entry.(intent := entry.intent.(retirementFailed := true));
    var next := d.(journal := Some(failed));
    assert Moving(h.origin.value, d, entry);
    StillMoving(h.origin.value, d, entry, failed);
    StepKeepsInv(e, d, u, h, failed, next);
  }

  lemma StillMoving(o: Disk, d: Disk, entry: Entry, failed: Entry)
    requires entry.Quarantining? && Moving(o, d, entry) && entry.intent.retireFirst
    requires failed == entry.(intent := entry.intent.(retirementFailed := true))
    ensures Moving(o, d.(journal := Some(failed)), failed)
  {
    forall l | l != FailureFile
      ensures LabelOk(o, d.(journal := Some(failed)), failed, l)
    {
      assert LabelOk(o, d, entry, l);
    }
  }

  lemma MoveKeepsInv(e: World, d: Disk, u: Units, h: History, entry: Entry, l: Label)
    requires Inv(e, d, u, h) && d.journal == Some(entry) && entry.Quarantining?
    requires entry.intent.Of(l) == Captured && Source(d, l, entry.from, entry.snapshot).Some?
    ensures var next := Moved(d, l, entry.from, entry.snapshot, entry.intent.id);
            Inv(e, next, u, Advance(h, u, d, next))
  {
    var next := Moved(d, l, entry.from, entry.snapshot, entry.intent.id);
    assert Moving(h.origin.value, d, entry);
    MoveKeepsMoving(h.origin.value, d, entry, l);
    StepKeepsInv(e, d, u, h, entry, next);
  }

  lemma MoveKeepsMoving(o: Disk, d: Disk, entry: Entry, l: Label)
    requires entry.Quarantining? && Moving(o, d, entry)
    requires entry.intent.Of(l) == Captured && Source(d, l, entry.from, entry.snapshot).Some?
    ensures Moving(o, Moved(d, l, entry.from, entry.snapshot, entry.intent.id), entry)
  {
    var next := Moved(d, l, entry.from, entry.snapshot, entry.intent.id);
    assert l != FailureFile && LabelOk(o, d, entry, l);
    MovedOnly(d, entry, l);
    forall k | k != FailureFile
      ensures LabelOk(o, next, entry, k)
    {
      assert LabelOk(o, d, entry, k);
    }
  }

  /** A move takes one file from its source to its destination, and nothing else. */
  lemma MovedOnly(d: Disk, entry: Entry, l: Label)
    requires entry.Quarantining? && Source(d, l, entry.from, entry.snapshot).Some?
    ensures var next := Moved(d, l, entry.from, entry.snapshot, entry.intent.id);
            && At(next.quarantine, PathOf(entry, l)) == Source(d, l, entry.from, entry.snapshot)
            && Source(next, l, entry.from, entry.snapshot).None?
            && (forall k :: k != l ==>
                  && At(next.quarantine, PathOf(entry, k)) == At(d.quarantine, PathOf(entry, k))
                  && Source(next, k, entry.from, entry.snapshot) == Source(d, k, entry.from, entry.snapshot))
  {
  }

  lemma RecordKeepsInv(e: World, d: Disk, u: Units, h: History, entry: Entry, f: Failure)
    requires Inv(e, d, u, h) && d.journal == Some(entry) && entry.Quarantining?
    ensures var next := d.(quarantine := d.quarantine[PathOf(entry, FailureFile) := FailureRecord(f)]);
            Inv(e, next, u, Advance(h, u, d, next))
  {
    var next := d.(quarantine := d.quarantine[PathOf(entry, FailureFile) := FailureRecord(f)]);
    var o := h.origin.value;
    assert Moving(o, d, entry);
    forall k | k != FailureFile
      ensures LabelOk(o, next, entry, k)
    {
      assert LabelOk(o, d, entry, k);
    }
    StepKeepsInv(e, d, u, h, entry, next);
  }

  lemma CloseKeepsInv(e: World, d: Disk, u: Units, h: History, entry: Entry)
    requires Inv(e, d, u, h) && d.journal == Some(entry) && entry.Quarantining?
    requires AllMoved(h.origin.value, d, entry) && d.quarantine == Archive(h.origin.value, entry)
    ensures var next := d.(journal := Some(ClosedEntry(h.origin.value, entry)));
            Inv(e, next, u, Advance(h, u, d, next))
  {
    var o := h.origin.value;
    var next := d.(journal := Some(ClosedEntry(o, entry)));
    ArchiveReached(o, d, entry);
    ArchiveAccepted(o, d, entry);
  }

  /** Retention removes only files of other snapshots' directories. */
  lemma PruneKeepsInv(e: World, d: Disk, u: Units, h: History, gone: set<QPath>)
    requires Inv(e, d, u, h) && d.journal.Some? && d.journal.value.Quarantined?
    requires forall q :: q in gone ==> q.dir != d.journal.value.path.dir
    ensures var next := d.(quarantine := d.quarantine - gone);
            Inv(e, next, u, Advance(h, u, d, next))
  {
    var next := d.(quarantine := d.quarantine - gone);
    var entry := d.journal.value;
    forall q: QPath | q.dir == entry.path.dir
      ensures At(next.quarantine, q) == At(d.quarantine, q)
    {
    }
    QuarantinedFrame(entry, d.quarantine, next.quarantine);
  }

  lemma QuarantinedFrame(entry: Entry, q: map<QPath, QFile>, r: map<QPath, QFile>)
    requires entry.Quarantined? && QuarantinedOk(entry, q)
    requires forall p: QPath :: p.dir == entry.path.dir ==> At(r, p) == At(q, p)
    ensures QuarantinedOk(entry, r)
  {
    var f := q[entry.path].failure;
    assert At(r, entry.path) == At(q, entry.path);
    forall l: Label
      ensures At(r, QPath(f.snapshot, l, f.id)) == At(q, QPath(f.snapshot, l, f.id))
    {
    }
  }
}
