/** The methods of `Deploy` (deploy/sync/apply_db_update.py), effect by effect. */
module ReleaseDeploy {
  import opened Outcomes
  import opened Manifests
  import opened ReleaseTypes
  import opened ReleaseInvariant
  import opened ReleaseSteps
  import opened ReleaseQuarantine
  import opened ReleaseTrail
  import opened ReleaseHost

  /** What a restart is judged by. */
  datatype Scene = Scene(journal: Option<Entry>, committed: Port, units: Units, bounces: seq<Bounce>)

  class Deploy {
    const t: Host

    constructor (t: Host)
      ensures this.t == t
    {
      this.t := t;
    }

    /** The last committed slot's unit is live. */
    ghost predicate OldUp()
      reads t
    {
      t.hist.port in t.units.running
    }

    /** A run in which nothing crashes, commands succeed, and probes answer as the slot
        they reach. */
    predicate Cooperative()
      reads t
    {
      t.Steady() && t.env.honest && t.polls > 0
    }

    // ---------------- journal ----------------

    /** `journal_write`: the rollback and finalize states are validated against the
        disk before the entry is replaced. */
    method JournalWrite(e: Entry) returns (r: Outcome)
      requires t.Safe()
      requires var next := t.disk.(journal := Some(e));
               Inv(t.env, next, t.units, Advance(t.hist, t.units, t.disk, next))
      requires Follows(t.disk.journal, e) && Closed(Some(e), t.trail.open)
      requires e.Quarantining? ==> t.disk.journal.value.Quarantining? && KeepsPaths(t.disk, e)
      modifies t`disk, t`hist, t`trail
      ensures t.Safe() && t.trail.open == old(t.trail).open && t.trail.bounces == old(t.trail).bounces
      ensures r != Infra && (r.Raised? ==> e.Pending? || e.RollbackFailed?) && (r.Authority? ==> e.ConsumerVerified?)
      ensures !t.fate.Any? && !(e.ConsumerVerified? && t.fate.CannotReadAuthority?) ==> r.Done?
      ensures r.Done? ==> t.disk == old(t.disk).(journal := Some(e))
                          && t.hist == Advance(old(t.hist), t.units, old(t.disk), t.disk)
      ensures r.IsError() ==> t.disk == old(t.disk) && t.hist == old(t.hist)
      ensures t.disk == old(t.disk) || t.disk == old(t.disk).(journal := Some(e))
      ensures !e.Claiming? && !e.Committed? ==> t.hist == old(t.hist)
      ensures e.Committed? ==> t.hist.attempts == old(t.hist.attempts)
    {
      EntryChecked(t.env, t.disk, t.units, Advance(t.hist, t.units, t.disk, WithEntry(t.disk, e)), e);
      r := CheckEntry(e);
      if r.IsFailure() { return; }
      r := t.StoreJournal(e);
    }

    method CheckEntry(e: Entry) returns (r: Outcome)
      requires EntryHolds(t.disk, e)
      ensures r.Done? || (r.Raised? && (e.Pending? || e.RollbackFailed?)) || (r.Authority? && e.ConsumerVerified?)
      ensures !t.fate.Any? && !(e.ConsumerVerified? && t.fate.CannotReadAuthority?) ==> r.Done?
    {
      match e {
        case Pending(_, rel, o) =>
          var ok := t.Confirm(OracleHolds(t.disk, rel, o));
          r := if ok then Done else Raised;
        case RollbackFailed(rel, o, _) =>
          var ok := t.Confirm(OracleHolds(t.disk, rel, o));
          r := if ok then Done else Raised;
        case ConsumerVerified(rel) =>
          var ok := t.ConfirmAuthority(AuthorityHolds(t.disk, rel));
          r := if ok then Done else Authority;
        case _ => r := Done;
      }
    }

    // ---------------- switch primitives ----------------

    /** `_switch_include`: link check, include, `nginx -t`, reload. */
    method SwitchInclude(p: Port) returns (r: Outcome)
      requires t.Safe() && p in t.units.enabled
      requires Undecidable(t.disk.journal)
               || (&& t.disk.upstream == p && t.units.loaded == p
                   && t.disk.journal.Some? && t.disk.journal.value.Prepared?)
      modifies t`disk, t`units, t`hist, t`trail, t`heard
      ensures t.Safe() && t.trail.bounces == old(t.trail).bounces
      ensures r.Done? || r.Raised? || r.Died?
      ensures !t.fate.Any? ==> r.Done?
      ensures r.Done? ==> t.disk.upstream == p && t.units.loaded == p && IncludePiece !in t.trail.open
      ensures t.units == old(t.units).(loaded := t.units.loaded)
      ensures !r.Died? ==> t.disk == old(t.disk).(upstream := t.disk.upstream) && t.hist == old(t.hist)
      ensures t.disk.journal == old(t.disk.journal)
    {
      var linked := t.Confirm(true);
      if !linked { return Raised; }
      RouteKeepsInv(t.env, t.disk, t.units, t.hist, p);
      :- t.StoreInclude(p);
      r := LoadInclude(p);
    }

    /** `nginx -t`, then the reload. */
    method LoadInclude(p: Port) returns (r: Outcome)
      requires t.Sound() && p in t.units.enabled && t.disk.upstream == p
      requires Undecidable(t.disk.journal) || t.units.loaded == p
      modifies t`units
      ensures t.Sound()
      ensures r.Done? || r.Raised? || r.Died?
      ensures !t.fate.Any? ==> r.Done?
      ensures r.Done? ==> t.units.loaded == p
      ensures t.units == old(t.units).(loaded := t.units.loaded)
    {
      var accepted := t.Confirm(true);
      if !accepted { return Raised; }
      RouteKeepsInv(t.env, t.disk, t.units, t.hist, p);
      r := t.Command(ReloadNginx);
    }

    /** `_retire_candidate`: disable, then stop. */
    method RetireCandidate(p: Port) returns (r: Outcome)
      requires t.Sound() && p == t.hist.port.Other()
      requires t.disk.upstream == t.hist.port && t.units.loaded == t.hist.port
      modifies t`units
      ensures t.Sound()
      ensures r.Done? || r.Raised? || r.Died?
      ensures !t.fate.Any? ==> r.Done?
      ensures r.Done? ==> p !in t.units.running && p !in t.units.enabled
      ensures t.units.loaded == old(t.units.loaded)
      ensures OldUp() <==> old(OldUp())
    {
      assert UnitsFrom(t.disk, t.units, Effect(Disable(p), t.disk, t.units));
      UnitsKeepInv(t.env, t.disk, t.units, Effect(Disable(p), t.disk, t.units), t.hist);
      :- t.Command(Disable(p));
      UnitsKeepInv(t.env, t.disk, t.units, Effect(Stop(p), t.disk, t.units), t.hist);
      r := t.Command(Stop(p));
    }

    /** `_ensure_slot_serving`.  A live slot whose health check got no answer is restarted
        too, and nginx may have it loaded. */
    method EnsureSlotServing(p: Port) returns (r: Outcome)
      requires t.Safe() && p == t.hist.port && Undecidable(t.disk.journal)
      modifies t`units, t`trail, t`heard
      ensures t.Safe() && t.trail == old(t.trail).(bounces := t.trail.bounces)
      ensures r.Done? || r.Raised? || r.Died?
      ensures t.Steady() && t.polls > 0 ==> r.Done?
      ensures !t.fate.Any? && !t.fate.CannotReadHealth? ==> t.trail == old(t.trail)
      ensures t.fate.CannotReadHealth? ==> TakenDown(p, old(Now())) && r.Raised?
      ensures r.Done? ==> p in t.units.running
      ensures t.units == old(t.units).(running := t.units.running)
      ensures t.trail.bounces == old(t.trail).bounces || Unheeded(p, old(Now()))
    {
      var up := t.SlotServing(p);
      if up { return Done; }
      UnitsKeepInv(t.env, t.disk, t.units, Effect(Restart(p), t.disk, t.units), t.hist);
      UnitsKeepInv(t.env, t.disk, t.units, Effect(Stop(p), t.disk, t.units), t.hist);
      :- t.RestartUnit(p);
      up := t.WaitServing(p);
      r := if up then Done else Raised;
    }

    /** The unit of `p` went down in a restart, which is noted if it was live and loaded. */
    ghost predicate TakenDown(p: Port, was: Scene)
      reads t
    {
      && t.units == was.units.(running := was.units.running - {p})
      && Unheeded(p, was)
    }

    /** All that is noted is the restart of `p`, if it was live and loaded, after a health
        check of it had got no answer. */
    ghost predicate Unheeded(p: Port, was: Scene)
      reads t
    {
      t.trail.bounces == was.bounces + Bounced(was.journal, was.units, was.committed, p,
                                               Some(HealthCheck(p, was.journal, was.units, false)))
    }

    ghost function Now(): Scene
      reads t
    {
      Scene(t.disk.journal, t.hist.port, t.units, t.trail.bounces)
    }

    /** `_stop_slot_and_confirm`. */
    method StopSlotAndConfirm(p: Port) returns (r: Outcome)
      requires t.Sound() && p != t.units.loaded
      modifies t`units, t`heard
      ensures t.Sound()
      ensures r.Done? || r.Raised? || r.Died?
      ensures t.Steady() ==> r.Done?
      ensures r.Done? ==> p !in t.units.running
      ensures t.units == old(t.units) || t.units == Effect(Stop(p), t.disk, old(t.units))
    {
      UnitsKeepInv(t.env, t.disk, t.units, Effect(Stop(p), t.disk, t.units), t.hist);
      :- t.Command(Stop(p));
      var up := t.SlotServing(p);
      r := if up then Raised else Done;
    }

    // ---------------- quarantine ----------------

    /** `_move_to_quarantine`: a rename that recognises an earlier replay. */
    method MoveToQuarantine(entry: Entry, l: Label) returns (r: Outcome)
      requires t.Safe() && t.disk.journal == Some(entry) && entry.Quarantining?
      requires entry.intent.Of(l) == Captured
      modifies t`disk, t`hist, t`trail
      ensures t.Safe() && t.hist.origin == old(t.hist.origin) && t.disk.journal == Some(entry)
      ensures t.hist.attempts == old(t.hist.attempts)
      ensures r.Done? || r.Raised? || r.Died?
      ensures t.Steady() ==> r.Done?
      ensures r.Done? ==> PathOf(entry, l) in t.disk.quarantine
                          && Source(t.disk, l, entry.from, entry.snapshot).None?
      ensures t.disk == old(t.disk)
              || (Source(old(t.disk), l, entry.from, entry.snapshot).Some?
                  && t.disk == Moved(old(t.disk), l, entry.from, entry.snapshot, entry.intent.id))
    {
      var source := Source(t.disk, l, entry.from, entry.snapshot);
      assert l != FailureFile && LabelOk(t.hist.origin.value, t.disk, entry, l);
      if PathOf(entry, l) in t.disk.quarantine {
        var gone := t.Confirm(source.None?);
        return if gone then Done else Raised;
      }
      var present := t.Confirm(source.Some?);
      if !present { return Raised; }
      MoveKeepsInv(t.env, t.disk, t.units, t.hist, entry, l);
      MovedOnly(t.disk, entry, l);
      r := t.StoreEvidence(entry, l);
    }

    method MoveIfCaptured(entry: Entry, l: Label) returns (r: Outcome)
      requires t.Safe() && t.disk.journal == Some(entry) && entry.Quarantining?
      modifies t`disk, t`hist, t`trail
      ensures t.Safe() && t.hist.origin == old(t.hist.origin) && t.disk.journal == Some(entry)
      ensures t.hist.attempts == old(t.hist.attempts)
      ensures r.Done? || r.Raised? || r.Died?
      ensures t.Steady() ==> r.Done?
      ensures r.Done? && entry.intent.Of(l) == Captured ==>
                At(t.disk.quarantine, PathOf(entry, l)).Some? && Source(t.disk, l, entry.from, entry.snapshot).None?
      ensures forall k :: k != l ==>
                && At(t.disk.quarantine, PathOf(entry, k)) == At(old(t.disk).quarantine, PathOf(entry, k))
                && Source(t.disk, k, entry.from, entry.snapshot) == Source(old(t.disk), k, entry.from, entry.snapshot)
    {
      r := Done;
      if entry.intent.Of(l) == Captured {
        ghost var d := t.disk;
        r := MoveToQuarantine(entry, l);
        if Source(d, l, entry.from, entry.snapshot).Some? { MovedOnly(d, entry, l); }
      }
    }

    method MoveAll(entry: Entry) returns (r: Outcome)
      requires t.Safe() && t.disk.journal == Some(entry) && entry.Quarantining?
      modifies t`disk, t`hist, t`trail
      ensures t.Safe() && t.hist.origin == old(t.hist.origin) && t.disk.journal == Some(entry)
      ensures t.hist.attempts == old(t.hist.attempts)
      ensures r.Done? || r.Raised? || r.Died?
      ensures t.Steady() ==> r.Done?
      ensures r.Done? ==> AllMoved(t.hist.origin.value, t.disk, entry)
    {
      r := MoveIfCaptured(entry, BaseFile);
      if r.IsFailure() { return; }
      :- MoveIfCaptured(entry, CandidateFile);
      r := MoveIfCaptured(entry, ManifestFile);
      forall l | r.Done? && entry.intent.Of(l) == Captured
        ensures PathOf(entry, l) in t.disk.quarantine && Source(t.disk, l, entry.from, entry.snapshot).None?
      {
        assert At(t.disk.quarantine, PathOf(entry, l)).Some?;
      }
    }

    /** The part of `_complete_quarantine` that a crash may interrupt anywhere: whatever
        was done before, it ends with the archive and entry fixed by the intent and the
        disk the intent was written on. */
    method FileEvidence(entry: Entry) returns (r: Outcome)
      requires t.Safe() && t.disk.journal == Some(entry) && entry.Quarantining?
      modifies t`disk, t`hist, t`trail
      ensures t.Safe()
      ensures t.hist.attempts == old(t.hist.attempts)
      ensures r.Done? || r.Raised? || r.Died?
      ensures t.Steady() ==> r.Done?
      ensures var o := old(t.hist.origin.value);
              r.Done? ==> t.disk.quarantine == Archive(o, entry) && t.disk.journal == Some(ClosedEntry(o, entry))
    {
      r := MoveAll(entry);
      if r.IsFailure() { return; }
      ArchiveReached(t.hist.origin.value, t.disk, entry);
      var b := if entry.intent.base == Captured then At(t.disk.quarantine, PathOf(entry, BaseFile)) else None;
      var c := if entry.intent.candidate == Captured then At(t.disk.quarantine, PathOf(entry, CandidateFile)) else None;
      var m := if entry.intent.manifest == Captured then At(t.disk.quarantine, PathOf(entry, ManifestFile)) else None;
      r := WriteRecord(entry, RecordFor(entry, b, c, m));
    }

    method WriteRecord(entry: Entry, f: Failure) returns (r: Outcome)
      requires t.Safe() && t.disk.journal == Some(entry) && entry.Quarantining?
      requires f == RecordOf(t.hist.origin.value, entry) && AllMoved(t.hist.origin.value, t.disk, entry)
      modifies t`disk, t`hist, t`trail
      ensures t.Safe()
      ensures t.hist.attempts == old(t.hist.attempts)
      ensures r.Done? || r.Died?
      ensures t.Steady() ==> r.Done?
      ensures var o := old(t.hist.origin.value);
              r.Done? ==> t.disk.quarantine == Archive(o, entry) && t.disk.journal == Some(ClosedEntry(o, entry))
    {
      r := WriteFailureFile(entry, f);
      if r.IsFailure() { return; }
      r := CloseQuarantine(entry);
    }

    method CloseQuarantine(entry: Entry) returns (r: Outcome)
      requires t.Safe() && t.disk.journal == Some(entry) && entry.Quarantining?
      requires AllMoved(t.hist.origin.value, t.disk, entry)
      requires t.disk.quarantine == Archive(t.hist.origin.value, entry) && RecordPiece !in t.trail.open
      modifies t`disk, t`hist, t`trail
      ensures t.Safe() && t.hist.attempts == old(t.hist.attempts)
      ensures r.Done? || r.Died?
      ensures t.Steady() ==> r.Done?
      ensures r.Done? ==> t.disk == WithEntry(old(t.disk), ClosedEntry(old(t.hist.origin.value), entry))
    {
      var f := t.disk.quarantine[PathOf(entry, FailureFile)].failure;
      CloseKeepsInv(t.env, t.disk, t.units, t.hist, entry);
      r := JournalWrite(Quarantined(PathOf(entry, FailureFile), RecordId(f)));
    }

    method WriteFailureFile(entry: Entry, f: Failure) returns (r: Outcome)
      requires t.Safe() && t.disk.journal == Some(entry) && entry.Quarantining?
      requires f == RecordOf(t.hist.origin.value, entry) && AllMoved(t.hist.origin.value, t.disk, entry)
      modifies t`disk, t`hist, t`trail
      ensures t.Safe()
      ensures t.hist.attempts == old(t.hist.attempts) && t.hist.origin == old(t.hist.origin)
      ensures r.Done? || r.Died?
      ensures t.Steady() ==> r.Done?
      ensures r.Done? ==> t.disk.journal == Some(entry) && AllMoved(t.hist.origin.value, t.disk, entry)
                          && t.disk.quarantine == Archive(t.hist.origin.value, entry)
                          && RecordPiece !in t.trail.open
    {
      ArchiveReached(t.hist.origin.value, t.disk, entry);
      RecordKeepsInv(t.env, t.disk, t.units, t.hist, entry, f);
      r := t.StoreRecord(entry, f);
    }

    /** `_prune_quarantine`: the newest `keep - 1` other directories stay, of the rest
        each is removed as far as the file system lets it. */
    method PruneQuarantine(dir: SnapshotId, age: SnapshotId -> nat) returns (r: Outcome)
      requires t.Safe() && ClosedIn(t.disk.journal, dir)
      modifies t`disk, t`hist, t`trail
      ensures t.Safe() && OnlyPruned(old(t.disk), t.disk, dir)
      ensures t.hist.attempts == old(t.hist.attempts)
      ensures r.Done? || r.Died?
      ensures t.Steady() ==> r.Done?
      ensures t.Steady() ==> NewestKept(old(t.disk).quarantine, t.disk.quarantine, dir, t.keep, age)
    {
      var all := OtherDirs(t.disk.quarantine, dir);
      var survivors := Newest(all, t.keep, age);
      ghost var before := t.disk;
      r := RemoveTrees(dir, all - survivors, age);
      if t.Steady() {
        SurvivorsLeft(before.quarantine, t.disk.quarantine, dir, survivors);
      }
    }

    /** The loop over `rmtree`: a directory that cannot be removed is skipped. */
    method RemoveTrees(dir: SnapshotId, doomed: set<SnapshotId>, age: SnapshotId -> nat) returns (r: Outcome)
      requires t.Safe() && ClosedIn(t.disk.journal, dir) && dir !in doomed
      modifies t`disk, t`hist, t`trail
      ensures t.Safe() && OnlyPruned(old(t.disk), t.disk, dir)
      ensures t.hist.attempts == old(t.hist.attempts)
      ensures r.Done? || r.Died?
      ensures t.Steady() ==> r.Done?
      ensures forall q :: q in old(t.disk).quarantine && q.dir !in doomed ==> q in t.disk.quarantine
      ensures t.Steady() ==> forall q :: q in t.disk.quarantine ==> q.dir !in doomed
    {
      var others := doomed;
      while others != {}
        invariant t.Safe() && OnlyPruned(old(t.disk), t.disk, dir) && t.hist.attempts == old(t.hist.attempts)
        invariant others <= doomed
        invariant forall q :: q in old(t.disk).quarantine && q.dir !in doomed ==> q in t.disk.quarantine
        invariant t.Steady() ==> forall q :: q in t.disk.quarantine ==> q.dir !in doomed - others
        decreases others
      {
        HasNewest(others, age);
        var x :| x in others && forall y :: y in others ==> age(x) >= age(y);
        :- RemoveTree(dir, x);
        others := others - {x};
      }
      r := Done;
    }

    method RemoveTree(dir: SnapshotId, x: SnapshotId) returns (r: Outcome)
      requires t.Safe() && ClosedIn(t.disk.journal, dir) && x != dir
      modifies t`disk, t`hist, t`trail
      ensures t.Safe() && OnlyPruned(old(t.disk), t.disk, dir)
      ensures t.hist.attempts == old(t.hist.attempts)
      ensures r.Done? || r.Died?
      ensures t.Steady() ==> r.Done?
      ensures forall q :: q in old(t.disk).quarantine && q.dir != x ==> q in t.disk.quarantine
      ensures t.Steady() ==> forall q :: q in t.disk.quarantine ==> q.dir != x
    {
      var gone := set q | q in t.disk.quarantine && q.dir == x;
      var failed: set<QPath> := *;
      if t.fate.Any? { gone := gone - failed; }
      r := RemoveFiles(dir, gone);
    }

    method RemoveFiles(dir: SnapshotId, gone: set<QPath>) returns (r: Outcome)
      requires t.Safe() && ClosedIn(t.disk.journal, dir) && forall q :: q in gone ==> q.dir != dir
      modifies t`disk, t`hist, t`trail
      ensures t.Safe() && t.hist.attempts == old(t.hist.attempts)
      ensures r.Done? || r.Died?
      ensures t.Steady() ==> r.Done?
      ensures r.Done? ==> t.disk == old(t.disk).(quarantine := old(t.disk).quarantine - gone)
      ensures r.Died? ==> t.disk == old(t.disk) || t.disk == old(t.disk).(quarantine := old(t.disk).quarantine - gone)
    {
      PruneKeepsInv(t.env, t.disk, t.units, t.hist, gone);
      r := t.StorePruned(gone);
    }

    /** `_complete_quarantine`: retire the candidate if the intent says so, file the
        evidence, then prune. */
    method CompleteQuarantine(entry: Entry) returns (r: Outcome)
      requires t.Safe() && t.disk.journal == Some(entry) && entry.Quarantining?
      modifies t`disk, t`units, t`hist, t`trail, t`heard
      ensures t.Safe()
      ensures t.hist.attempts == old(t.hist.attempts)
      ensures r.Done? || r.Raised? || r.Died?
      ensures t.Steady() ==> r.Done?
      ensures var o := old(t.hist.origin.value);
              r.Done? ==> t.disk.journal == Some(ClosedEntry(o, entry))
                          && PrunedTo(Archive(o, entry), t.disk.quarantine, entry.snapshot)
    {
      if entry.intent.retireFirst {
        :- RetireBeforeCapture(entry);
      }
      :- FileEvidence(entry);
      var age := t.ModTimes();
      r := PruneQuarantine(entry.snapshot, age);
    }

    /** A retirement that fails is recorded in the intent, and the quarantine waits. */
    method RetireBeforeCapture(entry: Entry) returns (r: Outcome)
      requires t.Safe() && t.disk.journal == Some(entry) && entry.Quarantining? && entry.intent.retireFirst
      modifies t`disk, t`units, t`hist, t`trail, t`heard
      ensures t.Safe()
      ensures t.hist.attempts == old(t.hist.attempts)
      ensures r.Done? || r.Raised? || r.Died?
      ensures t.Steady() ==> r.Done?
      ensures r.Done? ==> t.disk == old(t.disk) && t.hist == old(t.hist) && entry.from !in t.units.running
    {
      r := RetireCandidate(entry.from);
      if r.Raised? {
        RetirementFailureKeepsInv(t.env, t.disk, t.units, t.hist, entry);
        r := JournalWrite(entry.(intent := entry.intent.(retirementFailed := true)));
        r := if r.Died? then Died else Raised;
      }
    }

    /** `_quarantine`: write the intent for what is on disk now, then complete it. */
    method Quarantine(from: Port, snapshot: SnapshotId, declared: Option<ManifestId>, retries: nat,
                      category: Category, includeCandidate: bool, retireFirst: bool)
      returns (r: Outcome)
      requires t.Safe() && Resting(t.disk, t.units, t.hist) && from == t.hist.port.Other()
      requires BeforeTraffic(t.disk.journal) || Undecidable(t.disk.journal)
      requires t.hist.claim !in t.hist.committed && retries <= 1
      modifies t`disk, t`units, t`hist, t`trail, t`heard
      ensures t.Safe()
      ensures t.hist.attempts == old(t.hist.attempts)
      ensures r.Done? || r.Raised? || r.Died?
      ensures t.Steady() ==> r.Done?
      ensures r.Done? ==> t.disk.journal.Some? && t.disk.journal.value.Quarantined?
    {
      var active := t.ActivePort();
      var entry := Quarantining(from, snapshot, declared, retries,
        Intent(t.disk.nextId, category, active, retireFirst, false,
               if t.disk.claimed.Some? then Captured else MissingAtFailure,
               if !includeCandidate then NotApplicable
               else if from in t.disk.slots then Captured else MissingAtFailure,
               if snapshot in t.disk.sidecars then Captured else MissingAtFailure));
      :- WriteIntent(entry);
      r := CompleteQuarantine(entry);
    }

    method WriteIntent(entry: Entry) returns (r: Outcome)
      requires t.Safe() && Resting(t.disk, t.units, t.hist)
      requires BeforeTraffic(t.disk.journal) || Undecidable(t.disk.journal)
      requires t.hist.claim !in t.hist.committed
      requires IntentFor(t.disk, entry) && entry.from == t.hist.port.Other() && entry.retries <= 1
      modifies t`disk, t`hist, t`trail
      ensures t.Safe()
      ensures t.hist.attempts == old(t.hist.attempts)
      ensures r.Done? || r.Died?
      ensures t.Steady() ==> r.Done?
      ensures r.Done? ==> t.disk.journal == Some(entry)
    {
      IntentKeepsInv(t.env, t.disk, t.units, t.hist, entry);
      r := t.StoreIntent(entry);
    }

    // ---------------- rollback ----------------

    /** The guarded part of `_rollback_pending_consumer`: old slot up, traffic back,
        bindings and public answers re-proved, and only then the candidate retired. */
    method TryRollback(rel: Release, o: Oracle) returns (r: Outcome)
      requires t.Safe() && t.disk.journal.Some? && About(t.disk.journal.value, rel, o)
      requires Undecidable(t.disk.journal)
      modifies t`disk, t`units, t`hist, t`trail, t`heard
      ensures t.Safe() && t.disk.journal == old(t.disk.journal)
      ensures r != Authority
      ensures r.Done? ==> t.disk.upstream == t.hist.port && t.units.loaded == t.hist.port
      ensures r.Done? ==> OldProven(t.hist, o) && rel.candidate !in t.units.running
      ensures Cooperative() ==> r.Done?
      ensures t.fate.CannotReadHealth? ==>
                r.Raised? && t.disk == old(t.disk) && TakenDown(old(t.hist.port), old(Now()))
    {
      var prior := rel.candidate.Other();
      :- EnsureSlotServing(prior);
      :- SwitchBack(rel, o);
      :- ProveOldRelease(rel, o);
      r := RetireCandidate(rel.candidate);
    }

    method SwitchBack(rel: Release, o: Oracle) returns (r: Outcome)
      requires t.Safe() && t.disk.journal.Some? && About(t.disk.journal.value, rel, o)
      requires Undecidable(t.disk.journal)
      modifies t`disk, t`units, t`hist, t`trail, t`heard
      ensures t.Safe() && t.disk.journal == old(t.disk.journal)
      ensures r.Done? || r.Raised? || r.Died?
      ensures r.Done? ==> t.disk.upstream == t.hist.port && t.units.loaded == t.hist.port
      ensures t.units.running == old(t.units.running)
      ensures !t.fate.Any? ==> r.Done?
    {
      r := SwitchInclude(rel.candidate.Other());
    }

    /** The re-proof after traffic went back. */
    method ProveOldRelease(rel: Release, o: Oracle) returns (r: Outcome)
      requires t.Sound() && t.disk.journal.Some? && About(t.disk.journal.value, rel, o)
      requires t.units.loaded == t.hist.port
      modifies t`hist, t`heard
      ensures t.Sound() && SameClaim(old(t.hist), t.hist)
      ensures r != Authority && !r.Died?
      ensures r.Done? ==> OldProven(t.hist, o)
      ensures t.Steady() && t.env.honest && t.hist.port in t.units.running ==> r.Done?
    {
      var up := t.SlotServing(o.previous);
      if !up { return Raised; }
      var db := t.Confirm(BindDb(SlotOf(t.disk, o.previous)) == o.oldDb);
      var basis := t.Confirm(BindDb(t.disk.basis) == o.basis);
      var receipt := t.Confirm(BindReceipt(t.disk.receipt) == o.receipt);
      if !db || !basis || !receipt { return Raised; }
      :- t.VerifyAnswers(Public, t.units.loaded, o.terms, o.results);
      r := t.VerifyAnswers(Route, t.units.loaded, o.terms, o.results);
    }

    /** Journal the same undecided release under another entry. */
    method RecordUndecided(rel: Release, o: Oracle, e: Entry) returns (r: Outcome)
      requires t.Safe() && t.disk.journal.Some? && About(t.disk.journal.value, rel, o) && About(e, rel, o)
      requires Undecidable(t.disk.journal)
      requires e.Pending? && e.phase == OldStopping ==> PublicPassed(t.disk, t.hist, rel)
      modifies t`disk, t`hist, t`trail
      ensures t.Safe() && t.trail.open == old(t.trail).open && t.trail.bounces == old(t.trail).bounces
      ensures r.Done? || r.Died? || (r.Raised? && t.disk == old(t.disk))
      ensures !t.fate.Any? ==> r.Done?
      ensures r.Done? ==> t.disk == WithEntry(old(t.disk), e)
      ensures !r.Died? ==> SameClaim(old(t.hist), t.hist) && t.hist.seen == old(t.hist).seen
    {
      StayUndecided(t.env, t.disk, t.units, t.hist, rel, o, e);
      r := JournalWrite(e);
    }

    /** `_rollback_pending_consumer`. */
    method RollbackPendingConsumer(rel: Release, o: Oracle, cause: Category) returns (r: Outcome)
      requires t.Safe() && t.disk.journal.Some? && About(t.disk.journal.value, rel, o)
      requires Undecidable(t.disk.journal)
      modifies t`disk, t`units, t`hist, t`trail, t`heard
      ensures t.Safe()
      ensures r.Done? || r.Raised? || r.Died?
      ensures r.Done? ==> t.disk.journal.Some? && t.disk.journal.value.Quarantined?
      ensures Cooperative() ==> r.Done?
      ensures t.fate.CannotReadHealth? ==> r.Raised? && TakenDown(old(t.hist.port), old(Now()))
    {
      var valid := t.Confirm(OracleHolds(t.disk, rel, o));
      if !valid {
        :- RecordUndecided(rel, o, RollbackBlocked(rel, o));
        return Raised;
      }
      :- MoveTrafficBack(rel, o, cause);
      r := Quarantine(rel.candidate, rel.snapshot, Some(rel.manifest), rel.retry, cause, true, false);
    }

    /** `TryRollback`, with a failure recorded in the journal. */
    method MoveTrafficBack(rel: Release, o: Oracle, cause: Category) returns (r: Outcome)
      requires t.Safe() && t.disk.journal.Some? && About(t.disk.journal.value, rel, o)
      requires Undecidable(t.disk.journal)
      modifies t`disk, t`units, t`hist, t`trail, t`heard
      ensures t.Safe()
      ensures r.Done? || r.Raised? || r.Died?
      ensures r.Done? ==> t.disk.journal == old(t.disk.journal)
                          && t.disk.upstream == t.hist.port && t.units.loaded == t.hist.port
      ensures Cooperative() ==> r.Done?
      ensures t.fate.CannotReadHealth? ==> r.Raised? && TakenDown(old(t.hist.port), old(Now()))
    {
      r := TryRollback(rel, o);
      if r.IsError() {
        :- RecordUndecided(rel, o, RollbackFailed(rel, o, cause));
        r := Raised;
      }
    }

    // ---------------- finalize ----------------

    /** Everything of `finalize` before the basis is written; it changes units only. */
    method ReadyToFinalize(rel: Release) returns (r: Outcome)
      requires t.Safe() && t.disk.journal == Some(ConsumerVerified(rel))
      modifies t`units, t`trail, t`heard
      ensures t.Safe() && t.trail == old(t.trail).(bounces := t.trail.bounces)
      ensures r.Done? || r.Raised? || r.Died?
      ensures t.Steady() && t.polls > 0 ==> r.Done?
      ensures t.fate.CannotReadHealth? ==> r.Raised? && TakenDown(rel.candidate, old(Now()))
      ensures r.Done? ==> rel.candidate in t.units.running
      ensures r.Done? ==> rel.candidate in t.units.enabled && rel.candidate.Other() !in t.units.enabled
    {
      var active := t.ActivePort();
      if active != Some(rel.candidate) { return Raised; }
      var same := t.Confirm(Bound(t.disk, rel));
      if !same { return Raised; }
      var base := t.Confirm(t.env.baseOnly(t.disk.claimed.value));
      if !base { return Raised; }
      :- RestartIfDown(rel);
      r := RetireOld(rel);
    }

    /** The new slot is enabled, the old one disabled and stopped. */
    method RetireOld(rel: Release) returns (r: Outcome)
      requires t.Sound() && t.disk.journal == Some(ConsumerVerified(rel))
      modifies t`units
      ensures t.Sound()
      ensures r.Done? || r.Raised? || r.Died?
      ensures !t.fate.Any? ==> r.Done?
      ensures r.Done? ==> (rel.candidate in t.units.running <==> rel.candidate in old(t.units).running)
      ensures r.Done? ==> rel.candidate in t.units.enabled && rel.candidate.Other() !in t.units.enabled
    {
      UnitsKeepInv(t.env, t.disk, t.units, Effect(Enable(rel.candidate), t.disk, t.units), t.hist);
      :- t.Command(Enable(rel.candidate));
      UnitsKeepInv(t.env, t.disk, t.units, Effect(Disable(rel.candidate.Other()), t.disk, t.units), t.hist);
      :- t.Command(Disable(rel.candidate.Other()));
      UnitsKeepInv(t.env, t.disk, t.units, Effect(Stop(rel.candidate.Other()), t.disk, t.units), t.hist);
      r := t.Command(Stop(rel.candidate.Other()));
      if r.Raised? { r := Done; }  // the result of this stop is not looked at
    }

    /** As `EnsureSlotServing`, for the candidate that nginx has loaded. */
    method RestartIfDown(rel: Release) returns (r: Outcome)
      requires t.Safe() && t.disk.journal == Some(ConsumerVerified(rel))
      modifies t`units, t`trail, t`heard
      ensures t.Safe() && t.trail == old(t.trail).(bounces := t.trail.bounces)
      ensures r.Done? || r.Raised? || r.Died?
      ensures t.Steady() && t.polls > 0 ==> r.Done?
      ensures !t.fate.Any? && !t.fate.CannotReadHealth? ==> t.trail == old(t.trail)
      ensures t.fate.CannotReadHealth? ==> r.Raised? && TakenDown(rel.candidate, old(Now()))
      ensures r.Done? ==> rel.candidate in t.units.running
      ensures t.units.enabled == old(t.units.enabled) && t.units.loaded == old(t.units.loaded)
      ensures t.trail.bounces == old(t.trail).bounces || Unheeded(rel.candidate, old(Now()))
    {
      var up := t.SlotServing(rel.candidate);
      if up { return Done; }
      UnitsKeepInv(t.env, t.disk, t.units, Effect(Restart(rel.candidate), t.disk, t.units), t.hist);
      UnitsKeepInv(t.env, t.disk, t.units, Effect(Stop(rel.candidate), t.disk, t.units), t.hist);
      r := t.RestartUnit(rel.candidate);
      if r.Died? { return; }
      up := t.WaitServing(rel.candidate);
      r := if up then Done else Raised;
    }

    /** This run dies as soon as it has replaced the basis of `d`. */
    predicate Interrupted(d: Disk)
      reads t
    {
      t.fate.DiesAtBasis? && d.basis != d.claimed
    }

    /** Basis, receipt, commit record, in this order; then the claimed files go. */
    method AdvanceBasis(rel: Release) returns (r: Outcome)
      requires t.Safe() && t.disk.journal == Some(ConsumerVerified(rel))
      modifies t`disk, t`hist, t`trail
      ensures t.Safe()
      ensures r.Done? || r.Died?
      ensures t.Steady() ==> if Interrupted(old(t.disk)) then r.Died? else r.Done?
      ensures t.Steady() && r.Died? ==> t.disk == old(t.disk).(basis := old(t.disk).claimed)
      ensures t.Steady() && r.Died? ==> t.hist == old(t.hist).(stored := true)
      ensures r.Done? ==> t.disk == CommittedDisk(old(t.disk), rel)
      ensures t.disk.journal.Some? && !t.disk.journal.value.FinalizeBlocked?
    {
      r := AdvancePair(rel);
      if r.IsFailure() { return; }
      Commit(t.env, t.disk, t.units, t.hist, rel);
      :- JournalWrite(Committed(rel.candidate, rel.snapshot, rel.manifest));
      r := DropClaimed(rel.snapshot);
    }

    method AdvancePair(rel: Release) returns (r: Outcome)
      requires t.Safe() && t.disk.journal == Some(ConsumerVerified(rel))
      modifies t`disk, t`hist, t`trail
      ensures t.Safe() && t.disk.journal == old(t.disk.journal)
      ensures r.Done? || r.Died?
      ensures t.Steady() ==> if Interrupted(old(t.disk)) then r.Died? else r.Done?
      ensures t.Steady() && r.Died? ==> t.disk == old(t.disk).(basis := old(t.disk).claimed)
      ensures t.Steady() && r.Died? ==> t.hist == old(t.hist).(stored := true)
      ensures r.Done? ==> t.disk == old(t.disk).(basis := old(t.disk).claimed,
                                                 receipt := Some(Receipt(rel.snapshot, rel.manifest, rel.candidate)))
      ensures r.Done? ==> Closed(Some(Committed(rel.candidate, rel.snapshot, rel.manifest)), t.trail.open)
    {
      StoreBasis(t.env, t.disk, t.units, t.hist, rel);
      r := t.StoreBasis();
      if r.IsFailure() { return; }
      StoreReceipt(t.env, t.disk, t.units, t.hist, rel);
      r := t.StoreReceipt(rel);
    }

    method DropClaimed(snapshot: SnapshotId) returns (r: Outcome)
      requires t.Safe() && t.disk.journal.Some? && t.disk.journal.value.Committed?
      modifies t`disk, t`hist, t`trail
      ensures t.Safe()
      ensures r.Done? || r.Died?
      ensures t.Steady() ==> r.Done?
      ensures r.Done? ==> t.disk == old(t.disk).(claimed := None, sidecars := old(t.disk).sidecars - {snapshot})
      ensures t.disk.journal == old(t.disk.journal)
    {
      CleanUp(t.env, t.disk, t.units, t.hist, t.disk.(claimed := None));
      :- t.DropClaimed();
      CleanUp(t.env, t.disk, t.units, t.hist, t.disk.(sidecars := t.disk.sidecars - {snapshot}));
      r := t.DropSidecar(snapshot);
    }

    /** `finalize`: the only method that advances the basis and the receipt. */
    method Finalize(rel: Release) returns (r: Outcome)
      requires t.Safe() && t.disk.journal == Some(ConsumerVerified(rel))
      modifies t`disk, t`units, t`hist, t`trail, t`heard
      ensures t.Safe()
      ensures r.Done? || r.Raised? || r.Died?
      ensures t.Steady() && t.polls > 0 ==> if Interrupted(old(t.disk)) then r.Died? else r.Done?
      ensures t.Steady() && t.polls > 0 && r.Died? ==> t.disk == old(t.disk).(basis := old(t.disk).claimed)
      ensures t.Steady() && t.polls > 0 && r.Died? ==> t.hist == old(t.hist).(stored := true)
      ensures t.Steady() && t.polls > 0 && r.Died? ==> rel.candidate in t.units.running
      ensures t.fate.CannotReadHealth? ==> r.Raised? && TakenDown(rel.candidate, old(Now()))
      ensures r.Raised? ==> t.disk == old(t.disk) && t.hist == old(t.hist)
      ensures r.Done? ==> t.disk == CommittedDisk(old(t.disk), rel)
      ensures t.disk.journal.Some? && !t.disk.journal.value.FinalizeBlocked?
    {
      r := ReadyToFinalize(rel);
      if r.IsFailure() { return; }
      r := AdvanceBasis(rel);
    }

    method RecordFinalizing(rel: Release, e: Entry) returns (r: Outcome)
      requires t.Safe() && t.disk.journal == Some(ConsumerVerified(rel)) && FinalizeEntry(e, rel)
      modifies t`disk, t`hist, t`trail
      ensures t.Safe() && t.hist == old(t.hist) && t.trail.bounces == old(t.trail).bounces
      ensures r.Done? || r.Died? || (r.Authority? && e.ConsumerVerified? && t.disk == old(t.disk))
      ensures !t.fate.Any? && !(e.ConsumerVerified? && t.fate.CannotReadAuthority?) ==> r.Done?
      ensures r.Done? ==> t.disk == WithEntry(old(t.disk), e)
      ensures t.disk == old(t.disk) || t.disk == WithEntry(old(t.disk), e)
    {
      StayFinalizing(t.env, t.disk, t.units, t.hist, rel, e);
      r := JournalWrite(e);
    }

    /** `_finalize_with_failure_record`.  A blocked record leaves the pair as the run found
        it: with the new basis exactly when an earlier run had stored one. */
    method FinalizeWithFailureRecord(rel: Release) returns (r: Outcome)
      requires t.Safe() && t.disk.journal == Some(ConsumerVerified(rel))
      modifies t`disk, t`units, t`hist, t`trail, t`heard
      ensures t.Safe()
      ensures r.Done? || r.Raised? || r.Died?
      ensures t.Steady() && t.polls > 0 ==> if Interrupted(old(t.disk)) then r.Died? else r.Done?
      ensures t.Steady() && t.polls > 0 && r.Died? ==> t.disk == old(t.disk).(basis := old(t.disk).claimed)
      ensures t.Steady() && t.polls > 0 && r.Died? ==> t.hist == old(t.hist).(stored := true)
      ensures t.Steady() && t.polls > 0 && r.Died? ==> rel.candidate in t.units.running
      ensures t.fate.CannotReadAuthority? ==> r.Raised? && t.disk == WithEntry(old(t.disk), FinalizeBlocked(rel))
      ensures t.fate.CannotReadHealth? ==> r.Raised? && TakenDown(rel.candidate, old(Now()))
      ensures r.Done? ==> t.disk == CommittedDisk(old(t.disk), rel)
      ensures t.disk.journal == Some(FinalizeBlocked(rel)) ==>
                t.disk == WithEntry(old(t.disk), FinalizeBlocked(rel)) && t.hist == old(t.hist)
    {
      var authority := t.ConfirmAuthority(AuthorityHolds(t.disk, rel));
      if !authority {
        :- RecordFinalizing(rel, FinalizeBlocked(rel));
        return Raised;
      }
      r := Finalize(rel);
      if r.Raised? {
        var w := RecordFinalizing(rel, ConsumerVerified(rel));
        if w.Authority? {
          w := RecordFinalizing(rel, FinalizeBlocked(rel));
        }
        r := if w.Died? then Died else Raised;
      }
    }

    // ---------------- the candidate ----------------

    predicate InQuarantine()
      reads t
    {
      t.disk.journal.Some? && t.disk.journal.value.Quarantined?
    }

    /** What the rebuild makes of a base. */
    function Rebuilt(base: Bytes): Bytes
      reads t
    {
      t.env.rebuild(base, t.verifier)
    }

    /** A base and its rebuild stand all tests before traffic is moved. */
    predicate Passes(base: Bytes, body: Body)
      reads t
    {
      && t.env.baseOnly(base)
      && t.env.ftsOk(Rebuilt(base), body)
      && t.env.serve(Rebuilt(base), body.terms) == body.http
    }

    /** Journal a state before the switch. */
    method RecordBefore(prior: Release, rel: Release, e: Entry) returns (r: Outcome)
      requires t.Safe() && t.disk.journal.Some? && BeforeSwitch(t.disk.journal.value, prior, t.verifier)
      requires BeforeSwitch(e, rel, t.verifier) && prior.retry <= rel.retry <= 1 && rel == prior.(retry := rel.retry)
      modifies t`disk, t`hist, t`trail
      ensures t.Safe() && t.trail.bounces == old(t.trail).bounces
      ensures r.Done? || r.Died?
      ensures t.Steady() ==> r.Done?
      ensures r.Done? ==> t.disk == WithEntry(old(t.disk), e) && t.hist == old(t.hist)
    {
      StayBeforeSwitch(t.env, t.disk, t.units, t.hist, prior, t.verifier, rel, e);
      r := JournalWrite(e);
    }

    method RewriteSlot(rel: Release, db: Bytes, ghost x: Change) returns (r: Outcome)
      requires t.Safe() && t.disk.journal.Some? && BeforeSwitch(t.disk.journal.value, rel, t.verifier)
      requires x == SlotCopied(rel.candidate) || x == SlotRebuilt(rel.candidate)
      modifies t`disk, t`hist, t`trail
      ensures t.Safe()
      ensures r.Done? || r.Died?
      ensures t.Steady() ==> r.Done?
      ensures r.Done? ==> t.disk == old(t.disk).(slots := old(t.disk).slots[rel.candidate := db])
                          && t.hist == old(t.hist)
    {
      RewriteCandidate(t.env, t.disk, t.units, t.hist, rel, t.verifier, db);
      r := t.StoreSlot(rel.candidate, db, x);
    }

    /** `rebuild_fts` in place.  One that fails, or dies, may leave the slot half-built. */
    method RebuildSlot(rel: Release, rebuilt: Bytes) returns (r: Outcome)
      requires t.Safe() && t.disk.journal.Some? && BeforeSwitch(t.disk.journal.value, rel, t.verifier)
      modifies t`disk, t`hist, t`trail
      ensures t.Safe()
      ensures r.Done? || r.Raised? || r.Died?
      ensures t.Steady() ==> r.Done?
      ensures !r.Died? ==> t.disk == old(t.disk).(slots := t.disk.slots) && t.hist == old(t.hist)
      ensures r.Done? ==> t.disk == old(t.disk).(slots := old(t.disk).slots[rel.candidate := rebuilt])
    {
      var fails: bool := *;
      var half: Bytes := *;
      if fails && t.fate.Any? {
        :- RewriteSlot(rel, half, SlotRebuilt(rel.candidate));
        return Raised;
      }
      r := RewriteSlot(rel, rebuilt, SlotRebuilt(rel.candidate));
    }

    /** `_materialize_and_verify_candidate`: copy the base into the candidate slot,
        rebuild its full-text tables in place, check them.  This is what counts as one
        rebuild of the claim. */
    method MaterializeAndVerify(rel: Release, body: Body) returns (r: Outcome)
      requires t.Safe() && t.disk.journal.Some? && BeforeSwitch(t.disk.journal.value, rel, t.verifier)
      requires |t.hist.attempts[t.hist.claim]| <= rel.retry && t.disk.claimed.Some?
      modifies t`disk, t`hist, t`trail
      ensures t.Safe()
      ensures r.Done? || r.Raised? || r.Died?
      ensures t.Steady() ==> !r.Died?
      ensures !r.Died? ==> t.disk == old(t.disk).(slots := t.disk.slots)
                           && SameRelease(old(t.hist), t.hist)
      ensures r.Done? ==> rel.candidate in t.disk.slots
                          && t.disk.slots[rel.candidate] == Rebuilt(old(t.disk).claimed.value)
      ensures r.Done? ==> t.env.ftsOk(Rebuilt(old(t.disk).claimed.value), body)
      ensures t.Steady() ==> r.Done? == t.env.ftsOk(Rebuilt(old(t.disk).claimed.value), body)
    {
      CountAttempt(t.env, t.disk, t.units, t.hist, rel, t.verifier);
      t.hist := NewAttempt(t.hist, t.verifier);
      var same := t.Confirm(BindDb(t.disk.claimed) == Some(rel.snapshot));
      if !same { return Raised; }
      var rebuilt := Rebuilt(t.disk.claimed.value);
      :- RewriteSlot(rel, t.disk.claimed.value, SlotCopied(rel.candidate));
      r := RebuildSlot(rel, rebuilt);
      if r.IsFailure() { return; }
      var indexed := t.Confirm(t.env.ftsOk(rebuilt, body));
      same := t.Confirm(BindDb(t.disk.claimed) == Some(rel.snapshot));
      r := if indexed && same then Done else Raised;
    }

    /** The rebuild half of `_continue_release`: verify the base, rebuild, journal
        `prepared`; a failed check quarantines the claim at once. */
    method BuildCandidate(rel: Release, body: Body) returns (r: Outcome)
      requires t.Safe() && t.disk.journal.Some? && BeforeSwitch(t.disk.journal.value, rel, t.verifier)
      requires |t.hist.attempts[t.hist.claim]| <= rel.retry && t.disk.claimed.Some?
      modifies t`disk, t`units, t`hist, t`trail, t`heard
      ensures t.Safe()
      ensures r.Done? || r.Raised? || r.Died?
      ensures t.Steady() ==> !r.Died?
      ensures t.Steady() ==>
                r.Done? == (t.env.baseOnly(old(t.disk).claimed.value) && t.env.ftsOk(
                  Rebuilt(old(t.disk).claimed.value), body))
      ensures t.Steady() && r.Raised? ==> InQuarantine()
      ensures r.Done? ==> t.disk == WithEntry(old(t.disk), Prepared(rel, t.verifier)).(slots := t.disk.slots)
                          && t.units == old(t.units)
      ensures r.Done? ==> rel.candidate in t.disk.slots
                          && t.disk.slots[rel.candidate] == Rebuilt(old(t.disk).claimed.value)
      ensures r.Done? ==> t.env.ftsOk(Rebuilt(old(t.disk).claimed.value), body)
                          && t.env.baseOnly(t.disk.claimed.value) && t.disk.claimed.value in t.hist.bases
    {
      var base := t.Confirm(t.env.baseOnly(t.disk.claimed.value));
      if !base {
        r := Quarantine(rel.candidate, rel.snapshot, Some(rel.manifest), rel.retry, DeterministicGate, false, false);
        return if r.Died? then Died else Raised;
      }
      NoteBase(t.env, t.disk, t.units, t.hist, t.disk.claimed.value);
      t.hist := t.hist.(bases := t.hist.bases + {t.disk.claimed.value});
      r := Rebuild(rel, body);
    }

    method Rebuild(rel: Release, body: Body) returns (r: Outcome)
      requires t.Safe() && t.disk.journal.Some? && BeforeSwitch(t.disk.journal.value, rel, t.verifier)
      requires |t.hist.attempts[t.hist.claim]| <= rel.retry && t.disk.claimed.Some?
      modifies t`disk, t`units, t`hist, t`trail, t`heard
      ensures t.Safe()
      ensures r.Done? || r.Raised? || r.Died?
      ensures t.Steady() ==> !r.Died?
      ensures t.Steady() ==> r.Done? == t.env.ftsOk(Rebuilt(old(t.disk).claimed.value), body)
      ensures t.Steady() && r.Raised? ==> InQuarantine()
      ensures r.Done? ==> t.disk == WithEntry(old(t.disk), Prepared(rel, t.verifier)).(slots := t.disk.slots)
                          && t.units == old(t.units) && t.hist.bases == old(t.hist.bases)
      ensures r.Done? ==> rel.candidate in t.disk.slots
                          && t.disk.slots[rel.candidate] == Rebuilt(old(t.disk).claimed.value)
      ensures r.Done? ==> t.env.ftsOk(Rebuilt(old(t.disk).claimed.value), body)
      ensures r.Done? ==> t.hist.stored == old(t.hist.stored) && t.hist.basis == old(t.hist.basis)
    {
      r := MaterializeAndVerify(rel, body);
      if r.Died? { return; }
      if r.Raised? {
        r := Quarantine(rel.candidate, rel.snapshot, Some(rel.manifest), rel.retry, DeterministicGate, true, false);
        return if r.Died? then Died else Raised;
      }
      r := RecordBefore(rel, rel, Prepared(rel, t.verifier));
    }

    /** Retire the candidate and keep the prepared checkpoint for the one retry. */
    method Retain(rel: Release) returns (r: Outcome)
      requires t.Safe() && t.disk.journal == Some(Prepared(rel, t.verifier))
      modifies t`disk, t`units, t`hist, t`trail, t`heard
      ensures t.Safe()
      ensures r.Raised? || r.Died?
      ensures t.Steady() ==> r.Raised? && t.disk == old(t.disk) && (OldUp() <==> old(OldUp()))
    {
      r := RetireCandidate(rel.candidate);
      if r.Died? { return; }
      r := RecordBefore(rel, rel, Prepared(rel, t.verifier));
      if r.Done? { r := Raised; }
    }

    /** Restart, wait, enable: on Done the candidate unit runs on its slot database. */
    method StartCandidate(rel: Release) returns (r: Outcome)
      requires t.Safe() && t.disk.journal == Some(Prepared(rel, t.verifier)) && rel.candidate in t.disk.slots
      modifies t`units, t`trail, t`heard
      ensures t.Safe() && t.trail == old(t.trail)
      ensures r.Done? || r.Raised? || r.Died?
      ensures t.Steady() && t.polls > 0 ==> r.Done?
      ensures r.Done? ==> rel.candidate in t.units.running
                          && t.units.running[rel.candidate] == t.disk.slots[rel.candidate]
                          && rel.candidate in t.units.enabled
      ensures r.Done? ==> (OldUp() <==> old(OldUp()))
    {
      var c := rel.candidate;
      UnitsKeepInv(t.env, t.disk, t.units, Effect(Restart(c), t.disk, t.units), t.hist);
      UnitsKeepInv(t.env, t.disk, t.units, Effect(Stop(c), t.disk, t.units), t.hist);
      :- t.RestartUnit(c);
      var up := t.WaitServing(c);
      if !up { return Raised; }
      UnitsKeepInv(t.env, t.disk, t.units, Effect(Enable(c), t.disk, t.units), t.hist);
      r := t.Command(Enable(c));
    }

    /** The candidate HTTP gate: probe trouble keeps the checkpoint, a wrong answer
        quarantines. */
    method HttpGate(rel: Release, body: Body) returns (r: Outcome)
      requires t.Safe() && t.disk.journal == Some(Prepared(rel, t.verifier))
      requires rel.candidate in t.disk.slots && rel.candidate in t.units.running
      requires t.units.running[rel.candidate] == t.disk.slots[rel.candidate]
      requires t.env.ftsOk(t.disk.slots[rel.candidate], body)
      requires t.env.baseOnly(t.disk.claimed.value) && t.disk.claimed.value in t.hist.bases
      requires Bound(t.disk, rel) && body == t.disk.sidecars[rel.snapshot].body
      modifies t`disk, t`units, t`hist, t`trail, t`heard
      ensures t.Safe()
      ensures r.Done? || r.Raised? || r.Died?
      ensures Cooperative() ==>
                if t.env.serve(old(t.disk).slots[rel.candidate], body.terms) == body.http then r.Done?
                else r.Raised? && InQuarantine()
      ensures r.Done? ==> t.disk == old(t.disk) && t.units == old(t.units) && SameClaim(old(t.hist), t.hist)
      ensures r.Done? ==> Bound(t.disk, rel) && CandidateOk(t.env, t.disk, t.units, t.hist, rel)
    {
      r := t.VerifyAnswers(Direct, rel.candidate, body.terms, body.http);
      if r.Infra? {
        r := Retain(rel);
      } else if !r.Done? {
        r := Quarantine(rel.candidate, rel.snapshot, Some(rel.manifest), rel.retry, DeterministicGate, true, true);
        r := if r.Died? then Died else Raised;
      }
    }

    /** `_capture_rollback_oracle` and the checks before the first switching record. */
    method CaptureOracle(rel: Release, body: Body) returns (r: Outcome, o: Oracle)
      requires t.Sound() && t.disk.journal == Some(Prepared(rel, t.verifier))
      requires Bound(t.disk, rel) && body == t.disk.sidecars[rel.snapshot].body
      modifies t`hist
      ensures t.Sound() && SameClaim(old(t.hist), t.hist) && old(t.hist.seen) <= t.hist.seen
      ensures r != Authority && !r.Died?
      ensures r.Done? ==> OracleOk(t.env, t.disk, t.hist, rel, o)
      ensures r.Done? ==> Saw(t.hist, Route, t.hist.port, t.hist.db, o.terms, o.results)
      ensures Cooperative() ==> (r.Done? <==> OldUp())
    {
      var prior := rel.candidate.Other();
      o := Oracle(prior, BindDb(SlotOf(t.disk, prior)), BindDb(t.disk.basis), BindReceipt(t.disk.receipt),
                  rel.snapshot, rel.manifest, body.terms, map[]);
      var present := t.Confirm(prior in t.disk.slots);
      if !present { return Raised, o; }
      var answers;
      r, answers := t.Search(t.units.loaded, body.terms);
      o := o.(results := answers);
      if r.IsFailure() { return; }
      r := t.VerifyAnswers(Route, t.units.loaded, o.terms, o.results);
      if r.IsFailure() { return; }
      var linked := t.Confirm(true);
      if !linked { r := Raised; }
    }

    // ---------------- the switch ----------------

    /** Traffic to the candidate, then the public gate.  Raised: a rollback was tried. */
    method SwitchForward(rel: Release, body: Body, o: Oracle) returns (r: Outcome)
      requires t.Safe() && t.disk.journal == Some(Pending(Switching, rel, o))
      requires rel.candidate in t.units.enabled && body == t.disk.sidecars[rel.snapshot].body
      modifies t`disk, t`units, t`hist, t`trail, t`heard
      ensures t.Safe()
      ensures r.Done? || r.Raised? || r.Died?
      ensures r.Done? ==> t.disk == old(t.disk).(journal := Some(Pending(Switched, rel, o)), upstream := rel.candidate)
      ensures r.Done? ==> t.units == old(t.units).(loaded := rel.candidate)
      ensures r.Done? ==> SameClaim(old(t.hist), t.hist) && PublicPassed(t.disk, t.hist, rel)
      ensures r.Done? ==> IncludePiece !in t.trail.open
      ensures Cooperative() && rel.candidate in old(t.units).running ==> r.Done?
    {
      r := SwitchInclude(rel.candidate);
      if r.Raised? {
        r := RollbackPendingConsumer(rel, o, SwitchFailed);
        return if r.Died? then Died else Raised;
      }
      if r.Died? { return; }
      :- RecordUndecided(rel, o, Pending(Switched, rel, o));
      r := PublicGate(rel, body, o);
    }

    method PublicGate(rel: Release, body: Body, o: Oracle) returns (r: Outcome)
      requires t.Safe() && t.disk.journal == Some(Pending(Switched, rel, o)) && t.units.loaded == rel.candidate
      requires body == t.disk.sidecars[rel.snapshot].body
      modifies t`disk, t`units, t`hist, t`trail, t`heard
      ensures t.Safe()
      ensures r.Done? || r.Raised? || r.Died?
      ensures r.Done? ==> t.disk == old(t.disk) && t.units == old(t.units) && SameClaim(old(t.hist), t.hist)
      ensures r.Done? ==> t.trail == old(t.trail)
      ensures r.Done? ==> PublicPassed(t.disk, t.hist, rel)
      ensures Cooperative() && rel.candidate in old(t.units).running ==> r.Done?
    {
      r := t.VerifyAnswers(Public, t.units.loaded, body.terms, body.http);
      if !r.Done? {
        r := RollbackPendingConsumer(rel, o, ConsumerGateFailed);
        r := if r.Died? then Died else Raised;
      }
    }

    /** The old slot stops, the route is proved without it, and the release becomes one
        that only goes forward. */
    method StopOld(rel: Release, body: Body, o: Oracle) returns (r: Outcome)
      requires t.Safe() && t.disk.journal == Some(Pending(Switched, rel, o))
      requires t.disk.upstream == rel.candidate && t.units.loaded == rel.candidate
      requires body == t.disk.sidecars[rel.snapshot].body && t.hist.claim !in t.hist.stranded
      requires PublicPassed(t.disk, t.hist, rel) && IncludePiece !in t.trail.open
      modifies t`disk, t`units, t`hist, t`trail, t`heard
      ensures t.Safe()
      ensures r.IsError() || r.Done? || r.Died?
      ensures r.Done? ==> t.disk == WithEntry(old(t.disk), ConsumerVerified(rel)) && SameClaim(old(t.hist), t.hist)
      ensures Cooperative() && rel.candidate in old(t.units).running ==> r.Done?
    {
      r := RecordUndecided(rel, o, Pending(OldStopping, rel, o));
      if r.IsFailure() { return; }
      :- RouteGate(rel, body, o);
      Verify(t.env, t.disk, t.units, t.hist, rel, o);
      r := JournalWrite(ConsumerVerified(rel));
    }

    method RouteGate(rel: Release, body: Body, o: Oracle) returns (r: Outcome)
      requires t.Safe() && t.disk.journal == Some(Pending(OldStopping, rel, o))
      requires t.disk.upstream == rel.candidate && t.units.loaded == rel.candidate
      requires body == t.disk.sidecars[rel.snapshot].body
      modifies t`disk, t`units, t`hist, t`trail, t`heard
      ensures t.Safe()
      ensures r.Done? || r.Raised? || r.Died?
      ensures r.Done? ==> t.disk == old(t.disk) && t.units.loaded == rel.candidate && SameClaim(old(t.hist), t.hist)
      ensures r.Done? ==> t.trail == old(t.trail)
      ensures r.Done? ==> rel.candidate in t.disk.slots
                          && Proven(t.hist, rel.candidate, t.disk.slots[rel.candidate], rel.manifest.of)
      ensures Cooperative() && rel.candidate in old(t.units).running ==> r.Done?
    {
      r := ProveRouteWithoutOld(rel, body, o);
      if r.IsError() {
        r := RollbackPendingConsumer(rel, o, RouteIdentityFailed);
        r := if r.Died? then Died else Raised;
      }
    }

    method ProveRouteWithoutOld(rel: Release, body: Body, o: Oracle) returns (r: Outcome)
      requires t.Sound() && t.disk.journal == Some(Pending(OldStopping, rel, o))
      requires t.disk.upstream == rel.candidate && t.units.loaded == rel.candidate
      requires body == t.disk.sidecars[rel.snapshot].body
      modifies t`units, t`hist, t`heard
      ensures t.Sound() && t.units.loaded == rel.candidate && SameClaim(old(t.hist), t.hist)
      ensures r != Authority
      ensures r.Done? ==> rel.candidate in t.disk.slots
                          && Proven(t.hist, rel.candidate, t.disk.slots[rel.candidate], rel.manifest.of)
      ensures Cooperative() && rel.candidate in old(t.units).running ==> r.Done?
    {
      r := StopSlotAndConfirm(rel.candidate.Other());
      if r.IsFailure() { return; }
      r := ProveAlone(rel, body, o);
    }

    method ProveAlone(rel: Release, body: Body, o: Oracle) returns (r: Outcome)
      requires t.Sound() && t.disk.journal == Some(Pending(OldStopping, rel, o))
      requires t.units.loaded == rel.candidate && rel.candidate.Other() !in t.units.running
      requires body == t.disk.sidecars[rel.snapshot].body
      modifies t`hist
      ensures t.Sound() && SameClaim(old(t.hist), t.hist)
      ensures r != Authority
      ensures r.Done? ==> rel.candidate in t.disk.slots
                          && Proven(t.hist, rel.candidate, t.disk.slots[rel.candidate], rel.manifest.of)
      ensures Cooperative() && rel.candidate in t.units.running ==> r.Done?
    {
      r := t.VerifyAnswers(Route, t.units.loaded, body.terms, body.http);
      if r.IsFailure() { return; }
      r := t.VerifyAnswers(Public, t.units.loaded, body.terms, body.http);
    }

    /** Where a cooperative attempt at `rel` ends, begun on the disk `d` with history `h`: in
        quarantine if a test fails, at the checkpoint if the old release is down and cannot
        say what it answers, and else committed, or at the point where this run dies. */
    ghost predicate Ends(rel: Release, pass: bool, up: bool, d: Disk, h: History, r: Outcome)
      reads t
    {
      if !pass then r.Raised? && InQuarantine()
      else if !up then
        r.Raised? && t.disk == WithEntry(d, Prepared(rel, t.verifier)).(slots := t.disk.slots) && !OldUp()
      else if Interrupted(d) then
        && r.Died? && t.disk.journal == Some(ConsumerVerified(rel))
        && t.disk.claimed == d.claimed && t.disk.basis == d.claimed && t.hist.stored && t.hist.basis == h.basis
        && rel.candidate in t.units.running && t.units.loaded == rel.candidate
      else r.Done? && t.disk.journal == Some(Committed(rel.candidate, rel.snapshot, rel.manifest))
    }

    /** `_continue_release`, from a journalled rebuild to the commit. */
    method ContinueRelease(rel: Release, body: Body) returns (r: Outcome)
      requires t.Safe() && t.disk.journal.Some? && BeforeSwitch(t.disk.journal.value, rel, t.verifier)
      requires |t.hist.attempts[t.hist.claim]| <= rel.retry && t.disk.claimed.Some?
      requires body == t.disk.sidecars[rel.snapshot].body
      modifies t`disk, t`units, t`hist, t`trail, t`heard
      ensures t.Safe()
      ensures r.Done? ==> t.disk.journal == Some(Committed(rel.candidate, rel.snapshot, rel.manifest))
      ensures Cooperative() ==>
                Ends(rel, Passes(old(t.disk).claimed.value, body), old(OldUp()), old(t.disk), old(t.hist), r)
    {
      r := BuildCandidate(rel, body);
      if r.IsFailure() { return; }
      r := StartCandidate(rel);
      if r.Died? { return; }
      if r.Raised? {
        r := Retain(rel);
        return;
      }
      :- HttpGate(rel, body);
      r := Switch(rel, body);
    }

    /** The second half: oracle, switch, gates, finalize. */
    method Switch(rel: Release, body: Body) returns (r: Outcome)
      requires t.Safe() && t.disk.journal == Some(Prepared(rel, t.verifier))
      requires body == t.disk.sidecars[rel.snapshot].body
      requires CandidateOk(t.env, t.disk, t.units, t.hist, rel) && rel.candidate in t.units.enabled
      modifies t`disk, t`units, t`hist, t`trail, t`heard
      ensures t.Safe()
      ensures r.Done? ==> t.disk.journal == Some(Committed(rel.candidate, rel.snapshot, rel.manifest))
      ensures Cooperative() && old(rel.candidate in t.units.running) ==>
                Ends(rel, true, old(OldUp()), old(t.disk), old(t.hist), r)
    {
      var o;
      r, o := CaptureOracle(rel, body);
      if r.IsFailure() {
        r := Retain(rel);
        return;
      }
      r := MoveTraffic(rel, body, o);
    }

    method MoveTraffic(rel: Release, body: Body, o: Oracle) returns (r: Outcome)
      requires t.Safe() && t.disk.journal == Some(Prepared(rel, t.verifier))
      requires body == t.disk.sidecars[rel.snapshot].body
      requires CandidateOk(t.env, t.disk, t.units, t.hist, rel) && rel.candidate in t.units.enabled
      requires OracleOk(t.env, t.disk, t.hist, rel, o)
      modifies t`disk, t`units, t`hist, t`trail, t`heard
      ensures t.Safe()
      ensures r.Done? ==> t.disk.journal == Some(Committed(rel.candidate, rel.snapshot, rel.manifest))
      ensures Cooperative() && old(rel.candidate in t.units.running) ==>
                Ends(rel, true, true, old(t.disk), old(t.hist), r)
    {
      r := ProveCandidate(rel, body, o);
      if r.IsFailure() { return; }
      r := FinalizeWithFailureRecord(rel);
    }

    /** From `prepared` to `consumer_verified`. */
    method ProveCandidate(rel: Release, body: Body, o: Oracle) returns (r: Outcome)
      requires t.Safe() && t.disk.journal == Some(Prepared(rel, t.verifier))
      requires body == t.disk.sidecars[rel.snapshot].body
      requires CandidateOk(t.env, t.disk, t.units, t.hist, rel) && rel.candidate in t.units.enabled
      requires OracleOk(t.env, t.disk, t.hist, rel, o)
      modifies t`disk, t`units, t`hist, t`trail, t`heard
      ensures t.Safe()
      ensures r.Done? ==> t.disk == WithEntry(old(t.disk), ConsumerVerified(rel)).(upstream := rel.candidate)
      ensures r.Done? ==> SameClaim(old(t.hist), t.hist)
      ensures Cooperative() && old(rel.candidate in t.units.running) ==> r.Done?
    {
      r := BeginSwitch(rel, o);
      if r.IsFailure() { return; }
      :- SwitchForward(rel, body, o);
      r := StopOld(rel, body, o);
    }

    method BeginSwitch(rel: Release, o: Oracle) returns (r: Outcome)
      requires t.Safe() && t.disk.journal == Some(Prepared(rel, t.verifier))
      requires CandidateOk(t.env, t.disk, t.units, t.hist, rel) && OracleOk(t.env, t.disk, t.hist, rel, o)
      modifies t`disk, t`hist, t`trail
      ensures t.Safe()
      ensures t.Steady() ==> r.Done?
      ensures r.Done? ==> t.disk == WithEntry(old(t.disk), Pending(Switching, rel, o))
                          && t.hist == old(t.hist)
    {
      StartSwitch(t.env, t.disk, t.units, t.hist, rel, t.verifier, o);
      r := JournalWrite(Pending(Switching, rel, o));
    }

    /** As `Ends`, for a base that has just been claimed on the disk `d`. */
    ghost predicate Attempted(c: Port, base: Bytes, retry: nat, up: bool, d: Disk, h: History, r: Outcome)
      reads t
    {
      var snapshot := SnapshotId(base);
      if !Loadable(d, snapshot) then r.Raised? && InQuarantine()
      else
        var body := d.sidecars[snapshot].body;
        Ends(Release(c, snapshot, ManifestId(body), retry), Passes(base, body), up, d, h, r)
    }

    // ---------------- recovery ----------------

    /** `reconcile` of a committed journal: validate it, then drop what is left.  It returns
        normally unless the snapshot's sidecar has been published again in another form. */
    method ReconcileCommitted(port: Port, base: SnapshotId, manifest: ManifestId) returns (r: Outcome)
      requires t.Safe() && t.disk.journal == Some(Committed(port, base, manifest))
      modifies t`disk, t`hist, t`trail
      ensures t.Safe() && t.disk.journal == old(t.disk.journal)
      ensures r.Done? ==> t.disk.claimed.None? && base !in t.disk.sidecars
      ensures !t.fate.Any? ==> (r.Done? <==> SameSidecar(old(t.disk), base, manifest))
      ensures !t.fate.Any? && !SameSidecar(old(t.disk), base, manifest) ==> r.Raised? && Stuck(t.disk)
      ensures !t.fate.Any? ==> t.disk.claimed.None?
    {
      var valid := t.Confirm(t.disk.upstream == port && BindDb(t.disk.basis) == Some(base)
                             && t.disk.receipt == Some(Receipt(base, manifest, port)));
      if !valid { return Raised; }
      CleanUp(t.env, t.disk, t.units, t.hist, t.disk.(claimed := None));
      :- t.DropClaimed();
      if base in t.disk.sidecars {
        var m := t.LoadManifest(base);
        if m.None? || ManifestId(m.value) != manifest { return Raised; }
        CleanUp(t.env, t.disk, t.units, t.hist, t.disk.(sidecars := t.disk.sidecars - {base}));
        :- t.DropSidecar(base);
      }
      r := Done;
    }

    method StartRelease(c: Port, retry: nat) returns (r: Outcome)
      requires t.Safe() && t.disk.journal == Some(Claiming(c, t.verifier)) && t.disk.claimed.Some? && retry <= 1
      modifies t`disk, t`units, t`hist, t`trail, t`heard
      ensures t.Safe()
      ensures r.Done? ==> Settled(t.disk.journal)
      ensures Cooperative() ==>
                Attempted(c, old(t.disk).claimed.value, retry, old(OldUp()), old(t.disk), old(t.hist), r)
    {
      var snapshot := SnapshotId(t.disk.claimed.value);
      var m := t.LoadManifest(snapshot);
      if m.None? {
        r := Quarantine(c, snapshot, None, retry, DeterministicGate, false, false);
        return if r.Died? then Died else Raised;
      }
      var rel := Release(c, snapshot, ManifestId(m.value), retry);
      StartRebuild(t.env, t.disk, t.units, t.hist, c, t.verifier, rel);
      :- JournalWrite(Rebuilding(rel, t.verifier));
      r := ContinueRelease(rel, m.value);
    }

    method ReconcileClaiming(c: Port, checkpoint: Verifier) returns (r: Outcome)
      requires t.Safe() && t.disk.journal == Some(Claiming(c, checkpoint))
      modifies t`disk, t`units, t`hist, t`trail, t`heard
      ensures t.Safe()
      ensures r.Done? ==> Settled(t.disk.journal)
      ensures Cooperative() ==>
                if old(t.disk).claimed.None? || checkpoint != t.verifier then Settled(t.disk.journal)
                else Attempted(c, old(t.disk).claimed.value, 1, old(OldUp()), old(t.disk), old(t.hist), r)
    {
      if t.disk.claimed.None? {
        NothingClaimed(t.env, t.disk, t.units, t.hist);
        r := JournalWrite(Idle);
      } else if checkpoint != t.verifier {
        r := Quarantine(c, SnapshotId(t.disk.claimed.value), None, 0, VerifierChanged, false, false);
        r := if r.Died? then Died else Raised;
      } else {
        r := StartRelease(c, 1);
      }
    }

    /** `reconcile` of `rebuilding` and `prepared`: one retry under the same verifier,
        then quarantine. */
    method ReconcileBeforeSwitch(rel: Release, checkpoint: Verifier) returns (r: Outcome)
      requires t.Safe() && t.disk.journal.Some? && BeforeSwitch(t.disk.journal.value, rel, checkpoint)
      modifies t`disk, t`units, t`hist, t`trail, t`heard
      ensures t.Safe()
      ensures r.Done? ==> Settled(t.disk.journal)
      ensures checkpoint != t.verifier ==>
                (t.disk == old(t.disk) || t.disk.journal == Some(RetryBlocked(rel, checkpoint, t.verifier)))
      ensures checkpoint == t.verifier && rel.retry == 1 ==>
                t.hist.attempts == old(t.hist.attempts)
                && (r.Done? ==> t.disk.journal.Some? && t.disk.journal.value.Quarantined?)
      ensures Cooperative() && checkpoint != t.verifier ==> !Settled(t.disk.journal)
      ensures Cooperative() && checkpoint == t.verifier ==>
                if rel.retry == 1 then InQuarantine()
                else Ends(rel.(retry := 1), Passes(old(t.disk).claimed.value, rel.manifest.of),
                          old(OldUp()), old(t.disk), old(t.hist), r)
    {
      if checkpoint != t.verifier {
        r := BlockOnVerifier(rel, checkpoint);
      } else if rel.retry >= 1 {
        r := ExhaustRetry(rel);
      } else {
        r := RetryOnce(rel);
      }
    }

    method BlockOnVerifier(rel: Release, checkpoint: Verifier) returns (r: Outcome)
      requires t.Safe() && t.disk.journal.Some? && BeforeSwitch(t.disk.journal.value, rel, checkpoint)
      modifies t`disk, t`hist, t`trail
      ensures t.Safe() && t.hist.attempts == old(t.hist.attempts)
      ensures r.Raised? || r.Died?
      ensures t.disk == old(t.disk) || t.disk.journal == Some(RetryBlocked(rel, checkpoint, t.verifier))
      ensures r.Raised? ==> t.disk.journal == Some(RetryBlocked(rel, checkpoint, t.verifier))
    {
      BlockRetry(t.env, t.disk, t.units, t.hist, rel, checkpoint, t.verifier);
      r := JournalWrite(RetryBlocked(rel, checkpoint, t.verifier));
      if r.Done? { r := Raised; }
    }

    method ExhaustRetry(rel: Release) returns (r: Outcome)
      requires t.Safe() && t.disk.journal.Some? && BeforeSwitch(t.disk.journal.value, rel, t.verifier)
      modifies t`disk, t`units, t`hist, t`trail, t`heard
      ensures t.Safe() && t.hist.attempts == old(t.hist.attempts)
      ensures t.Steady() ==> r.Done?
      ensures r.Done? ==> t.disk.journal.Some? && t.disk.journal.value.Quarantined?
    {
      r := RetireCandidate(rel.candidate);
      if r.IsFailure() { return; }
      r := Quarantine(rel.candidate, rel.snapshot, Some(rel.manifest), rel.retry, RetryExhausted, true, false);
    }

    method RetryOnce(rel: Release) returns (r: Outcome)
      requires t.Safe() && t.disk.journal.Some? && BeforeSwitch(t.disk.journal.value, rel, t.verifier)
      requires rel.retry == 0
      modifies t`disk, t`units, t`hist, t`trail, t`heard
      ensures t.Safe()
      ensures r.Done? ==> Settled(t.disk.journal)
      ensures Cooperative() ==> Ends(rel.(retry := 1), Passes(old(t.disk).claimed.value, rel.manifest.of),
                                     old(OldUp()), old(t.disk), old(t.hist), r)
    {
      var intact := t.Confirm(Bound(t.disk, rel));
      if !intact { return Raised; }
      var again := rel.(retry := 1);
      if t.disk.journal.value.Prepared? {
        :- ResetPrepared(rel);
        :- RecordBefore(rel, again, Prepared(again, t.verifier));
      } else {
        :- RecordBefore(rel, again, Rebuilding(again, t.verifier));
      }
      r := ContinueRelease(again, t.disk.sidecars[rel.snapshot].body);
    }

    /** Restore the old include if it cannot be confirmed, and retire the candidate. */
    method ResetPrepared(rel: Release) returns (r: Outcome)
      requires t.Safe() && t.disk.journal == Some(Prepared(rel, t.verifier))
      modifies t`disk, t`units, t`hist, t`trail, t`heard
      ensures t.Safe() && t.disk.journal == old(t.disk.journal)
      ensures t.Steady() ==> r.Done?
      ensures r.Done? ==> SameClaim(old(t.hist), t.hist) && t.disk == old(t.disk)
                          && (OldUp() <==> old(OldUp()))
    {
      var prior := rel.candidate.Other();
      var active := t.ActivePort();
      if active != Some(prior) {
        :- SwitchInclude(prior);
      }
      r := RetireCandidate(rel.candidate);
    }

    /** The last committed slot's unit is down while a claim that stands all tests is
        recovered: the old release cannot say what it answers, and the claim waits. */
    ghost predicate Stalls()
      reads t
    {
      && !OldUp() && t.disk.journal.Some? && t.disk.claimed.Some?
      && match t.disk.journal.value
         case Claiming(_, v) =>
           var snapshot := SnapshotId(t.disk.claimed.value);
           v == t.verifier && Loadable(t.disk, snapshot)
           && Passes(t.disk.claimed.value, t.disk.sidecars[snapshot].body)
         case Rebuilding(rel, v) =>
           v == t.verifier && rel.retry == 0 && Passes(t.disk.claimed.value, rel.manifest.of)
         case Prepared(rel, v) =>
           v == t.verifier && rel.retry == 0 && Passes(t.disk.claimed.value, rel.manifest.of)
         case _ => false
    }

    /** The claim waits at its checkpoint with its one retry used. */
    predicate Waiting()
      reads t
    {
      && t.disk.journal.Some? && t.disk.journal.value.Prepared?
      && t.disk.journal.value.rel.retry == 1 && t.disk.journal.value.verifier == t.verifier
    }

    /** `reconcile`.  What a calm one settles is the journal; whether it also returns
        normally from a settled journal is said by `ReconcileCommitted`. */
    method Reconcile() returns (r: Outcome)
      requires t.Safe()
      modifies t`disk, t`units, t`hist, t`trail, t`heard
      ensures t.Safe()
      ensures r.Done? ==> Settled(t.disk.journal)
      ensures !t.fate.Any? && Stuck(old(t.disk)) ==> r.Raised? && Stuck(t.disk)
                                                      && t.disk.journal == old(t.disk.journal)
      ensures !t.fate.Any? && Undropped(old(t.disk.journal)) ==>
                t.disk.journal == old(t.disk.journal) && t.disk.claimed.None?
      ensures Blocked(old(t.disk.journal)) ==> r.Raised? && t.disk == old(t.disk) && t.units == old(t.units)
      ensures Cooperative() && t.fate.Calm? ==>
                (Settled(t.disk.journal) <==> !Blocked(old(t.disk.journal))
                                              && !VerifierMoved(old(t.disk.journal), t.verifier) && !old(Stalls()))
      ensures Cooperative() && t.fate.Calm? && old(Stalls()) ==> Waiting()
      ensures Nothing(old(t.disk.journal)) ==> r.Done? && t.disk == old(t.disk) && t.units == old(t.units)
                                               && t.hist == old(t.hist) && t.trail == old(t.trail)
      ensures t.fate.CannotReadAuthority? && Forward(old(t.disk.journal)) ==>
                r.Raised? && t.disk == WithEntry(old(t.disk), FinalizeBlocked(old(t.disk.journal.value.rel)))
                && t.hist == old(t.hist)
      ensures t.fate.CannotReadHealth? && Undecidable(old(t.disk.journal)) ==>
                r.Raised? && TakenDown(old(t.hist.port), old(Now()))
      ensures t.fate.CannotReadHealth? && Forward(old(t.disk.journal)) ==>
                r.Raised? && TakenDown(old(t.disk.journal.value.rel).candidate, old(Now()))
    {
      if Nothing(t.disk.journal) {
        r := Done;
      } else if BeforeTraffic(t.disk.journal) {
        r := ReconcileBeforeTraffic();
      } else if Undecidable(t.disk.journal) {
        r := ReconcileUndecided();
      } else {
        r := ReconcileDecided();
      }
    }

    method ReconcileBeforeTraffic() returns (r: Outcome)
      requires t.Safe() && BeforeTraffic(t.disk.journal)
      modifies t`disk, t`units, t`hist, t`trail, t`heard
      ensures t.Safe()
      ensures r.Done? ==> Settled(t.disk.journal)
      ensures Cooperative() && t.fate.Calm? ==>
                (Settled(t.disk.journal) <==> !VerifierMoved(old(t.disk.journal), t.verifier) && !old(Stalls()))
      ensures Cooperative() && t.fate.Calm? && old(Stalls()) ==> Waiting()
    {
      match t.disk.journal.value {
        case Claiming(c, v) => r := ReconcileClaiming(c, v);
        case Rebuilding(rel, v) => r := ReconcileBeforeSwitch(rel, v);
        case Prepared(rel, v) => r := ReconcileBeforeSwitch(rel, v);
      }
    }

    method ReconcileUndecided() returns (r: Outcome)
      requires t.Safe() && Undecidable(t.disk.journal)
      modifies t`disk, t`units, t`hist, t`trail, t`heard
      ensures t.Safe()
      ensures r.Done? ==> Settled(t.disk.journal)
      ensures Cooperative() ==> Settled(t.disk.journal)
      ensures t.fate.CannotReadHealth? ==> r.Raised? && TakenDown(old(t.hist.port), old(Now()))
    {
      match t.disk.journal.value {
        case Pending(_, rel, o) => r := RollbackPendingConsumer(rel, o, CrashRecovered);
        case RollbackFailed(rel, o, cause) => r := RollbackPendingConsumer(rel, o, cause);
      }
    }

    /** The entries that go forward, close a quarantine, are settled, or wait for an
        operator. */
    method ReconcileDecided() returns (r: Outcome)
      requires t.Safe() && !Nothing(t.disk.journal) && !BeforeTraffic(t.disk.journal) && !Undecidable(t.disk.journal)
      modifies t`disk, t`units, t`hist, t`trail, t`heard
      ensures t.Safe()
      ensures r.Done? ==> Settled(t.disk.journal)
      ensures !t.fate.Any? && Stuck(old(t.disk)) ==> r.Raised? && Stuck(t.disk)
                                                      && t.disk.journal == old(t.disk.journal)
      ensures !t.fate.Any? && Undropped(old(t.disk.journal)) ==>
                t.disk.journal == old(t.disk.journal) && t.disk.claimed.None?
      ensures Blocked(old(t.disk.journal)) ==> r.Raised? && t.disk == old(t.disk) && t.units == old(t.units)
      ensures Cooperative() && t.fate.Calm? ==> (Settled(t.disk.journal) <==> !Blocked(old(t.disk.journal)))
      ensures t.fate.CannotReadAuthority? && Forward(old(t.disk.journal)) ==>
                r.Raised? && t.disk == WithEntry(old(t.disk), FinalizeBlocked(old(t.disk.journal.value.rel)))
                && t.hist == old(t.hist)
      ensures t.fate.CannotReadHealth? && Forward(old(t.disk.journal)) ==>
                r.Raised? && TakenDown(old(t.disk.journal.value.rel).candidate, old(Now()))
    {
      match t.disk.journal.value {
        case ConsumerVerified(rel) => r := FinalizeWithFailureRecord(rel);
        case Quarantining(_, _, _, _, _) => r := CompleteQuarantine(t.disk.journal.value);
        case Quarantined(_, _) =>
          var ok := t.Confirm(QuarantinedOk(t.disk.journal.value, t.disk.quarantine));
          r := if ok then Done else Raised;
        case Committed(port, base, manifest) => r := ReconcileCommitted(port, base, manifest);
        case _ => r := Raised;
      }
    }

    // ---------------- main ----------------

    /** `_apply_locked`: recover, then claim what has come in. */
    method ApplyLocked() returns (r: Outcome)
      requires t.Safe()
      modifies t`disk, t`units, t`hist, t`trail, t`heard
      ensures t.Safe()
      ensures r.Done? ==> Settled(t.disk.journal)
      ensures Cooperative() && Nothing(old(t.disk.journal)) && old(t.disk).incoming.Some? ==>
                Attempted(old(t.disk).upstream.Other(), old(t.disk).incoming.value, 0, old(OldUp()),
                          TakenDisk(old(t.disk), t.verifier), old(t.hist), r)
      ensures !t.fate.Any? && Stuck(old(t.disk)) ==> r.Raised? && Stuck(t.disk)
                                                      && t.disk.journal == old(t.disk.journal)
      ensures Cooperative() && t.fate.Calm? && old(Stalls()) ==> Waiting()
      ensures t.fate.CannotReadAuthority? && Forward(old(t.disk.journal)) ==>
                r.Raised? && t.disk == WithEntry(old(t.disk), FinalizeBlocked(old(t.disk.journal.value.rel)))
                && t.hist == old(t.hist)
      ensures t.fate.CannotReadHealth? && Undecidable(old(t.disk.journal)) ==>
                r.Raised? && TakenDown(old(t.hist.port), old(Now()))
      ensures t.fate.CannotReadHealth? && Forward(old(t.disk.journal)) ==>
                r.Raised? && TakenDown(old(t.disk.journal.value.rel).candidate, old(Now()))
    {
      Note();
      :- Reconcile();
      r := ClaimNext();
    }

    /** A claim found before its verification was journalled is stranded. */
    ghost method Note()
      requires t.Safe()
      modifies t`hist
      ensures t.Safe()
      ensures t.hist == if t.disk.journal.Some? && t.disk.journal.value.Pending?
                        then old(t.hist).(stranded := old(t.hist).stranded + {old(t.hist).claim}) else old(t.hist)
    {
      if t.disk.journal.Some? && t.disk.journal.value.Pending? {
        NoteStranded(t.env, t.disk, t.units, t.hist);
        t.hist := t.hist.(stranded := t.hist.stranded + {t.hist.claim});
      }
    }

    /** The second half of `_apply_locked`. */
    method ClaimNext() returns (r: Outcome)
      requires t.Safe() && Settled(t.disk.journal)
      modifies t`disk, t`units, t`hist, t`trail, t`heard
      ensures t.Safe()
      ensures r.Done? ==> Settled(t.disk.journal)
      ensures Cooperative() && old(t.disk).incoming.Some? ==>
                Attempted(old(t.disk).upstream.Other(), old(t.disk).incoming.value, 0, old(OldUp()),
                          TakenDisk(old(t.disk), t.verifier), old(t.hist), r)
    {
      if t.disk.incoming.None? { return Done; }
      var active := t.ActivePort();
      if active.None? { return Raised; }
      var memory := t.Confirm(true);
      if !memory { return Raised; }
      r := Claim();
    }

    method Claim() returns (r: Outcome)
      requires t.Safe() && Settled(t.disk.journal) && t.disk.incoming.Some?
      modifies t`disk, t`units, t`hist, t`trail, t`heard
      ensures t.Safe()
      ensures r.Done? ==> Settled(t.disk.journal)
      ensures Cooperative() ==>
                Attempted(old(t.disk).upstream.Other(), old(t.disk).incoming.value, 0, old(OldUp()),
                          TakenDisk(old(t.disk), t.verifier), old(t.hist), r)
    {
      var c := t.disk.upstream.Other();
      :- TakeOver();
      r := StartRelease(c, 0);
    }

    /** The claim is journalled, then the upload renamed. */
    method TakeOver() returns (r: Outcome)
      requires t.Safe() && Settled(t.disk.journal) && t.disk.incoming.Some?
      modifies t`disk, t`hist, t`trail
      ensures t.Safe()
      ensures !t.fate.Any? ==> r.Done?
      ensures r.Done? ==> t.disk == TakenDisk(old(t.disk), t.verifier)
      ensures r.Done? ==> t.hist.basis == old(t.hist.basis) && t.hist.port == old(t.hist.port)
    {
      BeginClaim(t.env, t.disk, t.units, t.hist, t.verifier);
      r := JournalWrite(Claiming(t.disk.upstream.Other(), t.verifier));
      if r.IsFailure() { return; }
      TakeIncoming(t.env, t.disk, t.units, t.hist);
      r := t.TakeUpload();
    }
  }

  /** What `journal_write` checks before it writes. */
  predicate EntryHolds(d: Disk, e: Entry) {
    match e
    case Pending(_, rel, o) => OracleHolds(d, rel, o)
    case RollbackFailed(rel, o, _) => OracleHolds(d, rel, o)
    case ConsumerVerified(rel) => AuthorityHolds(d, rel)
    case _ => true
  }

  lemma EntryChecked(w: World, d: Disk, u: Units, h: History, e: Entry)
    requires Inv(w, WithEntry(d, e), u, h)
    ensures EntryHolds(d, e)
  {
  }

  predicate Nothing(j: Option<Entry>) {
    j.None? || j.value.Idle?
  }

  predicate Forward(j: Option<Entry>) {
    j.Some? && j.value.ConsumerVerified?
  }

  /** What is left of the sidecar of a committed snapshot is the one that was committed. */
  predicate SameSidecar(d: Disk, base: SnapshotId, manifest: ManifestId) {
    base in d.sidecars ==> Loadable(d, base) && ManifestId(d.sidecars[base].body) == manifest
  }

  /** A commit record whose snapshot's sidecar was published again with another manifest. */
  predicate Stuck(d: Disk) {
    Undropped(d.journal) && !SameSidecar(d, d.journal.value.base, d.journal.value.manifest)
  }

  /** Entries that wait for an operator. */
  predicate Blocked(j: Option<Entry>) {
    j.Some? && (j.value.RollbackBlocked? || j.value.FinalizeBlocked? || j.value.RetryBlocked?)
  }

  /** The checkpoint was written by another verifier version. */
  predicate VerifierMoved(j: Option<Entry>, v: Verifier) {
    j.Some? && (j.value.Rebuilding? || j.value.Prepared?) && j.value.verifier != v
  }

  /** Nothing but probes seen has been added. */
  ghost predicate SameClaim(h: History, k: History) {
    k == h.(seen := k.seen) && h.seen <= k.seen
  }

  /** As `SameClaim`, with another rebuild begun. */
  ghost predicate SameRelease(h: History, k: History) {
    k == h.(seen := k.seen, attempts := k.attempts)
  }

  /** The old release answered as captured, to the public and over the loopback. */
  ghost predicate OldProven(h: History, o: Oracle) {
    && Saw(h, Public, h.port, h.db, o.terms, o.results)
    && Saw(h, Route, h.port, h.db, o.terms, o.results)
  }


  /** The disk when the upload has just been claimed. */
  function TakenDisk(d: Disk, v: Verifier): Disk {
    d.(journal := Some(Claiming(d.upstream.Other(), v)), incoming := None, claimed := d.incoming)
  }

  /** The disk after a release of `rel` is committed and cleaned up. */
  function CommittedDisk(d: Disk, rel: Release): Disk {
    d.(basis := d.claimed,
       receipt := Some(Receipt(rel.snapshot, rel.manifest, rel.candidate)),
       journal := Some(Committed(rel.candidate, rel.snapshot, rel.manifest)),
       claimed := None,
       sidecars := d.sidecars - {rel.snapshot})
  }

  predicate ClosedIn(j: Option<Entry>, dir: SnapshotId) {
    j.Some? && j.value.Quarantined? && j.value.path.dir == dir
  }

  lemma SurvivorsLeft(q: map<QPath, QFile>, r: map<QPath, QFile>, dir: SnapshotId, survivors: set<SnapshotId>)
    requires survivors <= OtherDirs(q, dir)
    requires r.Keys <= q.Keys
    requires forall p :: p in q && p.dir !in OtherDirs(q, dir) - survivors ==> p in r
    requires forall p :: p in r ==> p.dir !in OtherDirs(q, dir) - survivors
    ensures OtherDirs(r, dir) == survivors
  {
    forall x | x in survivors ensures x in OtherDirs(r, dir) {
      var p :| p in q && p.dir != dir && p.dir == x;
      assert p in r;
    }
    forall x | x in OtherDirs(r, dir) ensures x in survivors {
      var p :| p in r && p.dir != dir && p.dir == x;
      assert p in q;
    }
  }

  /** The `keep - 1` newest of `all`, or all if there are fewer. */
  method Newest(all: set<SnapshotId>, keep: nat, age: SnapshotId -> nat) returns (survivors: set<SnapshotId>)
    ensures survivors <= all
    ensures forall a, b :: a in survivors && b in all - survivors ==> age(a) >= age(b)
    ensures survivors == all || |survivors| + 1 >= keep
    ensures |survivors| + 1 <= keep || survivors == {}
  {
    survivors := {};
    var others := all;
    assert others + survivors == all;
    while others != {} && |survivors| + 1 < keep
      invariant others + survivors == all && others !! survivors
      invariant forall a, b :: a in survivors && b in others ==> age(a) >= age(b)
      invariant |survivors| + 1 <= keep || survivors == {}
      decreases others
    {
      var x := NewestOf(others, age);
      assert others - {x} + (survivors + {x}) == all;
      others, survivors := others - {x}, survivors + {x};
    }
  }

  method NewestOf(all: set<SnapshotId>, age: SnapshotId -> nat) returns (x: SnapshotId)
    requires all != {}
    ensures x in all && forall y :: y in all ==> age(x) >= age(y)
  {
    HasNewest(all, age);
    x :| x in all && forall y :: y in all ==> age(x) >= age(y);
  }

  function OtherDirs(q: map<QPath, QFile>, dir: SnapshotId): set<SnapshotId> {
    set p | p in q && p.dir != dir :: p.dir
  }

  /** Nothing changed but that files outside `dir` are gone. */
  ghost predicate OnlyPruned(d: Disk, next: Disk, dir: SnapshotId) {
    next == d.(quarantine := next.quarantine) && PrunedTo(d.quarantine, next.quarantine, dir)
  }

  ghost predicate PrunedTo(q: map<QPath, QFile>, r: map<QPath, QFile>, dir: SnapshotId) {
    && (forall p :: p in r ==> p in q && r[p] == q[p])
    && (forall p :: p in q && p.dir == dir ==> p in r)
  }

  /** Of the other directories the newest stay whole, fewer than `keep` of them, and as
      many as there are if fewer exist. */
  ghost predicate NewestKept(q: map<QPath, QFile>, r: map<QPath, QFile>, dir: SnapshotId, keep: nat,
                             age: SnapshotId -> nat) {
    var before, after := OtherDirs(q, dir), OtherDirs(r, dir);
    && after <= before
    && (forall p :: p in q && p.dir in after ==> p in r)
    && (forall a, b :: a in after && b in before - after ==> age(a) >= age(b))
    && (after == before || |after| + 1 >= keep)
    && (|after| + 1 <= keep || after == {})
  }

  lemma HasNewest(s: set<SnapshotId>, age: SnapshotId -> nat)
    requires s != {}
    ensures exists x :: x in s && forall y :: y in s ==> age(x) >= age(y)
  {
    var z :| z in s;
    if s == {z} {
      assert z in s && forall y :: y in s ==> age(z) >= age(y);
    } else {
      HasNewest(s - {z}, age);
      var x :| x in s - {z} && forall y :: y in s - {z} ==> age(x) >= age(y);
      var best := if age(z) >= age(x) then z else x;
      forall y | y in s ensures age(best) >= age(y) {
        if y != z { assert y in s - {z}; }
      }
      assert best in s;
    }
  }
}
