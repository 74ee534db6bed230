/** Whole schedules: runs that may crash at any effect, uploads by the producer, process
    exits, reloads and reboots, in any order.  What the design promises of every state
    they can reach follows from the invariant. */
module ReleaseRuns {
  import opened Outcomes
  import opened Manifests
  import opened ReleaseTypes
  import opened ReleaseInvariant
  import opened ReleaseSteps
  import opened ReleaseTrail
  import opened ReleaseHost
  import opened ReleaseDeploy

  datatype Event =
    | Run(fate: Fate, verifier: Verifier)
    | Upload(db: Bytes, sidecar: Sidecar)
    | Exit(p: Port)
    | Reload
    | Reboot

  /** A freshly installed host: no journal, one slot in service. */
  ghost predicate Installed(e: World, d: Disk, u: Units, h: History, t: Trail) {
    && Untouched(d) && t == Trail([Mark(d, {})], {}, [])
    && d.upstream in d.slots && d.upstream in u.enabled && u.loaded == d.upstream
    && (d.upstream in u.running ==> u.running[d.upstream] == d.slots[d.upstream])
    && (d.basis.Some? ==> e.baseOnly(d.basis.value))
    && h == History(0, map[0 := []], {}, {}, d.upstream, d.slots[d.upstream], d.basis, d.receipt,
                    if d.basis.Some? then {d.basis.value} else {}, {}, None, false, false, false)
  }

  // ---------- the promises ----------

  /** Basis and receipt are those of the last commit.  Only a verified release may have
      stored its own, first the basis and then the receipt; and only after it has, may a
      blocked record hold them. */
  ghost predicate OnlyKnownPairs(d: Disk, h: History) {
    || (d.basis == h.basis && d.receipt == h.receipt && !h.stored && !h.filed)
    || (&& d.journal.Some? && (d.journal.value.ConsumerVerified? || d.journal.value.FinalizeBlocked?)
        && (h.stored || h.filed)
        && var rel := d.journal.value.rel;
        && d.claimed.Some? && d.basis == d.claimed && SnapshotId(d.claimed.value) == rel.snapshot
        && d.receipt == if h.filed then Some(Receipt(rel.snapshot, rel.manifest, rel.candidate)) else h.receipt)
  }

  /** The basis is a base-only artifact that passed base verification. */
  ghost predicate BasisIsBase(e: World, d: Disk) {
    d.basis.Some? ==> e.baseOnly(d.basis.value)
  }

  /** No effect ever stopped, disabled, moved or rewrote the slot nginx had loaded, and the
      loaded slot holds the committed database or a candidate that passed both gates for
      the journal's release.  Restarts are the matter of `OnlyTheseRestarts`. */
  ghost predicate LoadedSlotIsGood(e: World, d: Disk, u: Units, h: History) {
    && !h.disturbed
    && u.loaded in d.slots && u.loaded in u.enabled
    && var db := d.slots[u.loaded];
    || (u.loaded == h.port && db == h.db)
    || (exists rel :: JournalAbout(d.journal, rel) && rel.candidate == u.loaded
                      && e.ftsOk(db, rel.manifest.of)
                      && Saw(h, Direct, u.loaded, db, rel.manifest.of.terms, rel.manifest.of.http))
  }

  ghost predicate JournalAbout(j: Option<Entry>, rel: Release) {
    j.Some? && match j.value
               case Pending(_, r, _) => r == rel
               case RollbackFailed(r, _, _) => r == rel
               case RollbackBlocked(r, _) => r == rel
               case ConsumerVerified(r) => r == rel
               case FinalizeBlocked(r) => r == rel
               case _ => false
  }

  /** A claim is rebuilt at most twice, both times under the same verifier. */
  ghost predicate FewRebuilds(h: History) {
    forall c :: c in h.attempts ==> AttemptsOk(h.attempts[c])
  }

  /** What the last commit serves went through every gate, the last two with the slot it
      replaced down. */
  ghost predicate CommitsProven(d: Disk, h: History) {
    d.journal.Some? && d.journal.value.Committed? ==>
      Proven(h, d.journal.value.port, h.db, d.journal.value.manifest.of)
  }

  /** The live unit of the slot nginx had loaded was only restarted right after a health check
      of it had got no answer, and only as the old slot while traffic was to be moved back
      to it, or as the candidate of a release that was being finalized. */
  ghost predicate OnlyTheseRestarts(t: Trail) {
    forall b :: b in t.bounces ==> Unanswered(b) && Bounceable(b.journal, b.committed, b.port)
  }

  ghost predicate Promises(e: World, d: Disk, u: Units, h: History, t: Trail) {
    && OnlyKnownPairs(d, h)
    && BasisIsBase(e, d)
    && LoadedSlotIsGood(e, d, u, h)
    && d.upstream in u.enabled
    && h.stranded !! h.committed
    && FewRebuilds(h)
    && CommitsProven(d, h)
    && OnlyTheseRestarts(t)
    && Stepwise(t.marks) && (forall m :: m in t.marks ==> NotLeading(m.disk))
  }

  lemma InvariantKeepsPromises(e: World, d: Disk, u: Units, h: History, t: Trail)
    requires Inv(e, d, u, h) && TrailOk(t, d)
    ensures Promises(e, d, u, h, t)
  {
    forall m | m in t.marks ensures NotLeading(m.disk) {
      var k :| 0 <= k < |t.marks| && t.marks[k] == m;
      assert k > 0 ==> StepOk(t.marks[k - 1], t.marks[k]);
    }
    if u.loaded != h.port {
      assert d.journal.Some?;
      var rel := match d.journal.value
        case Pending(_, r, _) => r
        case RollbackFailed(r, _, _) => r
        case RollbackBlocked(r, _) => r
        case ConsumerVerified(r) => r
        case FinalizeBlocked(r) => r;
      assert JournalAbout(d.journal, rel);
    }
  }

  lemma InstalledIsSafe(e: World, d: Disk, u: Units, h: History, t: Trail)
    requires Installed(e, d, u, h, t)
    ensures Inv(e, d, u, h) && TrailOk(t, d)
  {
  }

  // ---------- the outside world between two runs ----------

  lemma UploadKeepsInv(e: World, d: Disk, u: Units, h: History, db: Bytes, sidecar: Sidecar)
    requires Inv(e, d, u, h) && Publishable(d, SnapshotId(db), sidecar)
    ensures var next := d.(incoming := Some(db), sidecars := d.sidecars[SnapshotId(db) := sidecar]);
            Inv(e, next, u, Advance(h, u, d, next))
  {
    var next := d.(incoming := Some(db), sidecars := d.sidecars[SnapshotId(db) := sidecar]);
    assert Always(e, next, u, Advance(h, u, d, next));
    if d.journal.Some? && d.journal.value.Quarantining? {
      UploadKeepsMoving(h.origin.value, d, next, d.journal.value);
    } else if d.journal.Some? {
      UploadKeepsStage(e, d, u, h, next, d.journal.value);
    }
  }

  lemma UploadKeepsStage(e: World, d: Disk, u: Units, h: History, next: Disk, entry: Entry)
    requires Inv(e, d, u, h) && d.journal == Some(entry) && !entry.Quarantining?
    requires next == d.(incoming := next.incoming, sidecars := next.sidecars)
    requires forall id :: id in d.sidecars ==> id in next.sidecars && next.sidecars[id] == d.sidecars[id]
    ensures ClaimsOk(Advance(h, u, d, next)) && Stage(e, next, u, Advance(h, u, d, next), entry)
  {
    assert forall rel :: Bound(d, rel) ==> Bound(next, rel) && next.sidecars[rel.snapshot] == d.sidecars[rel.snapshot];
  }

  lemma UploadKeepsMoving(o: Disk, d: Disk, next: Disk, entry: Entry)
    requires entry.Quarantining? && Moving(o, d, entry)
    requires next == d.(incoming := next.incoming, sidecars := next.sidecars)
    requires Source(next, ManifestFile, entry.from, entry.snapshot)
             == Source(d, ManifestFile, entry.from, entry.snapshot)
    ensures Moving(o, next, entry)
  {
    forall l | l != FailureFile
      ensures LabelOk(o, next, entry, l)
    {
      assert LabelOk(o, d, entry, l);
    }
  }

  function WithUpload(d: Disk, db: Bytes, sidecar: Sidecar): Disk {
    d.(incoming := Some(db), sidecars := d.sidecars[SnapshotId(db) := sidecar])
  }

  method DoUpload(t: Host, db: Bytes, sidecar: Sidecar)
    requires t.Safe()
    modifies t`disk, t`hist, t`trail
    ensures t.Safe()
    ensures var d := old(t.disk);
            t.disk == if Publishable(d, SnapshotId(db), sidecar) then WithUpload(d, db, sidecar) else d
    ensures t.hist == old(t.hist)
  {
    if Publishable(t.disk, SnapshotId(db), sidecar) {
      UploadKeepsInv(t.env, t.disk, t.units, t.hist, db, sidecar);
      t.MakeChange(WithUpload(t.disk, db, sidecar), Uploaded(SnapshotId(db)), false);
    }
  }

  /** nginx starts with the include on disk, systemd with the enabled units. */
  function AfterReboot(d: Disk, u: Units): Units {
    Units(map p | p in u.enabled && p in d.slots :: d.slots[p], u.enabled, d.upstream)
  }

  lemma ReloadKeepsInv(e: World, d: Disk, u: Units, h: History)
    requires Inv(e, d, u, h)
    ensures Inv(e, d, u.(loaded := d.upstream), h)
  {
  }

  lemma RebootKeepsInv(e: World, d: Disk, u: Units, h: History)
    requires Inv(e, d, u, h)
    ensures Inv(e, d, AfterReboot(d, u), h)
    ensures d.upstream in d.slots ==> d.upstream in AfterReboot(d, u).running
  {
    ReloadKeepsInv(e, d, u, h);
    UnitsKeepInv(e, d, u.(loaded := d.upstream), AfterReboot(d, u), h);
  }

  method Happen(t: Host, event: Event)
    requires t.Safe()
    modifies t
    ensures t.Safe()
  {
    match event {
      case Run(fate, verifier) =>
        t.fate, t.verifier, t.heard := fate, verifier, None;
        var deploy := new Deploy(t);
        var _ := deploy.ApplyLocked();
      case Upload(db, sidecar) =>
        DoUpload(t, db, sidecar);
      case Exit(p) =>
        UnitsKeepInv(t.env, t.disk, t.units, Effect(Stop(p), t.disk, t.units), t.hist);
        t.units := Effect(Stop(p), t.disk, t.units);
      case Reload =>
        ReloadKeepsInv(t.env, t.disk, t.units, t.hist);
        t.units := t.units.(loaded := t.disk.upstream);
      case Reboot =>
        RebootKeepsInv(t.env, t.disk, t.units, t.hist);
        t.units := AfterReboot(t.disk, t.units);
    }
  }

  /** Every schedule, from the installation on, ends in a state that keeps the promises;
      as a run may crash at any effect, so does every state within a run. */
  method Schedule(t: Host, events: seq<Event>)
    requires Installed(t.env, t.disk, t.units, t.hist, t.trail)
    modifies t
    ensures Promises(t.env, t.disk, t.units, t.hist, t.trail)
  {
    InstalledIsSafe(t.env, t.disk, t.units, t.hist, t.trail);
    for i := 0 to |events|
      invariant t.Safe()
    {
      Happen(t, events[i]);
    }
    InvariantKeepsPromises(t.env, t.disk, t.units, t.hist, t.trail);
  }

  // ---------- what does happen ----------

  /** An upload whose sidecar is the one for it, and which stands all tests. */
  ghost predicate GoodUpload(t: Host, db: Bytes, body: Body, v: Verifier)
    reads t
  {
    && body.snapshot == SnapshotId(db) && SnapshotId(db) !in t.disk.sidecars
    && t.env.honest && t.polls > 0
    && t.env.baseOnly(db) && t.env.ftsOk(t.env.rebuild(db, v), body)
    && t.env.serve(t.env.rebuild(db, v), body.terms) == body.http
  }

  /** A blocked record holds the new basis exactly when a run before had stored it, and the
      new receipt exactly when a run had got that far. */
  lemma BlockedPair(e: World, d: Disk, u: Units, h: History, rel: Release)
    requires Inv(e, d, u, h) && d.journal == Some(FinalizeBlocked(rel))
    ensures d.basis != h.basis <==> h.stored
    ensures d.receipt != h.receipt <==> h.filed
    ensures h.stored || h.filed ==> d.basis == d.claimed && BindDb(d.claimed) == Some(rel.snapshot)
    ensures h.filed ==> d.receipt == Some(Receipt(rel.snapshot, rel.manifest, rel.candidate))
  {
  }

  /** It does happen: from every installed host a run that dies right after it has stored
      the basis, and a next one that cannot read the authority, end in a record that says
      nothing has advanced, over a new basis. */
  method BlockedOverNewBasis(t: Host, db: Bytes, body: Body, v: Verifier)
    requires Installed(t.env, t.disk, t.units, t.hist, t.trail) && GoodUpload(t, db, body, v)
    requires t.disk.upstream in t.units.running && t.disk.basis != Some(db)
    modifies t
    ensures t.Safe() && t.disk.journal.Some? && t.disk.journal.value.FinalizeBlocked?
    ensures t.disk.basis == Some(db) && t.hist.basis == old(t.disk).basis && t.hist.stored
  {
    DieOverNewBasis(t, db, body, v);
    var deploy := new Deploy(t);
    t.fate := CannotReadAuthority;
    var _ := deploy.ApplyLocked();
  }

  /** The first of the two runs. */
  method DieOverNewBasis(t: Host, db: Bytes, body: Body, v: Verifier)
    requires Installed(t.env, t.disk, t.units, t.hist, t.trail) && GoodUpload(t, db, body, v)
    requires t.disk.upstream in t.units.running && t.disk.basis != Some(db)
    modifies t
    ensures t.units.loaded in t.units.running && t.units.loaded == old(t.disk).upstream.Other()
    ensures Bounceable(t.disk.journal, t.hist.port, t.units.loaded)
    ensures t.Safe() && t.disk.journal.Some? && t.disk.journal.value.ConsumerVerified?
    ensures t.disk.basis == Some(db) && t.hist.basis == old(t.disk).basis && t.hist.stored
  {
    InstalledIsSafe(t.env, t.disk, t.units, t.hist, t.trail);
    DoUpload(t, db, Manifest(body, true));
    var deploy := new Deploy(t);
    t.fate, t.verifier := DiesAtBasis, v;
    var _ := deploy.ApplyLocked();
  }

  /** The live unit of the loaded slot is restarted, and goes down if the restart fails, in
      every state in which this may happen at all, once no health check gets an answer. */
  method LoadedUnitGoesDown(t: Host)
    requires t.Safe() && t.units.loaded in t.units.running
    requires Bounceable(t.disk.journal, t.hist.port, t.units.loaded)
    modifies t
    ensures t.Safe() && t.units == old(t.units).(running := old(t.units).running - {old(t.units).loaded})
    ensures t.trail.bounces ==
            old(t.trail).bounces + [Bounce(old(t.disk).journal, old(t.units).loaded, old(t.hist).port,
              Some(HealthCheck(old(t.units).loaded, old(t.disk).journal, old(t.units), false)))]
  {
    t.fate := CannotReadHealth;
    var deploy := new Deploy(t);
    var _ := deploy.ApplyLocked();
  }

  /** Such a state is reached from every installed host, and so it does happen: after a run
      that dies in finalizing, the next one takes down the candidate nginx has loaded. */
  method CandidateGoesDown(t: Host, db: Bytes, body: Body, v: Verifier)
    requires Installed(t.env, t.disk, t.units, t.hist, t.trail) && GoodUpload(t, db, body, v)
    requires t.disk.upstream in t.units.running && t.disk.basis != Some(db)
    modifies t
    ensures t.Safe() && t.units.loaded == old(t.disk).upstream.Other()
    ensures t.units.loaded !in t.units.running && t.trail.bounces != []
  {
    DieOverNewBasis(t, db, body, v);
    LoadedUnitGoesDown(t);
  }

  /** With the committed slot's unit down a good upload is not settled by the run that
      claims it, nor by the recovery after it: it waits at its checkpoint. */
  method GoodUploadWaits(t: Host, db: Bytes, body: Body, v: Verifier)
    requires Installed(t.env, t.disk, t.units, t.hist, t.trail) && GoodUpload(t, db, body, v)
    requires t.disk.upstream !in t.units.running
    modifies t
    ensures t.Safe() && t.disk.journal.Some? && t.disk.journal.value.Prepared?
    ensures t.disk.journal.value.rel.retry == 1 && t.disk.journal.value.verifier == v
  {
    InstalledIsSafe(t.env, t.disk, t.units, t.hist, t.trail);
    DoUpload(t, db, Manifest(body, true));
    var deploy := new Deploy(t);
    t.fate, t.verifier := Calm, v;
    var _ := deploy.ApplyLocked();
    var _ := deploy.ApplyLocked();
  }

  /** With the committed slot's unit up, a good upload is committed by the run that claims it;
      and once a recovery has come by, its base is gone. */
  method GoodUploadCommits(t: Host, db: Bytes, body: Body, v: Verifier)
    requires Installed(t.env, t.disk, t.units, t.hist, t.trail) && GoodUpload(t, db, body, v)
    requires t.disk.upstream in t.units.running
    modifies t
    ensures t.Safe() && Undropped(t.disk.journal) && t.disk.journal.value.base == SnapshotId(db)
    ensures t.disk.claimed.None?
  {
    InstalledIsSafe(t.env, t.disk, t.units, t.hist, t.trail);
    DoUpload(t, db, Manifest(body, true));
    var deploy := new Deploy(t);
    t.fate, t.verifier := Calm, v;
    var _ := deploy.ApplyLocked();
    var _ := deploy.Reconcile();
  }

  /** Once the sidecar of a committed snapshot has been dropped, the producer may publish the
      snapshot again with another manifest.  From then on every run raises, however often
      and under whatever verifier it is tried. */
  method SecondManifestBlocks(t: Host, body: Body, again: seq<Verifier>)
    requires t.Safe() && Undropped(t.disk.journal) && t.disk.journal.value.base !in t.disk.sidecars
    requires ManifestId(body) != t.disk.journal.value.manifest
    modifies t
    ensures t.Safe() && t.disk.journal == old(t.disk).journal && Stuck(t.disk)
  {
    DoUpload(t, t.disk.journal.value.base.of, Manifest(body, true));
    t.fate := Calm;
    var deploy := new Deploy(t);
    for i := 0 to |again|
      invariant t.Safe() && t.fate.Calm? && t.disk.journal == old(t.disk).journal && Stuck(t.disk)
    {
      t.verifier := again[i];
      var r := deploy.ApplyLocked();
      assert r.Raised?;
    }
  }

  /** A second recovery under the same verifier always settles what is not blocked. */
  method SecondRecoverySettles(deploy: Deploy)
    requires deploy.t.Safe() && deploy.Cooperative() && deploy.t.fate.Calm?
    requires !Blocked(deploy.t.disk.journal) && !VerifierMoved(deploy.t.disk.journal, deploy.t.verifier)
    modifies deploy.t`disk, deploy.t`units, deploy.t`hist, deploy.t`trail, deploy.t`heard
    ensures deploy.t.Safe() && Settled(deploy.t.disk.journal)
  {
    var _ := deploy.Reconcile();
    var _ := deploy.Reconcile();
  }
}
