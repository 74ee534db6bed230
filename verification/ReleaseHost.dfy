/** The effects and observations of a run.  Every effect may be the last thing the
    process does, before or after it took place; commands and reads may also fail. */
module ReleaseHost {
  import opened Outcomes
  import opened Manifests
  import opened ReleaseTypes
  import opened ReleaseInvariant
  import opened ReleaseSteps
  import opened ReleaseQuarantine
  import opened ReleaseTrail

  /** How a run goes.  Under Any everything may happen; the others are single ways to go:
      in a calm run nothing crashes and commands and reads succeed, and each of the rest is
      calm but for one trouble.  DiesAtBasis: the process dies as soon as it has replaced
      the basis.  CannotReadAuthority: the check of a verified release's authority fails.
      CannotReadHealth: no health check gets an answer, and a restart leaves the unit down. */
  datatype Fate = Calm | Any | DiesAtBasis | CannotReadAuthority | CannotReadHealth

  class Host {
    const env: World
    const polls: nat           // health polls that fit into the deadline
    const keep: nat            // quarantine directories kept
    var fate: Fate
    var verifier: Verifier     // VERIFIER_VERSION of the code now installed
    var disk: Disk
    var units: Units
    ghost var hist: History
    ghost var trail: Trail
    ghost var heard: Option<HealthCheck>   // the last health check, until a restart

    ghost predicate Sound()
      reads this
    {
      Inv(env, disk, units, hist)
    }

    ghost predicate Safe()
      reads this
    {
      Sound() && TrailOk(trail, disk)
    }

    /** Everything works until another basis is stored. */
    predicate Steady()
      reads this`fate
    {
      fate.Calm? || fate.DiesAtBasis?
    }

    constructor (env: World, polls: nat, keep: nat, disk: Disk, units: Units, ghost hist: History, ghost trail: Trail)
      ensures this.env == env && this.polls == polls && this.keep == keep && this.disk == disk
      ensures this.units == units && this.hist == hist && this.trail == trail
    {
      this.env, this.polls, this.keep := env, polls, keep;
      this.disk, this.units, this.hist, this.trail := disk, units, hist, trail;
      this.fate, this.verifier, this.heard := Any, 0, None;
    }

    /** One atomic, durable change of the disk.  A process that dies after the change may
        not have forced it out. */
    method Store(next: Disk, ghost x: Change) returns (r: Outcome)
      requires Safe()
      requires Inv(env, next, units, Advance(hist, units, disk, next))
      requires Fits(x, disk, next) && StaysClosed(x, disk, next, trail.open)
      modifies this`disk, this`hist, this`trail
      ensures Safe()
      ensures r.Done? || r.Died?
      ensures !fate.Any? && !(fate.DiesAtBasis? && next.basis != old(disk).basis) ==> r.Done?
      ensures fate.DiesAtBasis? && next.basis != old(disk).basis ==> r.Died? && disk == next
      ensures r.Done? ==> disk == next && hist == Advance(old(hist), units, old(disk), next)
                          && trail == Trodden(old(trail), x, old(disk), next, false)
      ensures r.Died? ==> (disk == old(disk) && hist == old(hist) && trail == old(trail))
                          || (disk == next && hist == Advance(old(hist), units, old(disk), next)
                              && trail == Trodden(old(trail), x, old(disk), next, true))
    {
      var crash: bool := *;
      if crash && fate.Any? { return Died; }
      var late: bool := *;
      r := if (late && fate.Any?) || (fate.DiesAtBasis? && next.basis != disk.basis) then Died else Done;
      MakeChange(next, x, r.Died?);
    }

    method MakeChange(next: Disk, ghost x: Change, ghost cut: bool)
      requires Safe()
      requires Inv(env, next, units, Advance(hist, units, disk, next))
      requires Fits(x, disk, next) && StaysClosed(x, disk, next, trail.open)
      modifies this`disk, this`hist, this`trail
      ensures Safe() && disk == next && hist == Advance(old(hist), units, old(disk), next)
      ensures trail == Trodden(old(trail), x, old(disk), next, cut)
    {
      InvDoesNotLead(env, next, units, Advance(hist, units, disk, next));
      TrailExtends(trail, x, disk, next, cut);
      hist, trail := Advance(hist, units, disk, next), Trodden(trail, x, disk, next, cut);
      disk := next;
    }

    // ---------------- the single changes ----------------

    /** Another entry is journalled; a quarantine only begins with `StoreIntent`. */
    method StoreJournal(e: Entry) returns (r: Outcome)
      requires Safe()
      requires Follows(disk.journal, e) && Closed(Some(e), trail.open)
      requires e.Quarantining? ==> disk.journal.value.Quarantining? && KeepsPaths(disk, e)
      requires Inv(env, disk.(journal := Some(e)), units,
                   Advance(hist, units, disk, disk.(journal := Some(e))))
      modifies this`disk, this`hist, this`trail
      ensures Safe() && trail.bounces == old(trail).bounces && trail.open == old(trail).open
      ensures r.Done? || r.Died?
      ensures !fate.Any? ==> r.Done?
      ensures Ended(r, units, old(disk), old(hist), old(disk).(journal := Some(e)), disk, hist)
    {
      r := Store(disk.(journal := Some(e)), Journalled);
    }

    /** The intent of a quarantine is journalled, under a fresh id. */
    method StoreIntent(e: Entry) returns (r: Outcome)
      requires Safe()
      requires Follows(disk.journal, e) && e.Quarantining? && KeepsPaths(disk, e)
      requires Inv(env, disk.(journal := Some(e), nextId := disk.nextId + 1), units,
                   Advance(hist, units, disk, disk.(journal := Some(e), nextId := disk.nextId + 1)))
      modifies this`disk, this`hist, this`trail
      ensures Safe() && trail.bounces == old(trail).bounces
      ensures r.Done? || r.Died?
      ensures !fate.Any? ==> r.Done?
      ensures Ended(r, units, old(disk), old(hist),
                    old(disk).(journal := Some(e), nextId := old(disk).nextId + 1), disk, hist)
      ensures r.Done? ==> trail.open == Reopened(old(disk), disk, old(trail).open)
    {
      r := Store(disk.(journal := Some(e), nextId := disk.nextId + 1), Journalled);
    }

    /** The include is written. */
    method StoreInclude(p: Port) returns (r: Outcome)
      requires Safe()
      requires Undecidable(disk.journal) || (disk.journal.Some? && disk.journal.value.Prepared?)
      requires Inv(env, disk.(upstream := p), units,
                   Advance(hist, units, disk, disk.(upstream := p)))
      modifies this`disk, this`hist, this`trail
      ensures Safe() && trail.bounces == old(trail).bounces
      ensures r.Done? || r.Died?
      ensures !fate.Any? ==> r.Done?
      ensures Ended(r, units, old(disk), old(hist), old(disk).(upstream := p), disk, hist)
      ensures r.Done? ==> trail.open == old(trail).open - {IncludePiece}
    {
      r := Store(disk.(upstream := p), IncludeWritten);
    }

    /** The claimed base becomes the basis. */
    method StoreBasis() returns (r: Outcome)
      requires Safe()
      requires disk.journal.Some? && disk.journal.value.ConsumerVerified? && disk.claimed.Some?
      requires Inv(env, disk.(basis := disk.claimed), units,
                   Advance(hist, units, disk, disk.(basis := disk.claimed)))
      modifies this`disk, this`hist, this`trail
      ensures Safe() && trail.bounces == old(trail).bounces
      ensures r.Done? || r.Died?
      ensures !fate.Any? ==> r == if fate.DiesAtBasis? && old(disk).claimed != old(disk).basis then Died else Done
      ensures !fate.Any? ==> disk == old(disk).(basis := old(disk).claimed)
      ensures !fate.Any? ==> hist == Advance(old(hist), units, old(disk), disk)
      ensures Ended(r, units, old(disk), old(hist), old(disk).(basis := old(disk).claimed), disk, hist)
      ensures r.Done? ==> trail.open == old(trail).open - {BasisPiece}
    {
      r := Store(disk.(basis := disk.claimed), BasisStored);
    }

    /** The receipt of `rel` is written. */
    method StoreReceipt(rel: Release) returns (r: Outcome)
      requires Safe()
      requires disk.journal == Some(ConsumerVerified(rel))
      requires Inv(env, disk.(receipt := Some(Receipt(rel.snapshot, rel.manifest, rel.candidate))), units,
                   Advance(hist, units, disk,
                           disk.(receipt := Some(Receipt(rel.snapshot, rel.manifest, rel.candidate)))))
      modifies this`disk, this`hist, this`trail
      ensures Safe() && trail.bounces == old(trail).bounces
      ensures r.Done? || r.Died?
      ensures !fate.Any? ==> r.Done?
      ensures Ended(r, units, old(disk), old(hist),
                    old(disk).(receipt := Some(Receipt(rel.snapshot, rel.manifest, rel.candidate))), disk, hist)
      ensures r.Done? ==> trail.open == old(trail).open - {ReceiptPiece}
    {
      r := Store(disk.(receipt := Some(Receipt(rel.snapshot, rel.manifest, rel.candidate))), ReceiptStored);
    }

    /** The upload is renamed to the claimed base. */
    method TakeUpload() returns (r: Outcome)
      requires Safe()
      requires disk.journal.Some? && disk.journal.value.Claiming? && disk.incoming.Some?
      requires Inv(env, disk.(incoming := None, claimed := disk.incoming), units,
                   Advance(hist, units, disk, disk.(incoming := None, claimed := disk.incoming)))
      modifies this`disk, this`hist, this`trail
      ensures Safe() && trail.bounces == old(trail).bounces
      ensures r.Done? || r.Died?
      ensures !fate.Any? ==> r.Done?
      ensures Ended(r, units, old(disk), old(hist),
                    old(disk).(incoming := None, claimed := old(disk).incoming), disk, hist)
      ensures r.Done? ==> trail.open == old(trail).open
    {
      r := Store(disk.(incoming := None, claimed := disk.incoming), Taken);
    }

    /** The claimed base is unlinked. */
    method DropClaimed() returns (r: Outcome)
      requires Safe()
      requires Undropped(disk.journal)
      requires Inv(env, disk.(claimed := None), units,
                   Advance(hist, units, disk, disk.(claimed := None)))
      modifies this`disk, this`hist, this`trail
      ensures Safe() && trail.bounces == old(trail).bounces
      ensures r.Done? || r.Died?
      ensures !fate.Any? ==> r.Done?
      ensures Ended(r, units, old(disk), old(hist), old(disk).(claimed := None), disk, hist)
      ensures r.Done? ==> trail.open == old(trail).open
    {
      r := Store(disk.(claimed := None), ClaimDropped);
    }

    /** A committed snapshot's sidecar is unlinked. */
    method DropSidecar(id: SnapshotId) returns (r: Outcome)
      requires Safe()
      requires Undropped(disk.journal)
      requires Inv(env, disk.(sidecars := disk.sidecars - {id}), units,
                   Advance(hist, units, disk, disk.(sidecars := disk.sidecars - {id})))
      modifies this`disk, this`hist, this`trail
      ensures Safe() && trail.bounces == old(trail).bounces
      ensures r.Done? || r.Died?
      ensures !fate.Any? ==> r.Done?
      ensures Ended(r, units, old(disk), old(hist), old(disk).(sidecars := old(disk).sidecars - {id}), disk, hist)
      ensures r.Done? ==> trail.open == old(trail).open
    {
      r := Store(disk.(sidecars := disk.sidecars - {id}), SidecarDropped(id));
    }

    /** A slot database is replaced by a copy, or rebuilt in place. */
    method StoreSlot(p: Port, db: Bytes, ghost x: Change) returns (r: Outcome)
      requires Safe()
      requires BeforeTraffic(disk.journal) && (x == SlotCopied(p) || x == SlotRebuilt(p))
      requires Inv(env, disk.(slots := disk.slots[p := db]), units,
                   Advance(hist, units, disk, disk.(slots := disk.slots[p := db])))
      modifies this`disk, this`hist, this`trail
      ensures Safe() && trail.bounces == old(trail).bounces
      ensures r.Done? || r.Died?
      ensures !fate.Any? ==> r.Done?
      ensures Ended(r, units, old(disk), old(hist), old(disk).(slots := old(disk).slots[p := db]), disk, hist)
      ensures r.Done? ==> trail.open == old(trail).open
    {
      r := Store(disk.(slots := disk.slots[p := db]), x);
    }

    /** One piece of evidence is renamed into the quarantine. */
    method StoreEvidence(e: Entry, l: Label) returns (r: Outcome)
      requires Safe()
      requires disk.journal == Some(e) && e.Quarantining? && Source(disk, l, e.from, e.snapshot).Some?
      requires PathOf(e, l) !in disk.quarantine
      requires Inv(env, Moved(disk, l, e.from, e.snapshot, e.intent.id), units,
                   Advance(hist, units, disk, Moved(disk, l, e.from, e.snapshot, e.intent.id)))
      modifies this`disk, this`hist, this`trail
      ensures Safe() && trail.bounces == old(trail).bounces
      ensures r.Done? || r.Died?
      ensures !fate.Any? ==> r.Done?
      ensures Ended(r, units, old(disk), old(hist), Moved(old(disk), l, e.from, e.snapshot, e.intent.id), disk, hist)
      ensures r.Done? ==> trail.open == old(trail).open + {RecordPiece} - {EvidencePiece(l)}
    {
      r := Store(Moved(disk, l, e.from, e.snapshot, e.intent.id), EvidenceMoved(l));
    }

    /** The failure record is written. */
    method StoreRecord(e: Entry, f: Failure) returns (r: Outcome)
      requires Safe()
      requires disk.journal == Some(e) && e.Quarantining?
      requires Inv(env, disk.(quarantine := disk.quarantine[PathOf(e, FailureFile) := FailureRecord(f)]), units,
                   Advance(hist, units, disk,
                           disk.(quarantine := disk.quarantine[PathOf(e, FailureFile) := FailureRecord(f)])))
      modifies this`disk, this`hist, this`trail
      ensures Safe() && trail.bounces == old(trail).bounces
      ensures r.Done? || r.Died?
      ensures !fate.Any? ==> r.Done?
      ensures Ended(r, units, old(disk), old(hist),
                    old(disk).(quarantine := old(disk).quarantine[PathOf(e, FailureFile) := FailureRecord(f)]),
                    disk, hist)
      ensures r.Done? ==> trail.open == old(trail).open - {RecordPiece}
    {
      r := Store(disk.(quarantine := disk.quarantine[PathOf(e, FailureFile) := FailureRecord(f)]), RecordFiled);
    }

    /** Files of other quarantine directories are removed. */
    method StorePruned(gone: set<QPath>) returns (r: Outcome)
      requires Safe()
      requires disk.journal.Some? && disk.journal.value.Quarantined?
      requires forall q :: q in gone ==> q.dir != disk.journal.value.path.dir
      requires Inv(env, disk.(quarantine := disk.quarantine - gone), units,
                   Advance(hist, units, disk,
                           disk.(quarantine := disk.quarantine - gone)))
      modifies this`disk, this`hist, this`trail
      ensures Safe() && trail.bounces == old(trail).bounces
      ensures r.Done? || r.Died?
      ensures !fate.Any? ==> r.Done?
      ensures Ended(r, units, old(disk), old(hist), old(disk).(quarantine := old(disk).quarantine - gone), disk, hist)
      ensures r.Done? ==> trail.open == old(trail).open
    {
      r := Store(disk.(quarantine := disk.quarantine - gone), Pruned);
    }

    /** systemctl or `nginx -s reload`, other than a restart.  A failed command may still
        have had its effect. */
    method Command(c: UnitCommand) returns (r: Outcome)
      requires Sound() && !c.Restart?
      requires Inv(env, disk, Effect(c, disk, units), AfterCommand(hist, units, c))
      modifies this`units
      ensures Sound()
      ensures r.Done? || r.Raised? || r.Died?
      ensures !fate.Any? ==> r.Done?
      ensures r.Done? ==> units == Effect(c, disk, old(units))
      ensures units == old(units) || units == Effect(c, disk, old(units))
    {
      var choice: int := *;
      if !fate.Any? || choice % 2 == 0 {
        units := Effect(c, disk, units);
      }
      r := if !fate.Any? || choice == 0 then Done else if choice > 0 then Raised else Died;
    }

    /** `systemctl restart`: a failed restart may leave the unit as it was, up, or down.
        The live unit that nginx has loaded is only restarted when its health check failed
        all the same, and this is noted. */
    method RestartUnit(p: Port) returns (r: Outcome)
      requires Safe()
      requires Inv(env, disk, Effect(Restart(p), disk, units), hist)
      requires Inv(env, disk, Effect(Stop(p), disk, units), hist)
      requires p == units.loaded && p in units.running ==>
                 Bounceable(disk.journal, hist.port, p) && heard == Some(HealthCheck(p, disk.journal, units, false))
      modifies this`units, this`trail, this`heard
      ensures Safe()
      ensures r.Done? || r.Raised? || r.Died?
      ensures Steady() || fate.CannotReadAuthority? ==> r.Done?
      ensures fate.CannotReadHealth? ==> r.Raised? && units == Effect(Stop(p), disk, old(units))
      ensures r.Done? ==> units == Effect(Restart(p), disk, old(units))
      ensures units == old(units) || units == Effect(Restart(p), disk, old(units))
              || units == Effect(Stop(p), disk, old(units))
      ensures units == old(units).(running := units.running)
      ensures trail == old(trail).(bounces := old(trail).bounces
                                              + Bounced(disk.journal, old(units), hist.port, p, old(heard)))
    {
      trail := trail.(bounces := trail.bounces + Bounced(disk.journal, units, hist.port, p, heard));
      heard := None;
      var choice: int := *;
      if fate.CannotReadHealth? || (fate.Any? && choice % 3 == 1) {
        units := Effect(Stop(p), disk, units);
        r := if fate.CannotReadHealth? || choice > 0 then Raised else Died;
      } else if !fate.Any? || choice == 0 {
        units := Effect(Restart(p), disk, units);
        r := Done;
      } else {
        if choice % 3 == 0 { units := Effect(Restart(p), disk, units); }
        r := if choice > 0 then Raised else Died;
      }
    }

    /** A read that confirms `truth`, or fails. */
    method Confirm(truth: bool) returns (ok: bool)
      ensures ok ==> truth
      ensures !fate.Any? ==> ok == truth
    {
      var readable: bool := *;
      ok := truth && (!fate.Any? || readable);
    }

    /** The authority of a verified release is read. */
    method ConfirmAuthority(truth: bool) returns (ok: bool)
      ensures ok ==> truth
      ensures !fate.Any? && !fate.CannotReadAuthority? ==> ok == truth
      ensures fate.CannotReadAuthority? ==> !ok
    {
      ok := Confirm(truth);
      ok := ok && !fate.CannotReadAuthority?;
    }

    /** Modification times of the quarantine directories. */
    method ModTimes() returns (age: SnapshotId -> nat)
    {
      age := *;
    }

    /** `active_port`: None when the include cannot be read. */
    method ActivePort() returns (p: Option<Port>)
      ensures p.Some? ==> p.value == disk.upstream
      ensures !fate.Any? ==> p.Some?
    {
      var ok := Confirm(true);
      p := if ok then Some(disk.upstream) else None;
    }

    /** One health check. */
    method SlotServing(p: Port) returns (ok: bool)
      modifies this`heard
      ensures ok ==> p in units.running
      ensures !fate.Any? && !fate.CannotReadHealth? ==> ok == (p in units.running)
      ensures fate.CannotReadHealth? ==> !ok
      ensures heard == Some(HealthCheck(p, disk.journal, units, ok))
    {
      ok := Confirm(p in units.running);
      ok := ok && !fate.CannotReadHealth?;
      heard := Some(HealthCheck(p, disk.journal, units, ok));
    }

    /** Poll the slot until it answers or the deadline passes. */
    method WaitServing(p: Port) returns (ok: bool)
      modifies this`heard
      ensures ok ==> p in units.running
      ensures Steady() && polls > 0 ==> ok == (p in units.running)
      ensures fate.CannotReadHealth? ==> !ok
    {
      var left := polls;
      ok := false;
      while left > 0 && !ok
        invariant ok ==> p in units.running && !fate.CannotReadHealth?
        invariant Steady() && left < polls ==> ok == (p in units.running)
        decreases left
      {
        ok := SlotServing(p);
        left := left - 1;
      }
    }

    method LoadManifest(snapshot: SnapshotId) returns (m: Option<Body>)
      ensures m.Some? ==> Loadable(disk, snapshot) && m.value == disk.sidecars[snapshot].body
      ensures !fate.Any? ==> m.Some? == Loadable(disk, snapshot)
    {
      var ok := Confirm(Loadable(disk, snapshot));
      m := if ok then Some(disk.sidecars[snapshot].body) else None;
    }

    /** Search every term through the slot `reached`. */
    method Search(reached: Port, terms: Terms) returns (r: Outcome, a: Answers)
      ensures r.Done? || r.Raised? || r.Infra?
      ensures r.Done? && env.honest ==>
                reached in units.running && a == env.serve(units.running[reached], terms)
      ensures !fate.Any? && reached in units.running ==> r.Done?
    {
      var reply: Answers := *;
      var choice: int := *;
      if reached !in units.running {
        r, a := if env.honest || choice > 0 then Infra else if choice < 0 then Raised else Done, reply;
      } else if !fate.Any? || choice == 0 {
        r, a := Done, if env.honest then env.serve(units.running[reached], terms) else reply;
      } else {
        r, a := if choice > 0 then Infra else Raised, reply;
      }
    }

    /** `_verify_http_against_manifest`, and with a captured oracle `_verify_baseline_at_url`.
        Through nginx a probe reaches the slot it has loaded. */
    method VerifyAnswers(from: Vantage, p: Port, terms: Terms, expected: Answers) returns (r: Outcome)
      requires Sound() && (from.Direct? || p == units.loaded)
      modifies this`hist
      ensures Sound()
      ensures r.Done? || r.Raised? || r.Infra?
      ensures r.Done? && env.honest ==> p in units.running && env.serve(units.running[p], terms) == expected
      ensures r.Done? ==> hist == old(hist).(seen := old(hist).seen + {Look(from, p, terms, expected)})
      ensures !r.Done? ==> hist == old(hist)
      ensures !fate.Any? && p in units.running ==> !r.Infra?
      ensures (!fate.Any? && env.honest && p in units.running && env.serve(units.running[p], terms) == expected)
              ==> r.Done?
    {
      var answers;
      r, answers := Search(p, terms);
      if r.Done? {
        if answers == expected {
          SeeingKeepsInv(env, disk, units, hist, Look(from, p, terms, expected));
          hist := hist.(seen := hist.seen + {Look(from, p, terms, expected)});
        } else {
          r := Raised;
        }
      }
    }

    ghost function Look(from: Vantage, p: Port, terms: Terms, answers: Answers): Sighting
      reads this
    {
      Sighting(from, p, SlotOf(disk, p), terms, answers, p.Other() !in units.running)
    }
  }

  /** The change to `next` took place, or the process died before or after it. */
  ghost predicate Ended(r: Outcome, u: Units, d: Disk, h: History, next: Disk, d': Disk, h': History) {
    && (r.Done? ==> d' == next && h' == Advance(h, u, d, next))
    && (r.Died? ==> (d' == d && h' == h) || (d' == next && h' == Advance(h, u, d, next)))
  }

  /** What a restart of `p` adds to the trail. */
  function Bounced(j: Option<Entry>, u: Units, committed: Port, p: Port, check: Option<HealthCheck>): seq<Bounce> {
    if p == u.loaded && p in u.running then [Bounce(j, p, committed, check)] else []
  }
}
