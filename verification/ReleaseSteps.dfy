/** The journal transitions of the release machine keep the invariant. */
module ReleaseSteps {
  import opened Outcomes
  import opened Manifests
  import opened ReleaseTypes
  import opened ReleaseInvariant

  function WithEntry(d: Disk, e: Entry): Disk { d.(journal := Some(e)) }

  /** The entry says that traffic may be on either slot of `rel`. */
  predicate About(e: Entry, rel: Release, o: Oracle) {
    match e
    case Pending(_, r, p) => r == rel && p == o
    case RollbackFailed(r, p, _) => r == rel && p == o
    case RollbackBlocked(r, p) => r == rel && p == o
    case _ => false
  }

  predicate BeforeSwitch(e: Entry, rel: Release, v: Verifier) {
    e == Rebuilding(rel, v) || e == Prepared(rel, v)
  }

  lemma StayUndecided(w: World, d: Disk, u: Units, h: History, rel: Release, o: Oracle, e: Entry)
    requires Inv(w, d, u, h) && d.journal.Some? && About(d.journal.value, rel, o) && About(e, rel, o)
    requires e.Pending? && e.phase == OldStopping ==> PublicPassed(d, h, rel)
    ensures Inv(w, WithEntry(d, e), u, Advance(h, u, d, WithEntry(d, e)))
  {
  }

  lemma StayBeforeSwitch(w: World, d: Disk, u: Units, h: History, old_: Release, v: Verifier, rel: Release, e: Entry)
    requires Inv(w, d, u, h) && d.journal.Some?
    requires BeforeSwitch(d.journal.value, old_, v) && BeforeSwitch(e, rel, v)
    requires old_.retry <= rel.retry <= 1 && rel == old_.(retry := rel.retry)
    ensures Inv(w, WithEntry(d, e), u, Advance(h, u, d, WithEntry(d, e)))
  {
  }

  lemma BlockRetry(w: World, d: Disk, u: Units, h: History, rel: Release, v: Verifier, seen: Verifier)
    requires Inv(w, d, u, h) && d.journal.Some? && BeforeSwitch(d.journal.value, rel, v)
    ensures var e := RetryBlocked(rel, v, seen);
            Inv(w, WithEntry(d, e), u, Advance(h, u, d, WithEntry(d, e)))
  {
    var e := RetryBlocked(rel, v, seen);
  }

  lemma StartRebuild(w: World, d: Disk, u: Units, h: History, c: Port, v: Verifier, rel: Release)
    requires Inv(w, d, u, h) && d.journal == Some(Claiming(c, v))
    requires rel.candidate == c && rel.retry <= 1 && Bound(d, rel)
    ensures var e := Rebuilding(rel, v);
            Inv(w, WithEntry(d, e), u, Advance(h, u, d, WithEntry(d, e)))
  {
    var e := Rebuilding(rel, v);
  }

  lemma StartSwitch(w: World, d: Disk, u: Units, h: History, rel: Release, v: Verifier, o: Oracle)
    requires Inv(w, d, u, h) && d.journal == Some(Prepared(rel, v))
    requires CandidateOk(w, d, u, h, rel) && OracleOk(w, d, h, rel, o)
    ensures var e := Pending(Switching, rel, o);
            Inv(w, WithEntry(d, e), u, Advance(h, u, d, WithEntry(d, e)))
  {
    var e := Pending(Switching, rel, o);
  }

  lemma Verify(w: World, d: Disk, u: Units, h: History, rel: Release, o: Oracle)
    requires Inv(w, d, u, h) && d.journal.Some? && About(d.journal.value, rel, o)
    requires d.upstream == rel.candidate && u.loaded == rel.candidate && h.claim !in h.stranded
    requires rel.candidate in d.slots && Proven(h, rel.candidate, d.slots[rel.candidate], rel.manifest.of)
    ensures var e := ConsumerVerified(rel);
            Inv(w, WithEntry(d, e), u, Advance(h, u, d, WithEntry(d, e)))
  {
    var e := ConsumerVerified(rel);
  }

  predicate FinalizeEntry(e: Entry, rel: Release) {
    e == ConsumerVerified(rel) || e == FinalizeBlocked(rel)
  }

  lemma StayFinalizing(w: World, d: Disk, u: Units, h: History, rel: Release, e: Entry)
    requires Inv(w, d, u, h) && d.journal.Some? && FinalizeEntry(d.journal.value, rel) && FinalizeEntry(e, rel)
    ensures Inv(w, WithEntry(d, e), u, Advance(h, u, d, WithEntry(d, e)))
  {
  }

  lemma StoreBasis(w: World, d: Disk, u: Units, h: History, rel: Release)
    requires Inv(w, d, u, h) && d.journal == Some(ConsumerVerified(rel))
    requires d.receipt == h.receipt || d.basis == d.claimed
    ensures var next := d.(basis := d.claimed); Inv(w, next, u, Advance(h, u, d, next))
  {
    var next := d.(basis := d.claimed);
  }

  lemma StoreReceipt(w: World, d: Disk, u: Units, h: History, rel: Release)
    requires Inv(w, d, u, h) && d.journal == Some(ConsumerVerified(rel)) && d.basis == d.claimed
    ensures var next := d.(receipt := Some(Receipt(rel.snapshot, rel.manifest, rel.candidate)));
            Inv(w, next, u, Advance(h, u, d, next))
  {
    var next := d.(receipt := Some(Receipt(rel.snapshot, rel.manifest, rel.candidate)));
  }

  lemma Commit(w: World, d: Disk, u: Units, h: History, rel: Release)
    requires Inv(w, d, u, h) && d.journal == Some(ConsumerVerified(rel))
    requires d.basis == d.claimed && d.receipt == Some(Receipt(rel.snapshot, rel.manifest, rel.candidate))
    ensures var e := Committed(rel.candidate, rel.snapshot, rel.manifest);
            Inv(w, WithEntry(d, e), u, Advance(h, u, d, WithEntry(d, e)))
  {
    var e := Committed(rel.candidate, rel.snapshot, rel.manifest);
  }

  /** Cleaning up after a commit, or leaving a claim that never began. */
  lemma CleanUp(w: World, d: Disk, u: Units, h: History, next: Disk)
    requires Inv(w, d, u, h) && d.journal.Some? && d.journal.value.Committed?
    requires next == d.(claimed := next.claimed, sidecars := next.sidecars)
    requires next.claimed == d.claimed || next.claimed.None?
    ensures Inv(w, next, u, Advance(h, u, d, next))
  {
  }

  lemma NothingClaimed(w: World, d: Disk, u: Units, h: History)
    requires Inv(w, d, u, h) && d.journal.Some? && d.journal.value.Claiming? && d.claimed.None?
    ensures Inv(w, WithEntry(d, Idle), u, Advance(h, u, d, WithEntry(d, Idle)))
  {
  }

  /** A new claim may begin once the previous one is settled. */
  predicate Settled(j: Option<Entry>) {
    j.None? || j.value.Idle? || j.value.Quarantined? || j.value.Committed?
  }

  lemma BeginClaim(w: World, d: Disk, u: Units, h: History, v: Verifier)
    requires Inv(w, d, u, h) && Settled(d.journal)
    ensures var e := Claiming(d.upstream.Other(), v);
            Inv(w, WithEntry(d, e), u, Advance(h, u, d, WithEntry(d, e)))
  {
    var e := Claiming(d.upstream.Other(), v);
  }

  lemma TakeIncoming(w: World, d: Disk, u: Units, h: History)
    requires Inv(w, d, u, h) && d.journal.Some? && d.journal.value.Claiming?
    ensures var next := d.(incoming := None, claimed := d.incoming); Inv(w, next, u, Advance(h, u, d, next))
  {
    var next := d.(incoming := None, claimed := d.incoming);
  }

  /** The candidate slot may be rewritten while traffic is on the old one. */
  lemma RewriteCandidate(w: World, d: Disk, u: Units, h: History, rel: Release, v: Verifier, db: Bytes)
    requires Inv(w, d, u, h) && d.journal.Some? && BeforeSwitch(d.journal.value, rel, v)
    ensures var next := d.(slots := d.slots[rel.candidate := db]); Inv(w, next, u, Advance(h, u, d, next))
  {
    var next := d.(slots := d.slots[rel.candidate := db]);
  }

  /** One more rebuild begins; nothing seen of an earlier candidate counts any more. */
  ghost function NewAttempt(h: History, v: Verifier): History
    requires h.claim in h.attempts
  {
    h.(attempts := h.attempts[h.claim := h.attempts[h.claim] + [v]], seen := {})
  }

  lemma CountAttempt(w: World, d: Disk, u: Units, h: History, rel: Release, v: Verifier)
    requires Inv(w, d, u, h) && d.journal.Some? && BeforeSwitch(d.journal.value, rel, v)
    requires |h.attempts[h.claim]| <= rel.retry
    ensures Inv(w, d, u, NewAttempt(h, v))
  {
    var h' := NewAttempt(h, v);
    var a := h.attempts[h.claim];
    assert |a| == 1 ==> a[0] in a;
    assert AttemptsOk(a + [v]);
    assert forall c :: c in h'.attempts ==> c == h.claim || (c in h.attempts && h'.attempts[c] == h.attempts[c]);
  }

  lemma NoteBase(w: World, d: Disk, u: Units, h: History, b: Bytes)
    requires Inv(w, d, u, h) && w.baseOnly(b)
    ensures Inv(w, d, u, h.(bases := h.bases + {b}))
  {
  }

  lemma NoteStranded(w: World, d: Disk, u: Units, h: History)
    requires Inv(w, d, u, h) && d.journal.Some? && d.journal.value.Pending?
    ensures Inv(w, d, u, h.(stranded := h.stranded + {h.claim}))
  {
  }
}
