/** The debounce of scripts/collection_supervisor.py: a source is reported when it has
    failed for three capture rounds, however often a round is looked at. */
module FailureStreaks {
  import opened Outcomes

  type Slug = string
  type RunId = string

  const ROUNDS: nat := 3

  /** One health check: the run it looked at, if it has an id, and what failed in it. */
  datatype Check = Check(run: Option<RunId>, failed: seq<Slug>)

  datatype Streaks = Streaks(run: Option<RunId>, counts: map<Slug, nat>)

  // ---------- rounds ----------

  /** Checks of the run that was looked at last are not a new round. */
  predicate SameRound(last: Check, next: Check) {
    next.run.Some? && last.run == next.run
  }

  /** The first check of each round. */
  function Rounds(checks: seq<Check>): seq<Check> {
    if checks == [] then []
    else
      var before, next := Rounds(checks[..|checks| - 1]), checks[|checks| - 1];
      if before != [] && SameRound(before[|before| - 1], next) then before else before + [next]
  }

  /** For how many rounds, up to the last, the source has been failing. */
  function Streak(rounds: seq<Check>, s: Slug): nat {
    if rounds == [] || s !in rounds[|rounds| - 1].failed then 0
    else 1 + Streak(rounds[..|rounds| - 1], s)
  }

  /** It failed in each of the last `n` rounds. */
  predicate FailedLast(rounds: seq<Check>, s: Slug, n: nat) {
    n <= |rounds| && forall i :: |rounds| - n <= i < |rounds| ==> s in rounds[i].failed
  }

  lemma {:induction false} StreakIs(rounds: seq<Check>, s: Slug, n: nat)
    ensures Streak(rounds, s) >= n <==> FailedLast(rounds, s, n)
    decreases |rounds|
  {
    if n > 0 && rounds != [] {
      var before, last := rounds[..|rounds| - 1], rounds[|rounds| - 1];
      StreakIs(before, s, n - 1);
      if s in last.failed {
        if FailedLast(before, s, n - 1) {
          forall i | |rounds| - n <= i < |rounds| ensures s in rounds[i].failed {
            if i < |rounds| - 1 { assert rounds[i] == before[i]; }
          }
        }
        if FailedLast(rounds, s, n) {
          forall i | |before| - (n - 1) <= i < |before| ensures s in before[i].failed {
            assert before[i] == rounds[i];
          }
        }
      }
    }
  }

  /** A run has one set of failures, and once another run has been looked at it does not
      come back. */
  ghost predicate Consistent(checks: seq<Check>) {
    && (forall i, j :: 0 <= i < j < |checks| ==> Fixed(checks[i], checks[j]))
    && (forall i, j, k :: 0 <= i < j < k < |checks| ==> Stays(checks[i], checks[j], checks[k]))
  }

  ghost predicate Fixed(a: Check, b: Check) {
    SameRound(a, b) ==> SameFailures(a, b)
  }

  predicate Stays(a: Check, b: Check, c: Check) {
    SameRound(a, c) ==> b.run == c.run
  }

  ghost predicate SameFailures(a: Check, b: Check) {
    forall s :: s in a.failed <==> s in b.failed
  }

  /** The round `i` began with the check `k`. */
  ghost predicate BeginsAt(checks: seq<Check>, i: int, k: int) {
    0 <= k < |checks| && 0 <= i < |Rounds(checks)| && checks[k] == Rounds(checks)[i]
  }

  ghost predicate Begins(checks: seq<Check>, i: int) {
    exists k :: BeginsAt(checks, i, k)
  }

  /** Round `i` began before round `j`. */
  ghost predicate InTurn(checks: seq<Check>, i: int, j: int) {
    exists k, l :: k < l && BeginsAt(checks, i, k) && BeginsAt(checks, j, l)
  }

  lemma {:induction false} RoundBegins(checks: seq<Check>, i: int)
    requires 0 <= i < |Rounds(checks)|
    ensures Begins(checks, i)
    decreases |checks|
  {
    var init := checks[..|checks| - 1];
    if i < |Rounds(init)| {
      RoundBegins(init, i);
      var k :| BeginsAt(init, i, k);
      assert BeginsAt(checks, i, k);
    } else {
      assert BeginsAt(checks, i, |checks| - 1);
    }
  }

  lemma {:induction false} RoundsInTurn(checks: seq<Check>, i: int, j: int)
    requires 0 <= i < j < |Rounds(checks)|
    ensures InTurn(checks, i, j)
    decreases |checks|
  {
    var init := checks[..|checks| - 1];
    if j < |Rounds(init)| {
      RoundsInTurn(init, i, j);
      var k, l :| k < l && BeginsAt(init, i, k) && BeginsAt(init, j, l);
      assert BeginsAt(checks, i, k) && BeginsAt(checks, j, l);
    } else {
      RoundBegins(init, i);
      var k :| BeginsAt(init, i, k);
      assert BeginsAt(checks, i, k) && BeginsAt(checks, j, |checks| - 1);
    }
  }

  /** A run that comes again is still the one looked at last. */
  lemma NoReturn(checks: seq<Check>, before: seq<Check>, i: int)
    requires checks != [] && Consistent(checks) && before == Rounds(checks[..|checks| - 1])
    requires 0 <= i < |before| - 1 && !SameRound(before[i], before[|before| - 1])
    ensures !SameRound(before[i], checks[|checks| - 1])
  {
    var init, next := checks[..|checks| - 1], checks[|checks| - 1];
    RoundsInTurn(init, i, |before| - 1);
    var k, l :| k < l && BeginsAt(init, i, k) && BeginsAt(init, |before| - 1, l);
    assert checks[k] == before[i] && checks[l] == before[|before| - 1];
    assert Stays(checks[k], checks[l], next);
  }

  lemma ConsistentInit(checks: seq<Check>)
    requires checks != [] && Consistent(checks)
    ensures Consistent(checks[..|checks| - 1])
  {
    var init := checks[..|checks| - 1];
    assert forall i :: 0 <= i < |init| ==> init[i] == checks[i];
  }

  /** Then no two rounds are of the same run. */
  lemma {:induction false} RoundsAreDistinct(checks: seq<Check>)
    requires Consistent(checks)
    ensures DistinctRounds(Rounds(checks))
    decreases |checks|
  {
    if checks != [] {
      var init := checks[..|checks| - 1];
      var before := Rounds(init);
      ConsistentInit(checks);
      RoundsAreDistinct(init);
      forall i | 0 <= i < |before| - 1 ensures !SameRound(before[i], checks[|checks| - 1]) {
        NoReturn(checks, before, i);
      }
    }
  }

  ghost predicate DistinctRounds(rounds: seq<Check>) {
    forall i, j :: 0 <= i < j < |rounds| ==> !SameRound(rounds[i], rounds[j])
  }

  /** The last round is of the run that was looked at last, and has its failures. */
  lemma {:induction false} LastRound(checks: seq<Check>)
    requires checks != [] && Consistent(checks)
    ensures var rounds := Rounds(checks);
            && rounds != [] && rounds[|rounds| - 1].run == checks[|checks| - 1].run
            && SameFailures(rounds[|rounds| - 1], checks[|checks| - 1])
  {
    var init, next := checks[..|checks| - 1], checks[|checks| - 1];
    var before := Rounds(init);
    if before != [] {
      RoundBegins(init, |before| - 1);
      var k :| BeginsAt(init, |before| - 1, k);
      assert checks[k] == before[|before| - 1];
      assert Fixed(checks[k], next);
    }
  }

  // ---------- the streak file ----------

  /** What a file of this content says of the rounds. */
  ghost predicate Holds(stored: Option<Streaks>, rounds: seq<Check>) {
    if rounds == [] then stored.None?
    else
      && stored.Some? && stored.value.run == rounds[|rounds| - 1].run
      && (forall s :: s in stored.value.counts <==> s in rounds[|rounds| - 1].failed)
      && (forall s :: s in stored.value.counts ==> stored.value.counts[s] == Streak(rounds, s))
  }

  function CountIn(previous: Option<Streaks>, s: Slug): nat {
    if previous.Some? && s in previous.value.counts then previous.value.counts[s] else 0
  }

  lemma CountIsStreak(stored: Option<Streaks>, rounds: seq<Check>, s: Slug)
    requires Holds(stored, rounds)
    ensures CountIn(stored, s) == Streak(rounds, s)
  {
  }

  class StreakFile {
    /** None when there is nothing readable. */
    var stored: Option<Streaks>
    /** Writing the file succeeds. */
    var writable: bool

    constructor (writable: bool)
      ensures stored.None? && this.writable == writable
    {
      this.stored, this.writable := None, writable;
    }

    /** `write_streaks` never raises: a write that fails leaves the old file. */
    method WriteStreaks(s: Streaks)
      modifies this`stored
      ensures writable ==> stored == Some(s)
      ensures stored == Some(s) || stored == old(stored)
    {
      var fails: bool := *;
      if writable || !fails { stored := Some(s); }
    }

    /** `sustained_source_failures`. */
    method SustainedFailures(c: Check, ghost rounds: seq<Check>) returns (reported: seq<Slug>, ghost now: seq<Check>)
      requires writable && Holds(stored, rounds)
      requires rounds != [] && SameRound(rounds[|rounds| - 1], c) ==> SameFailures(rounds[|rounds| - 1], c)
      modifies this`stored
      ensures now == if rounds != [] && SameRound(rounds[|rounds| - 1], c) then rounds else rounds + [c]
      ensures Holds(stored, now)
      ensures now == rounds ==> stored == old(stored)
      ensures forall s :: s in reported <==> s in c.failed && Streak(now, s) >= ROUNDS
    {
      var previous := stored;
      var counts;
      if c.run.Some? && previous.Some? && previous.value.run == c.run {
        counts := previous.value.counts;
        now := rounds;
      } else {
        counts := map s | s in c.failed :: CountIn(previous, s) + 1;
        now := rounds + [c];
        NewRound(previous, rounds, c, counts);
      }
      WriteStreaks(Streaks(c.run, counts));
      reported := AtLeast(c.failed, counts);
      forall s ensures CountIn(stored, s) == Streak(now, s) { CountIsStreak(stored, now, s); }
    }
  }

  /** Counting one more for each failing source is counting rounds. */
  lemma NewRound(previous: Option<Streaks>, rounds: seq<Check>, c: Check, counts: map<Slug, nat>)
    requires Holds(previous, rounds)
    requires counts == map s | s in c.failed :: CountIn(previous, s) + 1
    ensures Holds(Some(Streaks(c.run, counts)), rounds + [c])
  {
    var now := rounds + [c];
    assert now[..|now| - 1] == rounds;
    forall s | s in c.failed ensures counts[s] == Streak(now, s) {
      CountIsStreak(previous, rounds, s);
    }
  }

  /** `[slug for slug in failed if counts.get(slug, 0) >= ...]`. */
  method AtLeast(failed: seq<Slug>, counts: map<Slug, nat>) returns (r: seq<Slug>)
    ensures forall s :: s in r <==> s in failed && s in counts && counts[s] >= ROUNDS
  {
    r := [];
    for i := 0 to |failed|
      invariant forall s :: s in r <==> s in failed[..i] && s in counts && counts[s] >= ROUNDS
    {
      assert failed[..i + 1] == failed[..i] + [failed[i]];
      if failed[i] in counts && counts[failed[i]] >= ROUNDS { r := r + [failed[i]]; }
    }
    assert failed[..|failed|] == failed;
  }

  // ---------- any series of checks ----------

  /** After any consistent series of checks, what the last one reports: the sources that
      failed in each of the last three rounds, and those rounds are of different runs. */
  method Checks(checks: seq<Check>) returns (reported: seq<Slug>)
    requires checks != [] && Consistent(checks)
    ensures forall s :: s in reported <==> FailedLast(Rounds(checks), s, ROUNDS)
    ensures DistinctRounds(Rounds(checks))
  {
    var file := new StreakFile(true);
    reported := [];
    for i := 0 to |checks|
      invariant fresh(file) && file.writable && Holds(file.stored, Rounds(checks[..i]))
      invariant i > 0 ==> forall s :: s in reported <==> Streak(Rounds(checks[..i]), s) >= ROUNDS
    {
      reported := Next(file, checks, i);
    }
    assert checks[..|checks|] == checks;
    RoundsAreDistinct(checks);
    forall s ensures s in reported <==> FailedLast(Rounds(checks), s, ROUNDS) {
      StreakIs(Rounds(checks), s, ROUNDS);
    }
  }

  method Next(file: StreakFile, checks: seq<Check>, i: nat) returns (reported: seq<Slug>)
    requires i < |checks| && Consistent(checks)
    requires file.writable && Holds(file.stored, Rounds(checks[..i]))
    modifies file`stored
    ensures Holds(file.stored, Rounds(checks[..i + 1]))
    ensures forall s :: s in reported <==> Streak(Rounds(checks[..i + 1]), s) >= ROUNDS
  {
    ghost var upTo := checks[..i + 1];
    assert upTo[..i] == checks[..i] && upTo[i] == checks[i];
    ConsistentPrefix(checks, i + 1);
    LastRound(upTo);
    ghost var now;
    SameRoundSameFailures(checks, i);
    reported, now := file.SustainedFailures(checks[i], Rounds(checks[..i]));
    assert now == Rounds(upTo);
  }

  lemma ConsistentPrefix(checks: seq<Check>, n: nat)
    requires n <= |checks| && Consistent(checks)
    ensures Consistent(checks[..n])
  {
  }

  lemma SameRoundSameFailures(checks: seq<Check>, i: nat)
    requires i < |checks| && Consistent(checks)
    ensures var rounds := Rounds(checks[..i]);
            rounds != [] && SameRound(rounds[|rounds| - 1], checks[i]) ==> SameFailures(rounds[|rounds| - 1], checks[i])
  {
    var before := checks[..i];
    if Rounds(before) != [] {
      RoundBegins(before, |Rounds(before)| - 1);
      var k :| BeginsAt(before, |Rounds(before)| - 1, k);
      assert checks[k] == before[k] && Fixed(checks[k], checks[i]);
    }
  }

  /** Looking at the same run again adds no round. */
  lemma RepeatingAddsNothing(checks: seq<Check>)
    requires |checks| > 1 && SameRound(checks[|checks| - 2], checks[|checks| - 1])
    ensures Rounds(checks) == Rounds(checks[..|checks| - 1])
  {
    LastRun(checks[..|checks| - 1]);
  }

  lemma LastRun(checks: seq<Check>)
    requires checks != []
    ensures Rounds(checks) != [] && Rounds(checks)[|Rounds(checks)| - 1].run == checks[|checks| - 1].run
  {
  }
}
