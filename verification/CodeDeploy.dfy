/** `CodeDeploy` of deploy/sync/deploy_code.py, effect by effect.  An effect may fail or
    be the last before a crash, with or without having taken place. */
module CodeDeploying {
  import opened Outcomes
  import opened FileTree
  import opened Materialize
  import opened CodeSite

  class CodeDeploy {
    const git: Git
    const polls: nat
    var calm: bool
    var site: Site
    ghost var past: Past
    ghost var visited: set<Site>   // every state of the host so far

    ghost predicate Safe()
      reads this
    {
      Inv(git, site, past) && site in visited
    }

    constructor (git: Git, polls: nat, site: Site, ghost past: Past)
      ensures this.git == git && this.polls == polls && this.site == site && this.past == past
      ensures visited == {site}
    {
      this.git, this.polls, this.site, this.past, this.calm := git, polls, site, past, false;
      this.visited := {site};
    }

    /** One effect on the host. */
    method Write(next: Site) returns (r: Outcome)
      requires Safe() && Inv(git, next, past)
      modifies this`site, this`visited
      ensures old(visited) <= visited
      ensures Safe() && (site == old(site) || site == next)
      ensures r.Done? || r.Raised? || r.Died?
      ensures calm ==> r.Done?
      ensures r.Done? ==> site == next
    {
      var choice: int := *;
      if calm || choice >= 0 { site := next; }
      r := if calm || choice % 3 == 0 then Done else if choice % 3 == 1 then Raised else Died;
      if r.Done? { site := next; }
      visited := visited + {site};
    }

    /** A command or read that confirms `truth`, or fails. */
    method Confirm(truth: bool) returns (ok: bool)
      ensures ok ==> truth
      ensures calm ==> ok == truth
    {
      var works: bool := *;
      ok := truth && (calm || works);
    }

    // ---------------- the tree ----------------

    /** One step of changing the tree. */
    method SetTree(prior: Option<Sha>, next: Sha, t: Tree) returns (r: Outcome)
      requires Safe() && Mixing(site, past, prior, next)
      requires WellFormed(t) && (past.lost || Between(git, t, past, prior, next))
      modifies this`site, this`visited
      ensures old(visited) <= visited
      ensures Safe() && (site == old(site) || site == old(site).(tree := t))
      ensures r.Done? || r.Raised? || r.Died?
      ensures calm ==> r.Done?
      ensures r.Done? ==> site.tree == t
    {
      MixingKeepsInv(git, site, past, prior, next, t);
      r := Write(site.(tree := t));
    }

    method RemoveNode(prior: Option<Sha>, next: Sha, p: Path) returns (r: Outcome)
      requires Safe() && Mixing(site, past, prior, next)
      requires p in site.tree && Empty(site.tree, p) && (past.lost || !LeftAlone(git, past, next, p))
      modifies this`site, this`visited
      ensures old(visited) <= visited
      ensures Safe() && (site == old(site) || site == old(site).(tree := old(site).tree - {p}))
      ensures r.Done? || r.Raised? || r.Died?
      ensures calm ==> r.Done?
      ensures r.Done? ==> site.tree == old(site).tree - {p}
    {
      RemoveStaysBetween(git, site.tree, past, prior, next, p);
      r := SetTree(prior, next, site.tree - {p});
    }

    /** `rmdir` upwards. */
    method PruneUp(prior: Option<Sha>, next: Sha, from: Path) returns (r: Outcome)
      requires Safe() && Mixing(site, past, prior, next)
      modifies this`site, this`visited
      ensures old(visited) <= visited
      ensures Safe() && site == old(site).(tree := site.tree)
      ensures r.Done? || r.Raised? || r.Died?
      ensures calm ==> r.Done?
      ensures r.Done? ==> site.tree == Prune(old(site).tree, from)
    {
      var d := from;
      while d != [] && d in site.tree && site.tree[d].Dir? && Empty(site.tree, d)
        invariant Safe() && old(visited) <= visited && site == old(site).(tree := site.tree)
        invariant Prune(site.tree, d) == Prune(old(site).tree, from)
        decreases |d|
      {
        :- RemoveNode(prior, next, d);
        d := Parent(d);
      }
      r := Done;
    }

    method DeletePath(prior: Option<Sha>, next: Sha, p: Path) returns (r: Outcome)
      requires Safe() && Mixing(site, past, prior, next) && Ours(git, prior, next, p)
      modifies this`site, this`visited
      ensures old(visited) <= visited
      ensures Safe() && site == old(site).(tree := site.tree)
      ensures r.Done? || r.Raised? || r.Died?
      ensures calm ==> r.Done? == DeleteOne(old(site).tree, p).Some? && !r.Died?
      ensures r.Done? ==> DeleteOne(old(site).tree, p) == Some(site.tree)
    {
      match Unlink(site.tree, p) {
        case Refused => return Raised;
        case Missing =>
        case Gone(_) =>
          FileIsLeaf(site.tree, p);
          if !past.lost { NotKept(git, site.tree, past, prior, next, p, p); }
          :- RemoveNode(prior, next, p);
      }
      r := PruneUp(prior, next, Parent(p));
    }

    /** `_apply_deletions`. */
    method ApplyDeletions(prior: Option<Sha>, next: Sha, ps: seq<Path>) returns (r: Outcome)
      requires Safe() && Mixing(site, past, prior, next)
      requires forall p :: p in ps ==> Ours(git, prior, next, p)
      modifies this`site, this`visited
      ensures old(visited) <= visited
      ensures Safe() && site == old(site).(tree := site.tree)
      ensures r.Done? || r.Raised? || r.Died?
      ensures calm ==> r.Done? == DeleteAll(old(site).tree, ps).Some? && !r.Died?
      ensures r.Done? ==> DeleteAll(old(site).tree, ps) == Some(site.tree)
    {
      for i := 0 to |ps|
        invariant Safe() && old(visited) <= visited && site == old(site).(tree := site.tree)
        invariant DeleteAll(old(site).tree, ps) == DeleteAll(site.tree, ps[i..])
      {
        assert ps[i..][0] == ps[i] && ps[i..][1..] == ps[i + 1..];
        :- DeletePath(prior, next, ps[i]);
      }
      r := Done;
    }

    /** `checkout-index -f` makes room above the path. */
    method MakeDirs(prior: Option<Sha>, next: Sha, p: Path) returns (r: Outcome)
      requires Safe() && Mixing(site, past, prior, next) && Ours(git, prior, next, p) && p != []
      modifies this`site, this`visited
      ensures old(visited) <= visited
      ensures Safe() && site == old(site).(tree := site.tree)
      ensures Midway(old(site).tree, site.tree, p)
      ensures r.Done? || r.Raised? || r.Died?
      ensures calm ==> r.Done?
      ensures r.Done? ==> DirsMade(old(site).tree, site.tree, p)
    {
      MidwaySame(site.tree, p);
      for k := 1 to |p|
        invariant Safe() && old(visited) <= visited && site == old(site).(tree := WithDirs(old(site).tree, p, k))
        invariant Midway(old(site).tree, site.tree, p)
      {
        WithDirsAre(old(site).tree, p, k, p[..k - 1]);
        ghost var before := site;
        r := MakeDir(prior, next, p, k);
        MidwayTrans(old(site).tree, before.tree, site.tree, p);
        if r.IsFailure() { return; }
      }
      WithDirsMade(old(site).tree, p);
      r := Done;
    }

    method MakeDir(prior: Option<Sha>, next: Sha, p: Path, k: nat) returns (r: Outcome)
      requires Safe() && Mixing(site, past, prior, next) && Ours(git, prior, next, p)
      requires 0 < k < |p| && DirAt(site.tree, p[..k - 1])
      modifies this`site, this`visited
      ensures old(visited) <= visited
      ensures Safe() && site == old(site).(tree := site.tree)
      ensures Midway(old(site).tree, site.tree, p)
      ensures r.Done? || r.Raised? || r.Died?
      ensures calm ==> r.Done?
      ensures r.Done? ==> site.tree == old(site).tree[p[..k] := Dir]
    {
      var d := p[..k];
      MidwaySame(site.tree, p);
      assert Above(d, p) && Parent(d) == p[..k - 1];
      assert (site.tree - {d})[d := Dir] == site.tree[d := Dir];
      if FileAt(site.tree, d) {
        :- RemoveFile(prior, next, p, d);
      }
      ghost var before := site.tree;
      if d !in site.tree {
        r := Mkdir(prior, next, p, d);
        MidwayTrans(old(site).tree, before, site.tree, p);
      } else {
        assert site.tree[d := Dir] == site.tree;
        r := Done;
      }
    }

    /** One more node goes that is in the way of `p`. */
    method RemoveClashing(prior: Option<Sha>, next: Sha, p: Path, q: Path, ghost t: Tree) returns (r: Outcome)
      requires Safe() && Mixing(site, past, prior, next) && Ours(git, prior, next, p)
      requires q in site.tree && Empty(site.tree, q) && (q == p || Clash(p, q)) && Midway(t, site.tree, p)
      modifies this`site, this`visited
      ensures old(visited) <= visited
      ensures Safe() && (site == old(site) || site == old(site).(tree := old(site).tree - {q}))
      ensures r.Done? || r.Raised? || r.Died?
      ensures calm ==> r.Done?
      ensures r.Done? ==> site.tree == old(site).tree - {q}
      ensures Midway(t, site.tree, p)
    {
      if !past.lost { NotKept(git, site.tree, past, prior, next, p, q); }
      r := RemoveNode(prior, next, q);
      if site.tree != old(site).tree {
        MidwayRemove(old(site).tree, p, q);
        MidwayTrans(t, old(site).tree, site.tree, p);
      }
    }

    method RemoveFile(prior: Option<Sha>, next: Sha, p: Path, d: Path) returns (r: Outcome)
      requires Safe() && Mixing(site, past, prior, next) && Ours(git, prior, next, p)
      requires d != [] && Above(d, p) && FileAt(site.tree, d) && DirAt(site.tree, Parent(d))
      modifies this`site, this`visited
      ensures old(visited) <= visited
      ensures Safe() && site == old(site).(tree := site.tree)
      ensures Midway(old(site).tree, site.tree, p)
      ensures r.Done? || r.Raised? || r.Died?
      ensures calm ==> r.Done?
      ensures r.Done? ==> site.tree == old(site).tree - {d} && DirAt(site.tree, Parent(d))
    {
      FileIsLeaf(site.tree, d);
      MidwaySame(site.tree, p);
      r := RemoveClashing(prior, next, p, d, site.tree);
    }

    method Mkdir(prior: Option<Sha>, next: Sha, p: Path, d: Path) returns (r: Outcome)
      requires Safe() && Mixing(site, past, prior, next) && Ours(git, prior, next, p)
      requires d != [] && Above(d, p) && d !in site.tree && DirAt(site.tree, Parent(d))
      modifies this`site, this`visited
      ensures old(visited) <= visited
      ensures Safe() && site == old(site).(tree := site.tree)
      ensures Midway(old(site).tree, site.tree, p)
      ensures r.Done? || r.Raised? || r.Died?
      ensures calm ==> r.Done?
      ensures r.Done? ==> site.tree == old(site).tree[d := Dir]
    {
      MkdirStaysBetween(git, site.tree, past, prior, next, d, p);
      MidwaySame(site.tree, p);
      MidwayDir(site.tree, p, d);
      r := SetTree(prior, next, site.tree[d := Dir]);
    }

    /** And at and below the path. */
    method ClearPath(prior: Option<Sha>, next: Sha, p: Path) returns (r: Outcome)
      requires Safe() && Mixing(site, past, prior, next) && Ours(git, prior, next, p) && p != []
      modifies this`site, this`visited
      ensures old(visited) <= visited
      ensures Safe() && site == old(site).(tree := site.tree)
      ensures Midway(old(site).tree, site.tree, p)
      ensures r.Done? || r.Raised? || r.Died?
      ensures calm ==> r.Done?
      ensures r.Done? ==> site.tree == Cleared(old(site).tree, p)
    {
      MidwaySame(site.tree, p);
      while !Empty(site.tree, p)
        invariant Safe() && old(visited) <= visited && site == old(site).(tree := site.tree)
        invariant Midway(old(site).tree, site.tree, p)
        invariant Cleared(site.tree, p) == Cleared(old(site).tree, p)
        decreases |site.tree|
      {
        HasLeafBelow(site.tree, p);
        var q :| q in site.tree && Above(p, q) && Empty(site.tree, q);
        ClearedWithout(site.tree, p, q);
        r := RemoveClashing(prior, next, p, q, old(site).tree);
        if r.IsFailure() { return; }
      }
      if p in site.tree {
        ClearedWithout(site.tree, p, p);
        r := RemoveClashing(prior, next, p, p, old(site).tree);
        if r.IsFailure() { return; }
      }
      ClearedNothing(site.tree, p);
      r := Done;
    }

    method CheckoutEntry(prior: Option<Sha>, next: Sha, p: Path, e: GitEntry) returns (r: Outcome)
      requires Safe() && Mixing(site, past, prior, next) && Ours(git, prior, next, p) && p != []
      modifies this`site, this`visited
      ensures old(visited) <= visited
      ensures Safe() && site == old(site).(tree := site.tree)
      ensures Midway(old(site).tree, site.tree, p)
      ensures r.Done? || r.Raised? || r.Died?
      ensures calm ==> r.Done?
      ensures r.Done? ==> site.tree == CheckoutOne(old(site).tree, p, e)
    {
      r := MakeDirs(prior, next, p);
      if r.IsFailure() { return; }
      ghost var made := site.tree;
      r := ClearPath(prior, next, p);
      MidwayTrans(old(site).tree, made, site.tree, p);
      if r.IsFailure() { return; }
      ghost var cleared := site.tree;
      StepsMakeCheckout(old(site).tree, made, p, e);
      CheckoutOneFiles(old(site).tree, p, e);
      assert DirAt(site.tree, Parent(p)) by {
        assert Parent(p) != [] ==> Above(Parent(p), p);
        assert Parent(p) != [] ==> DirAt(made, Parent(p));
      }
      r := FillFile(prior, next, p, e);
      MidwayTrans(old(site).tree, cleared, site.tree, p);
    }

    /** Created empty or partly written first, then complete. */
    method FillFile(prior: Option<Sha>, next: Sha, p: Path, e: GitEntry) returns (r: Outcome)
      requires Safe() && Mixing(site, past, prior, next) && Ours(git, prior, next, p) && p != []
      requires !DirAt(site.tree, p) && DirAt(site.tree, Parent(p))
      modifies this`site, this`visited
      ensures old(visited) <= visited
      ensures Safe() && site == old(site).(tree := site.tree)
      ensures Midway(old(site).tree, site.tree, p)
      ensures r.Done? || r.Raised? || r.Died?
      ensures calm ==> r.Done?
      ensures r.Done? ==> site.tree == old(site).tree[p := File(e)]
    {
      var partial: GitEntry := *;
      r := WriteFile(prior, next, p, partial);
      if r.IsFailure() { return; }
      ghost var half := site.tree;
      r := WriteFile(prior, next, p, e);
      MidwayTrans(old(site).tree, half, site.tree, p);
    }

    method WriteFile(prior: Option<Sha>, next: Sha, p: Path, e: GitEntry) returns (r: Outcome)
      requires Safe() && Mixing(site, past, prior, next) && Ours(git, prior, next, p) && p != []
      requires !DirAt(site.tree, p) && DirAt(site.tree, Parent(p))
      modifies this`site, this`visited
      ensures old(visited) <= visited
      ensures Safe() && site == old(site).(tree := site.tree)
      ensures Midway(old(site).tree, site.tree, p)
      ensures r.Done? || r.Raised? || r.Died?
      ensures calm ==> r.Done?
      ensures r.Done? ==> site.tree == old(site).tree[p := File(e)]
    {
      WriteStaysBetween(git, site.tree, past, prior, next, p, e);
      MidwaySame(site.tree, p);
      MidwayFile(site.tree, p, e);
      r := SetTree(prior, next, site.tree[p := File(e)]);
    }

    /** `checkout-index -f -a`. */
    method CheckoutFiles(prior: Option<Sha>, next: Sha, r: Release, ps: seq<Path>) returns (o: Outcome)
      requires Safe() && Mixing(site, past, prior, next)
      requires forall p :: p in ps ==> p in r && p != [] && Ours(git, prior, next, p)
      modifies this`site, this`visited
      ensures old(visited) <= visited
      ensures Safe() && site == old(site).(tree := site.tree)
      ensures o.Done? || o.Raised? || o.Died?
      ensures calm ==> o.Done?
      ensures o.Done? ==> site.tree == CheckoutAll(old(site).tree, r, ps)
      ensures o.Done? ==> PassedBy(old(site), r, ps)
      ensures !o.Done? ==> Stopped(old(site).tree, r, ps, site.tree)
    {
      for i := 0 to |ps|
        invariant Safe() && old(visited) <= visited
        invariant site == old(site).(tree := CheckoutAll(old(site).tree, r, ps[..i])) && PassedBy(old(site), r, ps[..i])
      {
        assert ps[..i + 1] == ps[..i] + [ps[i]];
        o := CheckoutNext(prior, next, r, ps[..i], ps[i], old(site));
        if o.IsFailure() { return; }
      }
      assert ps[..|ps|] == ps;
      o := Done;
    }

    /** One more entry, after those of `ps`, on a host that was at `s`. */
    method CheckoutNext(prior: Option<Sha>, next: Sha, r: Release, ghost ps: seq<Path>, p: Path, ghost s: Site)
      returns (o: Outcome)
      requires Safe() && Mixing(site, past, prior, next) && p in r && p != [] && Ours(git, prior, next, p)
      requires (forall q :: q in ps ==> q in r) && PassedBy(s, r, ps)
      requires site == s.(tree := CheckoutAll(s.tree, r, ps))
      modifies this`site, this`visited
      ensures old(visited) <= visited
      ensures Safe() && site == old(site).(tree := site.tree)
      ensures o.Done? || o.Raised? || o.Died?
      ensures calm ==> o.Done?
      ensures o.Done? ==> site == s.(tree := CheckoutAll(s.tree, r, ps + [p])) && PassedBy(s, r, ps + [p])
      ensures Midway(old(site).tree, site.tree, p)
    {
      CheckoutOneMore(s.tree, r, ps, p);
      o := CheckoutEntry(prior, next, p, r[p]);
      if o.Done? { OneMorePassed(s, r, ps, p); }
    }

    /** The checkout of `ps` was seen after every entry. */
    ghost predicate PassedBy(s: Site, r: Release, ps: seq<Path>)
      requires forall p :: p in ps ==> p in r
      reads this`visited
    {
      forall i :: 0 <= i <= |ps| ==> s.(tree := CheckoutAll(s.tree, r, ps[..i])) in visited
    }

    lemma OneMorePassed(s: Site, r: Release, ps: seq<Path>, p: Path)
      requires p in r && (forall q :: q in ps ==> q in r) && PassedBy(s, r, ps)
      requires s.(tree := CheckoutAll(s.tree, r, ps + [p])) in visited
      ensures PassedBy(s, r, ps + [p])
    {
      forall i | 0 <= i <= |ps| + 1
        ensures s.(tree := CheckoutAll(s.tree, r, (ps + [p])[..i])) in visited
      {
        if i <= |ps| {
          assert (ps + [p])[..i] == ps[..i];
        } else {
          assert (ps + [p])[..i] == ps + [p];
        }
      }
    }

    /** `materialize` on the live tree: from `base` to `r`, one of them the release being
        promoted, the other the one before. */
    method MaterializeLive(prior: Option<Sha>, next: Sha, base: Option<Release>, r: Release) returns (o: Outcome)
      requires Safe() && Mixing(site, past, prior, next)
      requires forall p :: p in Tracked(base) || p in r ==> Ours(git, prior, next, p)
      requires Coherent(r) && forall p :: p in git.order(r.Keys) ==> p in r
      modifies this`site, this`visited
      ensures old(visited) <= visited
      ensures Safe() && site == old(site).(tree := site.tree)
      ensures o.Done? || o.Raised? || o.Died?
      ensures calm ==> o.Done? == MaterializeTo(old(site).tree, base, r, git.order).Some? && !o.Died?
      ensures o.Done? ==> MaterializeTo(old(site).tree, base, r, git.order) == Some(site.tree)
      ensures !TrackedOk(r) || !NoCollision(old(site).tree, base, r) ==> o.Raised? && site == old(site)
      ensures o.Done? ==> PassedBy(old(site).(tree := Deletions(old(site).tree, base, r, git.order).value),
                                   r, git.order(r.Keys))
    {
      var guarded := Confirm(TrackedOk(r) && NoCollision(site.tree, base, r));
      if !guarded { return Raised; }
      var read := Confirm(true);
      if !read { return Raised; }
      if base.Some? {
        var gone := git.order(base.value.Keys - r.Keys);
        assert PathSet(gone) == base.value.Keys - r.Keys;
        forall p | p in gone ensures Ours(git, prior, next, p) { assert p in PathSet(gone); }
        :- ApplyDeletions(prior, next, gone);
      }
      o := CheckoutFiles(prior, next, r, git.order(r.Keys));
    }

    // ---------------- services and records ----------------

    /** `restart_serving_slot`: a failed restart may leave the old, the new or no service. */
    method RestartServingSlot() returns (r: Outcome)
      requires Safe() && git.hasSlot
      requires Inv(git, site.(serving := Some(Files(site.tree))), past) && Inv(git, site.(serving := None), past)
      modifies this`site, this`visited
      ensures old(visited) <= visited
      ensures Safe() && site == old(site).(serving := site.serving)
      ensures r.Done? || r.Raised? || r.Died?
      ensures r.Done? ==> site.serving == Some(Files(site.tree)) && git.healthy(Files(site.tree))
      ensures calm && polls > 0 ==> r.Done? == git.healthy(Files(site.tree)) && !r.Died?
      ensures calm ==> site.serving == Some(Files(site.tree))
    {
      var down: bool := *;
      if down && !calm {
        :- Write(site.(serving := None));
      }
      :- Write(site.(serving := Some(Files(site.tree))));
      var up := WaitHealthy();
      r := if up then Done else Raised;
    }

    method WaitHealthy() returns (ok: bool)
      ensures ok ==> git.healthy(Files(site.tree))
      ensures calm && polls > 0 ==> ok == git.healthy(Files(site.tree))
    {
      var left := polls;
      ok := false;
      while left > 0 && !ok
        invariant ok ==> git.healthy(Files(site.tree))
        invariant calm && left < polls ==> ok == git.healthy(Files(site.tree))
        decreases left
      {
        ok := Confirm(git.healthy(Files(site.tree)));
        left := left - 1;
      }
    }

    method WriteDeployedSha(sha: Sha) returns (r: Outcome)
      requires Safe() && Inv(git, site.(deployed := Some(sha)), past)
      modifies this`site, this`visited
      ensures old(visited) <= visited
      ensures Safe() && site == old(site).(deployed := site.deployed)
      ensures r.Done? || r.Raised? || r.Died?
      ensures calm ==> r.Done?
      ensures r.Done? ==> site.deployed == Some(sha)
    {
      r := Write(site.(deployed := Some(sha)));
    }

    method JournalWrite(e: Record) returns (r: Outcome)
      requires Safe() && Inv(git, site.(journal := Some(e)), past)
      modifies this`site, this`visited
      ensures old(visited) <= visited
      ensures Safe() && (site == old(site) || site == old(site).(journal := Some(e)))
      ensures r.Done? || r.Raised? || r.Died?
      ensures calm ==> r.Done?
      ensures r.Done? ==> site == old(site).(journal := Some(e))
    {
      r := Write(site.(journal := Some(e)));
    }

    // ---------------- transaction ----------------

    /** `rollback`: the old tree exactly, its dependencies, its record, its service. */
    method Rollback(prior: Sha, next: Sha) returns (r: Outcome)
      requires Safe() && Mixing(site, past, Some(prior), next) && prior in git.repo && next in git.repo
      modifies this`site, this`visited
      ensures old(visited) <= visited
      ensures Safe() && site.journal == old(site).journal
      ensures r.Done? || r.Raised? || r.Died?
      ensures r.Done? && !past.lost ==>
                Complete(git, site, past.untracked, prior)
                && Files(site.tree) == Reverted(git, old(site).tree, past, Some(prior), next)
      ensures calm && polls > 0 && !past.lost ==>
                !r.Died? && (r.Done? <==> Undoable(git, old(site).tree, past, Some(prior), next))
      ensures calm ==> Unwinding(old(site), prior, next)
    {
      r := RevertTree(prior, next);
      if r.IsFailure() { return; }
      ghost var t := site.tree;
      var synced := Confirm(true);
      if !synced { return Raised; }
      :- WriteDeployedSha(prior);
      r := Done;
      if !past.lost { RevertedHolds(git, old(site).tree, t, past, prior, next); }
      if git.hasSlot {
        r := RestartServingSlot();
      }
    }

    method RevertTree(prior: Sha, next: Sha) returns (r: Outcome)
      requires Safe() && Mixing(site, past, Some(prior), next) && prior in git.repo && next in git.repo
      modifies this`site, this`visited
      ensures old(visited) <= visited
      ensures Safe() && site == old(site).(tree := site.tree)
      ensures r.Done? || r.Raised? || r.Died?
      ensures r.Done? && !past.lost ==>
                Files(site.tree) == Reverted(git, old(site).tree, past, Some(prior), next)
      ensures calm ==> !r.Died? && (r.Done? <==> Revertible(git, old(site).tree, prior, next))
      ensures calm ==> Unwinding(old(site), prior, next)
    {
      OrderLists(git, prior);
      MaterializesExactly(site.tree, git.repo[next], git.repo[prior], git.order);
      if !past.lost { RevertsExactly(git, site.tree, past, prior, next); }
      r := MaterializeLive(Some(prior), next, Some(git.repo[next]), git.repo[prior]);
    }

    /** If the rollback of `s` goes through, the host has been seen after every file of it. */
    ghost predicate Unwinding(s: Site, prior: Sha, next: Sha)
      requires GitOk(git) && prior in git.repo && next in git.repo
      reads this
    {
      OrderLists(git, prior);
      MaterializeTo(s.tree, Some(git.repo[next]), git.repo[prior], git.order).Some? ==>
        PassedBy(s.(tree := Deletions(s.tree, Some(git.repo[next]), git.repo[prior], git.order).value),
                 git.repo[prior], git.order(git.repo[prior].Keys))
    }

    /** Roll back and close the journal. */
    method RecoverTo(prior: Sha, next: Sha) returns (r: Outcome)
      requires Safe() && Mixing(site, past, Some(prior), next) && prior in git.repo && next in git.repo
      modifies this`site, this`visited
      ensures old(visited) <= visited
      ensures Safe()
      ensures r.Done? || r.Raised? || r.Died?
      ensures r.Done? ==> site.journal == Some(Idle)
      ensures calm && !r.Done? ==> site.journal == old(site).journal
      ensures r.Done? && !past.lost ==>
                Complete(git, site, past.untracked, prior)
                && Files(site.tree) == Reverted(git, old(site).tree, past, Some(prior), next)
      ensures calm && polls > 0 && !past.lost ==>
                !r.Died? && (r.Done? <==> Undoable(git, old(site).tree, past, Some(prior), next))
      ensures calm ==> Unwinding(old(site), prior, next)
    {
      r := Rollback(prior, next);
      if r.IsFailure() { return; }
      r := JournalWrite(Idle);
    }

    /** `commit_release`. */
    method CommitRelease(next: Sha) returns (r: Outcome)
      requires Safe() && site.journal == Some(Serving(next))
      modifies this`site, this`visited
      ensures old(visited) <= visited
      ensures Safe()
      ensures r.Done? || r.Raised? || r.Died?
      ensures calm ==> r.Done?
      ensures r.Done? ==> site == old(site).(deployed := Some(next), journal := Some(Idle))
      ensures r.Done? && !past.lost ==>
                Complete(git, site, past.untracked, next) && Files(site.tree) == Promoted(git, past, next)
    {
      if !past.lost { PromotedHolds(git, site.tree, past, next); }
      r := WriteDeployedSha(next);
      if r.IsFailure() { return; }
      r := JournalWrite(Idle);
    }

    // ---------------- recovery ----------------

    /** `reconcile` from `activating`: restart, and let the health check decide.  Whatever
        tree is on disk, one that answers healthily is recorded as the new release. */
    method Redrive(prior: Option<Sha>, next: Sha) returns (r: Outcome)
      requires Safe() && site.journal == Some(Activating(prior, next))
      modifies this`site, this`past, this`visited
      ensures old(visited) <= visited
      ensures Safe() && past == old(past).(unwinding := past.unwinding, lost := past.lost)
      ensures r.Done? || r.Raised? || r.Died?
      ensures r.Done? ==> site.journal == Some(Idle)
      ensures past.lost ==> old(past).lost || Misled(git, old(site), old(past))
      ensures calm && polls > 0 && git.hasSlot && git.healthy(Files(old(site).tree)) ==>
                r.Done? && site == Redriven(old(site), next)
                && (past.lost <==> old(past).lost || Files(old(site).tree) != Promoted(git, past, next))
      ensures !old(past).lost && git.hasSlot && !git.healthy(Files(old(site).tree)) ==>
                !past.lost && (r.Done? ==> prior.Some? && Complete(git, site, past.untracked, prior.value))
                && (calm && polls > 0 ==>
                      !r.Died? && (r.Done? <==> Undoable(git, old(site).tree, past, prior, next))
                      && (r.Raised? ==> site.journal == old(site).journal))
    {
      if git.hasSlot {
        r := RestartServingSlot();
        if r.Died? { return; }
        if r.Raised? {
          if prior.None? { return Raised; }
          past := past.(unwinding := true);
          r := RecoverTo(prior.value, next);
          return;
        }
      }
      if Files(site.tree) != Promoted(git, past, next) { past := past.(lost := true); }
      :- JournalWrite(Serving(next));
      r := CommitRelease(next);
    }

    /** `reconcile`. */
    method Reconcile() returns (r: Outcome)
      requires Safe()
      modifies this`site, this`past, this`visited
      ensures old(visited) <= visited
      ensures Safe()
      ensures r.Done? || r.Raised? || r.Died?
      ensures r.Done? ==> site.journal.None? || site.journal == Some(Idle)
      ensures past == old(past).(unwinding := past.unwinding, lost := past.lost)
      ensures past.lost ==> old(past).lost || Misled(git, old(site), old(past))
      ensures calm && polls > 0 && !old(past).lost ==> Recovered(git, old(site), past, site, r)
      ensures calm && polls > 0 && git.hasSlot && Activated(old(site)) && git.healthy(Files(old(site).tree)) ==>
                r.Done? && site == Redriven(old(site), old(site).journal.value.next)
    {
      var port := Confirm(true);
      if !port && site.journal.Some? { return Raised; }
      match site.journal {
        case None => r := Done;
        case Some(Idle) => r := Done;
        case Some(Promoting(prior, next)) =>
          if prior.None? { return Raised; }
          r := RecoverTo(prior.value, next);
        case Some(Activating(prior, next)) => r := RedriveActivation(prior, next);
        case Some(Serving(next)) => r := CommitRelease(next);
      }
    }

    /** `Redrive`, judged by the tree it finds. */
    method RedriveActivation(prior: Option<Sha>, next: Sha) returns (r: Outcome)
      requires Safe() && site.journal == Some(Activating(prior, next))
      modifies this`site, this`past, this`visited
      ensures old(visited) <= visited
      ensures Safe() && past == old(past).(unwinding := past.unwinding, lost := past.lost)
      ensures r.Done? || r.Raised? || r.Died?
      ensures r.Done? ==> site.journal == Some(Idle)
      ensures past.lost ==> old(past).lost || Misled(git, old(site), old(past))
      ensures calm && polls > 0 && !old(past).lost ==> Recovered(git, old(site), past, site, r)
      ensures calm && polls > 0 && git.hasSlot && git.healthy(Files(old(site).tree)) ==>
                r.Done? && site == Redriven(old(site), next)
    {
      if !past.lost { CompleteIsPromoted(git, site, past, prior, next); }
      r := Redrive(prior, next);
    }

    // ---------------- main ----------------

    /** `_deploy_locked`. */
    method DeployLocked(next: Sha) returns (r: Outcome)
      requires Safe()
      modifies this`site, this`past, this`visited
      ensures old(visited) <= visited
      ensures Safe() && Within(past.untracked, old(past).untracked)
      ensures past.lost ==> old(past).lost || Misled(git, old(site), old(past))
      ensures r.Done? ==> site.journal == Some(Idle)
      ensures r.Done? && !past.lost ==>
                Complete(git, site, past.untracked, next) && Files(site.tree) == Promoted(git, past, next)
      ensures calm && polls > 0 && !old(past).lost && Resting(old(site)) && GuardRefuses(git, old(site), next) ==>
                r.Raised? && site.journal == Some(Idle) && site.deployed == old(site).deployed
                && Files(site.tree) == AfterRefusal(git, old(site), next)
      ensures calm && polls > 0 && !old(past).lost && Resting(old(site)) && Promotable(git, old(site), next) ==>
                Undone(old(site), old(site).deployed, next)
    {
      r := Reconcile();
      if r.IsFailure() { return; }
      r := DeployNext(next);
    }

    method DeployNext(next: Sha) returns (r: Outcome)
      requires Safe() && Resting(site)
      modifies this`site, this`past, this`visited
      ensures old(visited) <= visited
      ensures Safe() && Within(past.untracked, old(past).untracked) && past.lost == old(past).lost
      ensures r.Done? ==> site.journal == Some(Idle)
      ensures r.Done? && !past.lost ==>
                Complete(git, site, past.untracked, next) && Files(site.tree) == Promoted(git, past, next)
      ensures calm && polls > 0 && !past.lost && GuardRefuses(git, old(site), next) ==>
                r.Raised? && site.journal == Some(Idle) && site.deployed == old(site).deployed
                && Files(site.tree) == AfterRefusal(git, old(site), next)
      ensures calm && polls > 0 && Promotable(git, old(site), next) ==> Undone(old(site), old(site).deployed, next)
    {
      var prior := site.deployed;
      var known := Confirm(next in git.repo && (prior.Some? ==> prior.value in git.repo));
      if !known { return Raised; }
      var verified := Confirm(TrackedOk(git.repo[next]));
      if !verified { return Raised; }
      r := Begin(prior, next);
      if r.IsFailure() { return; }
      ghost var t := site.tree;
      r := Attempt(prior, next);
      if !past.lost { RefusalIs(git, old(site), past, prior, next); }
    }

    /** The live tree is touched only under a journal that says so. */
    method Begin(prior: Option<Sha>, next: Sha) returns (r: Outcome)
      requires Safe() && Resting(site) && prior == site.deployed
      requires next in git.repo && (prior.Some? ==> prior.value in git.repo)
      modifies this`site, this`past, this`visited
      ensures old(visited) <= visited
      ensures Safe() && Within(past.untracked, old(past).untracked) && past.lost == old(past).lost
      ensures !past.unwinding
      ensures r.Done? || r.Raised? || r.Died?
      ensures calm ==> r.Done?
      ensures r.Done? ==> site == old(site).(journal := Some(Promoting(prior, next)))
      ensures !past.lost ==> past.untracked == Rest(old(site).tree, Tree0(git, prior))
      ensures !past.lost ==>
                past.smooth == Smooth(old(site).tree, Tree0(git, prior), git.repo[next], past.untracked)
    {
      if !past.lost {
        ghost var u := past.untracked;
        past := Past(Rest(site.tree, Tree0(git, prior)),
                     Smooth(site.tree, Tree0(git, prior), git.repo[next], Rest(site.tree, Tree0(git, prior))),
                     false, false);
        RestIsBetween(git, site, u, prior, next, past);
        StillAtRest(git, site, u, past.untracked);
      } else {
        past := past.(unwinding := false);
      }
      r := JournalWrite(Promoting(prior, next));
    }

    /** Promote and record, or roll back. */
    method Attempt(prior: Option<Sha>, next: Sha) returns (r: Outcome)
      requires Safe() && site.journal == Some(Promoting(prior, next)) && !past.unwinding
      modifies this`site, this`past, this`visited
      ensures old(visited) <= visited
      ensures Safe() && past.untracked == old(past).untracked && past.lost == old(past).lost
      ensures past.smooth == old(past).smooth
      ensures r.Done? ==> site.journal == Some(Idle)
      ensures r.Done? && !past.lost ==>
                Complete(git, site, past.untracked, next) && Files(site.tree) == Promoted(git, past, next)
      ensures prior.Some? && !NoCollision(old(site).tree, BaseOf(git, prior), git.repo[next]) ==> !r.Done?
      ensures prior.Some? && !NoCollision(old(site).tree, BaseOf(git, prior), git.repo[next])
              && calm && polls > 0 && !past.lost && Undoable(git, old(site).tree, past, prior, next) ==>
                (r.Raised? && site.journal == Some(Idle) && site.deployed == prior
                 && Files(site.tree) == Reverted(git, old(site).tree, past, prior, next))
      ensures calm && polls > 0 && git.hasSlot && prior.Some? ==> Undone(old(site), prior, next)
    {
      r := Promote(prior, next);
      if r.Died? { return; }
      if r.Raised? {
        if prior.None? { return; }
        past := past.(unwinding := site.journal == Some(Activating(prior, next)));
        :- RecoverTo(prior.value, next);
        return Raised;
      }
      :- JournalWrite(Serving(next));
      r := CommitRelease(next);
    }

    /** If the new release is materialized but does not answer, the host is seen after every
        file of the rollback. */
    ghost predicate Undone(s: Site, prior: Option<Sha>, next: Sha)
      requires GitOk(git) && prior.Some? && prior.value in git.repo && next in git.repo
      reads this
    {
      OrderLists(git, next);
      var t := MaterializeTo(s.tree, BaseOf(git, prior), git.repo[next], git.order);
      t.Some? && !git.healthy(Files(t.value)) ==>
        Unwinding(Site(Some(Activating(prior, next)), t.value, s.deployed, Some(Files(t.value))), prior.value, next)
    }

    /** `promote`, then the restart recorded as `activating`. */
    method Promote(prior: Option<Sha>, next: Sha) returns (r: Outcome)
      requires Safe() && site.journal == Some(Promoting(prior, next))
      requires past.lost || !past.unwinding
      modifies this`site, this`visited
      ensures old(visited) <= visited
      ensures Safe()
      ensures site.journal == Some(Promoting(prior, next)) || site.journal == Some(Activating(prior, next))
      ensures r.Done? || r.Raised? || r.Died?
      ensures r.Done? ==> Inv(git, site.(journal := Some(Serving(next))), past)
      ensures r.Done? && !past.lost ==> Files(site.tree) == Promoted(git, past, next)
      ensures !NoCollision(old(site).tree, BaseOf(git, prior), git.repo[next]) ==> r.Raised? && site == old(site)
      ensures calm && polls > 0 && git.hasSlot ==> Tried(old(site), prior, next, r)
    {
      OrderLists(git, next);
      ghost var t := site.tree;
      :- MaterializeLive(prior, next, BaseOf(git, prior), git.repo[next]);
      if !past.lost { PromotesExactly(git, t, past, prior, next); }
      var synced := Confirm(true);
      if !synced { return Raised; }
      r := Done;
      if git.hasSlot {
        r := Activate(prior, next);
      }
    }

    method Activate(prior: Option<Sha>, next: Sha) returns (r: Outcome)
      requires Safe() && site.journal == Some(Promoting(prior, next)) && git.hasSlot
      requires past.lost || (!past.unwinding && Files(site.tree) == Promoted(git, past, next))
      modifies this`site, this`visited
      ensures old(visited) <= visited
      ensures Safe() && site.tree == old(site).tree && site.deployed == old(site).deployed
      ensures site.journal == Some(Promoting(prior, next)) || site.journal == Some(Activating(prior, next))
      ensures r.Done? || r.Raised? || r.Died?
      ensures r.Done? ==> Inv(git, site.(journal := Some(Serving(next))), past)
      ensures calm && polls > 0 && !git.healthy(Files(site.tree)) ==>
                r.Raised? && site == Site(Some(Activating(prior, next)), old(site).tree, old(site).deployed,
                                          Some(Files(old(site).tree)))
    {
      r := JournalWrite(Activating(prior, next));
      if r.IsFailure() { return; }
      r := RestartServingSlot();
    }

    /** A new release that is materialized but does not answer leaves its activation. */
    ghost predicate Tried(s: Site, prior: Option<Sha>, next: Sha, r: Outcome)
      requires GitOk(git) && next in git.repo
      reads this
    {
      OrderLists(git, next);
      var t := MaterializeTo(s.tree, BaseOf(git, prior), git.repo[next], git.order);
      t.Some? && !git.healthy(Files(t.value)) ==>
        r.Raised? && site == Site(Some(Activating(prior, next)), t.value, s.deployed, Some(Files(t.value)))
    }
  }

  predicate Resting(s: Site) {
    s.journal.None? || s.journal == Some(Idle)
  }

  /** In a calm run the rollback from the tree `t` goes through: the tree is revertible, and
      the service answers on what that leaves. */
  predicate Undoable(g: Git, t: Tree, h: Past, prior: Option<Sha>, next: Sha) {
    && prior.Some? && prior.value in g.repo && next in g.repo
    && Revertible(g, t, prior.value, next)
    && (g.hasSlot ==> g.healthy(Reverted(g, t, h, prior, next)))
  }

  predicate Activated(s: Site) {
    s.journal.Some? && s.journal.value.Activating?
  }

  /** A rollback from `activating` had begun, and left a tree that answers healthily though
      it is not the new release. */
  ghost predicate Misled(g: Git, s: Site, h: Past) {
    && Activated(s) && h.unwinding
    && Files(s.tree) != Promoted(g, h, s.journal.value.next)
    && (g.hasSlot ==> g.healthy(Files(s.tree)))
  }

  /** The guard finds an untracked config where the release `next` tracks one, and nothing
      stands in the way of the rollback that follows. */
  ghost predicate GuardRefuses(g: Git, s: Site, next: Sha) {
    && Promotable(g, s, next)
    && !NoCollision(s.tree, BaseOf(g, s.deployed), g.repo[next])
    && Revertible(g, s.tree, s.deployed.value, next)
    && g.healthy(AfterRefusal(g, s, next))
  }

  /** The release before, and of what else was there the files that the refused release
      does not track. */
  function AfterRefusal(g: Git, s: Site, next: Sha): Release
    requires next in g.repo
  {
    Tree0(g, s.deployed) + (Rest(s.tree, Tree0(g, s.deployed)) - g.repo[next].Keys)
  }

  predicate Promotable(g: Git, s: Site, next: Sha) {
    g.hasSlot && next in g.repo && TrackedOk(g.repo[next]) && s.deployed.Some? && s.deployed.value in g.repo
  }

  /** What a restart from `activating` records when the tree answers healthily. */
  function Redriven(s: Site, next: Sha): Site {
    s.(serving := Some(Files(s.tree)), deployed := Some(next), journal := Some(Idle))
  }

  /** Where a calm recovery from `s` ends: from `promoting` at the old release, if and only if
      the rollback goes through, at the new one from `serving`, and from `activating`
      wherever the health check points: if the tree on disk answers, the recovery is right
      if and only if that tree is the new release. */
  ghost predicate Recovered(g: Git, s: Site, h: Past, s': Site, r: Outcome) {
    var u := h.untracked;
    match s.journal
    case None => s' == s && r.Done?
    case Some(Idle) => s' == s && r.Done?
    case Some(Promoting(prior, next)) =>
      if Undoable(g, s.tree, h, prior, next) then
        r.Done? && s'.journal == Some(Idle) && Complete(g, s', u, prior.value)
      else r.Raised? && s'.journal == s.journal
    case Some(Activating(prior, next)) =>
      g.hasSlot ==>
        if g.healthy(Files(s.tree)) then
          r.Done? && s' == Redriven(s, next)
          && (Complete(g, s', u, next) <==> Files(s.tree) == Promoted(g, h, next))
        else if Undoable(g, s.tree, h, prior, next) then
          r.Done? && s'.journal == Some(Idle) && Complete(g, s', u, prior.value)
        else r.Raised? && s'.journal == s.journal
    case Some(Serving(next)) => r.Done? && s'.journal == Some(Idle) && Complete(g, s', u, next)
  }

  /** Between two releases a tree that holds the new one is all that its promotion makes. */
  lemma CompleteIsPromoted(g: Git, s: Site, h: Past, prior: Option<Sha>, next: Sha)
    requires Inv(g, s, h) && !h.lost && s.journal == Some(Activating(prior, next))
    ensures Complete(g, Redriven(s, next), h.untracked, next) <==> Files(s.tree) == Promoted(g, h, next)
  {
    var new_ := g.repo[next];
    if Files(s.tree) == Promoted(g, h, next) {
      PromotedHolds(g, s.tree, h, next);
    }
    if Holds(s.tree, new_, h.untracked) {
      forall p ensures p in Files(s.tree) <==> p in Promoted(g, h, next) {
        if p in Files(s.tree) && p !in new_ {
          assert p in Rest(s.tree, new_);
          forall q | q in new_ ensures p != q && !Above(p, q) && !Above(q, p) {
            assert q in Files(s.tree);
            FilesApart(s.tree, p, q);
            FilesApart(s.tree, q, p);
          }
        }
      }
      assert Files(s.tree) == Promoted(g, h, next);
    }
  }

  /** A refused promotion has touched nothing: all of the operator's files are still there
      when it is rolled back. */
  lemma RefusalIs(g: Git, s: Site, h: Past, prior: Option<Sha>, next: Sha)
    requires next in g.repo && prior == s.deployed && h.untracked == Rest(s.tree, Tree0(g, prior))
    ensures Reverted(g, s.tree, h, prior, next) == AfterRefusal(g, s, next)
  {
    assert Remaining(s.tree, h.untracked, g.repo[next]) == h.untracked - g.repo[next].Keys;
  }

  lemma StillAtRest(g: Git, s: Site, u: Release, v: Release)
    requires AtRest(g, s, u) && v == Rest(s.tree, Tree0(g, s.deployed))
    ensures AtRest(g, s, v)
  {
  }

  // ---------- whole schedules ----------

  /** Any series of deploys, calm or crashing anywhere, from a host nobody has deployed to.
      Unless a recovery was misled, an idle journal means one complete release and besides
      it only files that were there from the start. */
  method Deploys(c: CodeDeploy, pushes: seq<(bool, Sha)>)
    requires GitOk(c.git) && WellFormed(c.site.tree) && c.site.journal.None? && c.site.deployed.None?
    requires c.past == Past(Files(c.site.tree), false, false, false) && c.site in c.visited
    modifies c
    ensures c.Safe()
    ensures !c.past.lost && Resting(c.site) ==> AtRest(c.git, c.site, old(Files(c.site.tree)))
  {
    FreshIsSafe(c.git, c.site);
    for i := 0 to |pushes|
      invariant c.Safe() && Within(c.past.untracked, old(Files(c.site.tree)))
    {
      c.calm := pushes[i].0;
      var _ := c.DeployLocked(pushes[i].1);
    }
  }
}
