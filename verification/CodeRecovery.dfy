/** When the recovery of an interrupted rollback goes wrong, and that it does. */
module CodeRecovery {
  import opened Outcomes
  import opened FileTree
  import opened Materialize
  import opened CodeSite
  import opened CodeDeploying

  // ---------- how far the rollback may have got ----------

  /** A rollback from `next` to `prior` that was interrupted after `k` entries of its checkout
      has left the tree of `next` exactly when it had nothing to delete and came only upon
      files that are the same in both.  Otherwise a healthy answer makes the recovery record
      `next` over a tree that is not `next` (`CodeDeploy.Reconcile`). */
  lemma StillNewExactly(t: Tree, prior: Release, next: Release, rest: Release, order: Listing, k: nat)
    requires Lists(order) && Coherent(prior) && WellFormed(t) && Files(t) == next + rest
    requires KeepsClear(rest, prior) && KeepsClear(rest, next)
    requires Deletions(t, Some(next), prior, order).Some? && k <= |order(prior.Keys)|
    ensures forall p :: p in order(prior.Keys)[..k] ==> p in prior
    ensures var done := order(prior.Keys)[..k];
            Files(CheckoutAll(Deletions(t, Some(next), prior, order).value, prior, done)) == next + rest
            <==> next.Keys <= prior.Keys && forall p :: p in done ==> p in next && next[p] == prior[p]
  {
    Listed(order, prior);
    var done := order(prior.Keys)[..k];
    forall p | p in done ensures p in prior { assert p in order(prior.Keys); }
    var cleared := Deletions(t, Some(next), prior, order).value;
    DeletionsClear(t, next, prior, order);
    var t' := CheckoutAll(cleared, prior, done);
    if next.Keys <= prior.Keys && forall p :: p in done ==> p in next && next[p] == prior[p] {
      assert Files(cleared) == Files(t);
      forall q ensures SameFile(Files(t'), next + rest, q) { SameSoFar(cleared, prior, next, rest, done, q); }
      SameFiles(Files(t'), next + rest);
    } else {
      ChangedAlready(cleared, prior, next, rest, done);
    }
  }

  lemma SameSoFar(t: Tree, prior: Release, next: Release, rest: Release, done: seq<Path>, q: Path)
    requires Coherent(prior) && WellFormed(t) && Files(t) == next + rest && KeepsClear(rest, prior)
    requires forall p :: p in done ==> p in prior && p in next && next[p] == prior[p]
    ensures SameFile(Files(CheckoutAll(t, prior, done)), next + rest, q)
  {
    CheckoutAllAt(t, prior, done, q);
    if q !in done && q in Files(t) {
      forall p | p in PathSet(done) ensures p != q && !Above(p, q) && !Above(q, p) {
        assert p in Files(t);
        FilesApart(t, p, q);
        FilesApart(t, q, p);
      }
    }
    if q in done { assert Apart(q, prior.Keys) ==> false; }
  }

  lemma ChangedAlready(t: Tree, prior: Release, next: Release, rest: Release, done: seq<Path>)
    requires Coherent(prior) && WellFormed(t) && (forall p :: p in done ==> p in prior)
    requires Files(t) == (next + rest) - (next.Keys - prior.Keys)
    requires KeepsClear(rest, prior) && KeepsClear(rest, next)
    requires !(next.Keys <= prior.Keys) || exists p :: p in done && !(p in next && next[p] == prior[p])
    ensures Files(CheckoutAll(t, prior, done)) != next + rest
  {
    var t' := CheckoutAll(t, prior, done);
    if !(next.Keys <= prior.Keys) {
      var p :| p in next && p !in prior;
      CheckoutAllAt(t, prior, done, p);
      assert p in next + rest && p !in Files(t');
    } else {
      var p :| p in done && !(p in next && next[p] == prior[p]);
      CheckoutAllAt(t, prior, done, p);
      assert p in rest ==> Apart(p, prior.Keys);
      assert p in Files(t') && Files(t')[p] == prior[p];
    }
  }

  /** In the midst of the next entry it still is, if and only if it was before, and nothing at,
      above or below that path has changed: the entry is the same in both and has not been
      touched, or has been written again, or is new and nothing has had to make room. */
  lemma StillNewWithin(t: Tree, t': Tree, prior: Release, next: Release, rest: Release, order: Listing, k: nat)
    requires Lists(order) && Coherent(prior) && WellFormed(t) && Files(t) == next + rest
    requires KeepsClear(rest, prior) && KeepsClear(rest, next)
    requires Deletions(t, Some(next), prior, order).Some? && k < |order(prior.Keys)|
    requires order(prior.Keys)[k] !in order(prior.Keys)[..k]
    requires forall p :: p in order(prior.Keys)[..k] ==> p in prior
    requires Midway(CheckoutAll(Deletions(t, Some(next), prior, order).value, prior, order(prior.Keys)[..k]),
                    t', order(prior.Keys)[k])
    ensures var done, p := order(prior.Keys)[..k], order(prior.Keys)[k];
            Files(t') == next + rest
            <==> && next.Keys <= prior.Keys && (forall q :: q in done ==> q in next && next[q] == prior[q])
                 && (forall q :: q == p || Clash(p, q) ==> SameFile(Files(t'), next + rest, q))
  {
    var done, p := order(prior.Keys)[..k], order(prior.Keys)[k];
    Listed(order, prior);
    assert p in prior;
    var t1 := CheckoutAll(Deletions(t, Some(next), prior, order).value, prior, done);
    StillNewExactly(t, prior, next, rest, order, k);
    if Files(t1) == next + rest {
      OnlyThere(t1, t', next + rest, p);
    } else {
      ChangedElsewhere(t, prior, next, rest, order, done, p, t');
    }
  }

  lemma OnlyThere(t1: Tree, t': Tree, r: Release, p: Path)
    requires Midway(t1, t', p) && Files(t1) == r
    ensures Files(t') == r <==> forall q :: q == p || Clash(p, q) ==> SameFile(Files(t'), r, q)
  {
    if forall q :: q == p || Clash(p, q) ==> SameFile(Files(t'), r, q) {
      forall q ensures SameFile(Files(t'), r, q) {
        if q != p && !Clash(p, q) { assert SameFile(Files(t1), Files(t'), q); }
      }
      SameFiles(Files(t'), r);
    }
  }

  /** What an entry before had changed, or the deletions, the next one does not bring back. */
  lemma ChangedElsewhere(t: Tree, prior: Release, next: Release, rest: Release, order: Listing,
                         done: seq<Path>, p: Path, t': Tree)
    requires Lists(order) && Coherent(prior) && WellFormed(t) && Files(t) == next + rest
    requires KeepsClear(rest, prior) && KeepsClear(rest, next)
    requires Deletions(t, Some(next), prior, order).Some? && p in prior && p !in done
    requires forall q :: q in done ==> q in prior
    requires !(next.Keys <= prior.Keys) || exists q :: q in done && !(q in next && next[q] == prior[q])
    requires Midway(CheckoutAll(Deletions(t, Some(next), prior, order).value, prior, done), t', p)
    ensures Files(t') != next + rest
  {
    var cleared := Deletions(t, Some(next), prior, order).value;
    DeletionsClear(t, next, prior, order);
    if !(next.Keys <= prior.Keys) {
      var q :| q in next && q !in prior;
      StaysMissing(cleared, prior, done, p, t', q);
      assert q in next + rest;
    } else {
      var q :| q in done && !(q in next && next[q] == prior[q]);
      StaysWritten(cleared, prior, done, p, t', q);
      assert q in rest ==> Apart(q, prior.Keys);
    }
  }

  lemma StaysMissing(t: Tree, r: Release, done: seq<Path>, p: Path, t': Tree, q: Path)
    requires Coherent(r) && WellFormed(t) && p in r && (forall x :: x in done ==> x in r)
    requires Midway(CheckoutAll(t, r, done), t', p) && q !in r && q !in Files(t)
    ensures q !in Files(t')
  {
    var t1 := CheckoutAll(t, r, done);
    CheckoutAllAt(t, r, done, q);
    if !Clash(p, q) { assert SameFile(Files(t1), Files(t'), q); }
  }

  lemma StaysWritten(t: Tree, r: Release, done: seq<Path>, p: Path, t': Tree, q: Path)
    requires Coherent(r) && WellFormed(t) && p in r && (forall x :: x in done ==> x in r)
    requires Midway(CheckoutAll(t, r, done), t', p) && q in done && q != p
    ensures q in Files(t') && Files(t')[q] == r[q]
  {
    CheckoutAllAt(t, r, done, q);
    assert SameFile(Files(CheckoutAll(t, r, done)), Files(t'), q);
  }

  /** Nor is it still `next` once the rollback has deleted anything. */
  lemma DeletedIsChanged(t: Tree, prior: Release, next: Release, rest: Release, order: Listing, i: nat)
    requires Lists(order) && WellFormed(t) && Files(t) == next + rest && KeepsClear(rest, next)
    requires 0 < i <= |order(next.Keys - prior.Keys)|
    requires DeleteAll(t, order(next.Keys - prior.Keys)[..i]).Some?
    ensures Files(DeleteAll(t, order(next.Keys - prior.Keys)[..i]).value) != next + rest
  {
    var ps := order(next.Keys - prior.Keys);
    DeleteAllFiles(t, ps[..i]);
    assert ps[0] in PathSet(ps) && ps[0] in ps[..i] && ps[0] in PathSet(ps[..i]);
    assert ps[0] in next + rest;
  }

  // ---------- a run that ends over a mixture ----------

  function Twice(blob: string): Release {
    map[["a"] := Regular(blob), ["b"] := Regular(blob)]
  }

  function TwoFiles(blob: string): Tree {
    map[["a"] := File(Regular(blob)), ["b"] := File(Regular(blob))]
  }

  /** Two releases of two files; nothing but exactly the new release fails its health check. */
  function TwoReleases(order: Listing): Git {
    Git(map["old" := Twice("1"), "new" := Twice("2")], order, (r: Release) => r != Twice("2"), true)
  }

  function OldSite(): Site {
    Site(None, TwoFiles("1"), Some("old"), Some(Twice("1")))
  }

  lemma TwoFilesAre(blob: string)
    ensures WellFormed(TwoFiles(blob)) && Files(TwoFiles(blob)) == Twice(blob) && Coherent(Twice(blob))
    ensures TrackedOk(Twice(blob)) && Twice(blob).Keys == {["a"], ["b"]}
  {
    TwoTracked(Twice(blob), ["a"], ["b"]);
    TwoNodes(TwoFiles(blob), Twice(blob), ["a"], ["b"], Regular(blob));
  }

  lemma TwoTracked(r: Release, p: Path, q: Path)
    requires |p| == 1 && |q| == 1 && |p[0]| == 1 && |q[0]| == 1
    requires r.Keys == {p, q} && r[p].Regular? && r[q].Regular?
    ensures TrackedOk(r) && Coherent(r)
  {
    ShortOk(r);
  }

  lemma TwoNodes(t: Tree, r: Release, p: Path, q: Path, e: GitEntry)
    requires |p| == 1 && |q| == 1 && t == map[p := File(e), q := File(e)] && r == map[p := e, q := e]
    ensures WellFormed(t) && Files(t) == r
  {
    assert Parent(p) == [] && Parent(q) == [];
  }

  lemma OldSiteIsSafe(order: Listing, h: Past)
    requires Lists(order) && h == Past(map[], false, false, false)
    ensures Inv(TwoReleases(order), OldSite(), h)
  {
    TwoFilesAre("1");
    TwoFilesAre("2");
  }

  /** Between the two, from either of them, `materialize` is exact. */
  lemma TwoMaterialize(t: Tree, from: string, to: string, order: Listing)
    requires Lists(order) && WellFormed(t) && Files(t) == Twice(from)
    ensures forall p :: p in order(Twice(to).Keys) ==> p in Twice(to)
    ensures Deletions(t, Some(Twice(from)), Twice(to), order) == Some(t)
    ensures var t' := MaterializeTo(t, Some(Twice(from)), Twice(to), order);
            t'.Some? && WellFormed(t'.value) && Files(t'.value) == Twice(to)
  {
    var a, b, u: Release := Twice(from), Twice(to), map[];
    TwoFilesAre(from);
    TwoFilesAre(to);
    assert a + u == a && b + u == b;
    MaterializeExact(t, a, b, u, order);
    assert a.Keys - b.Keys == {};
    assert PathSet(order({})) == {};
    if order({}) != [] { HasPath(order({})); }
  }

  lemma HasPath(ps: seq<Path>)
    requires ps != []
    ensures PathSet(ps) != {}
  {
    assert ps[0] in PathSet(ps);
  }

  lemma SomePaths(ps: seq<Path>, p: Path)
    requires p in PathSet(ps)
    ensures ps != [] && ps[0] in PathSet(ps)
  {
  }

  /** The rollback has put back its first file. */
  function Halfway(t: Tree, order: Listing): Site
    requires order(Twice("1").Keys) != []
  {
    Site(Some(Activating(Some("old"), "new")),
         CheckoutOne(t, order(Twice("1").Keys)[0], Regular("1")), Some("old"), Some(Twice("2")))
  }

  /** One file of a tree that holds nothing else is written anew. */
  lemma OneBack(t: Tree, r: Release, p: Path, e: GitEntry)
    requires WellFormed(t) && Files(t) == r && p in r && p != []
    ensures WellFormed(CheckoutOne(t, p, e)) && Files(CheckoutOne(t, p, e)) == r[p := e]
  {
    CheckoutOneFiles(t, p, e);
    forall q | q in r ensures !Above(p, q) && !Above(q, p) {
      FilesApart(t, p, q);
      FilesApart(t, q, p);
    }
  }

  lemma HalfwayIs(t: Tree, order: Listing, p: Path)
    requires Lists(order) && WellFormed(t) && Files(t) == Twice("2")
    requires order(Twice("1").Keys) != [] && p == order(Twice("1").Keys)[0]
    ensures p in Twice("2") && WellFormed(Halfway(t, order).tree)
    ensures Files(Halfway(t, order).tree) == Twice("2")[p := Regular("1")]
  {
    TwoFilesAre("1");
    TwoFilesAre("2");
    assert p in PathSet(order(Twice("1").Keys));
    OneBack(t, Twice("2"), p, Regular("1"));
  }

  lemma HalfwayDiffers(p: Path)
    requires p in Twice("2")
    ensures Twice("2")[p := Regular("1")] != Twice("1") && Twice("2")[p := Regular("1")] != Twice("2")
    ensures Twice("2")[p := Regular("1")].Keys == {["a"], ["b"]}
  {
    TwoFilesAre("2");
    var other := if p == ["a"] then ["b"] else ["a"];
    assert Twice("2")[p := Regular("1")][other] == Regular("2");
    assert Twice("2")[p := Regular("1")][p] == Regular("1");
  }

  lemma HalfwayIsSafe(t: Tree, order: Listing, p: Path, h: Past)
    requires Lists(order) && WellFormed(t) && Files(t) == Twice("2")
    requires order(Twice("1").Keys) != [] && p == order(Twice("1").Keys)[0]
    requires h == Past(map[], true, true, false)
    ensures Inv(TwoReleases(order), Halfway(t, order), h)
    ensures Files(Halfway(t, order).tree) != Twice("1") && Files(Halfway(t, order).tree) != Twice("2")
  {
    HalfwayIs(t, order, p);
    HalfwayDiffers(p);
    TwoReleasesAre(order);
    ActivatedSafe(TwoReleases(order), Halfway(t, order), h, "old", "new");
  }

  lemma TwoReleasesAre(order: Listing)
    requires Lists(order)
    ensures var g := TwoReleases(order);
            && GitOk(g) && "old" in g.repo && "new" in g.repo && TrackedOk(g.repo["old"])
            && g.repo["old"].Keys == {["a"], ["b"]} && g.repo["new"].Keys == {["a"], ["b"]}
  {
    TwoFilesAre("1");
    TwoFilesAre("2");
  }

  lemma ActivatedSafe(g: Git, s: Site, h: Past, prior: Sha, next: Sha)
    requires GitOk(g) && prior in g.repo && next in g.repo && TrackedOk(g.repo[prior])
    requires g.repo[prior].Keys == {["a"], ["b"]} && g.repo[next].Keys == {["a"], ["b"]}
    requires WellFormed(s.tree) && Files(s.tree).Keys == {["a"], ["b"]}
    requires s.journal == Some(Activating(Some(prior), next)) && s.deployed == Some(prior)
    requires h == Past(map[], true, true, false)
    ensures Inv(g, s, h)
  {
    HalfwayIsSmooth(s.tree, g.repo[prior], g.repo[next], h.untracked);
    SamePathsBetween(g, s.tree, h, prior, next);
  }

  /** A tree with the paths of both releases and no other is between them. */
  lemma SamePathsBetween(g: Git, t: Tree, h: Past, prior: Sha, next: Sha)
    requires prior in g.repo && next in g.repo && WellFormed(t) && h.untracked == map[]
    requires Files(t).Keys == g.repo[next].Keys && Smooth(t, g.repo[prior], g.repo[next], h.untracked)
    ensures Between(g, t, h, Some(prior), next)
  {
  }

  lemma HalfwayIsSmooth(t: Tree, a: Release, b: Release, u: Release)
    requires Files(t).Keys == {["a"], ["b"]} && a.Keys == {["a"], ["b"]} && b.Keys == a.Keys && u == map[]
    requires TrackedOk(a)
    ensures Smooth(t, a, b, u)
  {
    assert CONFIG !in a;
    forall p | p in b ensures !DirAt(t, p) { assert p in Files(t); }
  }

  lemma FirstEntry(t: Tree, order: Listing)
    requires Lists(order)
    ensures order(Twice("1").Keys) != []
    ensures var ps := order(Twice("1").Keys);
            (forall p :: p in ps[..1] ==> p in Twice("1")) &&
            CheckoutAll(t, Twice("1"), ps[..1]) == CheckoutOne(t, ps[0], Regular("1"))
  {
    TwoFilesAre("1");
    var ps := order(Twice("1").Keys);
    SomePaths(ps, ["a"]);
    assert ps[..1] == [ps[0]] && ps[..1][1..] == [];
  }

  /** It happens: `first` deploys a release that does not answer and rolls it back; `s` is
      where it stands when it has put back one of the two files.  A process that dies there
      leaves `second` to recover, which records the new release over a tree that is neither
      release. */
  method MixtureIsRecorded(order: Listing) returns (first: CodeDeploy, second: CodeDeploy, ghost s: Site)
    requires Lists(order)
    ensures s in first.visited && Activated(s)
    ensures first.git == TwoReleases(order) && second.git == TwoReleases(order)
    ensures second.site == Redriven(s, "new") && Resting(second.site) && second.site.deployed == Some("new")
    ensures Files(second.site.tree) != Twice("1") && Files(second.site.tree) != Twice("2")
  {
    var g := TwoReleases(order);
    ghost var h := Past(map[], false, false, false);
    first := new CodeDeploy(g, 1, OldSite(), h);
    OldSiteIsSafe(order, h);
    first.calm := true;
    TwoFilesAre("1");
    TwoFilesAre("2");
    var _ := first.DeployLocked("new");
    TwoMaterialize(TwoFiles("1"), "1", "2", order);
    var t := MaterializeTo(TwoFiles("1"), Some(Twice("1")), Twice("2"), order).value;
    TwoMaterialize(t, "2", "1", order);
    FirstEntry(t, order);
    var halfway := Halfway(t, order);
    s := halfway;
    second := new CodeDeploy(g, 1, halfway, Past(map[], true, true, false));
    HalfwayIsSafe(t, order, order(Twice("1").Keys)[0], Past(map[], true, true, false));
    second.calm := true;
    var _ := second.Reconcile();
  }
}
