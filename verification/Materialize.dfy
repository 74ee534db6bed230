/** `materialize` of deploy/sync/deploy_code.py: guard, deletions, forced checkout. */
module Materialize {
  import opened Outcomes
  import opened FileTree

  const RUNTIME_ALLOW: set<Path> :=
    {["data", "aihot_retirements.json"], ["data", "sources.toml"], ["data", "wechat-discovery.toml"]}
  const RUNTIME_ROOTS: set<Name> := {"data", "logs", ".venv"}
  const RUNTIME_FILES: set<Name> := {".env", ".deployed-sha", ".git-deploy-index"}

  /** `_is_runtime_owned`. */
  predicate RuntimeOwned(p: Path) {
    && p !in RUNTIME_ALLOW && p != []
    && ((|p| == 1 && p[0] in RUNTIME_FILES) || p[0] in RUNTIME_ROOTS)
  }

  /** `os.path.normpath` of a relative path, by components. */
  function Normalize(cs: seq<Name>): seq<Name> {
    if cs == [] then []
    else
      var done, c := Normalize(cs[..|cs| - 1]), cs[|cs| - 1];
      if c == "" || c == "." then done
      else if c == ".." && done != [] && done[|done| - 1] != ".." then done[..|done| - 1]
      else done + [c]
  }

  function Resolve(link: Path, target: seq<Name>): seq<Name>
    requires link != []
  {
    Normalize(Parent(link) + target)
  }

  /** A tracked symlink leads out of the repository or into live state. */
  predicate BadLink(link: Path, absolute: bool, target: seq<Name>)
    requires link != []
  {
    || absolute || target == []
    || (Resolve(link, target) != [] && Resolve(link, target)[0] == "..")
    || RuntimeOwned(Resolve(link, target))
  }

  /** The part of `_guard_runtime_paths` that looks at the commit alone. */
  predicate TrackedOk(r: Release) {
    forall p :: p in r ==>
      && p != [] && !RuntimeOwned(p) && !r[p].Gitlink?
      && (r[p].Symlink? ==> !BadLink(p, r[p].absolute, r[p].target))
      && (p in RUNTIME_ALLOW ==> r[p].Regular?)
  }

  function Tracked(base: Option<Release>): set<Path> {
    if base.Some? then base.value.Keys else {}
  }

  /** No versioned config would replace one that is there untracked. */
  predicate NoCollision(t: Tree, base: Option<Release>, r: Release) {
    forall p :: p in RUNTIME_ALLOW && p in r && p !in Tracked(base) ==> p !in t
  }

  /** The paths git reports, in its order. */
  type Listing = set<Path> -> seq<Path>

  ghost predicate Lists(order: Listing) {
    forall s :: PathSet(order(s)) == s
  }

  /** `_apply_deletions`: what `base` tracks and `r` does not. */
  function Deletions(t: Tree, base: Option<Release>, r: Release, order: Listing): Option<Tree> {
    if base.None? then Some(t) else DeleteAll(t, order(base.value.Keys - r.Keys))
  }

  /** `materialize` on the live tree when git itself succeeds; None when it raises. */
  function MaterializeTo(t: Tree, base: Option<Release>, r: Release, order: Listing): Option<Tree>
    requires forall p :: p in order(r.Keys) ==> p in r
  {
    if !TrackedOk(r) || !NoCollision(t, base, r) then None
    else
      var cleared := Deletions(t, base, r, order);
      if cleared.None? then None else Some(CheckoutAll(cleared.value, r, order(r.Keys)))
  }

  lemma Listed(order: Listing, r: Release)
    requires Lists(order)
    ensures forall p :: p in order(r.Keys) ==> p in r
  {
    assert PathSet(order(r.Keys)) == r.Keys;
    forall p | p in order(r.Keys) ensures p in r { assert p in PathSet(order(r.Keys)); }
  }

  /** Untracked files that clash with no path of `r`. */
  ghost predicate KeepsClear(u: Release, r: Release) {
    forall p :: p in u ==> Apart(p, r.Keys)
  }

  /** The untracked files that clash with no path of `r`. */
  function Clear(u: Release, r: Release): Release {
    map p | p in u && Apart(p, r.Keys) :: u[p]
  }

  /** Those that `r` does not track and that are still there. */
  function Remaining(t: Tree, u: Release, r: Release): Release {
    map p | p in u && p !in r && p in Files(t) :: u[p]
  }

  /** Every file is tracked by `a` or `b` or is one of the untracked `u`; those that `a` does
      not track are as they were, and those that clash with nothing in `a` are there: all
      that holds of the tree while `a` replaces `b`, or `b` is brought back. */
  ghost predicate Mixture(t: Tree, a: Release, b: Release, u: Release) {
    && WellFormed(t)
    && (forall p :: p in Files(t) ==> p in a || p in b || p in u)
    && (forall p :: p in u && p !in a && p in Files(t) ==> Files(t)[p] == u[p])
    && (forall p :: p in u && Apart(p, a.Keys) ==> p in Files(t))
  }

  /** When each deletion is possible, all are. */
  lemma DeletionsPossible(t: Tree, base: Release, r: Release, order: Listing)
    requires Lists(order) && WellFormed(t)
    requires forall p :: p in base && p !in r ==> Deletable(t, p)
    ensures Deletions(t, Some(base), r, order).Some?
  {
    var ps := order(base.Keys - r.Keys);
    assert PathSet(ps) == base.Keys - r.Keys;
    assert AllDeletable(t, ps) by {
      forall p | p in ps ensures Deletable(t, p) { assert p in PathSet(ps); }
    }
    DeleteAllFiles(t, ps);
  }

  /** Nothing of `base` that goes away is blocked, and the guard has no objection. */
  predicate Passable(t: Tree, base: Release, r: Release) {
    && TrackedOk(r) && NoCollision(t, Some(base), r)
    && forall p :: p in base && p !in r ==> Deletable(t, p)
  }

  /** From any tree whatever, half-promoted ones included, `materialize` succeeds if and only
      if the guard lets it pass and each path that only `base` tracks can be deleted. */
  lemma MaterializesExactly(t: Tree, base: Release, r: Release, order: Listing)
    requires Lists(order) && Coherent(base) && WellFormed(t)
    ensures forall p :: p in order(r.Keys) ==> p in r
    ensures MaterializeTo(t, Some(base), r, order).Some? <==> Passable(t, base, r)
  {
    Listed(order, r);
    var ps := order(base.Keys - r.Keys);
    assert PathSet(ps) == base.Keys - r.Keys;
    forall p | p in ps ensures p in base && p !in r { assert p in PathSet(ps); }
    DeleteAllExactly(t, ps);
    forall p | p in base && p !in r ensures p in ps { assert p in PathSet(ps); }
  }

  /** The deletions take the paths only `base` tracks, and nothing else. */
  lemma DeletionsClear(t: Tree, base: Release, r: Release, order: Listing)
    requires Lists(order) && WellFormed(t) && Deletions(t, Some(base), r, order).Some?
    ensures var cleared := Deletions(t, Some(base), r, order).value;
            WellFormed(cleared) && Files(cleared) == Files(t) - (base.Keys - r.Keys)
  {
    var ps := order(base.Keys - r.Keys);
    assert PathSet(ps) == base.Keys - r.Keys;
    DeleteAllFiles(t, ps);
  }

  /** A forced checkout keeps the files that clash with nothing in `r`. */
  lemma CheckoutKeeps(t: Tree, r: Release, order: Listing)
    requires Lists(order) && Coherent(r) && WellFormed(t)
    ensures forall p :: p in order(r.Keys) ==> p in r
    ensures var t' := CheckoutAll(t, r, order(r.Keys)); WellFormed(t') && Files(t') == Clear(Files(t), r) + r
  {
    Listed(order, r);
    assert PathSet(order(r.Keys)) == r.Keys;
    CheckoutAllFiles(t, r, order(r.Keys));
  }

  lemma SumsAgree(a: Release, b: Release, r: Release)
    requires forall p :: p in a ==> p !in r
    requires forall p :: (p in a <==> p in b) && (p in a ==> a[p] == b[p])
    ensures a + r == r + b
  {
  }

  /** From any tree in between, once the deletions went through, a promotion ends exactly at
      the new release and the untracked files that clash with nothing in it. */
  lemma MixtureConverges(t: Tree, prior: Release, next: Release, u: Release, order: Listing)
    requires Lists(order) && Coherent(next) && Mixture(t, next, prior, u) && KeepsClear(u, prior)
    requires Deletions(t, Some(prior), next, order).Some?
    ensures forall p :: p in order(next.Keys) ==> p in next
    ensures var t' := CheckoutAll(Deletions(t, Some(prior), next, order).value, next, order(next.Keys));
            WellFormed(t') && Files(t') == next + Clear(u, next)
  {
    var cleared := Deletions(t, Some(prior), next, order).value;
    DeletionsClear(t, prior, next, order);
    CheckoutKeeps(cleared, next, order);
    SumsAgree(Clear(Files(cleared), next), Clear(u, next), next);
  }

  /** And a rollback at the old release and those untracked files that are still there and
      that the new release did not track. */
  lemma RollbackConverges(t: Tree, prior: Release, next: Release, u: Release, order: Listing)
    requires Lists(order) && Coherent(prior) && Mixture(t, next, prior, u) && KeepsClear(u, prior)
    requires Deletions(t, Some(next), prior, order).Some?
    ensures forall p :: p in order(prior.Keys) ==> p in prior
    ensures var t' := CheckoutAll(Deletions(t, Some(next), prior, order).value, prior, order(prior.Keys));
            WellFormed(t') && Files(t') == prior + Remaining(t, u, next)
  {
    var cleared := Deletions(t, Some(next), prior, order).value;
    DeletionsClear(t, next, prior, order);
    CheckoutKeeps(cleared, prior, order);
    SumsAgree(Clear(Files(cleared), prior), Remaining(t, u, next), prior);
  }

  /** The first release, over nothing but untracked files. */
  lemma FirstConverges(t: Tree, next: Release, u: Release, order: Listing)
    requires Lists(order) && Coherent(next) && Mixture(t, next, map[], u)
    ensures forall p :: p in order(next.Keys) ==> p in next
    ensures var t' := CheckoutAll(t, next, order(next.Keys)); WellFormed(t') && Files(t') == next + Clear(u, next)
  {
    CheckoutKeeps(t, next, order);
    SumsAgree(Clear(Files(t), next), Clear(u, next), next);
  }

  /** From exactly `base` plus untracked files that clash with no path of `r`, the tree
      ends at exactly `r` plus the same untracked files, even where a file becomes a
      directory or a directory a file. */
  lemma MaterializeExact(t: Tree, base: Release, r: Release, u: Release, order: Listing)
    requires Lists(order) && Coherent(base) && Coherent(r) && KeepsClear(u, r)
    requires WellFormed(t) && base.Keys !! u.Keys && Files(t) == base + u
    requires TrackedOk(r) && NoCollision(t, Some(base), r)
    ensures forall p :: p in order(r.Keys) ==> p in r
    ensures var t' := MaterializeTo(t, Some(base), r, order);
            t'.Some? && WellFormed(t'.value) && Files(t'.value) == r + u
  {
    forall p | p in base && p !in r
      ensures Deletable(t, p)
    {
      assert p in Files(t);
      forall q | q in t && q != [] && t[q].File?
        ensures !Above(q, p)
      {
        if Above(q, p) { AncestorsAreDirs(t, q, p); }
      }
    }
    DeletionsPossible(t, base, r, order);
    ExactIsMixture(t, base, r, u);
    MixtureConverges(t, base, r, u, order);
    assert Clear(u, r) == u;
  }

  /** Files of one tree never lie above each other. */
  lemma FilesApart(t: Tree, p: Path, q: Path)
    requires WellFormed(t) && p in Files(t) && q in Files(t)
    ensures !Above(p, q)
  {
    if Above(p, q) { AncestorsAreDirs(t, p, q); }
  }

  lemma ExactIsMixture(t: Tree, base: Release, r: Release, u: Release)
    requires WellFormed(t) && base.Keys !! u.Keys && Files(t) == base + u
    ensures Mixture(t, r, base, u) && KeepsClear(u, base)
  {
    forall p | p in u ensures Apart(p, base.Keys) {
      forall q | q in base ensures p != q && !Above(p, q) && !Above(q, p) {
        assert p in Files(t) && q in Files(t);
        FilesApart(t, p, q);
        FilesApart(t, q, p);
      }
    }
    forall p ensures p in Files(t) <==> p in base || p in u { assert p in Files(t) <==> p in base + u; }
  }

  /** No tracked path turns from a file into a directory or back. */
  ghost predicate KindStable(a: Release, b: Release) {
    forall p, q :: p in a && q in b ==> !Above(p, q) && !Above(q, p)
  }

  /** Every versioned config of `a` is also one of `b`. */
  predicate ConfigsKept(a: Release, b: Release) {
    forall p :: p in RUNTIME_ALLOW && p in a ==> p in b
  }

  ghost predicate NoDirAt(t: Tree, r: Release) {
    forall p :: p in r ==> !DirAt(t, p)
  }

  /** No untracked file lies above or below a path of `r`. */
  ghost predicate Beside(u: Release, r: Release) {
    forall p, q :: p in r && q in u ==> !Above(q, p) && !Above(p, q)
  }

  ghost predicate NoneAbove(u: Release, r: Release) {
    forall p, q :: p in r && q in u ==> !Above(q, p)
  }

  /** Going back from any half-promoted tree. */
  lemma RollbackFromMixture(t: Tree, old_: Release, new_: Release, u: Release, order: Listing)
    requires Lists(order) && Coherent(old_) && Coherent(new_)
    requires Mixture(t, new_, old_, u) && KeepsClear(u, old_) && NoneAbove(u, new_)
    requires KindStable(old_, new_) && NoDirAt(t, new_)
    requires TrackedOk(old_) && ConfigsKept(old_, new_)
    ensures forall p :: p in order(old_.Keys) ==> p in old_
    ensures var t' := MaterializeTo(t, Some(new_), old_, order);
            t'.Some? && WellFormed(t'.value) && Files(t'.value) == old_ + Remaining(t, u, new_)
  {
    MixtureDeletable(t, old_, new_, u, order);
    RollbackConverges(t, old_, new_, u, order);
  }

  lemma MixtureDeletable(t: Tree, old_: Release, new_: Release, u: Release, order: Listing)
    requires Lists(order) && Coherent(new_) && Mixture(t, new_, old_, u) && NoneAbove(u, new_)
    requires KindStable(old_, new_) && NoDirAt(t, new_)
    ensures Deletions(t, Some(new_), old_, order).Some?
  {
    forall p | p in new_ && p !in old_
      ensures Deletable(t, p)
    {
      NothingInTheWay(t, old_, new_, u, p);
    }
    DeletionsPossible(t, new_, old_, order);
  }

  lemma NothingInTheWay(t: Tree, old_: Release, new_: Release, u: Release, p: Path)
    requires Coherent(new_) && Mixture(t, new_, old_, u) && NoneAbove(u, new_)
    requires KindStable(old_, new_) && NoDirAt(t, new_) && p in new_
    ensures Deletable(t, p)
  {
    forall q | q in t && q != [] && t[q].File?
      ensures !Above(q, p)
    {
      assert q in Files(t);
    }
  }

  /** A promotion that died before it touched the tree can be rolled back exactly when no
      path changes its kind and the old versioned configs are all tracked by the new
      release too. */
  lemma RollbackFromUntouched(t: Tree, old_: Release, new_: Release, u: Release, order: Listing)
    requires Lists(order) && Coherent(old_) && Coherent(new_) && TrackedOk(old_)
    requires WellFormed(t) && Files(t) == old_ + u && KeepsClear(u, old_) && Beside(u, new_)
    requires forall p :: p in new_ && DirAt(t, p) ==> exists q :: q in old_ && Above(p, q)
    ensures forall p :: p in order(old_.Keys) ==> p in old_
    ensures MaterializeTo(t, Some(new_), old_, order).Some? <==> KindStable(old_, new_) && ConfigsKept(old_, new_)
  {
    Listed(order, old_);
    if KindStable(old_, new_) && ConfigsKept(old_, new_) {
      assert NoDirAt(t, new_);
      RollbackFromMixture(t, old_, new_, u, order);
    } else if !ConfigsKept(old_, new_) {
      var p :| p in RUNTIME_ALLOW && p in old_ && p !in new_;
      assert p in Files(t);
    } else {
      var q, p :| q in old_ && p in new_ && (Above(q, p) || Above(p, q));
      ClashBlocks(t, old_, new_, u, order, p, q);
    }
  }

  lemma ClashBlocks(t: Tree, old_: Release, new_: Release, u: Release, order: Listing, p: Path, q: Path)
    requires Lists(order) && Coherent(old_) && Coherent(new_)
    requires WellFormed(t) && Files(t) == old_ + u
    requires q in old_ && p in new_ && (Above(q, p) || Above(p, q))
    ensures Deletions(t, Some(new_), old_, order).None?
  {
    var ps := order(new_.Keys - old_.Keys);
    assert PathSet(ps) == new_.Keys - old_.Keys;
    assert p !in old_ && p in PathSet(ps) && q !in PathSet(ps);
    assert q in Files(t);
    BlockedDelete(t, ps, p, q);
  }

  /** The rollback that follows a refused promotion removes whatever the new release
      tracks and the old one does not: it keeps the untracked files exactly when none of
      them is such a path.  The guard against untracked configs refuses the promotion and
      not this deletion. */
  lemma RollbackKeepsUntracked(t: Tree, old_: Release, new_: Release, u: Release, order: Listing)
    requires Lists(order) && Coherent(old_)
    requires WellFormed(t) && Files(t) == old_ + u && old_.Keys !! u.Keys && KeepsClear(u, old_)
    requires forall p :: p in order(old_.Keys) ==> p in old_
    requires MaterializeTo(t, Some(new_), old_, order).Some?
    ensures var t' := MaterializeTo(t, Some(new_), old_, order).value;
            (forall p :: p in u ==> p in Files(t')) <==> u.Keys !! new_.Keys
  {
    var ps := order(new_.Keys - old_.Keys);
    assert PathSet(ps) == new_.Keys - old_.Keys && PathSet(order(old_.Keys)) == old_.Keys;
    DeleteAllFiles(t, ps);
    CheckoutAllFiles(DeleteAll(t, ps).value, old_, order(old_.Keys));
    var t' := MaterializeTo(t, Some(new_), old_, order).value;
    forall p | p in u
      ensures p in Files(t') <==> p !in new_
    {
      assert p in Files(t) && Apart(p, old_.Keys);
    }
  }

  // ---------- where a rollback goes wrong ----------

  const CONFIG: Path := ["data", "sources.toml"]

  /** An operator's config that the new release tracks: the guard refuses the promotion
      before anything is touched, and the rollback that follows deletes the config. */
  lemma RollbackDeletesConfig(t: Tree, old_: Release, new_: Release, order: Listing)
    requires t == map[["a"] := File(Regular("1")), ["data"] := Dir, CONFIG := File(Regular("mine"))]
    requires old_ == map[["a"] := Regular("1")] && new_ == map[["a"] := Regular("2"), CONFIG := Regular("theirs")]
    requires Lists(order)
    ensures forall p :: p in order(new_.Keys) ==> p in new_
    ensures forall p :: p in order(old_.Keys) ==> p in old_
    ensures MaterializeTo(t, Some(old_), new_, order).None?
    ensures var t' := MaterializeTo(t, Some(new_), old_, order);
            CONFIG in Files(t) && t'.Some? && CONFIG !in Files(t'.value)
  {
    var u: Release := map[CONFIG := Regular("mine")];
    Listed(order, old_);
    Listed(order, new_);
    assert CONFIG in t && CONFIG in new_ && CONFIG !in Tracked(Some(old_));
    ConfigTree(t, old_, u);
    ConfigReleases(t, old_, new_, u);
    RollbackFromUntouched(t, old_, new_, u, order);
    RollbackKeepsUntracked(t, old_, new_, u, order);
    assert CONFIG in u && CONFIG in new_;
  }

  lemma ConfigTree(t: Tree, old_: Release, u: Release)
    requires t == map[["a"] := File(Regular("1")), ["data"] := Dir, CONFIG := File(Regular("mine"))]
    requires old_ == map[["a"] := Regular("1")] && u == map[CONFIG := Regular("mine")]
    ensures WellFormed(t) && Files(t) == old_ + u && KeepsClear(u, old_)
    ensures !DirAt(t, ["a"]) && !DirAt(t, CONFIG)
  {
    assert Parent(CONFIG) == ["data"] && Parent(["a"]) == [] && Parent(["data"]) == [];
    assert CONFIG[0] != "a";
  }

  lemma ConfigReleases(t: Tree, old_: Release, new_: Release, u: Release)
    requires old_ == map[["a"] := Regular("1")] && new_ == map[["a"] := Regular("2"), CONFIG := Regular("theirs")]
    requires u == map[CONFIG := Regular("mine")]
    ensures Coherent(old_) && Coherent(new_) && TrackedOk(old_)
    ensures Beside(u, new_) && KindStable(old_, new_) && ConfigsKept(old_, new_)
  {
    assert CONFIG[0] != "a";
    ShortOk(old_);
  }

  /** Files at the top whose names have one letter are tracked without objection. */
  lemma ShortOk(r: Release)
    requires forall p :: p in r ==> |p| == 1 && |p[0]| == 1 && r[p].Regular?
    ensures TrackedOk(r)
  {
  }

  /** A path that turns from a file into a directory: the rollback fails on a tree that
      nobody has touched. */
  lemma RollbackMeetsFile(t: Tree, old_: Release, new_: Release, order: Listing)
    requires t == map[["p"] := File(Regular("1"))] && Lists(order)
    requires old_ == map[["p"] := Regular("1")] && new_ == map[["p", "mod.py"] := Regular("2")]
    ensures forall p :: p in order(old_.Keys) ==> p in old_
    ensures Files(t) == old_ && MaterializeTo(t, Some(new_), old_, order).None?
  {
    var u: Release := map[];
    Listed(order, old_);
    KindReleases(t, old_, new_, u);
    RollbackFromUntouched(t, old_, new_, u, order);
    assert old_ + u == old_;
  }

  lemma KindReleases(t: Tree, old_: Release, new_: Release, u: Release)
    requires t == map[["p"] := File(Regular("1"))] && u == map[]
    requires old_ == map[["p"] := Regular("1")] && new_ == map[["p", "mod.py"] := Regular("2")]
    ensures WellFormed(t) && Files(t) == old_ + u && Coherent(old_) && Coherent(new_) && TrackedOk(old_)
    ensures !KindStable(old_, new_) && forall p :: p in new_ ==> !DirAt(t, p)
  {
    assert Parent(["p"]) == [];
    assert Above(["p"], ["p", "mod.py"]);
    ShortOk(old_);
  }

  /** A versioned config that the new release no longer tracks: the guard takes it for the
      operator's and refuses the rollback. */
  lemma RollbackRefused(t: Tree, old_: Release, new_: Release, order: Listing)
    requires t == map[["data"] := Dir, CONFIG := File(Regular("1"))] && Lists(order)
    requires old_ == map[CONFIG := Regular("1")] && new_ == map[]
    ensures forall p :: p in order(old_.Keys) ==> p in old_
    ensures Files(t) == old_ && MaterializeTo(t, Some(new_), old_, order).None?
  {
    Listed(order, old_);
    assert CONFIG in old_ && CONFIG in t && CONFIG !in Tracked(Some(new_));
  }
}
