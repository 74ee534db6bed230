/** The host of a code deploy and what holds of it after every effect. */
module CodeSite {
  import opened Outcomes
  import opened FileTree
  import opened Materialize

  type Sha = string

  datatype Record =
    | Idle
    | Promoting(prior: Option<Sha>, next: Sha)
    | Activating(prior: Option<Sha>, next: Sha)
    | Serving(next: Sha)

  /** `serving` is what the running service loaded at its last start. */
  datatype Site = Site(journal: Option<Record>, tree: Tree, deployed: Option<Sha>, serving: Option<Release>)

  /** The repository, and which working tree answers its health check. */
  datatype Git = Git(repo: map<Sha, Release>, order: Listing, healthy: Release -> bool, hasSlot: bool)

  /** `untracked` are the operator's files when the promotion began; `smooth` says that the
      release being promoted changes no path's kind, keeps the versioned configs, and found
      neither a directory nor a file of the operator's in its way; `unwinding` that a
      rollback from `activating` has begun; `lost` that a deploy was recorded over a tree
      that is not its release. */
  datatype Past = Past(untracked: Release, smooth: bool, unwinding: bool, lost: bool)

  function Tree0(g: Git, sha: Option<Sha>): Release {
    if sha.Some? && sha.value in g.repo then g.repo[sha.value] else map[]
  }

  ghost predicate GitOk(g: Git) {
    Lists(g.order) && forall sha :: sha in g.repo ==> Coherent(g.repo[sha])
  }

  predicate Within(a: Release, b: Release) {
    forall p :: p in a ==> p in b && a[p] == b[p]
  }

  /** What is there besides the release. */
  function Rest(t: Tree, r: Release): Release {
    Files(t) - r.Keys
  }

  /** The tree is exactly the release and some of the files `u`. */
  ghost predicate Holds(t: Tree, r: Release, u: Release) {
    WellFormed(t) && Within(r, Files(t)) && Within(Rest(t, r), u)
  }

  /** Tree, `.deployed-sha` and the running service agree on the release `sha`. */
  ghost predicate Complete(g: Git, s: Site, u: Release, sha: Sha) {
    && sha in g.repo
    && Holds(s.tree, g.repo[sha], u)
    && s.deployed == Some(sha)
    && (g.hasSlot ==> s.serving == Some(Files(s.tree)))
  }

  ghost predicate NeverDeployed(g: Git, s: Site, u: Release) {
    Holds(s.tree, map[], u) && s.deployed.None?
  }

  ghost predicate AtRest(g: Git, s: Site, u: Release) {
    if s.deployed.Some? then Complete(g, s, u, s.deployed.value) else NeverDeployed(g, s, u)
  }

  ghost predicate Smooth(t: Tree, prior: Release, next: Release, u: Release) {
    && KindStable(prior, next) && ConfigsKept(prior, next)
    && NoDirAt(t, next) && NoneAbove(u, next) && TrackedOk(prior)
  }

  /** The tree is somewhere between the two releases. */
  ghost predicate Between(g: Git, t: Tree, h: Past, prior: Option<Sha>, next: Sha) {
    && next in g.repo && (prior.Some? ==> prior.value in g.repo)
    && KeepsClear(h.untracked, Tree0(g, prior))
    && Mixture(t, Tree0(g, Some(next)), Tree0(g, prior), h.untracked)
    && (h.smooth ==> Smooth(t, Tree0(g, prior), Tree0(g, Some(next)), h.untracked))
  }

  /** The promotion has come out: the new release, and of the operator's files those that
      clash with nothing in it. */
  function Promoted(g: Git, h: Past, next: Sha): Release {
    Tree0(g, Some(next)) + Clear(h.untracked, Tree0(g, Some(next)))
  }

  /** What a rollback from the tree `t` comes to. */
  function Reverted(g: Git, t: Tree, h: Past, prior: Option<Sha>, next: Sha): Release {
    Tree0(g, prior) + Remaining(t, h.untracked, Tree0(g, Some(next)))
  }

  /** The service, if it is up, runs the old release. */
  predicate RunsOld(s: Site, old_: Release, u: Release) {
    s.serving.Some? ==> Within(old_, s.serving.value) && Within(s.serving.value - old_.Keys, u)
  }

  ghost predicate Stage(g: Git, s: Site, h: Past) {
    match s.journal
    case None => AtRest(g, s, h.untracked)
    case Some(Idle) => AtRest(g, s, h.untracked)
    case Some(Promoting(prior, next)) =>
      && Between(g, s.tree, h, prior, next) && s.deployed == prior && !h.unwinding
      && (g.hasSlot && prior.Some? ==> RunsOld(s, Tree0(g, prior), h.untracked))
    case Some(Activating(prior, next)) =>
      && Between(g, s.tree, h, prior, next) && s.deployed == prior
      && (!h.unwinding ==> Files(s.tree) == Promoted(g, h, next))
    case Some(Serving(next)) =>
      && next in g.repo && Files(s.tree) == Promoted(g, h, next)
      && (g.hasSlot ==> s.serving == Some(Files(s.tree)))
  }

  /** The journal names commits of the repository. */
  predicate Known(g: Git, s: Site) {
    s.journal.Some? ==>
      match s.journal.value
      case Idle => true
      case Promoting(prior, next) => next in g.repo && (prior.Some? ==> prior.value in g.repo)
      case Activating(prior, next) => next in g.repo && (prior.Some? ==> prior.value in g.repo)
      case Serving(next) => next in g.repo
  }

  ghost predicate Inv(g: Git, s: Site, h: Past) {
    GitOk(g) && WellFormed(s.tree) && Known(g, s) && (h.lost || Stage(g, s, h))
  }

  /** A host nobody has deployed to, whatever files lie there. */
  lemma FreshIsSafe(g: Git, s: Site)
    requires GitOk(g) && WellFormed(s.tree) && s.journal.None? && s.deployed.None?
    ensures Inv(g, s, Past(Files(s.tree), false, false, false))
  {
  }

  /** The journal under which the tree is being changed. */
  ghost predicate Mixing(s: Site, h: Past, prior: Option<Sha>, next: Sha) {
    || s.journal == Some(Promoting(prior, next))
    || (s.journal == Some(Activating(prior, next)) && h.unwinding)
  }

  /** A tree change that stays between the releases keeps the invariant. */
  lemma MixingKeepsInv(g: Git, s: Site, h: Past, prior: Option<Sha>, next: Sha, t: Tree)
    requires Inv(g, s, h) && Mixing(s, h, prior, next)
    requires WellFormed(t) && (h.lost || Between(g, t, h, prior, next))
    ensures Inv(g, s.(tree := t), h)
  {
  }

  /** A path of one of the two releases. */
  ghost predicate Ours(g: Git, prior: Option<Sha>, next: Sha, p: Path) {
    p in Tree0(g, Some(next)) || p in Tree0(g, prior)
  }

  /** An operator's file that the promotion leaves alone. */
  predicate LeftAlone(g: Git, h: Past, next: Sha, p: Path) {
    p in Clear(h.untracked, Tree0(g, Some(next)))
  }

  /** Removing a leaf that is no such file stays in between. */
  lemma RemoveStaysBetween(g: Git, t: Tree, h: Past, prior: Option<Sha>, next: Sha, p: Path)
    requires WellFormed(t) && p in t && Empty(t, p)
    ensures WellFormed(t - {p})
    ensures Between(g, t, h, prior, next) && !LeftAlone(g, h, next, p) ==> Between(g, t - {p}, h, prior, next)
  {
    var t' := t - {p};
    forall q | q in t'
      ensures DirAt(t', Parent(q))
    {
      assert Above(Parent(q), q);
    }
  }

  /** So does making a directory above one of our paths, where there is none. */
  lemma MkdirStaysBetween(g: Git, t: Tree, h: Past, prior: Option<Sha>, next: Sha, d: Path, p: Path)
    requires GitOk(g) && WellFormed(t)
    requires d != [] && d !in t && DirAt(t, Parent(d)) && Above(d, p) && Ours(g, prior, next, p)
    ensures WellFormed(t[d := Dir])
    ensures Between(g, t, h, prior, next) ==> Between(g, t[d := Dir], h, prior, next)
  {
    var t' := t[d := Dir];
    forall q | q in t'
      ensures DirAt(t', Parent(q))
    {
    }
    assert Files(t') == Files(t);
  }

  /** And writing one of our files, with any content. */
  lemma WriteStaysBetween(g: Git, t: Tree, h: Past, prior: Option<Sha>, next: Sha, p: Path, e: GitEntry)
    requires GitOk(g) && WellFormed(t)
    requires p != [] && !DirAt(t, p) && DirAt(t, Parent(p)) && Ours(g, prior, next, p)
    ensures WellFormed(t[p := File(e)])
    ensures Between(g, t, h, prior, next) ==> Between(g, t[p := File(e)], h, prior, next)
  {
    var t' := t[p := File(e)];
    forall q | q in t'
      ensures DirAt(t', Parent(q))
    {
      if q in t { assert DirAt(t, Parent(q)); }
    }
    assert forall q :: q in Files(t') <==> q == p || q in Files(t);
  }

  /** At, below or above one of our paths lies no such file. */
  lemma NotKept(g: Git, t: Tree, h: Past, prior: Option<Sha>, next: Sha, p: Path, q: Path)
    requires Between(g, t, h, prior, next) && Ours(g, prior, next, p) && (q == p || Above(p, q) || Above(q, p))
    ensures !LeftAlone(g, h, next, q)
  {
    assert LeftAlone(g, h, next, q) ==> Apart(q, Tree0(g, prior).Keys);
  }

  /** The base `materialize` is given: the release before, if there was one. */
  function BaseOf(g: Git, prior: Option<Sha>): Option<Release> {
    if prior.Some? then Some(Tree0(g, prior)) else None
  }

  /** Whenever it succeeds in between, `materialize` to the new release is exact. */
  lemma PromotesExactly(g: Git, t: Tree, h: Past, prior: Option<Sha>, next: Sha)
    requires GitOk(g) && Between(g, t, h, prior, next)
    requires forall p :: p in g.order(g.repo[next].Keys) ==> p in g.repo[next]
    requires MaterializeTo(t, BaseOf(g, prior), g.repo[next], g.order).Some?
    ensures var t' := MaterializeTo(t, BaseOf(g, prior), g.repo[next], g.order).value;
            WellFormed(t') && Files(t') == Promoted(g, h, next)
  {
    if prior.Some? {
      MixtureConverges(t, g.repo[prior.value], g.repo[next], h.untracked, g.order);
    } else {
      FirstConverges(t, g.repo[next], h.untracked, g.order);
    }
  }

  /** In a calm run `materialize` gets from the tree `t` back to the release before. */
  predicate Revertible(g: Git, t: Tree, prior: Sha, next: Sha)
    requires prior in g.repo && next in g.repo
  {
    Passable(t, g.repo[next], g.repo[prior])
  }

  /** So is going back, which succeeds if and only if the tree is revertible; in a smooth
      promotion it is, however far the promotion got. */
  lemma RevertsExactly(g: Git, t: Tree, h: Past, prior: Sha, next: Sha)
    requires GitOk(g) && Between(g, t, h, Some(prior), next)
    requires forall p :: p in g.order(g.repo[prior].Keys) ==> p in g.repo[prior]
    ensures var t' := MaterializeTo(t, Some(g.repo[next]), g.repo[prior], g.order);
            && (t'.Some? ==> WellFormed(t'.value) && Files(t'.value) == Reverted(g, t, h, Some(prior), next))
            && (t'.Some? <==> Revertible(g, t, prior, next)) && (h.smooth ==> t'.Some?)
  {
    MaterializesExactly(t, g.repo[next], g.repo[prior], g.order);
    if MaterializeTo(t, Some(g.repo[next]), g.repo[prior], g.order).Some? {
      RollbackConverges(t, g.repo[prior], g.repo[next], h.untracked, g.order);
    }
    if h.smooth {
      RollbackFromMixture(t, g.repo[prior], g.repo[next], h.untracked, g.order);
    }
  }

  lemma OrderLists(g: Git, sha: Sha)
    requires GitOk(g) && sha in g.repo
    ensures forall p :: p in g.order(g.repo[sha].Keys) ==> p in g.repo[sha]
  {
    Listed(g.order, g.repo[sha]);
  }

  /** A promotion that came out, and a rollback that did, hold exactly one release. */
  lemma PromotedHolds(g: Git, t: Tree, h: Past, next: Sha)
    requires WellFormed(t) && next in g.repo && Files(t) == Promoted(g, h, next)
    ensures Holds(t, g.repo[next], h.untracked)
  {
  }

  lemma RevertedHolds(g: Git, t0: Tree, t: Tree, h: Past, prior: Sha, next: Sha)
    requires Between(g, t0, h, Some(prior), next)
    requires WellFormed(t) && Files(t) == Reverted(g, t0, h, Some(prior), next)
    ensures Holds(t, g.repo[prior], h.untracked)
  {
    forall p | p in h.untracked ensures p !in g.repo[prior] {
      assert Apart(p, g.repo[prior].Keys);
    }
  }

  /** A promotion that has not begun to change anything is in between. */
  lemma RestIsBetween(g: Git, s: Site, u: Release, prior: Option<Sha>, next: Sha, h: Past)
    requires AtRest(g, s, u) && prior == s.deployed && next in g.repo && WellFormed(s.tree)
    requires h.untracked == Rest(s.tree, Tree0(g, prior))
    requires h.smooth ==> Smooth(s.tree, Tree0(g, prior), Tree0(g, Some(next)), h.untracked)
    ensures Between(g, s.tree, h, prior, next) && Files(s.tree) == Tree0(g, prior) + h.untracked
    ensures Within(h.untracked, u)
  {
    var base := Tree0(g, prior);
    assert Files(s.tree) == base + h.untracked;
    ExactIsMixture(s.tree, base, Tree0(g, Some(next)), h.untracked);
  }
}
