/** A working tree and the git operations that `CodeDeploy.materialize` is made of. */
module FileTree {
  import opened Outcomes

  type Name = string
  type Path = seq<Name>

  datatype GitEntry =
    | Regular(blob: string)
    | Executable(blob: string)
    | Symlink(absolute: bool, target: seq<Name>)
    | Gitlink(commit: string)

  datatype Node = File(entry: GitEntry) | Dir

  /** Every node but the root itself, which is the empty path and always a directory. */
  type Tree = map<Path, Node>

  /** A release: its tracked files. */
  type Release = map<Path, GitEntry>

  predicate Above(q: Path, p: Path) {
    |q| < |p| && q == p[..|q|]
  }

  function Parent(p: Path): Path
    requires p != []
  {
    p[..|p| - 1]
  }

  predicate DirAt(t: Tree, p: Path) {
    p == [] || (p in t && t[p].Dir?)
  }

  predicate FileAt(t: Tree, p: Path) {
    p in t && t[p].File?
  }

  ghost predicate WellFormed(t: Tree) {
    [] !in t && forall p :: p in t ==> DirAt(t, Parent(p))
  }

  function Files(t: Tree): Release {
    map p | p in t && t[p].File? :: t[p].entry
  }

  /** What git accepts as a tree: no tracked path lies below another. */
  ghost predicate Coherent(r: Release) {
    [] !in r && forall p, q :: p in r && q in r ==> !Above(p, q)
  }

  lemma {:induction false} AncestorsAreDirs(t: Tree, q: Path, p: Path)
    requires WellFormed(t) && p in t && Above(q, p)
    ensures DirAt(t, q)
    decreases |p|
  {
    if q == Parent(p) {
    } else {
      assert Above(q, Parent(p)) by { assert Parent(p)[..|q|] == p[..|q|]; }
      AncestorsAreDirs(t, q, Parent(p));
    }
  }

  // ---------- deletion ----------

  /** `Path.unlink`: Refused stands for any error other than a missing file. */
  datatype Unlinked = Gone(tree: Tree) | Missing | Refused

  function Unlink(t: Tree, p: Path): Unlinked {
    if p == [] || (exists k :: 0 < k < |p| && FileAt(t, p[..k])) then Refused
    else if p !in t then Missing
    else if t[p].Dir? then Refused
    else Gone(t - {p})
  }

  predicate Empty(t: Tree, d: Path) {
    forall q :: q in t ==> !Above(d, q)
  }

  /** `rmdir` upwards from `d` until a directory is not empty or not there. */
  function Prune(t: Tree, d: Path): Tree
    decreases |d|
  {
    if d != [] && d in t && t[d].Dir? && Empty(t, d) then Prune(t - {d}, Parent(d)) else t
  }

  function DeleteOne(t: Tree, p: Path): Option<Tree> {
    match Unlink(t, p)
    case Refused => None
    case Missing => Some(Prune(t, Parent(p)))
    case Gone(t') => Some(Prune(t', Parent(p)))
  }

  /** `_apply_deletions` for the paths of `ps`, in this order. */
  function DeleteAll(t: Tree, ps: seq<Path>): Option<Tree>
    decreases |ps|
  {
    if ps == [] then Some(t)
    else
      var first := DeleteOne(t, ps[0]);
      if first.None? then None else DeleteAll(first.value, ps[1..])
  }

  lemma {:induction false} PruneKeepsFiles(t: Tree, d: Path)
    requires WellFormed(t)
    ensures WellFormed(Prune(t, d)) && Files(Prune(t, d)) == Files(t)
    ensures forall q :: q in Prune(t, d) ==> q in t && Prune(t, d)[q] == t[q]
    decreases |d|
  {
    if d != [] && d in t && t[d].Dir? && Empty(t, d) {
      var t' := t - {d};
      forall p | p in t'
        ensures DirAt(t', Parent(p))
      {
        assert Above(Parent(p), p);
      }
      assert Files(t') == Files(t);
      PruneKeepsFiles(t', Parent(d));
    }
  }

  lemma DeleteOneFiles(t: Tree, p: Path)
    requires WellFormed(t) && DeleteOne(t, p).Some?
    ensures var t' := DeleteOne(t, p).value;
            && WellFormed(t') && Files(t') == Files(t) - {p}
            && (forall q :: q in t' ==> q in t && t'[q] == t[q])
  {
    if Unlink(t, p).Gone? {
      var t' := t - {p};
      forall q | q in t'
        ensures DirAt(t', Parent(q))
      {
        assert DirAt(t, Parent(q));
      }
      assert Files(t') == Files(t) - {p};
      PruneKeepsFiles(t', Parent(p));
    } else {
      assert Files(t) == Files(t) - {p};
      PruneKeepsFiles(t, Parent(p));
    }
  }

  /** Not below a file, and not a directory. */
  predicate Deletable(t: Tree, p: Path) {
    p != [] && (forall q :: q in t && q != [] && t[q].File? ==> !Above(q, p)) && !DirAt(t, p)
  }

  lemma DeletableExactly(t: Tree, p: Path)
    ensures DeleteOne(t, p).Some? <==> Deletable(t, p)
  {
    if p != [] {
      if k :| 0 < k < |p| && FileAt(t, p[..k]) {
        assert Above(p[..k], p);
      }
      forall q | q in t && q != [] && t[q].File? && Above(q, p)
        ensures exists k :: 0 < k < |p| && FileAt(t, p[..k])
      {
        assert FileAt(t, p[..|q|]);
      }
    }
  }

  /** Deleting keeps every other path deletable. */
  lemma StaysDeletable(t: Tree, p: Path, q: Path)
    requires WellFormed(t) && DeleteOne(t, p).Some? && Deletable(t, q)
    ensures Deletable(DeleteOne(t, p).value, q)
  {
    DeleteOneFiles(t, p);
  }

  predicate AllDeletable(t: Tree, ps: seq<Path>) {
    forall p :: p in ps ==> Deletable(t, p)
  }

  function PathSet(ps: seq<Path>): set<Path> {
    set p | p in ps
  }

  /** The deletions go through when each path is deletable at the start. */
  lemma {:induction false} DeleteAllPossible(t: Tree, ps: seq<Path>)
    requires WellFormed(t) && AllDeletable(t, ps)
    decreases |ps|
    ensures DeleteAll(t, ps).Some?
  {
    if ps != [] {
      DeletableExactly(t, ps[0]);
      assert ps[0] in ps;
      DeleteOneFiles(t, ps[0]);
      var t' := DeleteOne(t, ps[0]).value;
      forall q | q in ps[1..] ensures Deletable(t', q) {
        assert q in ps;
        StaysDeletable(t, ps[0], q);
      }
      DeleteAllPossible(t', ps[1..]);
    }
  }

  /** Then exactly these files are gone. */
  lemma {:induction false} DeleteAllFiles(t: Tree, ps: seq<Path>)
    requires WellFormed(t)
    decreases |ps|
    ensures AllDeletable(t, ps) ==> DeleteAll(t, ps).Some?
    ensures DeleteAll(t, ps).Some? ==>
              var t' := DeleteAll(t, ps).value;
              && WellFormed(t') && Files(t') == Files(t) - PathSet(ps)
              && (forall q :: q in t' ==> q in t && t'[q] == t[q])
  {
    if AllDeletable(t, ps) { DeleteAllPossible(t, ps); }
    if ps == [] {
      assert Files(t) == Files(t) - PathSet(ps);
    } else if DeleteOne(t, ps[0]).Some? {
      var t' := DeleteOne(t, ps[0]).value;
      DeleteOneFiles(t, ps[0]);
      DeleteAllFiles(t', ps[1..]);
      WithoutBoth(Files(t), ps);
    }
  }

  lemma WithoutBoth(r: Release, ps: seq<Path>)
    requires ps != []
    ensures r - {ps[0]} - PathSet(ps[1..]) == r - PathSet(ps)
  {
    assert PathSet(ps) == {ps[0]} + PathSet(ps[1..]);
  }

  /** Pruning takes directories above the deleted path only. */
  lemma {:induction false} PruneTakesAbove(t: Tree, d: Path, q: Path)
    requires q in t && q !in Prune(t, d)
    ensures q == d || Above(q, d)
    decreases |d|
  {
    if q != d && d != [] && d in t && t[d].Dir? && Empty(t, d) {
      PruneTakesAbove(t - {d}, Parent(d), q);
      if Above(q, Parent(d)) { assert Parent(d)[..|q|] == d[..|q|]; }
    }
  }

  /** A deletion frees no path that lies neither above nor below it. */
  lemma StaysBlocked(t: Tree, p: Path, q: Path)
    requires WellFormed(t) && DeleteOne(t, p).Some? && !Deletable(t, q) && !Above(p, q) && !Above(q, p)
    ensures !Deletable(DeleteOne(t, p).value, q)
  {
    DeletableExactly(t, p);
    DeleteOneFiles(t, p);
    var t' := DeleteOne(t, p).value;
    if q != [] && DirAt(t, q) {
      var cut := if Unlink(t, p).Gone? then t - {p} else t;
      if q !in t' {
        PruneTakesAbove(cut, Parent(p), q);
        BelowParent(q, p);
      }
    } else if q != [] {
      var x :| x in t && x != [] && t[x].File? && Above(x, q);
      assert x in Files(t) && x in Files(t');
    }
  }

  /** Where no path to delete lies above another, all are deleted if and only if each could
      be at the start. */
  lemma {:induction false} DeleteAllExactly(t: Tree, ps: seq<Path>)
    requires WellFormed(t) && forall p, q :: p in ps && q in ps ==> !Above(p, q)
    ensures DeleteAll(t, ps).Some? <==> AllDeletable(t, ps)
    decreases |ps|
  {
    DeleteAllFiles(t, ps);
    if ps != [] && !AllDeletable(t, ps) {
      DeletableExactly(t, ps[0]);
      if DeleteOne(t, ps[0]).Some? {
        var q :| q in ps && !Deletable(t, q);
        assert ps[0] in ps && q in ps[1..];
        DeleteOneFiles(t, ps[0]);
        StaysBlocked(t, ps[0], q);
        DeleteAllExactly(DeleteOne(t, ps[0]).value, ps[1..]);
      }
    }
  }

  /** A path that stays undeletable stops the deletions. */
  lemma {:induction false} BlockedDelete(t: Tree, ps: seq<Path>, p: Path, q: Path)
    requires WellFormed(t) && p in ps && q !in ps
    requires FileAt(t, q) && (Above(q, p) || Above(p, q)) && p != []
    ensures DeleteAll(t, ps).None?
    decreases |ps|
  {
    DeletableExactly(t, ps[0]);
    if Above(p, q) { AncestorsAreDirs(t, p, q); }
    if ps[0] == p {
      assert !Deletable(t, p);
    } else if DeleteOne(t, ps[0]).Some? {
      DeleteOneFiles(t, ps[0]);
      var t' := DeleteOne(t, ps[0]).value;
      assert q in Files(t) && q in Files(t');
      BlockedDelete(t', ps[1..], p, q);
    }
  }

  // ---------- checkout ----------

  /** `checkout-index -f` of one entry: files above it give way to directories, whatever
      is at or below it gives way to the file. */
  function CheckoutOne(t: Tree, p: Path, e: GitEntry): Tree {
    map q | q in t.Keys + Ancestors(p) + {p} && !Above(p, q)
      :: if q == p then File(e) else if Above(q, p) then Dir else t[q]
  }

  function Ancestors(p: Path): set<Path> {
    set k | 0 < k < |p| :: p[..k]
  }

  function CheckoutAll(t: Tree, r: Release, ps: seq<Path>): Tree
    requires forall p :: p in ps ==> p in r
    decreases |ps|
  {
    if ps == [] then t else CheckoutAll(CheckoutOne(t, ps[0], r[ps[0]]), r, ps[1..])
  }

  lemma {:induction false} CheckoutOneMore(t: Tree, r: Release, ps: seq<Path>, p: Path)
    requires p in r && forall q :: q in ps ==> q in r
    ensures CheckoutAll(t, r, ps + [p]) == CheckoutOne(CheckoutAll(t, r, ps), p, r[p])
    decreases |ps|
  {
    if ps == [] {
      assert CheckoutAll(CheckoutOne(t, p, r[p]), r, []) == CheckoutOne(t, p, r[p]);
      assert ([] + [p])[1..] == [];
    } else {
      assert (ps + [p])[1..] == ps[1..] + [p];
      CheckoutOneMore(CheckoutOne(t, ps[0], r[ps[0]]), r, ps[1..], p);
    }
  }

  lemma AncestorsAbove(p: Path, q: Path)
    ensures q in Ancestors(p) <==> q != [] && Above(q, p)
  {
    if q != [] && Above(q, p) {
      assert q == p[..|q|];
    }
  }

  lemma BelowParent(p: Path, q: Path)
    requires q != []
    ensures Above(p, Parent(q)) || p == Parent(q) <==> Above(p, q)
  {
    if |p| < |q| {
      assert Parent(q)[..|p|] == q[..|p|];
    }
  }

  lemma CheckoutOneFiles(t: Tree, p: Path, e: GitEntry)
    requires WellFormed(t) && p != []
    ensures var t' := CheckoutOne(t, p, e);
            && WellFormed(t') && FileAt(t', p) && t'[p].entry == e
            && (forall q :: q != p ==> (q in Files(t') <==> q in Files(t) && !Above(q, p) && !Above(p, q)))
            && (forall q :: q != p && q in Files(t') ==> Files(t')[q] == Files(t)[q])
  {
    var t' := CheckoutOne(t, p, e);
    forall q ensures q in Ancestors(p) <==> q != [] && Above(q, p) {
      AncestorsAbove(p, q);
    }
    forall q | q in t'
      ensures DirAt(t', Parent(q))
    {
      var u := Parent(q);
      if u != [] {
        if q == p || Above(q, p) {
          assert Above(u, p) by { assert u == p[..|u|]; }
        } else {
          assert DirAt(t, u);
          BelowParent(p, q);
        }
      }
    }
    forall q | q != p
      ensures q in Files(t') <==> q in Files(t) && !Above(q, p) && !Above(p, q)
    {
      if q in Files(t) && !Above(q, p) && !Above(p, q) { assert q in t'; }
    }
  }

  /** `p` neither is nor lies above or below any path of `s`. */
  predicate Apart(p: Path, s: set<Path>) {
    forall q :: q in s ==> p != q && !Above(p, q) && !Above(q, p)
  }

  /** After checking out `ps` the tree holds these entries; of the other files those
      remain that clash with none of them. */
  lemma {:induction false} CheckoutAllAt(t: Tree, r: Release, ps: seq<Path>, q: Path)
    requires WellFormed(t) && Coherent(r) && forall p :: p in ps ==> p in r
    ensures var t' := CheckoutAll(t, r, ps);
            && WellFormed(t')
            && (q in ps ==> q in Files(t') && Files(t')[q] == r[q])
            && (q !in ps ==> (q in Files(t') <==> q in Files(t) && Apart(q, PathSet(ps))))
            && (q !in ps && q in Files(t') ==> Files(t')[q] == Files(t)[q])
    decreases |ps|
  {
    if ps != [] {
      var p, rest := ps[0], ps[1..];
      CheckoutOneFiles(t, p, r[p]);
      CheckoutAllAt(CheckoutOne(t, p, r[p]), r, rest, q);
      assert PathSet(ps) == {p} + PathSet(rest);
      assert q in rest <==> q in PathSet(rest);
      if q == p && p !in rest {
        assert Apart(p, PathSet(rest));
      }
    }
  }

  lemma CheckoutAllFiles(t: Tree, r: Release, ps: seq<Path>)
    requires WellFormed(t) && Coherent(r) && PathSet(ps) == r.Keys
    ensures var t' := CheckoutAll(t, r, ps);
            && WellFormed(t')
            && Files(t') == (map q | q in Files(t) && Apart(q, r.Keys) :: Files(t)[q]) + r
  {
    var t' := CheckoutAll(t, r, ps);
    assert forall p :: p in ps <==> p in r.Keys by {
      assert forall p :: p in ps <==> p in PathSet(ps);
    }
    CheckoutAllAt(t, r, ps, []);
    forall q ensures SameFile(Files(t'), Kept(t, r) + r, q) {
      CheckoutAllAt(t, r, ps, q);
    }
    SameFiles(Files(t'), Kept(t, r) + r);
  }

  /** The files of `t` that clash with nothing in `r`. */
  function Kept(t: Tree, r: Release): Release {
    map q | q in Files(t) && Apart(q, r.Keys) :: Files(t)[q]
  }

  ghost predicate SameFile(a: Release, b: Release, q: Path) {
    (q in a <==> q in b) && (q in a ==> a[q] == b[q])
  }

  lemma SameFiles(a: Release, b: Release)
    requires forall q :: SameFile(a, b, q)
    ensures a == b
  {
    forall q
      ensures q in a <==> q in b
      ensures q in a ==> a[q] == b[q]
    {
      assert SameFile(a, b, q);
    }
  }

  // ---------- the single steps of a checkout ----------

  /** Directories stand above `p`; the rest of the tree is that of `t`. */
  ghost predicate DirsMade(t: Tree, t': Tree, p: Path) {
    && (forall q :: q != [] && Above(q, p) ==> DirAt(t', q))
    && (forall q :: !Above(q, p) || q == [] ==> SameAt(t, t', q))
  }

  ghost predicate SameAt(t: Tree, t': Tree, q: Path) {
    (q in t <==> q in t') && (q in t ==> t[q] == t'[q])
  }

  predicate Clash(p: Path, q: Path) {
    Above(p, q) || Above(q, p)
  }

  /** `t'` is `t` in the midst of checking out `p`: files above or below it may be gone, at `p`
      there may be anything, all others are as they were. */
  ghost predicate Midway(t: Tree, t': Tree, p: Path) {
    && WellFormed(t')
    && (forall q :: q != p && !Clash(p, q) ==> SameFile(Files(t), Files(t'), q))
    && (forall q :: Clash(p, q) && q in Files(t') ==> q in Files(t) && Files(t')[q] == Files(t)[q])
  }

  /** `t'` is `t` after a checkout of `ps` that came to an end in the midst of one entry. */
  ghost predicate Stopped(t: Tree, r: Release, ps: seq<Path>, t': Tree)
    requires forall p :: p in ps ==> p in r
  {
    exists i :: 0 <= i < |ps| && Midway(CheckoutAll(t, r, ps[..i]), t', ps[i])
  }

  lemma MidwayTrans(t: Tree, t1: Tree, t2: Tree, p: Path)
    requires Midway(t, t1, p) && Midway(t1, t2, p)
    ensures Midway(t, t2, p)
  {
    forall q | q != p && !Clash(p, q) ensures SameFile(Files(t), Files(t2), q) {
      assert SameFile(Files(t), Files(t1), q) && SameFile(Files(t1), Files(t2), q);
    }
  }

  lemma MidwaySame(t: Tree, p: Path)
    requires WellFormed(t)
    ensures Midway(t, t, p)
  {
  }

  lemma MidwayRemove(t: Tree, p: Path, q: Path)
    requires WellFormed(t - {q}) && (q == p || Clash(p, q))
    ensures Midway(t, t - {q}, p)
  {
    assert Files(t - {q}) == Files(t) - {q};
  }

  lemma MidwayDir(t: Tree, p: Path, q: Path)
    requires WellFormed(t[q := Dir]) && q !in t
    ensures Midway(t, t[q := Dir], p)
  {
    assert Files(t[q := Dir]) == Files(t);
  }

  lemma MidwayFile(t: Tree, p: Path, e: GitEntry)
    requires WellFormed(t[p := File(e)])
    ensures Midway(t, t[p := File(e)], p)
  {
    assert forall q :: q != p ==> (q in Files(t[p := File(e)]) <==> q in Files(t));
  }

  /** `t` without `p` and all below it. */
  function Cleared(t: Tree, p: Path): Tree {
    map q | q in t && q != p && !Above(p, q) :: t[q]
  }

  lemma StepsMakeCheckout(t: Tree, t1: Tree, p: Path, e: GitEntry)
    requires WellFormed(t) && p != [] && DirsMade(t, t1, p)
    ensures Cleared(t1, p)[p := File(e)] == CheckoutOne(t, p, e)
  {
    var left, right := Cleared(t1, p)[p := File(e)], CheckoutOne(t, p, e);
    forall q
      ensures q in left <==> q in right
      ensures q in left ==> left[q] == right[q]
    {
      StepsMakeCheckoutAt(t, t1, p, e, q);
    }
  }

  lemma StepsMakeCheckoutAt(t: Tree, t1: Tree, p: Path, e: GitEntry, q: Path)
    requires WellFormed(t) && p != [] && DirsMade(t, t1, p)
    ensures SameAt(Cleared(t1, p)[p := File(e)], CheckoutOne(t, p, e), q)
  {
    AncestorsAbove(p, q);
    if q != [] && Above(q, p) {
      assert DirAt(t1, q);
    } else {
      assert SameAt(t, t1, q);
    }
  }

  /** `t` with directories at the first `k - 1` proper prefixes of `p`. */
  function WithDirs(t: Tree, p: Path, k: nat): Tree
    requires k <= |p|
  {
    if k <= 1 then t else WithDirs(t, p, k - 1)[p[..k - 1] := Dir]
  }

  lemma {:induction false} WithDirsAre(t: Tree, p: Path, k: nat, q: Path)
    requires 0 < k <= |p|
    ensures q != [] && |q| < k && Above(q, p) ==> DirAt(WithDirs(t, p, k), q)
    ensures !(q != [] && |q| < k && Above(q, p)) ==> SameAt(t, WithDirs(t, p, k), q)
  {
    if k > 1 {
      WithDirsAre(t, p, k - 1, q);
      assert Above(p[..k - 1], p);
      if Above(q, p) { assert q == p[..|q|]; }
    }
  }

  lemma WithDirsMade(t: Tree, p: Path)
    requires p != []
    ensures DirsMade(t, WithDirs(t, p, |p|), p)
  {
    forall q
      ensures q != [] && Above(q, p) ==> DirAt(WithDirs(t, p, |p|), q)
      ensures !Above(q, p) || q == [] ==> SameAt(t, WithDirs(t, p, |p|), q)
    {
      WithDirsAre(t, p, |p|, q);
    }
  }

  lemma ClearedWithout(t: Tree, p: Path, q: Path)
    requires q == p || Above(p, q)
    ensures Cleared(t - {q}, p) == Cleared(t, p)
  {
  }

  lemma ClearedNothing(t: Tree, p: Path)
    requires Empty(t, p) && p !in t
    ensures Cleared(t, p) == t
  {
  }

  /** Nothing lies below a file. */
  lemma FileIsLeaf(t: Tree, p: Path)
    requires WellFormed(t) && FileAt(t, p)
    ensures Empty(t, p)
  {
    forall q | q in t ensures !Above(p, q) {
      if Above(p, q) {
        AncestorsAreDirs(t, p, q);
      }
    }
  }

  lemma AboveTrans(p: Path, q: Path, r: Path)
    ensures Above(p, q) && Above(q, r) ==> Above(p, r)
  {
    if Above(p, q) && Above(q, r) {
      assert r[..|p|] == q[..|p|];
    }
  }

  /** A directory that is not empty has a leaf below it. */
  lemma HasLeafBelow(t: Tree, p: Path)
    requires !Empty(t, p)
    ensures exists q :: q in t && Above(p, q) && Empty(t, q)
  {
    var below := set q | q in t && Above(p, q);
    var w :| w in t && Above(p, w);
    assert w in below;
    Deepest(below);
    var q :| q in below && forall r :: r in below ==> |r| <= |q|;
    forall r | r in t ensures !Above(q, r) {
      AboveTrans(p, q, r);
      assert Above(q, r) ==> r in below;
    }
  }

  lemma Deepest(s: set<Path>)
    requires s != {}
    ensures exists q :: q in s && forall r :: r in s ==> |r| <= |q|
  {
    var z :| z in s;
    if s == {z} {
      assert forall r :: r in s ==> |r| <= |z|;
    } else {
      Deepest(s - {z});
      var q :| q in s - {z} && forall r :: r in s - {z} ==> |r| <= |q|;
      var best := if |z| >= |q| then z else q;
      assert forall r :: r in s ==> r == z || r in s - {z};
      assert best in s && forall r :: r in s ==> |r| <= |best|;
    }
  }
}
