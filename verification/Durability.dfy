/** A volume under power loss: what was not forced out may be lost.  Contents that were not
    fsynced may be anything, and each directory change that was not forced out may or may
    not have reached the disk, whatever became of the others. */
module Durability {
  import opened Outcomes
  import M = Manifests
  import R = ReleaseTypes

  datatype File =
    | Journal
    | Include
    | Basis
    | Receipt
    | Claimed
    | Incoming
    | Slot(port: R.Port)
    | Sidecar(id: M.SnapshotId)
    | Evidence(path: R.QPath)
    | Temp(of: File)          // the temporary beside a file that is being replaced

  datatype Dir = Data | Nginx | BasisDir | Archive(of: M.SnapshotId)

  function DirOf(f: File): Dir {
    match f
    case Include => Nginx
    case Basis => BasisDir
    case Evidence(p) => Archive(p.dir)
    case Temp(g) => DirOf(g)
    case _ => Data
  }

  /** Names and the inodes they lead to. */
  type Entries = map<File, nat>

  /** What one directory operation, which is atomic, assigns to the names it involves. */
  type Change = map<File, Option<nat>>

  function Entry(e: Entries, f: File): Option<nat> {
    if f in e then Some(e[f]) else None
  }

  function Apply(e: Entries, c: Change): Entries {
    map f | f in e.Keys + c.Keys && (f in c ==> c[f].Some?) :: if f in c then c[f].value else e[f]
  }

  function ApplyAll(e: Entries, cs: seq<Change>): Entries {
    if cs == [] then e else Apply(ApplyAll(e, cs[..|cs| - 1]), cs[|cs| - 1])
  }

  predicate Touches(c: Change, d: Dir) {
    exists f :: f in c && DirOf(f) == d
  }

  /** `now` is what the running system sees.  The disk surely holds `dirs`; `pending` are
      the changes since that were not forced out, in order.  An inode is written once, when
      it is made; those in `dirty` have not been forced out. */
  datatype Volume<C> = Volume(now: Entries, dirs: Entries, pending: seq<Change>, data: map<nat, C>, dirty: set<nat>)

  function Read<C>(e: Entries, data: map<nat, C>, f: File): Option<C> {
    if f in e && e[f] in data then Some(data[e[f]]) else None
  }

  function Now<C>(v: Volume<C>, f: File): Option<C> {
    Read(v.now, v.data, f)
  }

  ghost predicate Coherent<C>(v: Volume<C>) {
    ApplyAll(v.dirs, v.pending) == v.now
  }

  // ---------- power loss ----------

  /** The changes of `cs` that survive, one flag each. */
  function Survivors(cs: seq<Change>, keep: seq<bool>): seq<Change>
    requires |keep| == |cs|
  {
    if cs == [] then []
    else Survivors(cs[..|cs| - 1], keep[..|cs| - 1]) + (if keep[|cs| - 1] then [cs[|cs| - 1]] else [])
  }

  /** `(e, data)` is a possible disk after power is lost in state `v`. */
  ghost predicate Image<C>(v: Volume<C>, keep: seq<bool>, e: Entries, data: map<nat, C>) {
    && |keep| == |v.pending|
    && e == ApplyAll(v.dirs, Survivors(v.pending, keep))
    && forall i :: i in v.data && i !in v.dirty ==> i in data && data[i] == v.data[i]
  }

  /** The name `f` may lead to `x` after a power loss. */
  ghost predicate May<C>(v: Volume<C>, f: File, x: Option<nat>) {
    x == Entry(v.dirs, f) || exists c :: c in v.pending && f in c && x == c[f]
  }

  /** The inode holds `c`, if `clean` surely so on disk. */
  predicate Holds<C(==)>(v: Volume<C>, x: Option<nat>, c: Option<C>, clean: bool) {
    if x.None? then c.None?
    else x.value in v.data && c == Some(v.data[x.value]) && (clean ==> x.value !in v.dirty)
  }

  /** Whatever survives, `f` leads to the content `c`. */
  ghost predicate Sure<C>(v: Volume<C>, f: File, c: Option<C>, clean: bool) {
    forall x :: May(v, f, x) ==> Holds(v, x, c, clean)
  }

  /** Whatever survives, `f` leads where the running system sees it lead. */
  ghost predicate Placed<C>(v: Volume<C>, f: File) {
    forall x :: May(v, f, x) ==> x == Entry(v.now, f)
  }

  lemma {:induction false} EntryAfter(e: Entries, cs: seq<Change>, f: File)
    ensures Entry(ApplyAll(e, cs), f) == Entry(e, f)
            || exists c :: c in cs && f in c && Entry(ApplyAll(e, cs), f) == c[f]
  {
    if cs != [] {
      EntryAfter(e, cs[..|cs| - 1], f);
      assert cs[|cs| - 1] in cs;
    }
  }

  lemma {:induction false} SurvivorsAmong(cs: seq<Change>, keep: seq<bool>)
    requires |keep| == |cs|
    ensures forall c :: c in Survivors(cs, keep) ==> c in cs
  {
    if cs != [] {
      SurvivorsAmong(cs[..|cs| - 1], keep[..|cs| - 1]);
    }
  }

  lemma ImageMay<C>(v: Volume<C>, keep: seq<bool>, e: Entries, data: map<nat, C>, f: File)
    requires Image(v, keep, e, data)
    ensures May(v, f, Entry(e, f))
  {
    SurvivorsAmong(v.pending, keep);
    EntryAfter(v.dirs, Survivors(v.pending, keep), f);
  }

  lemma SureShown<C>(v: Volume<C>, keep: seq<bool>, e: Entries, data: map<nat, C>, f: File, c: Option<C>, clean: bool)
    requires Image(v, keep, e, data) && Sure(v, f, c, clean)
    ensures clean ==> Read(e, data, f) == c
    ensures c.Some? <==> f in e
  {
    ImageMay(v, keep, e, data, f);
  }

  // ---------- what exactly may survive ----------

  predicate SomeKept(cs: seq<Change>, keep: seq<bool>, f: File)
    requires |keep| == |cs|
  {
    exists k :: 0 <= k < |cs| && keep[k] && f in cs[k]
  }

  /** Where every change to a name makes the same of it, the name is that as soon as one of
      them survives, and what it was otherwise. */
  lemma {:induction false} SurvivorsEntry(e: Entries, cs: seq<Change>, keep: seq<bool>, f: File, y: Option<nat>)
    requires |keep| == |cs| && forall c :: c in cs && f in c ==> c[f] == y
    ensures Entry(ApplyAll(e, Survivors(cs, keep)), f) == if SomeKept(cs, keep, f) then y else Entry(e, f)
  {
    if cs != [] {
      var n := |cs| - 1;
      SurvivorsEntry(e, cs[..n], keep[..n], f, y);
      assert cs[n] in cs;
      if keep[n] {
        ApplyAllSnoc(e, Survivors(cs[..n], keep[..n]), cs[n]);
      } else {
        assert Survivors(cs, keep) == Survivors(cs[..n], keep[..n]);
      }
      if keep[n] && f in cs[n] {
        assert SomeKept(cs, keep, f);
      } else {
        KeptBefore(cs, keep, f);
      }
    }
  }

  lemma KeptBefore(cs: seq<Change>, keep: seq<bool>, f: File)
    requires |keep| == |cs| > 0 && !(keep[|cs| - 1] && f in cs[|cs| - 1])
    ensures SomeKept(cs, keep, f) <==> SomeKept(cs[..|cs| - 1], keep[..|cs| - 1], f)
  {
    var n := |cs| - 1;
    if SomeKept(cs, keep, f) {
      var k :| 0 <= k < |cs| && keep[k] && f in cs[k];
      assert cs[..n][k] == cs[k] && keep[..n][k] == keep[k];
    }
    if SomeKept(cs[..n], keep[..n], f) {
      var k :| 0 <= k < n && keep[..n][k] && f in cs[..n][k];
      assert keep[k] && f in cs[k];
    }
  }

  function All(n: nat): (keep: seq<bool>)
    ensures |keep| == n && forall k :: 0 <= k < n ==> keep[k]
  {
    seq(n, k => true)
  }

  function Only(n: nat, i: int): (keep: seq<bool>)
    ensures |keep| == n && forall k :: 0 <= k < n ==> keep[k] == (k == i)
  {
    seq(n, k => k == i)
  }

  lemma {:induction false} AllSurvive(cs: seq<Change>, keep: seq<bool>)
    requires |keep| == |cs| && forall k :: 0 <= k < |cs| ==> keep[k]
    ensures Survivors(cs, keep) == cs
  {
    if cs != [] {
      var n := |cs| - 1;
      AllSurvive(cs[..n], keep[..n]);
      assert cs == cs[..n] + [cs[n]];
    }
  }

  lemma {:induction false} NoneSurvive(cs: seq<Change>, keep: seq<bool>)
    requires |keep| == |cs| && forall k :: 0 <= k < |cs| ==> !keep[k]
    ensures Survivors(cs, keep) == []
  {
    if cs != [] {
      NoneSurvive(cs[..|cs| - 1], keep[..|cs| - 1]);
    }
  }

  lemma {:induction false} OneSurvives(cs: seq<Change>, keep: seq<bool>, i: nat)
    requires i < |cs| == |keep| && forall k :: 0 <= k < |cs| ==> keep[k] == (k == i)
    ensures Survivors(cs, keep) == [cs[i]]
  {
    var n := |cs| - 1;
    if i == n {
      NoneSurvive(cs[..n], keep[..n]);
    } else {
      OneSurvives(cs[..n], keep[..n], i);
    }
  }

  /** The disk on which nothing but the `i`-th change survives. */
  lemma OneLeft<C>(v: Volume<C>, i: nat)
    requires i < |v.pending|
    ensures Image(v, Only(|v.pending|, i), Apply(v.dirs, v.pending[i]), v.data)
  {
    OneSurvives(v.pending, Only(|v.pending|, i), i);
    var one := [v.pending[i]];
    assert one[..0] == [] && ApplyAll(v.dirs, []) == v.dirs;
    assert ApplyAll(v.dirs, one) == Apply(ApplyAll(v.dirs, one[..0]), one[0]);
  }

  lemma NoneLeft<C>(v: Volume<C>)
    ensures Image(v, Only(|v.pending|, |v.pending|), v.dirs, v.data)
  {
    NoneSurvive(v.pending, Only(|v.pending|, |v.pending|));
  }

  /** The disk on which all changes survive, but not the content of the inode `j`. */
  lemma AllLeft<C>(v: Volume<C>, j: nat)
    requires Coherent(v) && j in v.dirty
    ensures Image(v, All(|v.pending|), v.now, v.data - {j})
  {
    AllSurvive(v.pending, All(|v.pending|));
  }

  /** `May` is exact: each of these does happen to the name. */
  lemma MayExactly<C(!new)>(v: Volume<C>, f: File, x: Option<nat>)
    ensures May(v, f, x) <==> exists keep, e, data :: Image(v, keep, e, data) && Entry(e, f) == x
  {
    if keep, e, data :| Image(v, keep, e, data) && Entry(e, f) == x {
      ImageMay(v, keep, e, data, f);
    }
    if May(v, f, x) {
      NoneLeft(v);
      if x != Entry(v.dirs, f) {
        var c :| c in v.pending && f in c && x == c[f];
        var i :| 0 <= i < |v.pending| && v.pending[i] == c;
        OneLeft(v, i);
        assert Entry(Apply(v.dirs, c), f) == x;
      }
    }
  }

  // ---------- system calls ----------

  function Changed<C>(v: Volume<C>, c: Change): Volume<C> {
    v.(now := Apply(v.now, c), pending := v.pending + [c])
  }

  /** A new file is written, in place of any other of this name. */
  function Create<C>(v: Volume<C>, f: File, i: nat, c: C): Volume<C> {
    Changed(v, map[f := Some(i)]).(data := v.data[i := c], dirty := v.dirty + {i})
  }

  /** `os.replace`. */
  function Rename<C>(v: Volume<C>, f: File, g: File): Volume<C> {
    Changed(v, map[f := None, g := Entry(v.now, f)])
  }

  function Unlinks(fs: set<File>): Change {
    map f | f in fs :: None
  }

  function Remove<C>(v: Volume<C>, fs: set<File>): Volume<C> {
    Changed(v, Unlinks(fs))
  }

  /** `os.fsync` of the file's descriptor. */
  function SyncFile<C>(v: Volume<C>, f: File): Volume<C> {
    if f in v.now then v.(dirty := v.dirty - {v.now[f]}) else v
  }

  /** Of `cs`, what an fsync of the directory `d` forces out: the changes that touch it, and
      the earlier ones to any name that these involve; `names` are those so far. */
  function Forced(cs: seq<Change>, d: Dir, names: set<File>): seq<Change> {
    if cs == [] then []
    else
      var c := cs[|cs| - 1];
      if Touches(c, d) || !(c.Keys !! names) then Forced(cs[..|cs| - 1], d, names + c.Keys) + [c]
      else Forced(cs[..|cs| - 1], d, names)
  }

  function Left(cs: seq<Change>, d: Dir, names: set<File>): seq<Change> {
    if cs == [] then []
    else
      var c := cs[|cs| - 1];
      if Touches(c, d) || !(c.Keys !! names) then Left(cs[..|cs| - 1], d, names + c.Keys)
      else Left(cs[..|cs| - 1], d, names) + [c]
  }

  /** `os.fsync` of a directory's descriptor. */
  function SyncDir<C>(v: Volume<C>, d: Dir): Volume<C> {
    v.(dirs := ApplyAll(v.dirs, Forced(v.pending, d, {})), pending := Left(v.pending, d, {}))
  }

  // ---------- what a call leaves alone ----------

  /** From `v` to `w` no content was lost and nothing new may become of `f`. */
  ghost predicate Keeps<C>(v: Volume<C>, w: Volume<C>, f: File) {
    && (forall i :: i in v.data ==> i in w.data && w.data[i] == v.data[i] && (i !in v.dirty ==> i !in w.dirty))
    && (forall x :: May(w, f, x) ==> May(v, f, x))
    && (forall c :: c in w.pending && f in c ==> c in v.pending)
    && Entry(w.now, f) == Entry(v.now, f)
  }

  lemma KeepsSure<C>(v: Volume<C>, w: Volume<C>, f: File, c: Option<C>, clean: bool)
    requires Keeps(v, w, f) && Sure(v, f, c, clean)
    ensures Sure(w, f, c, clean)
  {
    forall x | May(w, f, x) ensures Holds(w, x, c, clean) {
      assert May(v, f, x);
    }
  }

  lemma ChangedKeeps<C>(v: Volume<C>, c: Change, f: File)
    requires f !in c
    ensures Keeps(v, Changed(v, c), f)
  {
  }

  lemma ChangedMay<C>(v: Volume<C>, c: Change, f: File, x: Option<nat>)
    requires May(Changed(v, c), f, x)
    ensures May(v, f, x) || (f in c && x == c[f])
  {
  }

  lemma ChangedCoherent<C>(v: Volume<C>, c: Change)
    requires Coherent(v)
    ensures Coherent(Changed(v, c))
  {
    assert (v.pending + [c])[..|v.pending|] == v.pending;
  }

  lemma CallsCoherent<C>(v: Volume<C>, f: File, g: File, i: nat, c: C)
    requires Coherent(v)
    ensures Coherent(Create(v, f, i, c)) && Coherent(Rename(v, f, g)) && Coherent(SyncFile(v, f))
  {
    ChangedCoherent(v, map[f := Some(i)]);
    ChangedCoherent(v, map[f := None, g := Entry(v.now, f)]);
  }

  lemma {:induction false} ForcedAmong(cs: seq<Change>, d: Dir, names: set<File>)
    ensures forall c :: c in Forced(cs, d, names) ==> c in cs
    ensures forall c :: c in Left(cs, d, names) ==> c in cs && !Touches(c, d) && c.Keys !! names
  {
    if cs != [] {
      var c := cs[|cs| - 1];
      ForcedAmong(cs[..|cs| - 1], d, names + c.Keys);
      ForcedAmong(cs[..|cs| - 1], d, names);
    }
  }

  lemma ApplySwap(e: Entries, a: Change, b: Change)
    requires a.Keys !! b.Keys
    ensures Apply(Apply(e, a), b) == Apply(Apply(e, b), a)
  {
  }

  lemma {:induction false} ApplyPast(e: Entries, c: Change, cs: seq<Change>)
    requires forall x :: x in cs ==> x.Keys !! c.Keys
    ensures ApplyAll(Apply(e, c), cs) == Apply(ApplyAll(e, cs), c)
  {
    if cs != [] {
      var last := cs[|cs| - 1];
      assert last in cs;
      ApplyPast(e, c, cs[..|cs| - 1]);
      ApplySwap(ApplyAll(e, cs[..|cs| - 1]), c, last);
    }
  }

  lemma ApplyAllSnoc(e: Entries, cs: seq<Change>, c: Change)
    ensures ApplyAll(e, cs + [c]) == Apply(ApplyAll(e, cs), c)
  {
    assert (cs + [c])[..|cs|] == cs;
  }

  /** Forcing some changes out early makes no difference to what all of them lead to. */
  lemma {:induction false} ForcedFirst(e: Entries, cs: seq<Change>, d: Dir, names: set<File>)
    ensures ApplyAll(ApplyAll(e, Forced(cs, d, names)), Left(cs, d, names)) == ApplyAll(e, cs)
  {
    if cs != [] {
      var c, rest := cs[|cs| - 1], cs[..|cs| - 1];
      if Touches(c, d) || !(c.Keys !! names) {
        var more := names + c.Keys;
        ForcedFirst(e, rest, d, more);
        ForcedAmong(rest, d, more);
        ApplyAllSnoc(e, Forced(rest, d, more), c);
        ApplyPast(ApplyAll(e, Forced(rest, d, more)), c, Left(rest, d, more));
      } else {
        ForcedFirst(e, rest, d, names);
        ApplyAllSnoc(ApplyAll(e, Forced(rest, d, names)), Left(rest, d, names), c);
      }
    }
  }

  lemma SyncDirKeeps<C>(v: Volume<C>, d: Dir, f: File)
    ensures Keeps(v, SyncDir(v, d), f)
  {
    ForcedAmong(v.pending, d, {});
    EntryAfter(v.dirs, Forced(v.pending, d, {}), f);
  }

  lemma SyncDirCoherent<C>(v: Volume<C>, d: Dir)
    requires Coherent(v)
    ensures Coherent(SyncDir(v, d))
  {
    ForcedFirst(v.dirs, v.pending, d, {});
  }

  /** After an fsync of a directory its names lead where the running system sees them. */
  lemma SyncDirPlaces<C>(v: Volume<C>, d: Dir, f: File)
    requires Coherent(v) && DirOf(f) == d
    ensures Placed(SyncDir(v, d), f)
  {
    var w := SyncDir(v, d);
    SyncDirCoherent(v, d);
    ForcedAmong(v.pending, d, {});
    forall c | c in w.pending ensures f !in c {
      assert !Touches(c, d);
    }
    EntryAfter(w.dirs, w.pending, f);
  }

  lemma SyncFileKeeps<C>(v: Volume<C>, g: File, f: File)
    ensures Keeps(v, SyncFile(v, g), f)
  {
  }

  lemma KeepsTrans<C>(u: Volume<C>, v: Volume<C>, w: Volume<C>, f: File)
    requires Keeps(u, v, f) && Keeps(v, w, f)
    ensures Keeps(u, w, f)
  {
  }

  // ---------- an atomic replacement ----------

  /** After `k` calls of: write the temporary, fsync it and its directory, rename it into
      place, fsync the file and the directory (`journal_write`, `write_active_include`,
      `finalize`, `_atomic_json_write`). */
  function ReplaceAt<C>(v: Volume<C>, f: File, i: nat, c: C, k: nat): Volume<C>
    decreases k
  {
    if k == 0 then v else ReplaceCall(ReplaceAt(v, f, i, c, k - 1), f, i, c, k)
  }

  /** The k-th of them. */
  function ReplaceCall<C>(w: Volume<C>, f: File, i: nat, c: C, k: nat): Volume<C> {
    if k == 1 then Create(w, Temp(f), i, c)
    else if k == 2 then SyncFile(w, Temp(f))
    else if k == 4 then Rename(w, Temp(f), f)
    else if k == 5 then SyncFile(w, f)
    else SyncDir(w, DirOf(f))
  }

  lemma {:induction false} ReplaceKeeps<C>(v: Volume<C>, f: File, i: nat, c: C, k: nat, g: File)
    requires i !in v.data && k <= 6 && g != Temp(f) && (g != f || k <= 3)
    ensures Keeps(v, ReplaceAt(v, f, i, c, k), g)
    decreases k
  {
    if k == 1 {
      CreateKeeps(v, Temp(f), i, c, g);
    } else if k > 1 {
      var u := ReplaceAt(v, f, i, c, k - 1);
      ReplaceKeeps(v, f, i, c, k - 1, g);
      CallKeeps(u, f, i, c, k, g);
      KeepsTrans(v, u, ReplaceCall(u, f, i, c, k), g);
    }
  }

  lemma CallKeeps<C>(u: Volume<C>, f: File, i: nat, c: C, k: nat, g: File)
    requires 1 < k <= 6 && g != Temp(f) && (g != f || k != 4)
    ensures Keeps(u, ReplaceCall(u, f, i, c, k), g)
  {
    if k == 2 {
      SyncFileKeeps(u, Temp(f), g);
    } else if k == 4 {
      ChangedKeeps(u, map[Temp(f) := None, f := Entry(u.now, Temp(f))], g);
    } else if k == 5 {
      SyncFileKeeps(u, f, g);
    } else {
      SyncDirKeeps(u, DirOf(f), g);
    }
  }

  lemma CreateKeeps<C>(v: Volume<C>, f: File, i: nat, c: C, g: File)
    requires i !in v.data && g != f
    ensures Keeps(v, Create(v, f, i, c), g)
  {
    ChangedKeeps(v, map[f := Some(i)], g);
    forall x | May(Create(v, f, i, c), g, x) ensures May(v, g, x) {
      assert May(Changed(v, map[f := Some(i)]), g, x);
    }
  }

  lemma {:induction false} ReplaceCoherent<C>(v: Volume<C>, f: File, i: nat, c: C, k: nat)
    requires Coherent(v) && k <= 6
    ensures Coherent(ReplaceAt(v, f, i, c, k))
    decreases k
  {
    if k > 0 {
      ReplaceCoherent(v, f, i, c, k - 1);
      CallCoherent(ReplaceAt(v, f, i, c, k - 1), f, i, c, k);
    }
  }

  lemma CallCoherent<C>(u: Volume<C>, f: File, i: nat, c: C, k: nat)
    requires Coherent(u)
    ensures Coherent(ReplaceCall(u, f, i, c, k))
  {
    if k == 1 || k == 2 || k == 4 {
      CallsCoherent(u, Temp(f), f, i, c);
    } else if k == 5 {
      CallsCoherent(u, f, f, i, c);
    } else {
      SyncDirCoherent(u, DirOf(f));
    }
  }

  /** The new inode is clean from its fsync on, and the name leads to it from the rename on. */
  lemma ReplaceInode<C>(v: Volume<C>, f: File, i: nat, c: C, k: nat)
    requires 0 < k <= 6 && !f.Temp?
    ensures var w := ReplaceAt(v, f, i, c, k);
            && i in w.data && w.data[i] == c && (k >= 2 ==> i !in w.dirty)
            && (if k <= 3 then Entry(w.now, Temp(f)) == Some(i) else Entry(w.now, f) == Some(i))
  {
    ReplaceName(v, f, i, c, k);
    ReplaceData(v, f, i, c, k);
  }

  lemma {:induction false} ReplaceName<C>(v: Volume<C>, f: File, i: nat, c: C, k: nat)
    requires 0 < k <= 6 && !f.Temp?
    ensures var w := ReplaceAt(v, f, i, c, k);
            if k <= 3 then Entry(w.now, Temp(f)) == Some(i) else Entry(w.now, f) == Some(i)
    decreases k
  {
    if k > 1 {
      ReplaceName(v, f, i, c, k - 1);
      if k == 4 { RenameEntry(ReplaceAt(v, f, i, c, 3), Temp(f), f); }
    }
  }

  lemma {:induction false} ReplaceData<C>(v: Volume<C>, f: File, i: nat, c: C, k: nat)
    requires 0 < k <= 6 && !f.Temp?
    ensures var w := ReplaceAt(v, f, i, c, k); i in w.data && w.data[i] == c && (k >= 2 ==> i !in w.dirty)
    decreases k
  {
    if k > 1 {
      ReplaceData(v, f, i, c, k - 1);
      ReplaceName(v, f, i, c, k - 1);
    }
  }

  lemma RenameEntry<C>(v: Volume<C>, f: File, g: File)
    requires f != g
    ensures Entry(Rename(v, f, g).now, g) == Entry(v.now, f) && Entry(Rename(v, f, g).now, f) == None
  {
  }

  /** What may become of the replaced name. */
  lemma ReplaceMay<C>(v: Volume<C>, f: File, i: nat, c: C, k: nat, x: Option<nat>)
    requires Coherent(v) && i !in v.data && k <= 6 && !f.Temp?
    requires May(ReplaceAt(v, f, i, c, k), f, x)
    ensures k <= 3 ==> May(v, f, x)
    ensures k == 3 ==> x == Entry(v.now, f)
    ensures k > 3 ==> x == Some(i) || x == Entry(v.now, f)
    ensures k == 6 ==> x == Some(i)
  {
    if k <= 3 { ReplaceKeeps(v, f, i, c, k, f); }
    if k == 3 { ReplacePlaces(v, f, i, c, 3, f); }
    if k > 3 {
      RenamedMay(v, f, i, c, k, x);
      if k == 6 {
        ReplaceCoherent(v, f, i, c, 5);
        ReplaceInode(v, f, i, c, 6);
        SyncDirPlaces(ReplaceAt(v, f, i, c, 5), DirOf(f), f);
      }
    }
  }

  lemma RenamedMay<C>(v: Volume<C>, f: File, i: nat, c: C, k: nat, x: Option<nat>)
    requires Coherent(v) && i !in v.data && 3 < k <= 6 && !f.Temp?
    requires May(ReplaceAt(v, f, i, c, k), f, x)
    ensures x == Some(i) || x == Entry(v.now, f)
  {
    var u, w := ReplaceAt(v, f, i, c, 3), ReplaceAt(v, f, i, c, 4);
    ReplaceInode(v, f, i, c, 3);
    ReplacePlaces(v, f, i, c, 3, f);
    if k >= 5 { SyncFileKeeps(w, f, f); }
    if k == 6 { SyncDirKeeps(ReplaceAt(v, f, i, c, 5), DirOf(f), f); }
    assert May(w, f, x);
    ChangedMay(u, map[Temp(f) := None, f := Entry(u.now, Temp(f))], f, x);
  }

  /** From the first fsync of the directory on, its other names are placed. */
  lemma ReplacePlaces<C>(v: Volume<C>, f: File, i: nat, c: C, k: nat, g: File)
    requires Coherent(v) && i !in v.data && 3 <= k <= 6
    requires DirOf(g) == DirOf(f) && g != Temp(f) && (g != f || k == 3)
    ensures Placed(ReplaceAt(v, f, i, c, k), g) && Entry(ReplaceAt(v, f, i, c, k).now, g) == Entry(v.now, g)
  {
    ReplaceCoherent(v, f, i, c, 2);
    ReplaceKeeps(v, f, i, c, 3, g);
    SyncDirPlaces(ReplaceAt(v, f, i, c, 2), DirOf(f), g);
    if k > 3 { LaterKeeps(v, f, i, c, k, g); }
  }

  lemma {:induction false} LaterKeeps<C>(v: Volume<C>, f: File, i: nat, c: C, k: nat, g: File)
    requires 3 <= k <= 6 && g != Temp(f) && g != f
    ensures Keeps(ReplaceAt(v, f, i, c, 3), ReplaceAt(v, f, i, c, k), g)
    decreases k
  {
    if k > 3 {
      var u := ReplaceAt(v, f, i, c, k - 1);
      LaterKeeps(v, f, i, c, k - 1, g);
      CallKeeps(u, f, i, c, k, g);
      KeepsTrans(ReplaceAt(v, f, i, c, 3), u, ReplaceCall(u, f, i, c, k), g);
    }
  }

  /** Power loss at any point of a replacement leaves the old or the new file, whole, and
      every other file as it would have been left before. */
  lemma ReplaceIsAtomic<C>(v: Volume<C>, f: File, was: Option<C>, i: nat, c: C, k: nat,
                           keep: seq<bool>, e: Entries, data: map<nat, C>)
    requires Coherent(v) && Sure(v, f, was, true) && i !in v.data && k <= 6 && !f.Temp?
    requires Image(ReplaceAt(v, f, i, c, k), keep, e, data)
    ensures k < 4 ==> Read(e, data, f) == was
    ensures k == 6 ==> Read(e, data, f) == Some(c)
    ensures Read(e, data, f) == was || Read(e, data, f) == Some(c)
    ensures forall g, there :: g != f && g != Temp(f) && Sure(v, g, there, true) ==> Read(e, data, g) == there
  {
    var w := ReplaceAt(v, f, i, c, k);
    forall g, there | g != Temp(f) && (g != f || k < 4) && Sure(v, g, there, true)
      ensures Read(e, data, g) == there
    {
      ReplaceKeeps(v, f, i, c, k, g);
      KeepsSure(v, w, g, there, true);
      SureShown(w, keep, e, data, g, there, true);
    }
    if k >= 4 {
      ImageMay(w, keep, e, data, f);
      ReplaceMay(v, f, i, c, k, Entry(e, f));
      ReplaceInode(v, f, i, c, k);
      OldInode(v, f, was, i, c, k);
    }
  }

  lemma OldInode<C>(v: Volume<C>, f: File, was: Option<C>, i: nat, c: C, k: nat)
    requires Coherent(v) && Sure(v, f, was, true) && i !in v.data && k <= 6 && !f.Temp?
    ensures Holds(ReplaceAt(v, f, i, c, k), Entry(v.now, f), was, true)
  {
    EntryAfter(v.dirs, v.pending, f);
    assert May(v, f, Entry(v.now, f));
    ReplaceKeeps(v, f, i, c, k, Temp(Temp(f)));
  }

  /** Of the directory of `f`, the change leads at most `f` anywhere, and that to `i`. */
  predicate OnlyTo(c: Change, f: File, i: nat) {
    forall g :: g in c && DirOf(g) == DirOf(f) && g != Temp(f) ==> g == f && c[f] == Some(i)
  }

  lemma OnlyToNone(c: Change, f: File, i: nat, g: File)
    requires OnlyTo(c, f, i) && DirOf(g) == DirOf(f) && g != f && g != Temp(f)
    ensures g !in c
  {
  }

  lemma SyncedOut<C>(v: Volume<C>, f: File, i: nat)
    ensures forall x :: x in SyncDir(v, DirOf(f)).pending ==> OnlyTo(x, f, i)
  {
    ForcedAmong(v.pending, DirOf(f), {});
    forall x | x in SyncDir(v, DirOf(f)).pending ensures OnlyTo(x, f, i) {
      assert !Touches(x, DirOf(f));
    }
  }

  lemma CallPending<C>(u: Volume<C>, f: File, i: nat, c: C, k: nat)
    requires 3 <= k <= 6 && !f.Temp?
    requires k > 3 ==> forall x :: x in u.pending ==> OnlyTo(x, f, i)
    requires k == 4 ==> Entry(u.now, Temp(f)) == Some(i)
    ensures forall x :: x in ReplaceCall(u, f, i, c, k).pending ==> OnlyTo(x, f, i)
  {
    if k == 4 {
      var rename: Change := map[Temp(f) := None, f := Entry(u.now, Temp(f))];
      assert OnlyTo(rename, f, i);
      assert Rename(u, Temp(f), f).pending == u.pending + [rename];
    } else {
      SyncedOut(u, f, i);
    }
  }

  /** Once it is visible, all that is pending for the name leads to the new file, and nothing
      is pending for the other names of the directory. */
  lemma {:induction false} ReplacePending<C>(v: Volume<C>, f: File, i: nat, c: C, k: nat)
    requires i !in v.data && 3 <= k <= 6 && !f.Temp?
    ensures forall x :: x in ReplaceAt(v, f, i, c, k).pending ==> OnlyTo(x, f, i)
    decreases k
  {
    if k > 3 { ReplacePending(v, f, i, c, k - 1); }
    if k == 4 { ReplaceName(v, f, i, c, 3); }
    CallPending(ReplaceAt(v, f, i, c, k - 1), f, i, c, k);
  }

  /** A rename in the same directory that nobody forced out, like that of the upload to the
      claimed base, is not overtaken: where the new file survives, every other name of the
      directory leads where the running system had seen it lead; and once the file has been
      replaced, nothing of the directory is left to chance. */
  lemma RenameNotOvertaken<C>(v: Volume<C>, f: File, i: nat, c: C, k: nat,
                              keep: seq<bool>, e: Entries, data: map<nat, C>, g: File)
    requires Coherent(v) && i !in v.data && !May(v, f, Some(i)) && k <= 6 && !f.Temp?
    requires Image(ReplaceAt(v, f, i, c, k), keep, e, data)
    requires DirOf(g) == DirOf(f) && g != f && g != Temp(f)
    ensures Entry(e, f) == Some(i) || k == 6 ==> Entry(e, g) == Entry(v.now, g)
    ensures k == 6 ==> Placed(ReplaceAt(v, f, i, c, 6), g)
  {
    var w := ReplaceAt(v, f, i, c, k);
    ImageMay(w, keep, e, data, f);
    ImageMay(w, keep, e, data, g);
    if k >= 3 {
      ReplacePlaces(v, f, i, c, k, g);
    } else {
      ReplaceMay(v, f, i, c, k, Entry(e, f));
    }
  }

  // ---------- a durable removal ----------

  /** After `k` calls of `_unlink_durable`. */
  function RemoveAt<C>(v: Volume<C>, f: File, k: nat): Volume<C> {
    if k == 0 then v
    else if k == 1 then Remove(v, {f})
    else SyncDir(Remove(v, {f}), DirOf(f))
  }

  lemma RemoveKeeps<C>(v: Volume<C>, fs: set<File>, g: File)
    requires g !in fs
    ensures Keeps(v, Remove(v, fs), g)
  {
    ChangedKeeps(v, Unlinks(fs), g);
  }

  lemma RemoveAtKeeps<C>(v: Volume<C>, f: File, k: nat, g: File)
    requires g != f
    ensures Keeps(v, RemoveAt(v, f, k), g)
  {
    RemoveKeeps(v, {f}, g);
    SyncDirKeeps(Remove(v, {f}), DirOf(f), g);
    if k > 1 { KeepsTrans(v, Remove(v, {f}), RemoveAt(v, f, k), g); }
  }

  /** Power loss at any point of a removal leaves the file or not, and every other file as
      it would have been left before. */
  lemma RemoveIsAtomic<C>(v: Volume<C>, f: File, was: Option<C>, k: nat, keep: seq<bool>, e: Entries, data: map<nat, C>)
    requires Coherent(v) && Sure(v, f, was, true) && Image(RemoveAt(v, f, k), keep, e, data)
    ensures Read(e, data, f) == was || Read(e, data, f) == None
    ensures k >= 2 ==> Read(e, data, f) == None
    ensures forall g, there :: g != f && Sure(v, g, there, true) ==> Read(e, data, g) == there
  {
    var w := RemoveAt(v, f, k);
    forall g, there | g != f && Sure(v, g, there, true)
      ensures Read(e, data, g) == there
    {
      RemoveAtKeeps(v, f, k, g);
      KeepsSure(v, w, g, there, true);
      SureShown(w, keep, e, data, g, there, true);
    }
    ImageMay(w, keep, e, data, f);
    if k == 0 {
      SureShown(w, keep, e, data, f, was, true);
    } else {
      RemovedMay(v, f, was, k, e, data);
    }
  }

  lemma RemovedMay<C>(v: Volume<C>, f: File, was: Option<C>, k: nat, e: Entries, data: map<nat, C>)
    requires Coherent(v) && Sure(v, f, was, true) && k > 0 && May(RemoveAt(v, f, k), f, Entry(e, f))
    requires forall i :: i in v.data && i !in v.dirty ==> i in data && data[i] == v.data[i]
    ensures Read(e, data, f) == None || (k == 1 && Read(e, data, f) == was)
  {
    var u := Remove(v, {f});
    assert Entry(u.now, f) == None;
    if k == 1 {
      ChangedMay(v, Unlinks({f}), f, Entry(e, f));
      if May(v, f, Entry(e, f)) { assert Holds(v, Entry(e, f), was, true); }
    } else {
      ChangedCoherent(v, Unlinks({f}));
      SyncDirPlaces(u, DirOf(f), f);
    }
  }

  /** After `k` calls of bringing `f` to `c`: replaced, or unlinked when None. */
  function WriteAt<C>(v: Volume<C>, f: File, c: Option<C>, i: nat, k: nat): Volume<C> {
    if c.Some? then ReplaceAt(v, f, i, c.value, k) else RemoveAt(v, f, k)
  }

  lemma WriteIsAtomic<C>(v: Volume<C>, f: File, was: Option<C>, c: Option<C>, i: nat, k: nat,
                         keep: seq<bool>, e: Entries, data: map<nat, C>)
    requires Coherent(v) && Sure(v, f, was, true) && i !in v.data && k <= 6 && !f.Temp?
    requires Image(WriteAt(v, f, c, i, k), keep, e, data)
    ensures Read(e, data, f) == was || Read(e, data, f) == c
    ensures forall g, there :: g != f && g != Temp(f) && Sure(v, g, there, true) ==> Read(e, data, g) == there
  {
    if c.Some? {
      ReplaceIsAtomic(v, f, was, i, c.value, k, keep, e, data);
    } else {
      RemoveIsAtomic(v, f, was, k, keep, e, data);
    }
  }
}
