/** Why the phases of an application never meet a non-empty directory or a file in the place of a
    parent: the directory on disk mirrors the candidate manifest throughout. */
module Simulation {
  import opened Bytes
  import opened Manifests
  import opened Merge
  import opened Reconcile
  import opened Disks

  predicate ModeAgrees(mode: u16, perms: Option<u16>) { perms.Some? ==> mode == perms.value }

  /** The node on disk is what the record describes; `modeFree` leaves a directory mode open. */
  predicate Renders(node: Node, r: Record, modeFree: bool) {
    match r
    case File(e) =>
      node.FileNode? && node.size == e.size && node.sha == e.sha && ModeAgrees(node.mode, e.perms)
    case Directory(e) => node.DirNode? && (modeFree || ModeAgrees(node.mode, e.perms))
    case Symlink(e) => node == LinkNode(e.target)
    case Tombstone(_) => false
  }

  /** The tree holds exactly the live records, except that the directory modes in `free` are
      still to be set. */
  ghost predicate Mirror(t: Tree, v: Records, free: set<Path>) {
    && (forall p :: p in t <==> p in v && v[p].Live())
    && (forall p :: p in t ==> Renders(t[p], v[p], p in free))
  }

  ghost predicate LiveParentsAreDirs(v: Records, p: Path) {
    forall a :: Below(a, p) && a in v && v[a].Live() ==> v[a].Directory?
  }

  ghost predicate HasParents(v: Records, p: Path) {
    forall a :: Below(a, p) ==> a in v && v[a].Directory?
  }

  ghost predicate NothingLiveBelow(v: Records, p: Path) {
    forall q :: q in v && Below(p, q) ==> !v[q].Live()
  }

  // ----- One operation on a mirrored directory ----------------------------------------

  lemma MirrorParents(t: Tree, v: Records, free: set<Path>, p: Path)
    requires Mirror(t, v, free)
    ensures ParentsAreDirs(t, p) <==> LiveParentsAreDirs(v, p)
    ensures HasParents(v, p) ==> ParentsAreDirs(t, p)
    ensures HasParents(v, p) ==> forall mode :: WithParents(t, p, mode) == t
  {
  }

  lemma MirrorBelow(t: Tree, v: Records, free: set<Path>, p: Path)
    requires Mirror(t, v, free) && NothingLiveBelow(v, p)
    ensures !HasBelow(t, p)
  {
  }

  lemma RemoveMirrors(t: Tree, v: Records, free: set<Path>, p: Path, e: TombEntry)
    requires Mirror(t, v, free) && Removed(t, p).Some?
    ensures Mirror(Removed(t, p).value, v[p := Tombstone(e)], free)
  {
  }

  lemma EnsureMirrors(t: Tree, v: Records, free: set<Path>, p: Path, e: DirEntry, mode: u16)
    requires Mirror(t, v, free) && HasParents(v, p)
    ensures DirEnsured(t, p, mode).Some?
    ensures Mirror(DirEnsured(t, p, mode).value, v[p := Directory(e)], free + {p})
  {
    MirrorParents(t, v, free, p);
  }

  lemma InstallMirrors(t: Tree, v: Records, free: set<Path>, p: Path, node: Node, r: Record, mode: u16)
    requires Mirror(t, v, free) && HasParents(v, p) && NothingLiveBelow(v, p)
    requires r.Live() && Renders(node, r, false)
    ensures Installed(t, p, node, mode).Some?
    ensures Mirror(Installed(t, p, node, mode).value, v[p := r], free)
  {
    MirrorParents(t, v, free, p);
    MirrorBelow(t, v, free, p);
  }

  /** A file whose content is already there only changes its mode. */
  lemma ChmodMirrors(t: Tree, v: Records, free: set<Path>, p: Path, e: FileEntry)
    requires Mirror(t, v, free) && HasParents(v, p)
    requires p in v && SameContent(v[p], File(e))
    ensures FileMatches(t, p, e.size, e.sha) == Some(true)
    ensures ModeSet(t, p, e.perms, false).Some?
    ensures Mirror(ModeSet(t, p, e.perms, false).value, v[p := File(e)], free)
  {
  }

  lemma DirModeMirrors(t: Tree, v: Records, free: set<Path>, p: Path)
    requires Mirror(t, v, free) && HasParents(v, p)
    requires p in v && v[p].Directory?
    ensures ModeSet(t, p, v[p].dir.perms, true).Some?
    ensures Mirror(ModeSet(t, p, v[p].dir.perms, true).value, v, free - {p})
  {
  }

  // ----- The order of the phases -------------------------------------------------------

  function WinningTombs(l: Records, r: Records): set<Path> { set p | p in Winners(l, r) && r[p].Tombstone? }
  function WinningDirs(l: Records, r: Records): set<Path> { set p | p in Winners(l, r) && r[p].Directory? }
  function WinningLinks(l: Records, r: Records): set<Path> { set p | p in Winners(l, r) && r[p].Symlink? }
  function WinningFiles(l: Records, r: Records): set<Path> { set p | p in Winners(l, r) && r[p].File? }

  /** Both sides come from scans and the merge has a sound hierarchy. */
  ghost predicate Mergeable(l: Records, r: Records) {
    ParentClosed(l) && ParentClosed(r) && HierarchyOk(Merged(l, r))
  }

  /** No local file or symlink sits above `p`. */
  ghost predicate NotBlocked(l: Records, p: Path) {
    forall a :: Below(a, p) && a in l ==> !l[a].File? && !l[a].Symlink?
  }

  /** No winning tombstone lies strictly below a local file or symlink. */
  ghost predicate Unblocked(l: Records, r: Records) {
    forall p :: p in WinningTombs(l, r) ==> NotBlocked(l, p)
  }

  lemma MergedOnWinner(l: Records, r: Records, p: Path)
    ensures p in Winners(l, r) ==> p in Merged(l, r) && Merged(l, r)[p] == r[p]
    ensures p !in Winners(l, r) && p in l ==> p in Merged(l, r) && Merged(l, r)[p] == l[p]
    ensures p in r && p !in l ==> p in Winners(l, r)
  {
  }

  /** Deletions run deepest first, so a directory to be deleted is empty by then; a deletion fails
      exactly when a local file or symlink sits above it. */
  lemma DeletionReady(t: Tree, l: Records, r: Records, d: set<Path>, p: Path)
    requires Mergeable(l, r)
    requires d <= WinningTombs(l, r) && p in WinningTombs(l, r)
    requires forall q :: q in WinningTombs(l, r) && Depth(q) > Depth(p) ==> q in d
    requires forall q :: q in d ==> Depth(q) >= Depth(p)
    requires Mirror(t, Overlay(l, r, d), {})
    ensures Removed(t, p).Some? <==> NotBlocked(l, p)
  {
    var v := Overlay(l, r, d);
    MirrorParents(t, v, {}, p);
    if NotBlocked(l, p) {
      assert LiveParentsAreDirs(v, p) by { DeletionParents(l, r, d, p); }
      DeletionEmpties(l, r, d, p);
      MirrorBelow(t, v, {}, p);
    } else {
      var a :| Below(a, p) && a in l && (l[a].File? || l[a].Symlink?);
      BelowIsDeeper(a, p);
      assert Get(v, a) == Some(l[a]);
      assert !LiveParentsAreDirs(v, p);
    }
  }

  lemma DeletionParents(l: Records, r: Records, d: set<Path>, p: Path)
    requires d <= WinningTombs(l, r) && NotBlocked(l, p)
    ensures LiveParentsAreDirs(Overlay(l, r, d), p)
  {
  }

  lemma DeletionEmpties(l: Records, r: Records, d: set<Path>, p: Path)
    requires Mergeable(l, r)
    requires d <= WinningTombs(l, r) && p in WinningTombs(l, r)
    requires forall q :: q in WinningTombs(l, r) && Depth(q) > Depth(p) ==> q in d
    ensures NothingLiveBelow(Overlay(l, r, d), p)
  {
    var v := Overlay(l, r, d);
    forall q | q in v && Below(p, q) ensures !v[q].Live() {
      assert Get(v, q) == Some(v[q]);
      if q !in d {
        MergedOnWinner(l, r, p);
        MergedOnWinner(l, r, q);
        BelowIsDeeper(p, q);
      }
    }
  }

  lemma ParentInMerge(l: Records, r: Records, a: Path, p: Path)
    requires Mergeable(l, r) && p in Winners(l, r) && r[p].Live() && Below(a, p)
    ensures a in r && r[a].Directory?
    ensures a !in Winners(l, r) ==> a in l && l[a].Directory?
  {
  }

  /** Directories are created in path order, so a parent is a directory before its children need it. */
  lemma CreationReady(l: Records, r: Records, d: set<Path>, p: Path)
    requires Mergeable(l, r)
    requires d <= Winners(l, r) && p in Winners(l, r) && r[p].Live()
    requires forall a :: a in WinningDirs(l, r) && Less(a, p) ==> a in d
    ensures HasParents(Overlay(l, r, d), p)
  {
    var v := Overlay(l, r, d);
    forall a | Below(a, p) ensures a in v && v[a].Directory? {
      ParentInMerge(l, r, a, p);
      BelowIsDeeper(a, p);
      assert Get(v, a).Some?;
    }
  }

  /** Once deletions are done, nothing live is left below a path that becomes a file or symlink. */
  lemma ReplacementReady(l: Records, r: Records, d: set<Path>, p: Path)
    requires Mergeable(l, r)
    requires WinningTombs(l, r) <= d <= Winners(l, r)
    requires p in Winners(l, r) && (r[p].File? || r[p].Symlink?)
    ensures NothingLiveBelow(Overlay(l, r, d), p)
  {
  }
}
