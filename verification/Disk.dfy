/** The shared directory on disk and the operations of the program on it. A file's content is
    identified by its size and SHA-256. */
module Disks {
  import opened Bytes
  import opened Manifests

  datatype Node =
    | FileNode(size: u64, sha: Text, mode: u16)
    | DirNode(mode: u16)
    | LinkNode(target: Text)

  type Tree = map<Path, Node>

  function Ancestors(p: Path): (r: set<Path>)
    ensures forall a :: a in r <==> Below(a, p)
  {
    var r := set s | 0 <= s < |p| && p[s] == SLASH :: p[..s];
    assert forall a :: Below(a, p) ==> a == p[..|a|];
    r
  }

  /** The invariant of a file system: everything above a node is a directory. */
  ghost predicate WellFormed(t: Tree) {
    forall a, p :: p in t && Below(a, p) ==> a in t && t[a].DirNode?
  }

  predicate ParentsAreDirs(t: Tree, p: Path) {
    forall a :: a in Ancestors(p) && a in t ==> t[a].DirNode?
  }

  predicate HasBelow(t: Tree, p: Path) {
    exists q :: q in t && Below(p, q)
  }

  /** `t` with the missing ancestors of `p` that are shorter than `n` created. */
  function WithParentsUpTo(t: Tree, p: Path, n: nat, mode: u16): (u: Tree)
    ensures forall q :: q in u <==> q in t || (Below(q, p) && |q| < n)
    ensures forall q :: q in u ==> u[q] == if q in t then t[q] else DirNode(mode)
  {
    t + map a | a in Ancestors(p) && |a| < n && a !in t :: DirNode(mode)
  }

  function WithParents(t: Tree, p: Path, mode: u16): Tree { WithParentsUpTo(t, p, |p|, mode) }

  // ----- Pure meaning of the operations; None is an error -----------------------------

  /** `remove_local_path`: unlink a file or link, or remove an empty directory. */
  function Removed(t: Tree, p: Path): Option<Tree> {
    if !ParentsAreDirs(t, p) then None
    else if p in t && t[p].DirNode? && HasBelow(t, p) then None
    else Some(t - {p})
  }

  /** `ensure_local_directory`: a file or link in the way is replaced. */
  function DirEnsured(t: Tree, p: Path, mode: u16): Option<Tree> {
    if !ParentsAreDirs(t, p) then None
    else
      var u := WithParents(t, p, mode);
      if p in u && u[p].DirNode? then Some(u) else Some(u[p := DirNode(mode)])
  }

  /** `write_local_staged_file` and `write_local_symlink`: an empty directory in the way is replaced. */
  function Installed(t: Tree, p: Path, node: Node, dirMode: u16): Option<Tree> {
    if !ParentsAreDirs(t, p) then None
    else
      var u := WithParents(t, p, dirMode);
      if p in u && u[p].DirNode? && HasBelow(u, p) then None else Some(u[p := node])
  }

  /** `set_local_file_permissions` (`dir` false) and `set_local_directory_permissions` (`dir` true). */
  function ModeSet(t: Tree, p: Path, perms: Option<u16>, dir: bool): Option<Tree> {
    if perms.None? then Some(t)
    else if !ParentsAreDirs(t, p) || p !in t then None
    else
      match t[p]
      case FileNode(size, sha, _) => if dir then None else Some(t[p := FileNode(size, sha, perms.value)])
      case DirNode(_) => if dir then Some(t[p := DirNode(perms.value)]) else None
      case LinkNode(_) => None
  }

  /** `local_file_matches_entry`: an error if the path leads through or to a link. */
  function FileMatches(t: Tree, p: Path, size: u64, sha: Text): Option<bool> {
    if !ParentsAreDirs(t, p) then None
    else if p !in t then Some(false)
    else
      match t[p]
      case FileNode(s, h, _) => Some(s == size && h == sha)
      case DirNode(_) => Some(false)
      case LinkNode(_) => None
  }

  // ----- Every operation keeps the file system well formed ----------------------------

  lemma WithParentsWellFormed(t: Tree, p: Path, n: nat, mode: u16)
    requires WellFormed(t)
    requires DirsUpTo(t, p, n)
    ensures WellFormed(WithParentsUpTo(t, p, n, mode))
  {
  }

  lemma RemovedWellFormed(t: Tree, p: Path)
    requires WellFormed(t) && Removed(t, p).Some?
    ensures WellFormed(Removed(t, p).value)
  {
  }

  lemma DirEnsuredWellFormed(t: Tree, p: Path, mode: u16)
    requires WellFormed(t) && DirEnsured(t, p, mode).Some?
    ensures WellFormed(DirEnsured(t, p, mode).value)
  {
  }

  lemma InstalledWellFormed(t: Tree, p: Path, node: Node, mode: u16)
    requires WellFormed(t) && Installed(t, p, node, mode).Some?
    ensures WellFormed(Installed(t, p, node, mode).value)
  {
  }

  /** No ancestor of `p` shorter than `n` is occupied by a file or link. */
  ghost predicate DirsUpTo(t: Tree, p: Path, n: nat) {
    forall a :: Below(a, p) && |a| < n && a in t ==> t[a].DirNode?
  }

  lemma NoSlashStep(t: Tree, p: Path, s: nat, mode: u16)
    requires s < |p| && p[s] != SLASH
    ensures WithParentsUpTo(t, p, s + 1, mode) == WithParentsUpTo(t, p, s, mode)
    ensures DirsUpTo(t, p, s) ==> DirsUpTo(t, p, s + 1)
  {
    assert forall b :: Below(b, p) && |b| < s + 1 ==> |b| < s;
  }

  lemma SlashStep(t: Tree, p: Path, s: nat, a: Path, mode: u16)
    requires s < |p| && p[s] == SLASH && a == p[..s]
    ensures Below(a, p)
    ensures a in t ==> WithParentsUpTo(t, p, s + 1, mode) == WithParentsUpTo(t, p, s, mode)
    ensures a !in t ==> WithParentsUpTo(t, p, s + 1, mode) == WithParentsUpTo(t, p, s, mode)[a := DirNode(mode)]
    ensures DirsUpTo(t, p, s) && (a in t ==> t[a].DirNode?) ==> DirsUpTo(t, p, s + 1)
  {
    ShorterAncestors(p, s, a);
    var u, v := WithParentsUpTo(t, p, s, mode), WithParentsUpTo(t, p, s + 1, mode);
    forall q ensures q in v <==> q in u || q == a { }
  }

  lemma ShorterAncestors(p: Path, s: nat, a: Path)
    requires s < |p| && p[s] == SLASH && a == p[..s]
    ensures forall b :: Below(b, p) && |b| < s + 1 <==> (Below(b, p) && |b| < s) || b == a
  {
  }

  // ----- The mutable directory --------------------------------------------------------

  class Disk {
    var tree: Tree
    const newDirMode: u16
    const stagedMode: u16

    constructor (t: Tree, newDirMode: u16, stagedMode: u16)
      ensures tree == t && this.newDirMode == newDirMode && this.stagedMode == stagedMode
    {
      tree, this.newDirMode, this.stagedMode := t, newDirMode, stagedMode;
    }

    /** The parent walk of `with_writable_parents` and `safe_local_path`, from the root down. */
    method PrepareParents(p: Path, create: bool) returns (ok: bool)
      modifies this
      ensures ok <==> ParentsAreDirs(old(tree), p)
      ensures !create ==> tree == old(tree)
      ensures ok && create ==> tree == WithParents(old(tree), p, newDirMode)
      ensures WellFormed(old(tree)) ==> WellFormed(tree) && (!ok ==> tree == old(tree))
    {
      ghost var t := tree;
      for s := 0 to |p|
        invariant DirsUpTo(t, p, s)
        invariant tree == if create then WithParentsUpTo(t, p, s, newDirMode) else t
      {
        if p[s] == SLASH {
          var a := p[..s];
          SlashStep(t, p, s, a, newDirMode);
          if a in tree && !tree[a].DirNode? {
            FailureLeavesTree(t, p, a, newDirMode);
            return false;
          }
          if a !in tree && create {
            tree := tree[a := DirNode(newDirMode)];
          }
        } else {
          NoSlashStep(t, p, s, newDirMode);
        }
      }
      if create && WellFormed(t) { WithParentsWellFormed(t, p, |p|, newDirMode); }
      return true;
    }

    /** `remove_local_path`. */
    method RemoveLocalPath(p: Path) returns (ok: bool)
      modifies this
      ensures ok <==> Removed(old(tree), p).Some?
      ensures tree == if ok then Removed(old(tree), p).value else old(tree)
      ensures WellFormed(old(tree)) ==> WellFormed(tree)
    {
      ghost var t := tree;
      ok := PrepareParents(p, false);
      if !ok { return; }
      if p in tree {
        if tree[p].DirNode? && HasBelow(tree, p) { return false; }
        tree := tree - {p};
      }
      assert t - {p} == tree;
      if WellFormed(t) { RemovedWellFormed(t, p); }
    }

    /** `ensure_local_directory`. */
    method EnsureLocalDirectory(p: Path) returns (ok: bool)
      modifies this
      ensures ok <==> DirEnsured(old(tree), p, newDirMode).Some?
      ensures ok ==> tree == DirEnsured(old(tree), p, newDirMode).value
      ensures WellFormed(old(tree)) ==> WellFormed(tree) && (!ok ==> tree == old(tree))
    {
      ghost var t := tree;
      ok := PrepareParents(p, true);
      if !ok { return; }
      if p !in tree || !tree[p].DirNode? {
        tree := tree[p := DirNode(newDirMode)];
      }
      if WellFormed(t) { DirEnsuredWellFormed(t, p, newDirMode); }
    }

    /** The common part of `write_local_staged_file` and `write_local_symlink`. */
    method Install(p: Path, node: Node) returns (ok: bool)
      modifies this
      ensures ok <==> Installed(old(tree), p, node, newDirMode).Some?
      ensures ok ==> tree == Installed(old(tree), p, node, newDirMode).value
      ensures WellFormed(old(tree)) ==> WellFormed(tree)
    {
      ghost var t := tree;
      ok := PrepareParents(p, true);
      if !ok { return; }
      if p in tree && tree[p].DirNode? && HasBelow(tree, p) { return false; }
      tree := tree[p := node];
      if WellFormed(t) { InstalledWellFormed(t, p, node, newDirMode); }
    }

    /** `set_local_file_permissions` and `set_local_directory_permissions`. */
    method SetMode(p: Path, perms: Option<u16>, dir: bool) returns (ok: bool)
      modifies this
      ensures ok <==> ModeSet(old(tree), p, perms, dir).Some?
      ensures tree == if ok then ModeSet(old(tree), p, perms, dir).value else old(tree)
      ensures WellFormed(old(tree)) ==> WellFormed(tree)
    {
      if perms.None? { return true; }
      ok := PrepareParents(p, false);
      if !ok || p !in tree { return false; }
      match tree[p]
      case FileNode(size, sha, _) =>
        if dir { return false; }
        tree := tree[p := FileNode(size, sha, perms.value)];
      case DirNode(_) =>
        if !dir { return false; }
        tree := tree[p := DirNode(perms.value)];
      case LinkNode(_) =>
        return false;
    }
  }

  /** In a well-formed tree nothing is missing above an existing node, so a failed parent walk
      has created nothing. */
  lemma FailureLeavesTree(t: Tree, p: Path, a: Path, mode: u16)
    requires Below(a, p) && a in t
    ensures WellFormed(t) ==> WithParentsUpTo(t, p, |a|, mode) == t
  {
    if WellFormed(t) {
      forall b | Below(b, p) && |b| < |a| ensures b in t { AncestorsNested(b, a, p); }
    }
  }
}
