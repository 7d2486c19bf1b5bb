/** On a directory that mirrors the local manifest, every phase succeeds (deletions exactly when
    nothing blocks them) and leaves a directory that mirrors the candidate. */
module PhaseSimulation {
  import opened Bytes
  import opened Manifests
  import opened Reconcile
  import opened Disks
  import opened Simulation
  import opened DeepOrder
  import opened Phases

  /** `r` is the view of the disjoint manifest `remote`. */
  ghost predicate Views(remote: Manifest, r: Records) {
    remote.Disjoint() && r == remote.View()
  }

  lemma RecordOfView(remote: Manifest, r: Records, p: Path)
    requires Views(remote, r)
    ensures remote.RecordAt(p) == Get(r, p)
    ensures p in r && r[p].Tombstone? <==> p in remote.tombs
    ensures p in r && r[p].Directory? <==> p in remote.dirs
    ensures p in r && r[p].Symlink? <==> p in remote.links
    ensures p in r && r[p].File? <==> p in remote.files
    ensures p in remote.dirs ==> r[p] == Directory(remote.dirs[p])
    ensures p in remote.links ==> r[p] == Symlink(remote.links[p])
    ensures p in remote.files ==> r[p] == File(remote.files[p])
  {
  }

  // ----- Deletions ------------------------------------------------------------------------

  /** The winning tombstones, deepest first. */
  ghost predicate Deletes(l: Records, r: Records, order: seq<Path>) {
    Mergeable(l, r) && DeepSorted(order) && forall x :: x in order <==> x in WinningTombs(l, r)
  }

  /** The first `i` deletions succeed exactly when none of them is blocked, and the tree then mirrors them. */
  ghost predicate Deleted(remote: Manifest, t: Tree, l: Records, r: Records, order: seq<Path>, i: nat, dirMode: u16)
    requires i <= |order|
  {
    var after := Effects(Deleting, remote, t, order[..i], dirMode);
    && (after.Some? <==> forall k :: 0 <= k < i ==> NotBlocked(l, order[k]))
    && (after.Some? ==> Mirror(after.value, Overlay(l, r, First(order, i)), {}))
  }

  lemma DeletionStart(remote: Manifest, t: Tree, l: Records, r: Records, order: seq<Path>, dirMode: u16)
    requires Mirror(t, l, {})
    ensures Deleted(remote, t, l, r, order, 0, dirMode)
  {
    assert First(order, 0) == {};
    assert Overlay(l, r, {}) == l;
  }

  lemma DeletionNext(remote: Manifest, t: Tree, l: Records, r: Records, order: seq<Path>, i: nat, dirMode: u16)
    requires Deletes(l, r, order) && i < |order| && Deleted(remote, t, l, r, order, i, dirMode)
    ensures Deleted(remote, t, l, r, order, i + 1, dirMode)
  {
    EffectsStep(Deleting, remote, t, order, i, dirMode);
    var before := Effects(Deleting, remote, t, order[..i], dirMode);
    if before.Some? { DeletionAt(before.value, l, r, order, i); }
  }

  lemma {:induction false} DeletionPrefix(remote: Manifest, t: Tree, l: Records, r: Records,
                                          order: seq<Path>, i: nat, dirMode: u16)
    requires Deletes(l, r, order) && Mirror(t, l, {}) && i <= |order|
    ensures Deleted(remote, t, l, r, order, i, dirMode)
  {
    if i == 0 {
      DeletionStart(remote, t, l, r, order, dirMode);
    } else {
      DeletionPrefix(remote, t, l, r, order, i - 1, dirMode);
      DeletionNext(remote, t, l, r, order, i - 1, dirMode);
    }
  }

  lemma DeletionAt(t: Tree, l: Records, r: Records, order: seq<Path>, i: nat)
    requires Deletes(l, r, order) && i < |order| && Mirror(t, Overlay(l, r, First(order, i)), {})
    ensures Removed(t, order[i]).Some? <==> NotBlocked(l, order[i])
    ensures Removed(t, order[i]).Some? ==>
      Mirror(Removed(t, order[i]).value, Overlay(l, r, First(order, i + 1)), {})
  {
    var d, p := First(order, i), order[i];
    FirstStep(order, i);
    assert p in order;
    forall q | q in WinningTombs(l, r)
      ensures Depth(q) > Depth(p) ==> q in d
      ensures q in d ==> Depth(q) >= Depth(p)
    {
      FirstAreDeepest(order, i, q);
    }
    DeletionReady(t, l, r, d, p);
    if Removed(t, p).Some? {
      OverlayStep(l, r, d, p);
      RemoveMirrors(t, Overlay(l, r, d), {}, p, r[p].tomb);
    }
  }

  lemma NoneBlocked(l: Records, r: Records, order: seq<Path>)
    requires forall x :: x in order <==> x in WinningTombs(l, r)
    ensures (forall k :: 0 <= k < |order| ==> NotBlocked(l, order[k])) <==> Unblocked(l, r)
  {
    if forall k :: 0 <= k < |order| ==> NotBlocked(l, order[k]) {
      forall p | p in WinningTombs(l, r) ensures NotBlocked(l, p) { assert p in order; }
    }
    assert forall k :: 0 <= k < |order| ==> order[k] in order;
  }

  /** The deletion phase succeeds exactly when no winning tombstone is blocked. */
  lemma DeletionsSimulated(remote: Manifest, t: Tree, l: Records, r: Records, dirMode: u16)
    requires Mergeable(l, r) && Mirror(t, l, {})
    ensures var after := Effects(Deleting, remote, t, DeepestFirst(WinningTombs(l, r)), dirMode);
      && (after.Some? <==> Unblocked(l, r))
      && (after.Some? ==> Mirror(after.value, Overlay(l, r, WinningTombs(l, r)), {}))
  {
    var keys := WinningTombs(l, r);
    var order := DeepestFirst(keys);
    DeepestFirstOrder(keys);
    DeletionPrefix(remote, t, l, r, order, |order|, dirMode);
    assert order[..|order|] == order;
    NoneBlocked(l, r, order);
  }

  // ----- Directories ----------------------------------------------------------------------

  ghost predicate Created(remote: Manifest, t: Tree, l: Records, r: Records, i: nat, dirMode: u16)
    requires i <= |WinningDirs(l, r)|
  {
    var after := Effects(Creating, remote, t, Ascending(WinningDirs(l, r))[..i], dirMode);
    var done := Visited(WinningDirs(l, r), i);
    after.Some? && Mirror(after.value, Overlay(l, r, WinningTombs(l, r) + done), done)
  }

  lemma CreationNext(remote: Manifest, t: Tree, l: Records, r: Records, i: nat, dirMode: u16)
    requires Mergeable(l, r) && i < |WinningDirs(l, r)| && Created(remote, t, l, r, i, dirMode)
    ensures Created(remote, t, l, r, i + 1, dirMode)
  {
    var keys := WinningDirs(l, r);
    var order := Ascending(keys);
    EffectsStep(Creating, remote, t, order, i, dirMode);
    VisitStep(keys, i);
    var before := Effects(Creating, remote, t, order[..i], dirMode).value;
    CreationAt(before, l, r, Visited(keys, i), order[i], dirMode);
  }

  lemma CreationStart(remote: Manifest, t: Tree, l: Records, r: Records, dirMode: u16)
    requires Mirror(t, Overlay(l, r, WinningTombs(l, r)), {})
    ensures Created(remote, t, l, r, 0, dirMode)
  {
    VisitedAll(WinningDirs(l, r));
    assert WinningTombs(l, r) + {} == WinningTombs(l, r);
  }

  lemma {:induction false} CreationPrefix(remote: Manifest, t: Tree, l: Records, r: Records, i: nat, dirMode: u16)
    requires Mergeable(l, r) && i <= |WinningDirs(l, r)|
    requires Mirror(t, Overlay(l, r, WinningTombs(l, r)), {})
    ensures Created(remote, t, l, r, i, dirMode)
  {
    if i == 0 {
      CreationStart(remote, t, l, r, dirMode);
    } else {
      CreationPrefix(remote, t, l, r, i - 1, dirMode);
      CreationNext(remote, t, l, r, i - 1, dirMode);
    }
  }

  lemma CreationAt(t: Tree, l: Records, r: Records, done: set<Path>, p: Path, dirMode: u16)
    requires Mergeable(l, r) && done <= WinningDirs(l, r) && p in WinningDirs(l, r)
    requires forall a :: a in WinningDirs(l, r) && Less(a, p) ==> a in done
    requires Mirror(t, Overlay(l, r, WinningTombs(l, r) + done), done)
    ensures DirEnsured(t, p, dirMode).Some?
    ensures Mirror(DirEnsured(t, p, dirMode).value, Overlay(l, r, WinningTombs(l, r) + (done + {p})), done + {p})
  {
    var d := WinningTombs(l, r) + done;
    CreationReady(l, r, d, p);
    EnsureMirrors(t, Overlay(l, r, d), done, p, r[p].dir, dirMode);
    OverlayStep(l, r, d, p);
    assert d + {p} == WinningTombs(l, r) + (done + {p});
  }

  lemma CreationsSimulated(remote: Manifest, t: Tree, l: Records, r: Records, dirMode: u16)
    requires Mergeable(l, r)
    requires Mirror(t, Overlay(l, r, WinningTombs(l, r)), {})
    ensures var after := Effects(Creating, remote, t, Ascending(WinningDirs(l, r)), dirMode);
      && after.Some?
      && Mirror(after.value, Overlay(l, r, WinningTombs(l, r) + WinningDirs(l, r)), WinningDirs(l, r))
  {
    var keys := WinningDirs(l, r);
    CreationPrefix(remote, t, l, r, |keys|, dirMode);
    VisitedAll(keys);
    assert Ascending(keys)[..|keys|] == Ascending(keys);
  }

  // ----- Symlinks and files ---------------------------------------------------------------

  /** Tombstones and directories: what has been applied before the symlink phase. */
  function Early(l: Records, r: Records): set<Path> { WinningTombs(l, r) + WinningDirs(l, r) }

  lemma InstallAt(t: Tree, l: Records, r: Records, d: set<Path>, p: Path, node: Node, dirMode: u16)
    requires Mergeable(l, r) && Early(l, r) <= d <= Winners(l, r)
    requires p in Winners(l, r) && (r[p].File? || r[p].Symlink?) && Renders(node, r[p], false)
    requires Mirror(t, Overlay(l, r, d), WinningDirs(l, r))
    ensures Installed(t, p, node, dirMode).Some?
    ensures Mirror(Installed(t, p, node, dirMode).value, Overlay(l, r, d + {p}), WinningDirs(l, r))
  {
    CreationReady(l, r, d, p);
    ReplacementReady(l, r, d, p);
    InstallMirrors(t, Overlay(l, r, d), WinningDirs(l, r), p, node, r[p], dirMode);
    OverlayStep(l, r, d, p);
  }

  /** The phase succeeded, and the directory mirrors the local records with those in `d` taken over. */
  ghost function Mirrors(l: Records, r: Records, d: set<Path>): Option<Tree> -> bool {
    (t: Option<Tree>) => t.Some? && Mirror(t.value, Overlay(l, r, d), WinningDirs(l, r))
  }

  lemma MirrorsMeans(l: Records, r: Records, d: set<Path>, t: Option<Tree>)
    ensures Mirrors(l, r, d)(t) == (t.Some? && Mirror(t.value, Overlay(l, r, d), WinningDirs(l, r)))
  {
  }

  lemma LinkInstalled(remote: Manifest, t: Tree, l: Records, r: Records, d: set<Path>, p: Path, dirMode: u16)
    returns (after: Option<Tree>)
    requires Views(remote, r) && Mergeable(l, r) && Early(l, r) <= d <= Winners(l, r) && p in WinningLinks(l, r)
    requires Mirror(t, Overlay(l, r, d), WinningDirs(l, r))
    ensures after == Effect(Linking, remote, t, p, dirMode)
    ensures after.Some? && Mirror(after.value, Overlay(l, r, d + {p}), WinningDirs(l, r))
  {
    after := Effect(Linking, remote, t, p, dirMode);
    RecordOfView(remote, r, p);
    InstallAt(t, l, r, d, p, LinkNode(remote.links[p].target), dirMode);
  }

  function Linked(l: Records, r: Records, i: nat): set<Path>
    requires i <= |WinningLinks(l, r)|
  {
    Early(l, r) + Visited(WinningLinks(l, r), i)
  }

  lemma UnionStep(a: set<Path>, b: set<Path>, c: set<Path>, p: Path)
    requires c == b + {p}
    ensures a + c == a + b + {p}
  {
  }

  lemma LinkedStep(l: Records, r: Records, i: nat)
    requires i < |WinningLinks(l, r)|
    ensures Early(l, r) <= Linked(l, r, i) <= Winners(l, r)
    ensures Ascending(WinningLinks(l, r))[i] in WinningLinks(l, r)
    ensures Linked(l, r, i + 1) == Linked(l, r, i) + {Ascending(WinningLinks(l, r))[i]}
  {
    var early, keys := Early(l, r), WinningLinks(l, r);
    VisitStep(keys, i);
    assert early <= Winners(l, r) && keys <= Winners(l, r);
    UnionStep(early, Visited(keys, i), Visited(keys, i + 1), Ascending(keys)[i]);
  }

  lemma LinkedAll(l: Records, r: Records)
    ensures Linked(l, r, 0) == Early(l, r)
    ensures Linked(l, r, |WinningLinks(l, r)|) == Early(l, r) + WinningLinks(l, r)
  {
    VisitedAll(WinningLinks(l, r));
  }

  ghost function LinkedMirrors(l: Records, r: Records): (int, Option<Tree>) -> bool {
    (i: int, t: Option<Tree>) => 0 <= i <= |WinningLinks(l, r)| && Mirrors(l, r, Linked(l, r, i))(t)
  }

  lemma LinkNext(remote: Manifest, l: Records, r: Records, i: nat, before: Option<Tree>, dirMode: u16)
    returns (after: Option<Tree>)
    requires Views(remote, r) && Mergeable(l, r) && i < |WinningLinks(l, r)| && LinkedMirrors(l, r)(i, before)
    ensures before.Some? && LinkedMirrors(l, r)(i + 1, after)
    ensures after == Effect(Linking, remote, before.value, Ascending(WinningLinks(l, r))[i], dirMode)
  {
    LinkedStep(l, r, i);
    MirrorsMeans(l, r, Linked(l, r, i), before);
    after := LinkInstalled(remote, before.value, l, r, Linked(l, r, i), Ascending(WinningLinks(l, r))[i], dirMode);
    MirrorsMeans(l, r, Linked(l, r, i + 1), after);
  }

  lemma LinksMirror(remote: Manifest, t: Tree, l: Records, r: Records, dirMode: u16) returns (after: Option<Tree>)
    requires Views(remote, r) && Mergeable(l, r) && LinkedMirrors(l, r)(0, Some(t))
    ensures after == Effects(Linking, remote, t, Ascending(WinningLinks(l, r)), dirMode)
    ensures LinkedMirrors(l, r)(|WinningLinks(l, r)|, after)
  {
    var order, good := Ascending(WinningLinks(l, r)), LinkedMirrors(l, r);
    after := Effects(Linking, remote, t, order, dirMode);
    forall i, u | 0 <= i < |order| && good(i, u)
      ensures u.Some? && good(i + 1, Effect(Linking, remote, u.value, order[i], dirMode))
    {
      var _ := LinkNext(remote, l, r, i, u, dirMode);
    }
    EffectsKeep(Linking, remote, t, order, dirMode, good, |order|);
    assert order[..|order|] == order;
  }

  lemma LinksSimulated(remote: Manifest, t: Tree, l: Records, r: Records, dirMode: u16)
    requires Views(remote, r) && Mergeable(l, r)
    requires Mirror(t, Overlay(l, r, Early(l, r)), WinningDirs(l, r))
    ensures var after := Effects(Linking, remote, t, Ascending(WinningLinks(l, r)), dirMode);
      && after.Some?
      && Mirror(after.value, Overlay(l, r, Early(l, r) + WinningLinks(l, r)), WinningDirs(l, r))
  {
    LinkedAll(l, r);
    MirrorsMeans(l, r, Linked(l, r, 0), Some(t));
    var after := LinksMirror(remote, t, l, r, dirMode);
    MirrorsMeans(l, r, Linked(l, r, |WinningLinks(l, r)|), after);
  }

  // ----- Directory modes ------------------------------------------------------------------

  lemma {:induction false} ModePrefix(remote: Manifest, t: Tree, v: Records, free: set<Path>,
                                      order: seq<Path>, i: nat, dirMode: u16)
    requires Mirror(t, v, free) && ParentClosed(v) && i <= |order|
    requires forall k :: 0 <= k < |order| ==>
      order[k] in v && order[k] in remote.dirs && v[order[k]] == Directory(remote.dirs[order[k]])
    ensures var after := Effects(Moding, remote, t, order[..i], dirMode);
      after.Some? && Mirror(after.value, v, free - First(order, i))
  {
    if i == 0 {
      assert free - {} == free;
    } else {
      ModePrefix(remote, t, v, free, order, i - 1, dirMode);
      EffectsStep(Moding, remote, t, order, i - 1, dirMode);
      var before, p := Effects(Moding, remote, t, order[..i - 1], dirMode).value, order[i - 1];
      assert HasParents(v, p);
      DirModeMirrors(before, v, free - First(order, i - 1), p);
      FirstMinus(free, order, i - 1);
    }
  }

  lemma FirstMinus(free: set<Path>, order: seq<Path>, i: nat)
    requires i < |order|
    ensures free - First(order, i) - {order[i]} == free - First(order, i + 1)
  {
  }

  lemma ModesSimulated(remote: Manifest, t: Tree, v: Records, keys: set<Path>, dirMode: u16)
    requires Mirror(t, v, keys) && ParentClosed(v)
    requires forall p :: p in keys ==> p in v && p in remote.dirs && v[p] == Directory(remote.dirs[p])
    ensures var after := Effects(Moding, remote, t, DeepestFirst(keys), dirMode);
      after.Some? && Mirror(after.value, v, {})
  {
    var order := DeepestFirst(keys);
    DeepestFirstOrder(keys);
    assert forall k :: 0 <= k < |order| ==> order[k] in order;
    ModePrefix(remote, t, v, keys, order, |order|, dirMode);
    assert order[..|order|] == order;
    assert keys - keys == {};
  }
}
