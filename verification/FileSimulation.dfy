/** The file phase: what it installs, what it leaves out, and the directory it leaves behind. */
module FileSimulation {
  import opened Bytes
  import opened Manifests
  import opened Reconcile
  import opened Disks
  import opened Simulation
  import opened Phases
  import opened PhaseSimulation

  /** Everything applied before the file phase. */
  function BeforeFiles(l: Records, r: Records): set<Path> { Early(l, r) + WinningLinks(l, r) }

  /** The paths applied once the files in `done` were visited and those in `left` were left out. */
  function Taken(l: Records, r: Records, done: set<Path>, left: seq<Path>): set<Path> {
    BeforeFiles(l, r) + (done - Elements(left))
  }

  lemma TakenStep(l: Records, r: Records, done: set<Path>, left: seq<Path>, p: Path)
    requires p !in Elements(left)
    ensures Taken(l, r, done + {p}, left) == Taken(l, r, done, left) + {p}
  {
  }

  lemma SkippedStep(l: Records, r: Records, done: set<Path>, left: seq<Path>, p: Path)
    requires p !in done && Elements(left) <= done
    ensures Taken(l, r, done + {p}, left + [p]) == Taken(l, r, done, left)
    ensures Elements(left + [p]) == Elements(left) + {p}
    ensures |Elements(left)| == |left| ==> |Elements(left + [p])| == |left| + 1
  {
  }

  // ----- What every successful run of the loop records ---------------------------------------

  /** The candidate holds the remote record exactly at the taken paths, and a path is left out only
      if its file was not delivered. */
  ghost predicate FilesReached(local: Manifest, remote: Manifest, delivered: set<Path>, s: FileState, done: set<Path>) {
    var l, r := local.View(), remote.View();
    && Reached(local, remote, s.candidate, Taken(l, r, done, s.left))
    && Elements(s.left) <= done - delivered && |Elements(s.left)| == |s.left|
    && (forall p :: p in done * Wanted(l, r) - delivered ==> p in Elements(s.left))
  }

  lemma ReachTaken(local: Manifest, remote: Manifest, delivered: set<Path>, s: FileState, done: set<Path>, p: Path,
                   t: Tree)
    requires FilesReached(local, remote, delivered, s, done) && p !in done && remote.RecordAt(p).Some?
    requires p in Wanted(local.View(), remote.View()) ==> p in delivered
    ensures FilesReached(local, remote, delivered,
      FileState(t, Put(s.candidate, p, remote.RecordAt(p).value), s.left), done + {p})
  {
    ReachStep(local, remote, s.candidate, Taken(local.View(), remote.View(), done, s.left),
              p, remote.RecordAt(p).value);
    TakenStep(local.View(), remote.View(), done, s.left, p);
  }

  lemma ReachSkipped(local: Manifest, remote: Manifest, delivered: set<Path>, s: FileState, done: set<Path>, p: Path)
    requires FilesReached(local, remote, delivered, s, done) && p !in done && p !in delivered
    ensures FilesReached(local, remote, delivered, s.(left := s.left + [p]), done + {p})
  {
    SkippedStep(local.View(), remote.View(), done, s.left, p);
  }

  lemma StillLocal(local: Manifest, remote: Manifest, delivered: set<Path>, s: FileState, done: set<Path>, p: Path)
    requires FilesReached(local, remote, delivered, s, done)
    requires p in WinningFiles(local.View(), remote.View()) && p !in done && p in local.files
    ensures p in s.candidate.files
  {
  }

  lemma FileReachStep(local: Manifest, remote: Manifest, delivered: set<Path>, s: FileState, done: set<Path>, p: Path,
                      dirMode: u16, stagedMode: u16)
    returns (after: Option<FileState>)
    requires local.Disjoint() && remote.Disjoint()
    requires FilesReached(local, remote, delivered, s, done)
    requires p in WinningFiles(local.View(), remote.View()) && p !in done
    ensures after == FileEffect(local, remote, delivered, s, p, dirMode, stagedMode)
    ensures after.Some? ==> FilesReached(local, remote, delivered, after.value, done + {p})
  {
    RecordOfView(remote, remote.View(), p);
    RecordOfView(local, local.View(), p);
    after := FileEffect(local, remote, delivered, s, p, dirMode, stagedMode);
    if after.Some? {
      if p in delivered {
        ReachTaken(local, remote, delivered, s, done, p, after.value.tree);
      } else if |after.value.left| == |s.left| {
        StillLocal(local, remote, delivered, s, done, p);
        PutMetadataIsPut(s.candidate, p, remote.files[p]);
        ReachTaken(local, remote, delivered, s, done, p, after.value.tree);
      } else {
        ReachSkipped(local, remote, delivered, s, done, p);
      }
    }
  }

  lemma FileReachNext(local: Manifest, remote: Manifest, delivered: set<Path>, s: FileState, i: nat,
                      dirMode: u16, stagedMode: u16)
    returns (after: Option<FileState>)
    requires local.Disjoint() && remote.Disjoint() && i < |WinningFiles(local.View(), remote.View())|
    requires FilesReached(local, remote, delivered, s, Visited(WinningFiles(local.View(), remote.View()), i))
    ensures after == FileEffect(local, remote, delivered, s, Ascending(WinningFiles(local.View(), remote.View()))[i],
                                dirMode, stagedMode)
    ensures after.Some? ==>
      FilesReached(local, remote, delivered, after.value, Visited(WinningFiles(local.View(), remote.View()), i + 1))
  {
    var keys := WinningFiles(local.View(), remote.View());
    VisitStep(keys, i);
    after := FileReachStep(local, remote, delivered, s, Visited(keys, i), Ascending(keys)[i], dirMode, stagedMode);
  }

  lemma {:induction false} FilePrefixReached(local: Manifest, remote: Manifest, delivered: set<Path>, s: FileState,
                                             i: nat, dirMode: u16, stagedMode: u16)
    returns (after: Option<FileState>)
    requires local.Disjoint() && remote.Disjoint()
    requires FilesReached(local, remote, delivered, s, {})
    requires i <= |WinningFiles(local.View(), remote.View())|
    ensures after == FileEffects(local, remote, delivered, s,
                                 Ascending(WinningFiles(local.View(), remote.View()))[..i], dirMode, stagedMode)
    ensures after.Some? ==>
      FilesReached(local, remote, delivered, after.value, Visited(WinningFiles(local.View(), remote.View()), i))
  {
    var keys := WinningFiles(local.View(), remote.View());
    var order := Ascending(keys);
    if i == 0 {
      VisitedAll(keys);
      after := Some(s);
    } else {
      var before := FilePrefixReached(local, remote, delivered, s, i - 1, dirMode, stagedMode);
      FileEffectsStep(local, remote, delivered, s, order, i - 1, dirMode, stagedMode);
      after := None;
      if before.Some? {
        after := FileReachNext(local, remote, delivered, before.value, i - 1, dirMode, stagedMode);
      }
    }
  }

  // ----- What the loop does to a mirrored directory ------------------------------------------

  /** Exactly the wanted files that were not delivered are left out, and the directory mirrors
      the candidate. */
  ghost predicate FilesMirrored(l: Records, r: Records, delivered: set<Path>, s: FileState, done: set<Path>) {
    && Elements(s.left) == done * (Wanted(l, r) - delivered)
    && Mirror(s.tree, Overlay(l, r, Taken(l, r, done, s.left)), WinningDirs(l, r))
  }

  lemma TakenBounds(l: Records, r: Records, done: set<Path>, left: seq<Path>)
    requires done <= WinningFiles(l, r)
    ensures Early(l, r) <= Taken(l, r, done, left) <= Winners(l, r)
  {
  }

  lemma MirrorTaken(l: Records, r: Records, delivered: set<Path>, s: FileState, done: set<Path>, p: Path,
                    t: Tree, c: Manifest)
    requires FilesMirrored(l, r, delivered, s, done) && p !in done && (p in Wanted(l, r) ==> p in delivered)
    requires Mirror(t, Overlay(l, r, Taken(l, r, done, s.left) + {p}), WinningDirs(l, r))
    ensures FilesMirrored(l, r, delivered, FileState(t, c, s.left), done + {p})
  {
    TakenStep(l, r, done, s.left, p);
  }

  lemma MirrorSkipped(l: Records, r: Records, delivered: set<Path>, s: FileState, done: set<Path>, p: Path)
    requires FilesMirrored(l, r, delivered, s, done) && p !in done && p in Wanted(l, r) && p !in delivered
    ensures FilesMirrored(l, r, delivered, s.(left := s.left + [p]), done + {p})
  {
    SkippedStep(l, r, done, s.left, p);
    assert (done + {p}) * (Wanted(l, r) - delivered) == done * (Wanted(l, r) - delivered) + {p};
  }

  lemma FileMirrorStep(local: Manifest, remote: Manifest, l: Records, r: Records, delivered: set<Path>, s: FileState,
                       done: set<Path>, p: Path, dirMode: u16, stagedMode: u16)
    returns (after: Option<FileState>)
    requires Views(local, l) && Views(remote, r) && Mergeable(l, r)
    requires FilesMirrored(l, r, delivered, s, done)
    requires p in WinningFiles(l, r) && p !in done && done <= WinningFiles(l, r)
    ensures after == FileEffect(local, remote, delivered, s, p, dirMode, stagedMode)
    ensures after.Some? && FilesMirrored(l, r, delivered, after.value, done + {p})
  {
    RecordOfView(remote, r, p);
    RecordOfView(local, l, p);
    var d := Taken(l, r, done, s.left);
    TakenBounds(l, r, done, s.left);
    var e := remote.files[p];
    after := FileEffect(local, remote, delivered, s, p, dirMode, stagedMode);
    if p in delivered {
      InstallAt(s.tree, l, r, d, p, FileNode(e.size, e.sha, FileMode(e, stagedMode)), dirMode);
      MirrorTaken(l, r, delivered, s, done, p, after.value.tree, after.value.candidate);
    } else if p in l && SameContent(l[p], r[p]) {
      UnchangedContent(s.tree, l, r, d, p, e);
      MirrorTaken(l, r, delivered, s, done, p, after.value.tree, after.value.candidate);
    } else {
      MirrorSkipped(l, r, delivered, s, done, p);
    }
  }

  lemma UnchangedContent(t: Tree, l: Records, r: Records, d: set<Path>, p: Path, e: FileEntry)
    requires Mergeable(l, r) && Early(l, r) <= d <= Winners(l, r)
    requires p in WinningFiles(l, r) && p !in d && r[p] == File(e) && p in l && SameContent(l[p], r[p])
    requires Mirror(t, Overlay(l, r, d), WinningDirs(l, r))
    ensures FileMatches(t, p, e.size, e.sha) == Some(true)
    ensures ModeSet(t, p, e.perms, false).Some?
    ensures Mirror(ModeSet(t, p, e.perms, false).value, Overlay(l, r, d + {p}), WinningDirs(l, r))
  {
    var v := Overlay(l, r, d);
    CreationReady(l, r, d, p);
    assert Get(v, p) == Some(l[p]);
    ChmodMirrors(t, v, WinningDirs(l, r), p, e);
    OverlayStep(l, r, d, p);
  }

  lemma FileMirrorNext(local: Manifest, remote: Manifest, l: Records, r: Records, delivered: set<Path>, s: FileState,
                       i: nat, dirMode: u16, stagedMode: u16)
    returns (after: Option<FileState>)
    requires Views(local, l) && Views(remote, r) && Mergeable(l, r) && i < |WinningFiles(l, r)|
    requires FilesMirrored(l, r, delivered, s, Visited(WinningFiles(l, r), i))
    ensures after == FileEffect(local, remote, delivered, s, Ascending(WinningFiles(l, r))[i], dirMode, stagedMode)
    ensures after.Some? && FilesMirrored(l, r, delivered, after.value, Visited(WinningFiles(l, r), i + 1))
  {
    var keys := WinningFiles(l, r);
    VisitStep(keys, i);
    after := FileMirrorStep(local, remote, l, r, delivered, s, Visited(keys, i), Ascending(keys)[i],
                            dirMode, stagedMode);
  }

  lemma {:induction false} FilePrefixMirrored(local: Manifest, remote: Manifest, l: Records, r: Records,
                                              delivered: set<Path>, s: FileState, i: nat, dirMode: u16, stagedMode: u16)
    returns (after: Option<FileState>)
    requires Views(local, l) && Views(remote, r) && Mergeable(l, r)
    requires FilesMirrored(l, r, delivered, s, {})
    requires i <= |WinningFiles(l, r)|
    ensures after == FileEffects(local, remote, delivered, s, Ascending(WinningFiles(l, r))[..i], dirMode, stagedMode)
    ensures after.Some? && FilesMirrored(l, r, delivered, after.value, Visited(WinningFiles(l, r), i))
  {
    var keys := WinningFiles(l, r);
    var order := Ascending(keys);
    if i == 0 {
      VisitedAll(keys);
      after := Some(s);
    } else {
      var before := FilePrefixMirrored(local, remote, l, r, delivered, s, i - 1, dirMode, stagedMode);
      after := FileMirrorNext(local, remote, l, r, delivered, before.value, i - 1, dirMode, stagedMode);
      FileEffectsStep(local, remote, delivered, s, order, i - 1, dirMode, stagedMode);
    }
  }
}
