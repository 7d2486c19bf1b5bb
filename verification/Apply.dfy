/** `apply_remote_transfer_impl`: the five phases in order, then validation, the clock and the
    stored manifest. */
module Apply {
  import opened Bytes
  import opened Manifests
  import opened Reconcile
  import opened Disks
  import opened Simulation
  import opened DeepOrder
  import opened Phases
  import opened PhaseSimulation
  import opened FileSimulation

  // ----- The five phases as one function ------------------------------------------------------

  /** The directory and candidate before the file phase. */
  function EarlyPhases(local: Manifest, remote: Manifest, t: Tree, tombs: seq<Path>, dirs: seq<Path>, links: seq<Path>,
                       dirMode: u16): Option<FileState>
  {
    var deleted := Effects(Deleting, remote, t, tombs, dirMode);
    if deleted.None? then None
    else
      var created := Effects(Creating, remote, deleted.value, dirs, dirMode);
      if created.None? then None
      else
        var linked := Effects(Linking, remote, created.value, links, dirMode);
        if linked.None? then None
        else Some(FileState(linked.value, EarlyCandidate(local, remote, tombs, dirs, links), []))
  }

  function EarlyCandidate(local: Manifest, remote: Manifest, tombs: seq<Path>, dirs: seq<Path>,
                          links: seq<Path>): Manifest {
    PutAll(PutAll(PutAll(local, remote, tombs), remote, dirs), remote, links)
  }

  /** The file phase followed by the directory modes. */
  function LatePhases(local: Manifest, remote: Manifest, delivered: set<Path>, s: FileState,
                      files: seq<Path>, modes: seq<Path>, dirMode: u16, stagedMode: u16): Option<FileState>
  {
    var filed := FileEffects(local, remote, delivered, s, files, dirMode, stagedMode);
    if filed.None? then None
    else
      var moded := Effects(Moding, remote, filed.value.tree, modes, dirMode);
      if moded.None? then None else Some(filed.value.(tree := moded.value))
  }

  /** The whole application: winning tombstones deepest first, then winning directories, symlinks
      and files in path order, then the directory modes deepest first. */
  function AllPhases(local: Manifest, remote: Manifest, delivered: set<Path>, t: Tree,
                     dirMode: u16, stagedMode: u16): Option<FileState>
  {
    var l, r := local.View(), remote.View();
    var early := EarlyPhases(local, remote, t, DeepestFirst(WinningTombs(l, r)), Ascending(WinningDirs(l, r)),
                             Ascending(WinningLinks(l, r)), dirMode);
    if early.None? then None
    else LatePhases(local, remote, delivered, early.value, Ascending(WinningFiles(l, r)),
                    DeepestFirst(WinningDirs(l, r)), dirMode, stagedMode)
  }

  // ----- The phases as the program runs them ---------------------------------------------------

  lemma OrdersSuit(local: Manifest, remote: Manifest)
    requires remote.Disjoint()
    ensures var l, r := local.View(), remote.View();
      && Suits(Deleting, remote, DeepestFirst(WinningTombs(l, r)))
      && Suits(Creating, remote, Ascending(WinningDirs(l, r)))
      && Suits(Linking, remote, Ascending(WinningLinks(l, r)))
      && Suits(Moding, remote, DeepestFirst(WinningDirs(l, r)))
  {
    var l, r := local.View(), remote.View();
    DeepSuits(Deleting, remote, r, WinningTombs(l, r));
    AscendingSuits(Creating, remote, r, WinningDirs(l, r));
    AscendingSuits(Linking, remote, r, WinningLinks(l, r));
    DeepSuits(Moding, remote, r, WinningDirs(l, r));
  }

  predicate Fits(phase: Phase, r: Record) {
    match phase
    case Deleting => r.Tombstone?
    case Creating => r.Directory?
    case Linking => r.Symlink?
    case Moding => r.Directory?
  }

  ghost predicate OfKind(phase: Phase, r: Records, keys: set<Path>) {
    forall p :: p in keys ==> p in r && Fits(phase, r[p])
  }

  lemma DeepSuits(phase: Phase, remote: Manifest, r: Records, keys: set<Path>)
    requires Views(remote, r) && OfKind(phase, r, keys)
    ensures Suits(phase, remote, DeepestFirst(keys))
  {
    var order := DeepestFirst(keys);
    DeepestFirstOrder(keys);
    forall i | 0 <= i < |order| ensures SuitsAt(phase, remote, order[i]) {
      assert order[i] in order;
      RecordOfView(remote, r, order[i]);
    }
  }

  lemma AscendingSuits(phase: Phase, remote: Manifest, r: Records, keys: set<Path>)
    requires Views(remote, r) && OfKind(phase, r, keys)
    ensures Suits(phase, remote, Ascending(keys))
  {
    var order := Ascending(keys);
    AscendingOrder(keys);
    forall i | 0 <= i < |order| ensures SuitsAt(phase, remote, order[i]) {
      RecordOfView(remote, r, order[i]);
    }
  }

  method RunEarlyPhases(disk: Disk, local: Manifest, remote: Manifest, tombs: seq<Path>, dirs: seq<Path>,
                        links: seq<Path>)
    returns (ok: bool, candidate: Manifest)
    requires Suits(Deleting, remote, tombs) && Suits(Creating, remote, dirs) && Suits(Linking, remote, links)
    modifies disk
    ensures ok <==> EarlyPhases(local, remote, old(disk.tree), tombs, dirs, links, disk.newDirMode).Some?
    ensures ok ==> EarlyPhases(local, remote, old(disk.tree), tombs, dirs, links, disk.newDirMode) ==
                   Some(FileState(disk.tree, candidate, []))
    ensures WellFormed(old(disk.tree)) ==> WellFormed(disk.tree)
  {
    ok, candidate := DeletionPhase(disk, remote, tombs, local);
    if !ok { return; }
    ok, candidate := DirectoryPhase(disk, remote, dirs, candidate);
    if !ok { return; }
    ok, candidate := SymlinkPhase(disk, remote, links, candidate);
  }

  method RunLatePhases(disk: Disk, local: Manifest, remote: Manifest, delivered: set<Path>, start: Manifest,
                       files: seq<Path>, modes: seq<Path>)
    returns (ok: bool, candidate: Manifest, pending: nat, applied: nat, ghost left: seq<Path>)
    requires FilesAt(remote, files) && Suits(Moding, remote, modes)
    modifies disk
    ensures ok <==> LatePhases(local, remote, delivered, FileState(old(disk.tree), start, []), files, modes,
                               disk.newDirMode, disk.stagedMode).Some?
    ensures ok ==> LatePhases(local, remote, delivered, FileState(old(disk.tree), start, []), files, modes,
                              disk.newDirMode, disk.stagedMode) == Some(FileState(disk.tree, candidate, left))
    ensures ok ==> pending == |left| && applied + pending == |files|
    ensures WellFormed(old(disk.tree)) ==> WellFormed(disk.tree)
  {
    ok, candidate, pending, applied, left := FilePhase(disk, local, remote, delivered, files, start);
    if !ok { return; }
    ok := DirectoryModePhase(disk, remote, modes);
  }

  /** All phases, with the counts the program reports. */
  method RunPhases(disk: Disk, local: Manifest, remote: Manifest, delivered: set<Path>)
    returns (ok: bool, candidate: Manifest, pending: nat, applied: nat, ghost left: seq<Path>)
    requires remote.Disjoint()
    modifies disk
    ensures ok <==> AllPhases(local, remote, delivered, old(disk.tree), disk.newDirMode, disk.stagedMode).Some?
    ensures ok ==> AllPhases(local, remote, delivered, old(disk.tree), disk.newDirMode, disk.stagedMode) ==
                   Some(FileState(disk.tree, candidate, left))
    ensures ok ==> pending == |left| && applied + pending == |Winners(local.View(), remote.View())|
    ensures WellFormed(old(disk.tree)) ==> WellFormed(disk.tree)
  {
    var l, r := local.View(), remote.View();
    var tombs, dirs := DeepestFirst(WinningTombs(l, r)), Ascending(WinningDirs(l, r));
    var links, files := Ascending(WinningLinks(l, r)), Ascending(WinningFiles(l, r));
    OrdersSuit(local, remote);
    FilesPresent(local, remote);
    WinnersCount(l, r);
    DeepestFirstOrder(WinningTombs(l, r));
    pending, applied, left := 0, 0, [];
    ok, candidate := RunEarlyPhases(disk, local, remote, tombs, dirs, links);
    if !ok { return; }
    ok, candidate, pending, applied, left :=
      RunLatePhases(disk, local, remote, delivered, candidate, files, DeepestFirst(WinningDirs(l, r)));
    applied := applied + |tombs| + |dirs| + |links|;
  }

  lemma FilesPresent(local: Manifest, remote: Manifest)
    requires remote.Disjoint()
    ensures FilesAt(remote, Ascending(WinningFiles(local.View(), remote.View())))
  {
    var keys := WinningFiles(local.View(), remote.View());
    AscendingOrder(keys);
    forall p | p in keys ensures p in remote.files { RecordOfView(remote, remote.View(), p); }
  }

  lemma WinnersCount(l: Records, r: Records)
    ensures |WinningTombs(l, r)| + |WinningDirs(l, r)| + |WinningLinks(l, r)| + |WinningFiles(l, r)| == |Winners(l, r)|
  {
    var a, b, c, d := WinningTombs(l, r), WinningDirs(l, r), WinningLinks(l, r), WinningFiles(l, r);
    assert Winners(l, r) == a + b + c + d;
    assert |a + b| == |a| + |b|;
    assert |a + b + c| == |a + b| + |c|;
    assert |a + b + c + d| == |a + b + c| + |d|;
  }

  // ----- What the phases achieve -----------------------------------------------------------------

  lemma ElementsOfOrders(keys: set<Path>)
    ensures Elements(Ascending(keys)) == keys && Elements(DeepestFirst(keys)) == keys
  {
    AscendingOrder(keys);
    DeepestFirstOrder(keys);
  }

  lemma EarlyReached(local: Manifest, remote: Manifest, tombs: set<Path>, dirs: set<Path>, links: set<Path>)
    requires local.Disjoint() && tombs + dirs + links <= remote.View().Keys
    ensures Reached(local, remote,
      EarlyCandidate(local, remote, DeepestFirst(tombs), Ascending(dirs), Ascending(links)),
                    tombs + dirs + links)
  {
    assert Reached(local, remote, local, {});
    PutKeys(local, remote, local, {}, tombs, DeepestFirst(tombs));
    assert {} + tombs == tombs;
    var first := PutAll(local, remote, DeepestFirst(tombs));
    PutKeys(local, remote, first, tombs, dirs, Ascending(dirs));
    var second := PutAll(first, remote, Ascending(dirs));
    PutKeys(local, remote, second, tombs + dirs, links, Ascending(links));
  }

  lemma PutKeys(local: Manifest, remote: Manifest, candidate: Manifest, d: set<Path>, keys: set<Path>, order: seq<Path>)
    requires Reached(local, remote, candidate, d)
    requires keys <= remote.View().Keys && (order == Ascending(keys) || order == DeepestFirst(keys))
    ensures Reached(local, remote, PutAll(candidate, remote, order), d + keys)
  {
    ElementsOfOrders(keys);
    forall p | p in order ensures remote.RecordAt(p).Some? {
      assert p in Elements(order);
      ViewAt(remote, p);
    }
    PutAllReached(local, remote, candidate, d, order);
  }

  /** Phased application refines the merge: the candidate is the merge except at the files that
      were left out, and only undelivered files are left out. */
  lemma PhasesRefineMerge(local: Manifest, remote: Manifest, delivered: set<Path>, t: Tree,
                          dirMode: u16, stagedMode: u16)
    requires local.Disjoint() && remote.Disjoint()
    ensures var s := AllPhases(local, remote, delivered, t, dirMode, stagedMode);
      s.Some? ==>
        var left := Elements(s.value.left);
        && LeftOut(local.View(), remote.View(), left) && |left| == |s.value.left|
        && s.value.candidate.Disjoint()
        && s.value.candidate.share == local.share && s.value.candidate.format == local.format
        && s.value.candidate.View() == Applied(local.View(), remote.View(), left)
        && left !! delivered && Wanted(local.View(), remote.View()) - delivered <= left
  {
    var l, r := local.View(), remote.View();
    var s := AllPhases(local, remote, delivered, t, dirMode, stagedMode);
    if s.Some? {
      var early := EarlyPhases(local, remote, t, DeepestFirst(WinningTombs(l, r)), Ascending(WinningDirs(l, r)),
                               Ascending(WinningLinks(l, r)), dirMode).value;
      EarlyReached(local, remote, WinningTombs(l, r), WinningDirs(l, r), WinningLinks(l, r));
      StartReached(local, remote, delivered, early.tree, early.candidate);
      FilesDone(local, remote, delivered, early, dirMode, stagedMode);
      CandidateIsApplied(local, remote, delivered, s.value);
    }
  }

  lemma FilesDone(local: Manifest, remote: Manifest, delivered: set<Path>, s: FileState, dirMode: u16, stagedMode: u16)
    requires local.Disjoint() && remote.Disjoint() && FilesReached(local, remote, delivered, s, {})
    ensures var keys := WinningFiles(local.View(), remote.View());
      var after := FileEffects(local, remote, delivered, s, Ascending(keys), dirMode, stagedMode);
      after.Some? ==> FilesReached(local, remote, delivered, after.value, keys)
  {
    var keys := WinningFiles(local.View(), remote.View());
    var _ := FilePrefixReached(local, remote, delivered, s, |keys|, dirMode, stagedMode);
    VisitedAll(keys);
    assert Ascending(keys)[..|keys|] == Ascending(keys);
  }

  lemma StartReached(local: Manifest, remote: Manifest, delivered: set<Path>, t: Tree, c: Manifest)
    requires Reached(local, remote, c, BeforeFiles(local.View(), remote.View()))
    ensures FilesReached(local, remote, delivered, FileState(t, c, []), {})
  {
  }

  lemma CandidateIsApplied(local: Manifest, remote: Manifest, delivered: set<Path>, s: FileState)
    requires FilesReached(local, remote, delivered, s, WinningFiles(local.View(), remote.View()))
    ensures LeftOut(local.View(), remote.View(), Elements(s.left))
    ensures s.candidate.View() == Applied(local.View(), remote.View(), Elements(s.left))
    ensures Wanted(local.View(), remote.View()) - delivered <= Elements(s.left)
  {
    var l, r := local.View(), remote.View();
    var taken := Taken(l, r, WinningFiles(l, r), s.left);
    assert taken == Winners(l, r) - Elements(s.left);
    ReachedView(local, remote, s.candidate, taken);
  }

  /** On a directory that mirrors the local manifest, with parent-closed manifests and a sound
      merge, the application succeeds exactly when no winning tombstone lies strictly below a local
      file or symlink; it then leaves out exactly the wanted files that were not delivered, and
      the directory mirrors the new manifest. */
  lemma PhasesSimulated(local: Manifest, remote: Manifest, delivered: set<Path>, t: Tree,
                        dirMode: u16, stagedMode: u16)
    requires local.Disjoint() && remote.Disjoint()
    requires Mergeable(local.View(), remote.View()) && Mirror(t, local.View(), {})
    ensures var l, r := local.View(), remote.View();
      var s := AllPhases(local, remote, delivered, t, dirMode, stagedMode);
      && (s.Some? <==> Unblocked(l, r))
      && (s.Some? ==>
            && Elements(s.value.left) == Wanted(l, r) - delivered
            && Mirror(s.value.tree, Applied(l, r, Wanted(l, r) - delivered), {}))
  {
    var l, r := local.View(), remote.View();
    var early := EarlySimulated(local, remote, l, r, t, dirMode);
    if early.Some? {
      var _ := LateSimulated(local, remote, l, r, delivered, early.value, dirMode, stagedMode);
    }
  }

  lemma EarlySimulated(local: Manifest, remote: Manifest, l: Records, r: Records, t: Tree, dirMode: u16)
    returns (early: Option<FileState>)
    requires Views(remote, r) && Mergeable(l, r) && Mirror(t, l, {})
    ensures early == EarlyPhases(local, remote, t, DeepestFirst(WinningTombs(l, r)), Ascending(WinningDirs(l, r)),
                                 Ascending(WinningLinks(l, r)), dirMode)
    ensures early.Some? <==> Unblocked(l, r)
    ensures early.Some? ==> early.value.left == []
    ensures early.Some? ==> Mirror(early.value.tree, Overlay(l, r, BeforeFiles(l, r)), WinningDirs(l, r))
  {
    var tombs, dirs, links :=
      DeepestFirst(WinningTombs(l, r)), Ascending(WinningDirs(l, r)), Ascending(WinningLinks(l, r));
    early := EarlyPhases(local, remote, t, tombs, dirs, links, dirMode);
    DeletionsSimulated(remote, t, l, r, dirMode);
    var deleted := Effects(Deleting, remote, t, tombs, dirMode);
    if deleted.Some? {
      MiddleSimulated(local, remote, l, r, deleted.value, dirMode);
    }
  }

  lemma MiddleSimulated(local: Manifest, remote: Manifest, l: Records, r: Records, t: Tree, dirMode: u16)
    requires Views(remote, r) && Mergeable(l, r) && Mirror(t, Overlay(l, r, WinningTombs(l, r)), {})
    ensures var created := Effects(Creating, remote, t, Ascending(WinningDirs(l, r)), dirMode);
      && created.Some?
      && var linked := Effects(Linking, remote, created.value, Ascending(WinningLinks(l, r)), dirMode);
      && linked.Some?
      && Mirror(linked.value, Overlay(l, r, BeforeFiles(l, r)), WinningDirs(l, r))
  {
    CreationsSimulated(remote, t, l, r, dirMode);
    LinksSimulated(remote, Effects(Creating, remote, t, Ascending(WinningDirs(l, r)), dirMode).value, l, r, dirMode);
  }

  lemma LateSimulated(local: Manifest, remote: Manifest, l: Records, r: Records, delivered: set<Path>, s: FileState,
                      dirMode: u16, stagedMode: u16)
    returns (after: Option<FileState>)
    requires Views(local, l) && Views(remote, r) && Mergeable(l, r)
    requires s.left == [] && Mirror(s.tree, Overlay(l, r, BeforeFiles(l, r)), WinningDirs(l, r))
    ensures after == LatePhases(local, remote, delivered, s, Ascending(WinningFiles(l, r)),
                                DeepestFirst(WinningDirs(l, r)), dirMode, stagedMode)
    ensures after.Some? && Elements(after.value.left) == Wanted(l, r) - delivered
    ensures Mirror(after.value.tree, Applied(l, r, Wanted(l, r) - delivered), {})
  {
    var filed := FilesSimulated(local, remote, l, r, delivered, s, dirMode, stagedMode);
    var moded := FinalSimulated(remote, delivered, l, r, filed.value, dirMode);
    after := Some(filed.value.(tree := moded.value));
  }

  lemma FinalSimulated(remote: Manifest, delivered: set<Path>, l: Records, r: Records, s: FileState, dirMode: u16)
    returns (after: Option<Tree>)
    requires Views(remote, r) && Mergeable(l, r)
    requires FilesMirrored(l, r, delivered, s, WinningFiles(l, r))
    ensures Elements(s.left) == Wanted(l, r) - delivered
    ensures after == Effects(Moding, remote, s.tree, DeepestFirst(WinningDirs(l, r)), dirMode)
    ensures after.Some? && Mirror(after.value, Applied(l, r, Wanted(l, r) - delivered), {})
  {
    FinalTaken(l, r, delivered, s.left);
    after := FinalModes(remote, l, r, s.tree, Wanted(l, r) - delivered, dirMode);
  }

  lemma FilesSimulated(local: Manifest, remote: Manifest, l: Records, r: Records, delivered: set<Path>, s: FileState,
                       dirMode: u16, stagedMode: u16)
    returns (after: Option<FileState>)
    requires Views(local, l) && Views(remote, r) && Mergeable(l, r)
    requires s.left == [] && Mirror(s.tree, Overlay(l, r, BeforeFiles(l, r)), WinningDirs(l, r))
    ensures after == FileEffects(local, remote, delivered, s, Ascending(WinningFiles(l, r)), dirMode, stagedMode)
    ensures after.Some? && FilesMirrored(l, r, delivered, after.value, WinningFiles(l, r))
  {
    var keys := WinningFiles(l, r);
    StartMirrored(l, r, delivered, s);
    after := FilePrefixMirrored(local, remote, l, r, delivered, s, |keys|, dirMode, stagedMode);
    VisitedAll(keys);
    assert Ascending(keys)[..|keys|] == Ascending(keys);
  }

  lemma StartMirrored(l: Records, r: Records, delivered: set<Path>, s: FileState)
    requires s.left == [] && Mirror(s.tree, Overlay(l, r, BeforeFiles(l, r)), WinningDirs(l, r))
    ensures FilesMirrored(l, r, delivered, s, {})
  {
    assert Taken(l, r, {}, s.left) == BeforeFiles(l, r);
  }

  lemma FinalTaken(l: Records, r: Records, delivered: set<Path>, left: seq<Path>)
    requires Elements(left) == WinningFiles(l, r) * (Wanted(l, r) - delivered)
    ensures Elements(left) == Wanted(l, r) - delivered
    ensures Taken(l, r, WinningFiles(l, r), left) == Winners(l, r) - (Wanted(l, r) - delivered)
  {
  }

  lemma FinalModes(remote: Manifest, l: Records, r: Records, t: Tree, left: set<Path>, dirMode: u16)
    returns (after: Option<Tree>)
    requires Views(remote, r) && Mergeable(l, r) && LeftOut(l, r, left)
    requires Mirror(t, Applied(l, r, left), WinningDirs(l, r))
    ensures after == Effects(Moding, remote, t, DeepestFirst(WinningDirs(l, r)), dirMode)
    ensures after.Some? && Mirror(after.value, Applied(l, r, left), {})
  {
    var v := Applied(l, r, left);
    PartialHierarchy(l, r, left);
    PartialParentClosed(l, r, left);
    forall p | p in WinningDirs(l, r)
      ensures p in v && p in remote.dirs && v[p] == Directory(remote.dirs[p])
    {
      RecordOfView(remote, r, p);
      assert Get(v, p) == Get(r, p);
    }
    ModesSimulated(remote, t, v, WinningDirs(l, r), dirMode);
    after := Effects(Moding, remote, t, DeepestFirst(WinningDirs(l, r)), dirMode);
  }
}
