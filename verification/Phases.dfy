/** The phases of an application: each loop over winning records, tied to a pure function. */
module Phases {
  import opened Bytes
  import opened Manifests
  import opened Merge
  import opened Reconcile
  import opened Disks

  // ----- The candidate manifest ---------------------------------------------------------

  /** `m` with `r` as the only record at `p`. */
  function Put(m: Manifest, p: Path, r: Record): (n: Manifest)
    ensures n.share == m.share && n.format == m.format && n.scannedAt == m.scannedAt
  {
    var bare := m.(files := m.files - {p}, dirs := m.dirs - {p}, links := m.links - {p}, tombs := m.tombs - {p});
    Insert(bare, p, r)
  }

  lemma PutAt(m: Manifest, p: Path, r: Record)
    requires m.Disjoint()
    ensures Put(m, p, r).Disjoint()
    ensures forall q :: Put(m, p, r).RecordAt(q) == if q == p then Some(r) else m.RecordAt(q)
  {
    var bare := m.(files := m.files - {p}, dirs := m.dirs - {p}, links := m.links - {p}, tombs := m.tombs - {p});
    assert bare.Disjoint() && forall q :: bare.RecordAt(q) == if q == p then None else m.RecordAt(q);
    InsertAt(bare, p, r);
  }

  /** The candidate holds the remote record at the paths in `d` and the local one elsewhere. */
  ghost predicate Reached(local: Manifest, remote: Manifest, candidate: Manifest, d: set<Path>) {
    && candidate.Disjoint() && candidate.share == local.share && candidate.format == local.format
    && forall p :: candidate.RecordAt(p) == if p in d then remote.RecordAt(p) else local.RecordAt(p)
  }

  lemma ReachStep(local: Manifest, remote: Manifest, candidate: Manifest, d: set<Path>, p: Path, r: Record)
    requires Reached(local, remote, candidate, d) && remote.RecordAt(p) == Some(r)
    ensures Reached(local, remote, Put(candidate, p, r), d + {p})
  {
    PutAt(candidate, p, r);
  }

  lemma ReachedView(local: Manifest, remote: Manifest, candidate: Manifest, d: set<Path>)
    requires Reached(local, remote, candidate, d)
    ensures candidate.View() == Overlay(local.View(), remote.View(), d)
  {
    var v := Overlay(local.View(), remote.View(), d);
    forall p ensures Get(candidate.View(), p) == Get(v, p) {
      ViewAt(candidate, p);
      ViewAt(local, p);
      ViewAt(remote, p);
    }
    RecordsEqual(candidate.View(), v);
  }

  lemma OverlayStep(l: Records, r: Records, d: set<Path>, p: Path)
    requires p in r
    ensures Overlay(l, r, d + {p}) == Overlay(l, r, d)[p := r[p]]
  {
  }

  /** The candidate after the remote records at `order` have been put, one by one. */
  function PutAll(candidate: Manifest, remote: Manifest, order: seq<Path>): Manifest {
    if order == [] then candidate
    else
      var p := order[|order| - 1];
      var before := PutAll(candidate, remote, order[..|order| - 1]);
      if remote.RecordAt(p).None? then before else Put(before, p, remote.RecordAt(p).value)
  }

  lemma {:induction false} PutAllReached(local: Manifest, remote: Manifest, candidate: Manifest,
                                         d: set<Path>, order: seq<Path>)
    requires Reached(local, remote, candidate, d)
    requires forall p :: p in order ==> remote.RecordAt(p).Some?
    ensures Reached(local, remote, PutAll(candidate, remote, order), d + Elements(order))
  {
    if order != [] {
      var front, p := order[..|order| - 1], order[|order| - 1];
      assert order == front + [p];
      PutAllReached(local, remote, candidate, d, front);
      ReachStep(local, remote, PutAll(candidate, remote, front), d + Elements(front), p, remote.RecordAt(p).value);
      assert d + Elements(order) == d + Elements(front) + {p};
    }
    else { assert d + Elements(order) == d; }
  }

  lemma PutAllStep(candidate: Manifest, remote: Manifest, order: seq<Path>, i: nat)
    requires i < |order| && remote.RecordAt(order[i]).Some?
    ensures PutAll(candidate, remote, order[..i + 1]) ==
      Put(PutAll(candidate, remote, order[..i]), order[i], remote.RecordAt(order[i]).value)
  {
    assert order[..i + 1][..i] == order[..i];
  }

  // ----- The disk effect of a phase -----------------------------------------------------

  datatype Phase = Deleting | Creating | Linking | Moding

  /** What a phase does to the directory for one remote record; `None` is an error. */
  function Effect(phase: Phase, remote: Manifest, t: Tree, p: Path, dirMode: u16): Option<Tree> {
    match phase
    case Deleting => Removed(t, p)
    case Creating => DirEnsured(t, p, dirMode)
    case Linking => if p in remote.links then Installed(t, p, LinkNode(remote.links[p].target), dirMode) else None
    case Moding => if p in remote.dirs then ModeSet(t, p, remote.dirs[p].perms, true) else None
  }

  function Effects(phase: Phase, remote: Manifest, t: Tree, order: seq<Path>, dirMode: u16): Option<Tree> {
    if order == [] then Some(t)
    else
      var before := Effects(phase, remote, t, order[..|order| - 1], dirMode);
      if before.None? then None else Effect(phase, remote, before.value, order[|order| - 1], dirMode)
  }

  lemma EffectsStep(phase: Phase, remote: Manifest, t: Tree, order: seq<Path>, i: nat, dirMode: u16)
    requires i < |order|
    ensures Effects(phase, remote, t, order[..i + 1], dirMode) ==
      (var before := Effects(phase, remote, t, order[..i], dirMode);
       if before.None? then None else Effect(phase, remote, before.value, order[i], dirMode))
  {
    assert order[..i + 1][..i] == order[..i];
  }

  /** What holds of the tree at the start of a phase, and what every path of the phase keeps. */
  lemma {:induction false} EffectsKeep(phase: Phase, remote: Manifest, t: Tree, order: seq<Path>, dirMode: u16,
                                       good: (int, Option<Tree>) -> bool, n: nat)
    requires n <= |order| && good(0, Some(t))
    requires forall i, u :: 0 <= i < |order| && good(i, u) ==>
      u.Some? && good(i + 1, Effect(phase, remote, u.value, order[i], dirMode))
    ensures good(n, Effects(phase, remote, t, order[..n], dirMode))
  {
    if n > 0 {
      EffectsKeep(phase, remote, t, order, dirMode, good, n - 1);
      EffectsStep(phase, remote, t, order, n - 1, dirMode);
    }
  }

  /** An error in one step is an error of the whole phase. */
  lemma {:induction false} EffectsFail(phase: Phase, remote: Manifest, t: Tree, order: seq<Path>, i: nat, dirMode: u16)
    requires i <= |order| && Effects(phase, remote, t, order[..i], dirMode).None?
    ensures Effects(phase, remote, t, order, dirMode).None?
    decreases |order| - i
  {
    if i == |order| {
      assert order[..i] == order;
    } else {
      EffectsStep(phase, remote, t, order, i, dirMode);
      EffectsFail(phase, remote, t, order, i + 1, dirMode);
    }
  }

  /** `remote` holds a record of the phase's kind at `p`. */
  predicate SuitsAt(phase: Phase, remote: Manifest, p: Path) {
    match phase
    case Deleting => p in remote.tombs && remote.RecordAt(p) == Some(Tombstone(remote.tombs[p]))
    case Creating => p in remote.dirs && remote.RecordAt(p) == Some(Directory(remote.dirs[p]))
    case Linking => p in remote.links && remote.RecordAt(p) == Some(Symlink(remote.links[p]))
    case Moding => p in remote.dirs && remote.RecordAt(p) == Some(Directory(remote.dirs[p]))
  }

  ghost predicate Suits(phase: Phase, remote: Manifest, order: seq<Path>) {
    forall i :: 0 <= i < |order| ==> SuitsAt(phase, remote, order[i])
  }

  /** The loop over winning tombstones. */
  method DeletionPhase(disk: Disk, remote: Manifest, order: seq<Path>, start: Manifest)
    returns (ok: bool, candidate: Manifest)
    requires Suits(Deleting, remote, order)
    modifies disk
    ensures ok <==> Effects(Deleting, remote, old(disk.tree), order, disk.newDirMode).Some?
    ensures ok ==> disk.tree == Effects(Deleting, remote, old(disk.tree), order, disk.newDirMode).value
    ensures ok ==> candidate == PutAll(start, remote, order)
    ensures WellFormed(old(disk.tree)) ==> WellFormed(disk.tree)
  {
    candidate := start;
    for i := 0 to |order|
      invariant Effects(Deleting, remote, old(disk.tree), order[..i], disk.newDirMode) == Some(disk.tree)
      invariant candidate == PutAll(start, remote, order[..i])
      invariant WellFormed(old(disk.tree)) ==> WellFormed(disk.tree)
    {
      var p := order[i];
      assert SuitsAt(Deleting, remote, p);
      EffectsStep(Deleting, remote, old(disk.tree), order, i, disk.newDirMode);
      PutAllStep(start, remote, order, i);
      ok := disk.RemoveLocalPath(p);
      if !ok {
        EffectsFail(Deleting, remote, old(disk.tree), order, i + 1, disk.newDirMode);
        return;
      }
      candidate := Put(candidate, p, Tombstone(remote.tombs[p]));
    }
    assert order[..|order|] == order;
    ok := true;
  }

  /** The loop over winning directories. */
  method DirectoryPhase(disk: Disk, remote: Manifest, order: seq<Path>, start: Manifest)
    returns (ok: bool, candidate: Manifest)
    requires Suits(Creating, remote, order)
    modifies disk
    ensures ok <==> Effects(Creating, remote, old(disk.tree), order, disk.newDirMode).Some?
    ensures ok ==> disk.tree == Effects(Creating, remote, old(disk.tree), order, disk.newDirMode).value
    ensures ok ==> candidate == PutAll(start, remote, order)
    ensures WellFormed(old(disk.tree)) ==> WellFormed(disk.tree)
  {
    candidate := start;
    for i := 0 to |order|
      invariant Effects(Creating, remote, old(disk.tree), order[..i], disk.newDirMode) == Some(disk.tree)
      invariant candidate == PutAll(start, remote, order[..i])
      invariant WellFormed(old(disk.tree)) ==> WellFormed(disk.tree)
    {
      var p := order[i];
      assert SuitsAt(Creating, remote, p);
      EffectsStep(Creating, remote, old(disk.tree), order, i, disk.newDirMode);
      PutAllStep(start, remote, order, i);
      ok := disk.EnsureLocalDirectory(p);
      if !ok {
        EffectsFail(Creating, remote, old(disk.tree), order, i + 1, disk.newDirMode);
        return;
      }
      candidate := Put(candidate, p, Directory(remote.dirs[p]));
    }
    assert order[..|order|] == order;
    ok := true;
  }

  /** The loop over winning symlinks. */
  method SymlinkPhase(disk: Disk, remote: Manifest, order: seq<Path>, start: Manifest)
    returns (ok: bool, candidate: Manifest)
    requires Suits(Linking, remote, order)
    modifies disk
    ensures ok <==> Effects(Linking, remote, old(disk.tree), order, disk.newDirMode).Some?
    ensures ok ==> disk.tree == Effects(Linking, remote, old(disk.tree), order, disk.newDirMode).value
    ensures ok ==> candidate == PutAll(start, remote, order)
    ensures WellFormed(old(disk.tree)) ==> WellFormed(disk.tree)
  {
    candidate := start;
    for i := 0 to |order|
      invariant Effects(Linking, remote, old(disk.tree), order[..i], disk.newDirMode) == Some(disk.tree)
      invariant candidate == PutAll(start, remote, order[..i])
      invariant WellFormed(old(disk.tree)) ==> WellFormed(disk.tree)
    {
      var p := order[i];
      assert SuitsAt(Linking, remote, p);
      EffectsStep(Linking, remote, old(disk.tree), order, i, disk.newDirMode);
      PutAllStep(start, remote, order, i);
      ok := disk.Install(p, LinkNode(remote.links[p].target));
      if !ok {
        EffectsFail(Linking, remote, old(disk.tree), order, i + 1, disk.newDirMode);
        return;
      }
      candidate := Put(candidate, p, Symlink(remote.links[p]));
    }
    assert order[..|order|] == order;
    ok := true;
  }

  /** The final loop that sets directory modes, deepest first. */
  method DirectoryModePhase(disk: Disk, remote: Manifest, order: seq<Path>) returns (ok: bool)
    requires Suits(Moding, remote, order)
    modifies disk
    ensures ok <==> Effects(Moding, remote, old(disk.tree), order, disk.newDirMode).Some?
    ensures ok ==> disk.tree == Effects(Moding, remote, old(disk.tree), order, disk.newDirMode).value
    ensures WellFormed(old(disk.tree)) ==> WellFormed(disk.tree)
  {
    for i := 0 to |order|
      invariant Effects(Moding, remote, old(disk.tree), order[..i], disk.newDirMode) == Some(disk.tree)
      invariant WellFormed(old(disk.tree)) ==> WellFormed(disk.tree)
    {
      var p := order[i];
      assert SuitsAt(Moding, remote, p);
      EffectsStep(Moding, remote, old(disk.tree), order, i, disk.newDirMode);
      ok := disk.SetMode(p, remote.dirs[p].perms, true);
      if !ok {
        EffectsFail(Moding, remote, old(disk.tree), order, i + 1, disk.newDirMode);
        return;
      }
    }
    assert order[..|order|] == order;
    ok := true;
  }

  // ----- Phase 4: files -------------------------------------------------------------------

  /** The metadata-only update of the candidate: it does not touch the symlink map. */
  function PutMetadata(m: Manifest, p: Path, e: FileEntry): (n: Manifest) {
    m.(dirs := m.dirs - {p}, tombs := m.tombs - {p}, files := m.files[p := e])
  }

  lemma PutMetadataIsPut(m: Manifest, p: Path, e: FileEntry)
    requires m.Disjoint() && p in m.files
    ensures PutMetadata(m, p, e) == Put(m, p, File(e))
  {
  }

  ghost predicate FilesAt(remote: Manifest, order: seq<Path>) {
    forall i :: 0 <= i < |order| ==> order[i] in remote.files
  }

  datatype FileState = FileState(tree: Tree, candidate: Manifest, left: seq<Path>)

  function FileMode(e: FileEntry, stagedMode: u16): u16 {
    if e.perms.Some? then e.perms.value else stagedMode
  }

  /** What the file loop does for one winning file: install a delivered file, change the mode of a
      file whose content is already there, or leave the path out. */
  function FileEffect(local: Manifest, remote: Manifest, delivered: set<Path>, s: FileState, p: Path,
                      dirMode: u16, stagedMode: u16): Option<FileState>
  {
    if p !in remote.files then None
    else
      var e := remote.files[p];
      if p in delivered then
        var u := Installed(s.tree, p, FileNode(e.size, e.sha, FileMode(e, stagedMode)), dirMode);
        if u.None? then None else Some(FileState(u.value, Put(s.candidate, p, File(e)), s.left))
      else if p in local.files && local.files[p].size == e.size && local.files[p].sha == e.sha then
        var matches := FileMatches(s.tree, p, e.size, e.sha);
        if matches.None? then None
        else if matches.value then
          var u := ModeSet(s.tree, p, e.perms, false);
          if u.None? then None else Some(FileState(u.value, PutMetadata(s.candidate, p, e), s.left))
        else Some(s.(left := s.left + [p]))
      else Some(s.(left := s.left + [p]))
  }

  function FileEffects(local: Manifest, remote: Manifest, delivered: set<Path>, s: FileState, order: seq<Path>,
                       dirMode: u16, stagedMode: u16): Option<FileState>
  {
    if order == [] then Some(s)
    else
      var before := FileEffects(local, remote, delivered, s, order[..|order| - 1], dirMode, stagedMode);
      if before.None? then None
      else FileEffect(local, remote, delivered, before.value, order[|order| - 1], dirMode, stagedMode)
  }

  lemma FileEffectsStep(local: Manifest, remote: Manifest, delivered: set<Path>, s: FileState, order: seq<Path>,
                        i: nat, dirMode: u16, stagedMode: u16)
    requires i < |order|
    ensures FileEffects(local, remote, delivered, s, order[..i + 1], dirMode, stagedMode) ==
      (var before := FileEffects(local, remote, delivered, s, order[..i], dirMode, stagedMode);
       if before.None? then None
       else FileEffect(local, remote, delivered, before.value, order[i], dirMode, stagedMode))
  {
    assert order[..i + 1][..i] == order[..i];
  }

  lemma {:induction false} FileEffectsFail(local: Manifest, remote: Manifest, delivered: set<Path>, s: FileState,
                                           order: seq<Path>, i: nat, dirMode: u16, stagedMode: u16)
    requires i <= |order| && FileEffects(local, remote, delivered, s, order[..i], dirMode, stagedMode).None?
    ensures FileEffects(local, remote, delivered, s, order, dirMode, stagedMode).None?
    decreases |order| - i
  {
    if i == |order| {
      assert order[..i] == order;
    } else {
      FileEffectsStep(local, remote, delivered, s, order, i, dirMode, stagedMode);
      FileEffectsFail(local, remote, delivered, s, order, i + 1, dirMode, stagedMode);
    }
  }

  /** One iteration of the file loop. */
  method FileStep(disk: Disk, local: Manifest, remote: Manifest, delivered: set<Path>, p: Path, start: Manifest,
                  ghost left: seq<Path>)
    returns (ok: bool, candidate: Manifest, skipped: bool)
    requires p in remote.files
    modifies disk
    ensures ok <==> FileEffect(local, remote, delivered, FileState(old(disk.tree), start, left), p,
                               disk.newDirMode, disk.stagedMode).Some?
    ensures ok ==> FileEffect(local, remote, delivered, FileState(old(disk.tree), start, left), p,
                              disk.newDirMode, disk.stagedMode) ==
                   Some(FileState(disk.tree, candidate, if skipped then left + [p] else left))
    ensures WellFormed(old(disk.tree)) ==> WellFormed(disk.tree)
  {
    var e := remote.files[p];
    candidate, skipped := start, false;
    if p in delivered {
      ok := disk.Install(p, FileNode(e.size, e.sha, FileMode(e, disk.stagedMode)));
      candidate := Put(candidate, p, File(e));
    } else if p in local.files && local.files[p].size == e.size && local.files[p].sha == e.sha {
      var matches := FileMatches(disk.tree, p, e.size, e.sha);
      if matches.None? { return false, candidate, skipped; }
      if matches.value {
        ok := disk.SetMode(p, e.perms, false);
        candidate := PutMetadata(candidate, p, e);
      } else {
        ok, skipped := true, true;
      }
    } else {
      ok, skipped := true, true;
    }
  }

  /** The loop over winning files. */
  method FilePhase(disk: Disk, local: Manifest, remote: Manifest, delivered: set<Path>, order: seq<Path>,
                   start: Manifest)
    returns (ok: bool, candidate: Manifest, pending: nat, applied: nat, ghost left: seq<Path>)
    requires FilesAt(remote, order)
    modifies disk
    ensures ok <==> FileEffects(local, remote, delivered, FileState(old(disk.tree), start, []), order,
                                disk.newDirMode, disk.stagedMode).Some?
    ensures ok ==> FileEffects(local, remote, delivered, FileState(old(disk.tree), start, []), order,
                               disk.newDirMode, disk.stagedMode) == Some(FileState(disk.tree, candidate, left))
    ensures ok ==> pending == |left| && applied + pending == |order|
    ensures WellFormed(old(disk.tree)) ==> WellFormed(disk.tree)
  {
    ghost var s := FileState(disk.tree, start, []);
    candidate, pending, applied, left := start, 0, 0, [];
    for i := 0 to |order|
      invariant FileEffects(local, remote, delivered, s, order[..i], disk.newDirMode, disk.stagedMode) ==
        Some(FileState(disk.tree, candidate, left))
      invariant pending == |left| && applied + pending == i
      invariant WellFormed(old(disk.tree)) ==> WellFormed(disk.tree)
    {
      FileEffectsStep(local, remote, delivered, s, order, i, disk.newDirMode, disk.stagedMode);
      var skipped;
      ok, candidate, skipped := FileStep(disk, local, remote, delivered, order[i], candidate, left);
      if !ok {
        FileEffectsFail(local, remote, delivered, s, order, i + 1, disk.newDirMode, disk.stagedMode);
        return;
      }
      if skipped {
        pending, left := pending + 1, left + [order[i]];
      } else {
        applied := applied + 1;
      }
    }
    assert order[..|order|] == order;
    ok := true;
  }
}
