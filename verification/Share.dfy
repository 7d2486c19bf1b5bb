/** A registered share: its stored manifest and clock, its directory, and the application of a
    remote transfer to all three. */
module Shares {
  import opened Bytes
  import opened Clock
  import opened Manifests
  import opened Merge
  import opened Reconcile
  import opened Disks
  import opened Simulation
  import opened Phases
  import opened Apply

  // ----- Observing a manifest's versions ----------------------------------------------------

  function Versions(m: Manifest, keys: seq<Path>): seq<Stamp> {
    if keys == [] then []
    else
      var p := keys[|keys| - 1];
      Versions(m, keys[..|keys| - 1]) + if m.RecordAt(p).Some? then [m.RecordAt(p).value.Version()] else []
  }

  /** The records whose versions the clock observes: files, directories and tombstones, but not symlinks. */
  function ObservedKeys(m: Manifest): seq<Path> {
    Ascending(m.files.Keys) + Ascending(m.dirs.Keys) + Ascending(m.tombs.Keys)
  }

  function ObservedManifest(t: Time, m: Manifest, now: u64): Option<Time> {
    ObservedAll(t, Versions(m, ObservedKeys(m)), now)
  }

  lemma {:induction false} VersionsElements(m: Manifest, keys: seq<Path>, p: Path)
    requires p in keys && m.RecordAt(p).Some?
    ensures m.RecordAt(p).value.Version() in Versions(m, keys)
  {
    if p != keys[|keys| - 1] {
      assert keys == keys[..|keys| - 1] + [keys[|keys| - 1]];
      VersionsElements(m, keys[..|keys| - 1], p);
    }
  }

  /** `observe_manifest_clock` over the stored clock. */
  method ObserveManifest(start: Time, m: Manifest, now: u64) returns (r: Option<Time>)
    ensures r == ObservedManifest(start, m, now)
  {
    var clock := new ClockState(start);
    var keys := ObservedKeys(m);
    for i := 0 to |keys|
      invariant ObservedAll(start, Versions(m, keys[..i]), now) == Some(clock.Value())
    {
      ObservedStep(start, m, keys, i, now);
      var record := m.RecordAt(keys[i]);
      if record.Some? {
        var ok := clock.Observe(record.value.Version(), now);
        if !ok {
          ObservedNone(start, m, keys, i + 1, now);
          return None;
        }
      }
    }
    assert keys[..|keys|] == keys;
    r := Some(clock.Value());
  }

  lemma ObservedStep(t: Time, m: Manifest, keys: seq<Path>, i: nat, now: u64)
    requires i < |keys|
    ensures m.RecordAt(keys[i]).None? ==> Versions(m, keys[..i + 1]) == Versions(m, keys[..i])
    ensures m.RecordAt(keys[i]).Some? ==>
      var before := ObservedAll(t, Versions(m, keys[..i]), now);
      ObservedAll(t, Versions(m, keys[..i + 1]), now) ==
        if before.None? then None else Observed(before.value, m.RecordAt(keys[i]).value.Version(), now)
  {
    assert keys[..i + 1][..i] == keys[..i];
    var before, after := Versions(m, keys[..i]), Versions(m, keys[..i + 1]);
    assert m.RecordAt(keys[i]).Some? ==> after[..|after| - 1] == before;
  }

  lemma {:induction false} ObservedNone(t: Time, m: Manifest, keys: seq<Path>, i: nat, now: u64)
    requires i <= |keys| && ObservedAll(t, Versions(m, keys[..i]), now).None?
    ensures ObservedAll(t, Versions(m, keys), now).None?
    decreases |keys| - i
  {
    if i == |keys| {
      assert keys[..i] == keys;
    } else {
      ObservedStep(t, m, keys, i, now);
      ObservedNone(t, m, keys, i + 1, now);
    }
  }

  lemma ObservingDominates(t: Time, m: Manifest, now: u64)
    requires m.Disjoint() && ObservedManifest(t, m, now).Some?
    ensures Before(t, ObservedManifest(t, m, now).value) || ObservedManifest(t, m, now).value == t
    ensures Dominates(ObservedManifest(t, m, now).value, m.View())
  {
    var keys := ObservedKeys(m);
    ObservedAllDominates(t, Versions(m, keys), now);
    forall p | p in m.View() && !m.View()[p].Symlink?
      ensures AtMost(TimeOf(m.View()[p].Version()), ObservedManifest(t, m, now).value)
    {
      ViewAt(m, p);
      ObservedKey(m, p);
      VersionsElements(m, keys, p);
    }
  }

  lemma ObservedKey(m: Manifest, p: Path)
    requires p in m.files || p in m.dirs || p in m.tombs
    ensures p in ObservedKeys(m)
  {
    AscendingOrder(m.files.Keys);
    AscendingOrder(m.dirs.Keys);
    AscendingOrder(m.tombs.Keys);
    assert p in Ascending(m.files.Keys) || p in Ascending(m.dirs.Keys) || p in Ascending(m.tombs.Keys);
  }

  // ----- Counters far from overflow never fail --------------------------------------------------

  /** No counter exceeds `k`. */
  ghost predicate Within(t: Time, v: Records, k: nat) {
    t.counter <= k && forall p :: p in v ==> v[p].Version().counter <= k
  }

  lemma {:induction false} ObservedAllWithin(t: Time, stamps: seq<Stamp>, now: u64, k: nat)
    requires t.counter <= k && (forall s :: s in stamps ==> s.counter <= k) && k + |stamps| <= U32_MAX
    ensures ObservedAll(t, stamps, now).Some? && ObservedAll(t, stamps, now).value.counter <= k + |stamps|
  {
    if stamps != [] {
      var front := stamps[..|stamps| - 1];
      assert forall s :: s in front ==> s in stamps;
      ObservedAllWithin(t, front, now, k);
      assert stamps[|stamps| - 1] in stamps;
    }
  }

  lemma {:induction false} VersionsBounded(m: Manifest, keys: seq<Path>, k: nat)
    requires forall p :: m.RecordAt(p).Some? ==> m.RecordAt(p).value.Version().counter <= k
    ensures |Versions(m, keys)| <= |keys| && forall s :: s in Versions(m, keys) ==> s.counter <= k
  {
    if keys != [] { VersionsBounded(m, keys[..|keys| - 1], k); }
  }

  /** Observing a supported manifest raises the counter by at most one per record, so a margin of that
      size rules out overflow. */
  lemma ObservingSucceeds(t: Time, m: Manifest, now: u64, k: nat)
    requires Within(t, m.View(), k) && m.Total() <= MAX_ENTRIES && k + MAX_ENTRIES <= U32_MAX
    ensures ObservedManifest(t, m, now).Some? && ObservedManifest(t, m, now).value.counter <= k + MAX_ENTRIES
  {
    forall p | m.RecordAt(p).Some? ensures m.RecordAt(p).value.Version().counter <= k {
      ViewAt(m, p);
      assert p in m.View();
    }
    VersionsBounded(m, ObservedKeys(m), k);
    ObservedAllWithin(t, Versions(m, ObservedKeys(m)), now, k);
  }

  lemma AppliedWithin(t: Time, l: Records, r: Records, left: set<Path>, k: nat)
    requires Within(t, l, k) && Within(t, r, k)
    ensures Within(t, Applied(l, r, left), k)
  {
    var v := Applied(l, r, left);
    forall p | p in v ensures v[p].Version().counter <= k { assert Get(v, p) == Some(v[p]); }
  }

  // ----- What an application stores ------------------------------------------------------------------

  /** What a peer keeps for a share: its manifest, its clock and its directory. */
  datatype Replica = Replica(manifest: Manifest, clock: Time, tree: Tree) {
    function View(): Records { manifest.View() }
  }

  datatype Outcome = Outcome(pending: nat, applied: nat)

  /** The end of an application: the candidate is validated, its versions are observed, and then clock
      and manifest are stored. `None` is an error, which stores nothing. */
  ghost function Stored(x: Replica, id: Key, candidate: Manifest, now: u64): Option<Replica> {
    var stamped := candidate.(scannedAt := now);
    if !Valid(stamped, id) then None
    else if SameMaps(stamped, x.manifest) then Some(x)
    else
      var observed := ObservedManifest(x.clock, stamped, now);
      if observed.None? then None else Some(Replica(stamped, observed.value, x.tree))
  }

  predicate SameMaps(m: Manifest, n: Manifest) {
    m.files == n.files && m.dirs == n.dirs && m.links == n.links && m.tombs == n.tombs
  }

  datatype Transfer = Transfer(replica: Replica, outcome: Outcome, left: set<Path>)

  /** The permission bits of new directories and of staged files. */
  datatype Modes = Modes(dir: u16, staged: u16)

  /** What follows the phases, when `all` records were to be applied. */
  ghost function Finished(x: Replica, id: Key, all: nat, s: FileState, now: u64): Option<Transfer> {
    var y, pending := x.(tree := s.tree), |s.left|;
    if all <= pending then Some(Transfer(y, Outcome(pending, 0), Elements(s.left)))
    else
      var z := Stored(y, id, s.candidate, now);
      if z.None? then None else Some(Transfer(z.value, Outcome(pending, all - pending), Elements(s.left)))
  }

  lemma FinishedTree(x: Replica, id: Key, all: nat, s: FileState, now: u64)
    ensures Finished(x, id, all, s, now) == Finished(x.(tree := s.tree), id, all, s, now)
  {
  }

  /** The whole application of a remote manifest with the delivered files. */
  ghost function Transferred(x: Replica, id: Key, remote: Manifest, delivered: set<Path>, now: u64, modes: Modes)
    : Option<Transfer>
  {
    var s := AllPhases(x.manifest, remote, delivered, x.tree, modes.dir, modes.staged);
    if s.None? then None else Finished(x, id, |Winners(x.View(), remote.View())|, s.value, now)
  }

  // ----- What it means ----------------------------------------------------------------------------------

  lemma StoredMeaning(x: Replica, id: Key, candidate: Manifest, now: u64, y: Replica)
    requires Valid(x.manifest, id) && candidate.Disjoint() && Stored(x, id, candidate, now) == Some(y)
    ensures Valid(y.manifest, id) && y.View() == candidate.View() && y.tree == x.tree && AtMost(x.clock, y.clock)
    ensures y.View() != x.View() ==> Dominates(y.clock, y.View())
    ensures y.View() == x.View() ==> y == x
  {
    var stamped := candidate.(scannedAt := now);
    StampKeepsView(candidate, now, id);
    if SameMaps(stamped, x.manifest) {
      MapsGiveView(stamped, x.manifest);
    } else {
      ViewsDiffer(stamped, x.manifest);
      ObservingDominates(x.clock, stamped, now);
    }
  }

  lemma StoredSucceeds(x: Replica, id: Key, candidate: Manifest, now: u64, k: nat) returns (y: Replica)
    requires Valid(candidate, id) && Within(x.clock, candidate.View(), k) && k + MAX_ENTRIES <= U32_MAX
    ensures Stored(x, id, candidate, now) == Some(y)
    ensures y.View() == candidate.View() && y.tree == x.tree && y.clock.counter <= k + MAX_ENTRIES
  {
    var stamped := candidate.(scannedAt := now);
    StampKeepsView(candidate, now, id);
    if SameMaps(stamped, x.manifest) {
      MapsGiveView(stamped, x.manifest);
      y := x;
    } else {
      ObservingSucceeds(x.clock, stamped, now, k);
      y := Replica(stamped, ObservedManifest(x.clock, stamped, now).value, x.tree);
    }
  }

  /** `v` is the merge except at the winning files in `left`, which were not delivered; every wanted
      file that was not delivered is among them. */
  ghost predicate Reconciled(l: Records, r: Records, delivered: set<Path>, left: set<Path>, v: Records) {
    && LeftOut(l, r, left) && v == Applied(l, r, left)
    && left !! delivered && Wanted(l, r) - delivered <= left
  }

  lemma NothingApplied(l: Records, r: Records, left: set<Path>)
    requires LeftOut(l, r, left) && |left| >= |Winners(l, r)|
    ensures |left| == |Winners(l, r)| && Applied(l, r, left) == l
  {
    SubsetSize(left, Winners(l, r));
    assert left == Winners(l, r) by {
      var rest := Winners(l, r) - left;
      assert Winners(l, r) == left + rest && left !! rest;
      assert |rest| == 0;
    }
    RecordsEqual(Applied(l, r, left), l);
  }

  /** The counts and views of a successful application. */
  ghost predicate Accounted(l: Records, r: Records, delivered: set<Path>, y: Transfer) {
    && Reconciled(l, r, delivered, y.left, y.replica.View())
    && y.outcome.pending == |y.left| && y.outcome.applied + y.outcome.pending == |Winners(l, r)|
  }

  /** The clock never goes back, and passes whatever was newly stored. */
  ghost predicate Advanced(x: Replica, y: Replica) {
    AtMost(x.clock, y.clock) && (y.View() != x.View() ==> Dominates(y.clock, y.View()))
  }

  /** What the phases are known to leave. */
  ghost predicate Refined(local: Manifest, r: Records, delivered: set<Path>, s: FileState) {
    && s.candidate.Disjoint() && s.candidate.share == local.share && s.candidate.format == local.format
    && |Elements(s.left)| == |s.left|
    && Reconciled(local.View(), r, delivered, Elements(s.left), s.candidate.View())
  }

  lemma FinishedMeaning(x: Replica, id: Key, r: Records, delivered: set<Path>, s: FileState, now: u64, y: Transfer)
    requires Valid(x.manifest, id) && Refined(x.manifest, r, delivered, s)
    requires Finished(x, id, |Winners(x.View(), r)|, s, now) == Some(y)
    ensures Valid(y.replica.manifest, id) && Accounted(x.View(), r, delivered, y) && Advanced(x, y.replica)
  {
    if |Winners(x.View(), r)| <= |s.left| {
      IdleMeaning(x, r, delivered, s, y);
    } else {
      StoredMeaning(x.(tree := s.tree), id, s.candidate, now, y.replica);
    }
  }

  lemma IdleMeaning(x: Replica, r: Records, delivered: set<Path>, s: FileState, y: Transfer)
    requires Refined(x.manifest, r, delivered, s) && |Winners(x.View(), r)| <= |s.left|
    requires y == Transfer(x.(tree := s.tree), Outcome(|s.left|, 0), Elements(s.left))
    ensures Accounted(x.View(), r, delivered, y) && Advanced(x, y.replica)
  {
    NothingApplied(x.View(), r, Elements(s.left));
  }

  /** A successful application stores the merge except at the files left out, and its counts add up to
      the winning records. */
  lemma TransferMeaning(x: Replica, id: Key, remote: Manifest, delivered: set<Path>, now: u64, modes: Modes,
                        y: Transfer)
    requires Valid(x.manifest, id) && Valid(remote, id)
    requires Transferred(x, id, remote, delivered, now, modes) == Some(y)
    ensures Valid(y.replica.manifest, id) && Accounted(x.View(), remote.View(), delivered, y) && Advanced(x, y.replica)
  {
    var s := AllPhases(x.manifest, remote, delivered, x.tree, modes.dir, modes.staged).value;
    PhasesRefineMerge(x.manifest, remote, delivered, x.tree, modes.dir, modes.staged);
    FinishedMeaning(x, id, remote.View(), delivered, s, now, y);
  }

  /** Nothing but a blocked deletion can make an application fail: the directory mirrors the manifest,
      the merge is sound and small enough, and no counter exceeds `k`, far from overflow. */
  ghost predicate Applicable(l: Records, r: Records, t: Tree, clock: Time, k: nat) {
    && Mergeable(l, r) && |Merged(l, r)| <= MAX_ENTRIES
    && Mirror(t, l, {})
    && Within(clock, l, k) && Within(clock, r, k) && k + MAX_ENTRIES <= U32_MAX
  }

  lemma CandidateValid(local: Manifest, remote: Manifest, candidate: Manifest, left: set<Path>, id: Key)
    requires Valid(local, id) && Valid(remote, id)
    requires candidate.Disjoint() && candidate.share == local.share && candidate.format == local.format
    requires LeftOut(local.View(), remote.View(), left)
    requires candidate.View() == Applied(local.View(), remote.View(), left)
    requires HierarchyOk(Merged(local.View(), remote.View())) && |Merged(local.View(), remote.View())| <= MAX_ENTRIES
    ensures Valid(candidate, id)
  {
    var l, r := local.View(), remote.View();
    PartialHierarchy(l, r, left);
    PartialFields(l, r, left);
    PartialSize(l, r, left);
    TotalIsViewSize(candidate);
  }

  /** The result mirrors its manifest, left out exactly what was not delivered, and used up one margin. */
  ghost predicate Settled(l: Records, r: Records, delivered: set<Path>, y: Transfer, k: nat) {
    && y.left == Wanted(l, r) - delivered && y.replica.View() == Applied(l, r, y.left)
    && Mirror(y.replica.tree, y.replica.View(), {})
    && Within(y.replica.clock, y.replica.View(), k + MAX_ENTRIES)
  }

  lemma FinishedIdle(x: Replica, id: Key, r: Records, delivered: set<Path>, s: FileState, now: u64)
    returns (y: Transfer)
    requires Refined(x.manifest, r, delivered, s) && |Winners(x.View(), r)| <= |s.left|
    ensures Finished(x, id, |Winners(x.View(), r)|, s, now) == Some(y)
    ensures y == Transfer(x.(tree := s.tree), Outcome(|s.left|, 0), Elements(s.left)) && s.candidate.View() == x.View()
  {
    NothingApplied(x.View(), r, Elements(s.left));
    y := Transfer(x.(tree := s.tree), Outcome(|s.left|, 0), Elements(s.left));
  }

  lemma FinishedStored(x: Replica, id: Key, all: nat, s: FileState, now: u64, k: nat) returns (y: Transfer)
    requires Valid(s.candidate, id) && Within(x.clock, s.candidate.View(), k)
    requires |s.left| < all && k + MAX_ENTRIES <= U32_MAX
    ensures Finished(x, id, all, s, now) == Some(y) && y.left == Elements(s.left)
    ensures y.replica.tree == s.tree && y.replica.View() == s.candidate.View() &&
      y.replica.clock.counter <= k + MAX_ENTRIES
  {
    var w := StoredSucceeds(x.(tree := s.tree), id, s.candidate, now, k);
    y := Transfer(w, Outcome(|s.left|, all - |s.left|), Elements(s.left));
  }

  lemma FinishedSettled(x: Replica, id: Key, remote: Manifest, delivered: set<Path>, s: FileState, now: u64, k: nat)
    returns (y: Transfer)
    requires Valid(x.manifest, id) && Valid(remote, id) && Refined(x.manifest, remote.View(), delivered, s)
    requires HierarchyOk(Merged(x.View(), remote.View())) && |Merged(x.View(), remote.View())| <= MAX_ENTRIES
    requires Within(x.clock, s.candidate.View(), k) && k + MAX_ENTRIES <= U32_MAX
    ensures Finished(x, id, |Winners(x.View(), remote.View())|, s, now) == Some(y) && y.left == Elements(s.left)
    ensures y.replica.tree == s.tree && y.replica.View() == s.candidate.View() &&
      y.replica.clock.counter <= k + MAX_ENTRIES
  {
    if |Winners(x.View(), remote.View())| <= |s.left| {
      y := FinishedIdle(x, id, remote.View(), delivered, s, now);
    } else {
      CandidateValid(x.manifest, remote, s.candidate, Elements(s.left), id);
      y := FinishedStored(x, id, |Winners(x.View(), remote.View())|, s, now, k);
    }
  }

  /** The phases on an unblocked mirror. */
  lemma PhasesUnblocked(x: Replica, remote: Manifest, delivered: set<Path>, modes: Modes) returns (s: FileState)
    requires x.manifest.Disjoint() && remote.Disjoint()
    requires Mergeable(x.View(), remote.View()) && Mirror(x.tree, x.View(), {}) && Unblocked(x.View(), remote.View())
    ensures AllPhases(x.manifest, remote, delivered, x.tree, modes.dir, modes.staged) == Some(s)
    ensures Refined(x.manifest, remote.View(), delivered, s)
    ensures Elements(s.left) == Wanted(x.View(), remote.View()) - delivered && Mirror(s.tree, s.candidate.View(), {})
  {
    PhasesSimulated(x.manifest, remote, delivered, x.tree, modes.dir, modes.staged);
    PhasesRefineMerge(x.manifest, remote, delivered, x.tree, modes.dir, modes.staged);
    s := AllPhases(x.manifest, remote, delivered, x.tree, modes.dir, modes.staged).value;
  }

  /** Under these conditions an application that is not blocked succeeds. */
  lemma TransferSucceeds(x: Replica, id: Key, remote: Manifest, delivered: set<Path>, now: u64, modes: Modes, k: nat)
    returns (y: Transfer)
    requires Valid(x.manifest, id) && Valid(remote, id) && Applicable(x.View(), remote.View(), x.tree, x.clock, k)
    requires Unblocked(x.View(), remote.View())
    ensures Transferred(x, id, remote, delivered, now, modes) == Some(y)
    ensures Settled(x.View(), remote.View(), delivered, y, k)
  {
    var s := PhasesUnblocked(x, remote, delivered, modes);
    AppliedWithin(x.clock, x.View(), remote.View(), Elements(s.left), k);
    y := FinishedSettled(x, id, remote, delivered, s, now, k);
  }

  /** Under these conditions an application succeeds exactly when no winning tombstone lies strictly
      below a local file or symlink. */
  lemma TransferSucceedsIff(x: Replica, id: Key, remote: Manifest, delivered: set<Path>, now: u64, modes: Modes, k: nat)
    requires Valid(x.manifest, id) && Valid(remote, id) && Applicable(x.View(), remote.View(), x.tree, x.clock, k)
    ensures Transferred(x, id, remote, delivered, now, modes).Some? <==> Unblocked(x.View(), remote.View())
  {
    if Unblocked(x.View(), remote.View()) {
      var y := TransferSucceeds(x, id, remote, delivered, now, modes, k);
    } else {
      PhasesSimulated(x.manifest, remote, delivered, x.tree, modes.dir, modes.staged);
    }
  }

  lemma MapsGiveView(m: Manifest, n: Manifest)
    requires m.files == n.files && m.dirs == n.dirs && m.links == n.links && m.tombs == n.tombs
    ensures m.View() == n.View()
  {
  }

  lemma StampKeepsView(m: Manifest, now: u64, id: Key)
    ensures m.(scannedAt := now).View() == m.View()
    ensures Valid(m.(scannedAt := now), id) <==> Valid(m, id)
  {
    MapsGiveView(m, m.(scannedAt := now));
  }

  lemma ViewsDiffer(m: Manifest, n: Manifest)
    requires m.Disjoint() && n.Disjoint()
    requires m.files != n.files || m.dirs != n.dirs || m.links != n.links || m.tombs != n.tombs
    ensures m.View() != n.View()
  {
    if m.View() == n.View() { ViewDetermines(m, n); }
  }

  // ----- The share ---------------------------------------------------------------------------------

  class Share {
    const id: Key
    const disk: Disk
    var manifest: Manifest
    var clock: Time

    constructor (id: Key, disk: Disk, manifest: Manifest, clock: Time)
      ensures this.id == id && this.disk == disk && this.manifest == manifest && this.clock == clock
    {
      this.id, this.disk, this.manifest, this.clock := id, disk, manifest, clock;
    }

    function Held(): Replica
      reads this, disk
    {
      Replica(manifest, clock, disk.tree)
    }

    function DiskModes(): Modes { Modes(disk.newDirMode, disk.stagedMode) }

    /** The end of the application; an error stores nothing. */
    method Store(candidate: Manifest, now: u64) returns (ok: bool)
      requires manifest.Disjoint()
      modifies this`manifest, this`clock
      ensures manifest.Disjoint() && (manifest == old(manifest) || Valid(manifest, id))
      ensures match Stored(old(Held()), id, candidate, now)
        case None => !ok && Held() == old(Held())
        case Some(y) => ok && Held() == y
    {
      var stamped := candidate.(scannedAt := now);
      ok := Validate(stamped, id);
      if !ok || SameMaps(stamped, manifest) { return; }
      var observed := ObserveManifest(clock, stamped, now);
      if observed.None? { return false; }
      clock := observed.value;
      manifest := stamped;
    }

    /** Storing what the phases left, unless nothing was applied. */
    method Finish(candidate: Manifest, pending: nat, applied: nat, now: u64, ghost left: seq<Path>)
      returns (r: Option<Outcome>)
      requires manifest.Disjoint() && pending == |left|
      modifies this`manifest, this`clock
      ensures manifest.Disjoint() && (manifest == old(manifest) || Valid(manifest, id))
      ensures match Finished(old(Held()), id, applied + pending, FileState(disk.tree, candidate, left), now)
        case None => r.None? && Held() == old(Held())
        case Some(y) => r == Some(y.outcome) && Held() == y.replica
    {
      r := Some(Outcome(pending, applied));
      if applied > 0 {
        var ok := Store(candidate, now);
        if !ok { r := None; }
      }
    }

    /** `apply_remote_transfer_impl`; an error stores nothing. */
    method ApplyRemoteTransfer(remote: Manifest, delivered: set<Path>, now: u64) returns (r: Option<Outcome>)
      requires manifest.Disjoint() && remote.Disjoint()
      modifies this`manifest, this`clock, disk
      ensures manifest.Disjoint() && (manifest == old(manifest) || Valid(manifest, id))
      ensures match Transferred(old(Held()), id, remote, delivered, now, DiskModes())
        case None => r.None? && manifest == old(manifest) && clock == old(clock)
        case Some(y) => r == Some(y.outcome) && Held() == y.replica
      ensures WellFormed(old(disk.tree)) ==> WellFormed(disk.tree)
    {
      ghost var left, x := [], Held();
      var ok, candidate, pending, applied;
      ok, candidate, pending, applied, left := RunPhases(disk, manifest, remote, delivered);
      if !ok { return None; }
      FinishedTree(x, id, applied + pending, FileState(disk.tree, candidate, left), now);
      r := Finish(candidate, pending, applied, now, left);
    }
  }
}
