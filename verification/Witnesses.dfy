/** Two runs of the system that show where a natural claim fails: an application that is blocked for
    good, and a scan that turns a symlink back to an older version. */
module Witnesses {
  import opened Bytes
  import opened Chains
  import opened Clock
  import opened Manifests
  import opened Merge
  import opened Reconcile
  import opened Disks
  import opened Simulation
  import opened Apply
  import opened Shares
  import opened Scan
  import opened System

  // ----- Small scans ---------------------------------------------------------------------------------------

  /** Only the path `p` is recorded or discovered, and it changed. */
  ghost predicate OnlyChange(e: Env, p: Path) {
    !Same(e, p) && forall r :: r != p ==> Same(e, r) && r !in e.prior
  }

  lemma ScanOne(e: Env, p: Path)
    requires OnlyChange(e, p)
    ensures ScanResult(e, [p], map[p := Renewed(e.found, p, Issue(e, 1))])
  {
    var v: Records := map[p := Renewed(e.found, p, Issue(e, 1))];
    assert [p][0] == p;
    forall r | r !in [p] ensures Get(v, r) == Refreshed(Get(e.prior, r), e.found, r) {
      assert r != p && r !in e.prior;
    }
  }

  ghost predicate OnlyChanges(e: Env, p: Path, q: Path) {
    p != q && !Same(e, p) && !Same(e, q) && forall r :: r != p && r != q ==> Same(e, r) && r !in e.prior
  }

  lemma ScanTwo(e: Env, p: Path, q: Path)
    requires OnlyChanges(e, p, q)
    ensures ScanResult(e, [p, q],
                       map[p := Renewed(e.found, p, Issue(e, 1)), q := Renewed(e.found, q, Issue(e, 2))])
  {
    var v: Records := map[p := Renewed(e.found, p, Issue(e, 1)), q := Renewed(e.found, q, Issue(e, 2))];
    assert [p, q][0] == p && [p, q][1] == q;
    forall r | r !in [p, q] ensures Get(v, r) == Refreshed(Get(e.prior, r), e.found, r) {
      assert r != p && r != q && r !in e.prior;
    }
  }

  /** The first two versions of a scan whose wall clock is ahead of the stored clock. */
  lemma FirstVersions(e: Env)
    requires e.now > e.clock.wall
    ensures Issue(e, 1) == Stamp(e.now, 0, e.author) && NthTick(e.clock, e.now, 1) == Some(Time(e.now, 0))
    ensures Issue(e, 2) == Stamp(e.now, 1, e.author) && NthTick(e.clock, e.now, 2) == Some(Time(e.now, 1))
  {
    assert NthTick(e.clock, e.now, 0) == Some(e.clock);
    assert NthTick(e.clock, e.now, 1) == Some(Time(e.now, 0));
  }

  function Start(i: Key, j: Key): State {
    State(map[i := Peer(map[], ORIGIN), j := Peer(map[], ORIGIN)], {map[]})
  }

  function After(s: State, i: Key, x: Peer): State { State(s.peers[i := x], s.history + {x.view}) }

  lemma ScanTakes(s: State, i: Key, found: Found, now: u64, ticked: seq<Path>, x: Peer)
    requires i in s.peers && found.Disjoint() && found.Closed()
    requires ScanResult(Env(s.peers[i].view, found, true, s.peers[i].clock, now, i), ticked, x.view)
    requires NthTick(s.peers[i].clock, now, |ticked|) == Some(x.clock)
    ensures Steps()(s, After(s, i, x))
  {
    assert Step(s, ScanBy(i, found, true, now, ticked), After(s, i, x));
  }

  lemma FourStates(s0: State, s1: State, s2: State, s3: State) returns (run: seq<State>)
    requires Initial(s0) && Steps()(s0, s1) && Steps()(s1, s2) && Steps()(s2, s3)
    ensures Run(run) && run == [s0, s1, s2, s3]
  {
    run := [s0, s1, s2, s3];
    ChainOfFour(s0, s1, s2, s3, Steps());
  }

  // ----- A deletion that stays blocked --------------------------------------------------------------------

  const A: Path := [97]
  const AB: Path := [97, SLASH, 98]

  lemma BelowHere(x: Path)
    ensures !Below(x, A) && (Below(x, AB) <==> x == A)
  {
    assert AB[..1] == A;
    if Below(x, AB) { assert |x| == 1 && x == AB[..1]; }
  }

  lemma PathsValid()
    ensures ValidPath(A) && ValidPath(AB)
  {
    assert Components([]) == [[]];
    assert A[1..] == [] && AB[2..] == [98] && AB[1..] == [SLASH, 98] && AB[1..][1..] == [98] && [98][1..] == [];
    var none: Text := [];
    assert [98] + none == [98] && [97] + none == [97] && [none][1..] == [];
    assert Components([98]) == [[98]];
    assert Components(A) == [[97]];
    assert Components([SLASH, 98]) == [none] + [[98]];
    assert Components(AB) == [[97]] + [[98]];
  }

  function Tree1(sha: Text): Found { Found(map[AB := FoundFile(1, 1, sha, None)], map[A := None], map[]) }
  function Tree2(sha: Text): Found { Found(map[A := FoundFile(1, 1, sha, None)], map[], map[]) }
  function Bare(): Found { Found(map[], map[], map[]) }

  /** Directory `a` with file `a/b`, as peer `i` records them in its first scan. */
  function View1(i: Key, sha: Text): Records {
    map[AB := File(FileEntry(1, 1, sha, None, Stamp(1, 0, i))), A := Directory(DirEntry(None, Stamp(1, 1, i)))]
  }

  /** Both gone. */
  function View2(i: Key): Records {
    map[AB := Tombstone(TombEntry(Stamp(2, 0, i))), A := Tombstone(TombEntry(Stamp(2, 1, i)))]
  }

  /** A newer file `a` on peer `j`. */
  function View3(j: Key, sha: Text): Records { map[A := File(FileEntry(1, 1, sha, None, Stamp(3, 0, j)))] }

  function Blocked0(i: Key, j: Key): State { Start(i, j) }
  function Blocked1(i: Key, j: Key, sha: Text): State { After(Blocked0(i, j), i, Peer(View1(i, sha), Time(1, 1))) }
  function Blocked2(i: Key, j: Key, sha: Text): State { After(Blocked1(i, j, sha), i, Peer(View2(i), Time(2, 1))) }
  function Blocked3(i: Key, j: Key, sha: Text): State { After(Blocked2(i, j, sha), j, Peer(View3(j, sha), Time(3, 0))) }

  lemma BlockedStep1(i: Key, j: Key, sha: Text)
    requires i != j
    ensures Steps()(Blocked0(i, j), Blocked1(i, j, sha))
  {
    var e := Env(map[], Tree1(sha), true, ORIGIN, 1, i);
    forall x ensures !Below(x, A) && (Below(x, AB) <==> x == A) { BelowHere(x); }
    FirstVersions(e);
    ScanTwo(e, AB, A);
    ScanTakes(Blocked0(i, j), i, Tree1(sha), 1, [AB, A], Peer(View1(i, sha), Time(1, 1)));
  }

  lemma BlockedStep2(i: Key, j: Key, sha: Text)
    requires i != j
    ensures Steps()(Blocked1(i, j, sha), Blocked2(i, j, sha))
  {
    var e := Env(View1(i, sha), Bare(), true, Time(1, 1), 2, i);
    FirstVersions(e);
    ScanTwo(e, AB, A);
    ScanTakes(Blocked1(i, j, sha), i, Bare(), 2, [AB, A], Peer(View2(i), Time(2, 1)));
  }

  lemma BlockedStep3(i: Key, j: Key, sha: Text)
    requires i != j
    ensures Steps()(Blocked2(i, j, sha), Blocked3(i, j, sha))
  {
    var e := Env(map[], Tree2(sha), true, ORIGIN, 3, j);
    forall x ensures !Below(x, A) { BelowHere(x); }
    FirstVersions(e);
    ScanOne(e, A);
    ScanTakes(Blocked2(i, j, sha), j, Tree2(sha), 3, [A], Peer(View3(j, sha), Time(3, 0)));
  }

  function Local(id: Key, j: Key, sha: Text): Manifest {
    Empty(id, 0).(files := map[A := FileEntry(1, 1, sha, None, Stamp(3, 0, j))])
  }

  function Remote(id: Key, i: Key): Manifest {
    Empty(id, 0).(tombs := map[AB := TombEntry(Stamp(2, 0, i)), A := TombEntry(Stamp(2, 1, i))])
  }

  lemma LocalHolds(id: Key, j: Key, sha: Text)
    requires ValidSha(sha)
    ensures Valid(Local(id, j, sha), id) && Local(id, j, sha).View() == View3(j, sha)
  {
    PathsValid();
    assert Local(id, j, sha).View() == View3(j, sha);
    forall x ensures !Below(x, A) { BelowHere(x); }
  }

  /** A manifest that holds nothing but tombstones. */
  ghost predicate TombstonesOnly(m: Manifest) {
    m.files == map[] && m.dirs == map[] && m.links == map[]
  }

  function Tombstones(tombs: map<Path, TombEntry>): Records { map p | p in tombs :: Tombstone(tombs[p]) }

  lemma TombstonesView(m: Manifest)
    requires TombstonesOnly(m)
    ensures m.Disjoint() && m.Total() == |m.tombs| && m.View() == Tombstones(m.tombs)
  {
    forall p ensures Get(m.View(), p) == Get(Tombstones(m.tombs), p) { }
    RecordsEqual(m.View(), Tombstones(m.tombs));
  }

  lemma TombstonesSound(v: Records)
    requires forall p :: p in v ==> v[p].Tombstone? && ValidPath(p)
    ensures FieldsOk(v) && HierarchyOk(v)
  {
  }

  lemma RemoteTombs(id: Key, i: Key)
    ensures |Remote(id, i).tombs| <= 2 && Tombstones(Remote(id, i).tombs) == View2(i)
  {
    var tombs := Remote(id, i).tombs;
    assert tombs.Keys == {A, AB} && |tombs| == |tombs.Keys|;
  }

  lemma RemoteHolds(id: Key, i: Key)
    ensures Valid(Remote(id, i), id) && Remote(id, i).View() == View2(i)
  {
    PathsValid();
    TombstonesView(Remote(id, i));
    RemoteTombs(id, i);
    TombstonesSound(View2(i));
  }

  lemma LocalMirrors(j: Key, sha: Text)
    ensures Mirror(map[A := FileNode(1, sha, 0)], View3(j, sha), {})
  {
  }

  lemma ViewsBlock(i: Key, j: Key, sha: Text)
    ensures Mergeable(View3(j, sha), View2(i)) && !Unblocked(View3(j, sha), View2(i))
  {
    var l, r := View3(j, sha), View2(i);
    forall x ensures !Below(x, A) && (Below(x, AB) <==> x == A) { BelowHere(x); }
    MergedAt(l, r, A);
    MergedAt(l, r, AB);
    assert Merged(l, r).Keys == {A, AB};
    assert AB in WinningTombs(l, r) && !NotBlocked(l, AB);
  }

  /** A replica whose directory mirrors its manifest can never apply a blocked manifest. */
  lemma NeverApplies(local: Manifest, t: Tree, clock: Time, id: Key, remote: Manifest, delivered: set<Path>, now: u64,
                     modes: Modes)
    requires local.Disjoint() && remote.Disjoint() && Mergeable(local.View(), remote.View()) &&
      Mirror(t, local.View(), {})
    requires !Unblocked(local.View(), remote.View())
    ensures Transferred(Replica(local, clock, t), id, remote, delivered, now, modes).None?
  {
    PhasesSimulated(local, remote, delivered, t, modes.dir, modes.staged);
  }

  /** The manifest can never be applied, at any time and whatever is delivered, although both manifests are
      valid, their merge is sound, and the directory mirrors the local manifest. */
  ghost predicate Stuck(local: Manifest, t: Tree, remote: Manifest, id: Key) {
    && Valid(local, id) && Valid(remote, id) && Mergeable(local.View(), remote.View()) && Mirror(t, local.View(), {})
    && forall delivered, clock, now, modes ::
         Transferred(Replica(local, clock, t), id, remote, delivered, now, modes).None?
  }

  lemma StuckWhen(local: Manifest, t: Tree, remote: Manifest, id: Key)
    requires Valid(local, id) && Valid(remote, id) && Mergeable(local.View(), remote.View()) &&
      Mirror(t, local.View(), {})
    requires !Unblocked(local.View(), remote.View())
    ensures Stuck(local, t, remote, id)
  {
    forall delivered, clock: Time, now, modes: Modes
      ensures Transferred(Replica(local, clock, t), id, remote, delivered, now, modes).None?
    {
      NeverApplies(local, t, clock, id, remote, delivered, now, modes);
    }
  }

  lemma BlockedPair(i: Key, j: Key, id: Key, sha: Text) returns (local: Manifest, remote: Manifest, t: Tree)
    requires i != j && ValidSha(sha)
    ensures local.View() == View3(j, sha) && remote.View() == View2(i) && Stuck(local, t, remote, id)
  {
    local, remote, t := Local(id, j, sha), Remote(id, i), map[A := FileNode(1, sha, 0)];
    LocalHolds(id, j, sha);
    RemoteHolds(id, i);
    ViewsBlock(i, j, sha);
    LocalMirrors(j, sha);
    StuckWhen(local, t, remote, id);
  }

  lemma BlockedStates(i: Key, j: Key, sha: Text) returns (run: seq<State>)
    requires i != j
    ensures Run(run) && run[|run| - 1] == Blocked3(i, j, sha)
  {
    BlockedStep1(i, j, sha);
    BlockedStep2(i, j, sha);
    BlockedStep3(i, j, sha);
    run := FourStates(Blocked0(i, j), Blocked1(i, j, sha), Blocked2(i, j, sha), Blocked3(i, j, sha));
  }

  /** A run that ends with an application that fails every time. Peer `i` creates and deletes directory `a`
      with file `a/b`; peer `j` creates a newer file `a`; then `j` can never apply `i`'s manifest. */
  lemma BlockedRun(i: Key, j: Key, id: Key, sha: Text)
    returns (run: seq<State>, local: Manifest, remote: Manifest, t: Tree)
    requires i != j && ValidSha(sha)
    ensures Run(run) && i in run[|run| - 1].peers && j in run[|run| - 1].peers
    ensures local.View() == run[|run| - 1].peers[j].view && remote.View() == run[|run| - 1].peers[i].view
    ensures Stuck(local, t, remote, id)
  {
    run := BlockedStates(i, j, sha);
    local, remote, t := BlockedPair(i, j, id, sha);
  }

  // ----- A symlink that turns back -----------------------------------------------------------------------

  function Linked(): Found { Found(map[], map[], map[A := [98]]) }

  /** The symlink `a`, as peer `j` records it, its wall clock showing 1000. */
  function LinkView(j: Key): Records { map[A := Symlink(LinkEntry([98], Stamp(1000, 0, j)))] }

  /** The tombstone peer `i` records, its wall clock showing 1. */
  function GoneView(i: Key): Records { map[A := Tombstone(TombEntry(Stamp(1, 0, i)))] }

  function Gap0(i: Key, j: Key): State { Start(i, j) }
  function Gap1(i: Key, j: Key): State { After(Gap0(i, j), j, Peer(LinkView(j), Time(1000, 0))) }
  function Gap2(i: Key, j: Key): State { After(Gap1(i, j), i, Peer(LinkView(j), ORIGIN)) }
  function Gap3(i: Key, j: Key): State { After(Gap2(i, j), i, Peer(GoneView(i), Time(1, 0))) }

  lemma GapStep1(i: Key, j: Key)
    requires i != j
    ensures Steps()(Gap0(i, j), Gap1(i, j))
  {
    var e := Env(map[], Linked(), true, ORIGIN, 1000, j);
    forall x ensures !Below(x, A) { BelowHere(x); }
    FirstVersions(e);
    ScanOne(e, A);
    ScanTakes(Gap0(i, j), j, Linked(), 1000, [A], Peer(LinkView(j), Time(1000, 0)));
  }

  /** Receiving a manifest that holds only a symlink observes nothing, so the clock stays behind. */
  lemma GapStep2(i: Key, j: Key)
    requires i != j
    ensures Steps()(Gap1(i, j), Gap2(i, j))
  {
    var v := LinkView(j);
    forall p ensures Get(Applied(map[], v, {}), p) == Get(v, p) { }
    RecordsEqual(Applied(map[], v, {}), v);
    forall x ensures !Below(x, A) { BelowHere(x); }
    assert Step(Gap1(i, j), Receive(i, v, {}), Gap2(i, j));
  }

  lemma GapStep3(i: Key, j: Key)
    requires i != j
    ensures Steps()(Gap2(i, j), Gap3(i, j))
  {
    var e := Env(LinkView(j), Bare(), true, ORIGIN, 1, i);
    FirstVersions(e);
    ScanOne(e, A);
    ScanTakes(Gap2(i, j), i, Bare(), 1, [A], Peer(GoneView(i), Time(1, 0)));
  }

  lemma GapPeers(i: Key, j: Key)
    requires i != j
    ensures i in Gap2(i, j).peers && Gap2(i, j).peers[i] == Peer(LinkView(j), ORIGIN)
    ensures i in Gap3(i, j).peers && Gap3(i, j).peers[i].view == GoneView(i)
    ensures j in Gap3(i, j).peers && Gap3(i, j).peers[j].view == LinkView(j)
  {
  }

  lemma LinkReturns(i: Key, j: Key)
    ensures Dominates(ORIGIN, LinkView(j)) && LiveAt(LinkView(j), A)
    ensures GoneView(i)[A].Tombstone? && Older(GoneView(i)[A].Version(), LinkView(j)[A].Version())
    ensures LiveAt(Merged(GoneView(i), LinkView(j)), A)
  {
    MergedAt(GoneView(i), LinkView(j), A);
  }

  lemma GapStates(i: Key, j: Key) returns (run: seq<State>)
    requires i != j
    ensures Run(run) && |run| == 4 && run[2] == Gap2(i, j) && run[3] == Gap3(i, j)
  {
    GapStep1(i, j);
    GapStep2(i, j);
    GapStep3(i, j);
    run := FourStates(Gap0(i, j), Gap1(i, j), Gap2(i, j), Gap3(i, j));
  }

  /** A run in which a scan turns a symlink back to an older version, although the clock dominates every
      file, directory and tombstone. Peer `j` records a symlink while its wall clock is ahead; peer `i`
      receives it and then deletes it. The tombstone is older than the link, so merging with `j` brings the
      deleted link back. */
  lemma SymlinkGap(i: Key, j: Key) returns (run: seq<State>, p: Path)
    requires i != j
    ensures Run(run) && |run| == 4 && i in run[2].peers && i in run[3].peers && j in run[3].peers
    ensures Dominates(run[2].peers[i].clock, run[2].peers[i].view)
    ensures LiveAt(run[2].peers[i].view, p) && p in run[3].peers[i].view && run[3].peers[i].view[p].Tombstone?
    ensures Older(run[3].peers[i].view[p].Version(), run[2].peers[i].view[p].Version())
    ensures LiveAt(Merged(run[3].peers[i].view, run[3].peers[j].view), p)
  {
    p := A;
    run := GapStates(i, j);
    GapPeers(i, j);
    LinkReturns(i, j);
  }
}
