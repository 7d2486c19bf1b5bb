/** Last-writer-wins selection, the reference merge and its algebra. */
module Merge {
  import opened Bytes
  import opened Clock
  import opened Manifests

  /** `select_record`: the newer version wins, a tombstone wins a tie, otherwise the left side stays. */
  function Select(left: Option<Record>, right: Option<Record>): Option<Record> {
    if left.None? then right
    else if right.None? then left
    else if Older(left.value.Version(), right.value.Version()) then right
    else if left.value.Version() == right.value.Version() && right.value.Tombstone? then right
    else left
  }

  /** `remote_record_wins`, the comparison used when a remote manifest is applied. */
  predicate RemoteWins(local: Option<Record>, remote: Option<Record>) {
    if local.None? then remote.Some?
    else
      && remote.Some?
      && (|| Older(local.value.Version(), remote.value.Version())
          || (&& local.value.Version() == remote.value.Version()
              && remote.value.Tombstone? && !local.value.Tombstone?))
  }

  /** The two comparison functions agree on which record survives. */
  lemma WinsAgreesWithSelect(local: Option<Record>, remote: Option<Record>)
    ensures Select(local, remote) == if RemoteWins(local, remote) then remote else local
  {
  }

  /** The merge of two views, path by path. */
  function Merged(l: Records, r: Records): Records {
    map p | p in l.Keys + r.Keys :: Select(Get(l, p), Get(r, p)).value
  }

  lemma MergedAt(l: Records, r: Records, p: Path)
    ensures Get(Merged(l, r), p) == Select(Get(l, p), Get(r, p))
  {
  }

  // ----- The merge of manifests ------------------------------------------------------

  function Insert(m: Manifest, p: Path, r: Record): (n: Manifest)
    ensures n.share == m.share && n.format == m.format
  {
    match r
    case File(e) => m.(files := m.files[p := e])
    case Directory(e) => m.(dirs := m.dirs[p := e])
    case Symlink(e) => m.(links := m.links[p := e])
    case Tombstone(e) => m.(tombs := m.tombs[p := e])
  }

  lemma RecordsEqual(v: Records, w: Records)
    requires forall p :: Get(v, p) == Get(w, p)
    ensures v == w
  {
    forall p ensures p in v <==> p in w { assert Get(v, p) == Get(w, p); }
    forall p | p in v ensures v[p] == w[p] { assert Get(v, p) == Get(w, p); }
  }

  /** `merged` holds exactly the merge of the two manifests at the visited paths. */
  ghost predicate Collected(local: Manifest, remote: Manifest, merged: Manifest, done: set<Path>) {
    && merged.Disjoint()
    && forall p :: merged.RecordAt(p) == if p in done then Select(local.RecordAt(p), remote.RecordAt(p)) else None
  }

  function InsertSelected(local: Manifest, remote: Manifest, merged: Manifest, p: Path): (n: Manifest)
    ensures n.share == merged.share && n.format == merged.format
  {
    var selected := Select(local.RecordAt(p), remote.RecordAt(p));
    if selected.None? then merged else Insert(merged, p, selected.value)
  }

  lemma InsertAt(m: Manifest, p: Path, r: Record)
    requires m.Disjoint() && m.RecordAt(p).None?
    ensures Insert(m, p, r).Disjoint()
    ensures forall q :: Insert(m, p, r).RecordAt(q) == if q == p then Some(r) else m.RecordAt(q)
  {
    match r
    case File(e) =>
    case Directory(e) =>
    case Symlink(e) =>
    case Tombstone(e) =>
  }

  lemma CollectStep(local: Manifest, remote: Manifest, merged: Manifest, done: set<Path>, p: Path)
    requires p !in done && Collected(local, remote, merged, done)
    ensures Collected(local, remote, InsertSelected(local, remote, merged, p), done + {p})
  {
    var selected := Select(local.RecordAt(p), remote.RecordAt(p));
    assert merged.RecordAt(p) == None;
    if selected.Some? { InsertAt(merged, p, selected.value); }
  }

  lemma CollectNext(local: Manifest, remote: Manifest, merged: Manifest, keys: set<Path>, i: nat)
    requires i < |keys| && Collected(local, remote, merged, Visited(keys, i))
    ensures Collected(local, remote, InsertSelected(local, remote, merged, Ascending(keys)[i]), Visited(keys, i + 1))
  {
    VisitStep(keys, i);
    CollectStep(local, remote, merged, Visited(keys, i), Ascending(keys)[i]);
  }

  lemma CollectedAll(local: Manifest, remote: Manifest, merged: Manifest)
    requires Collected(local, remote, merged, local.Paths() + remote.Paths())
    ensures merged.View() == Merged(local.View(), remote.View())
  {
    forall p ensures Get(merged.View(), p) == Get(Merged(local.View(), remote.View()), p) {
      ViewAt(merged, p);
      ViewAt(local, p);
      ViewAt(remote, p);
      MergedAt(local.View(), remote.View(), p);
    }
    RecordsEqual(merged.View(), Merged(local.View(), remote.View()));
  }

  /** The loop of `merge_manifests`: one selected record is inserted per path. */
  method CollectMerged(local: Manifest, remote: Manifest, now: u64) returns (merged: Manifest)
    ensures merged.Disjoint() && merged.share == local.share && merged.format == FORMAT
    ensures merged.View() == Merged(local.View(), remote.View())
  {
    merged := Empty(local.share, now);
    var keys := local.Paths() + remote.Paths();
    var order := Ascending(keys);
    VisitedAll(keys);
    for i := 0 to |order|
      invariant merged.share == local.share && merged.format == FORMAT
      invariant Collected(local, remote, merged, Visited(keys, i))
    {
      CollectNext(local, remote, merged, keys, i);
      merged := InsertSelected(local, remote, merged, order[i]);
    }
    CollectedAll(local, remote, merged);
  }

  /** `merge_manifests`: succeeds exactly when both inputs are valid and the merged view still has
      a sound hierarchy and a supported size, and then returns that view. */
  method MergeManifests(local: Manifest, remote: Manifest, now: u64) returns (r: Option<Manifest>)
    ensures r.Some? <==>
      && Valid(local, local.share) && Valid(remote, local.share)
      && HierarchyOk(Merged(local.View(), remote.View()))
      && |Merged(local.View(), remote.View())| <= MAX_ENTRIES
    ensures r.Some? ==> r.value.View() == Merged(local.View(), remote.View())
    ensures r.Some? ==> Valid(r.value, local.share)
  {
    var ok := Validate(local, local.share);
    if !ok { return None; }
    ok := Validate(remote, local.share);
    if !ok { return None; }
    var merged := CollectMerged(local, remote, now);
    MergedFields(local.View(), remote.View());
    TotalIsViewSize(merged);
    ok := Validate(merged, local.share);
    r := if ok then Some(merged) else None;
  }

  lemma MergedFields(l: Records, r: Records)
    requires FieldsOk(l) && FieldsOk(r)
    ensures FieldsOk(Merged(l, r))
  {
    forall p | p in Merged(l, r) ensures ValidPath(p) && ValidRecord(Merged(l, r)[p]) {
      MergedAt(l, r, p);
    }
  }

  // ----- Algebra ---------------------------------------------------------------------

  lemma MergeIdempotent(v: Records)
    ensures Merged(v, v) == v
  {
  }

  lemma SelectAssociative(a: Option<Record>, b: Option<Record>, c: Option<Record>)
    ensures Select(Select(a, b), c) == Select(a, Select(b, c))
  {
    if a.Some? && b.Some? && c.Some? {
      var x, y, z := a.value.Version(), b.value.Version(), c.value.Version();
      OlderTrichotomy(x, y);
      OlderTrichotomy(y, z);
      OlderTrichotomy(x, z);
      if Older(x, y) && Older(y, z) { OlderTransitive(x, y, z); }
      if Older(z, y) && Older(y, x) { OlderTransitive(z, y, x); }
    }
  }

  /** Associativity needs no hypothesis. */
  lemma MergeAssociative(u: Records, v: Records, w: Records)
    ensures Merged(Merged(u, v), w) == Merged(u, Merged(v, w))
  {
    forall p ensures Get(Merged(Merged(u, v), w), p) == Get(Merged(u, Merged(v, w)), p) {
      MergedAt(u, v, p);
      MergedAt(Merged(u, v), w, p);
      MergedAt(v, w, p);
      MergedAt(u, Merged(v, w), p);
      SelectAssociative(Get(u, p), Get(v, p), Get(w, p));
    }
    RecordsEqual(Merged(Merged(u, v), w), Merged(u, Merged(v, w)));
  }

  /** Live records that share a path and a version also share their synchronised fields. */
  ghost predicate LiveTiesAgree(v: Records, w: Records) {
    forall p :: p in v && p in w && v[p].Version() == w[p].Version() && v[p].Live() && w[p].Live()
      ==> v[p].Synced() == w[p].Synced()
  }

  lemma SelectCommutes(a: Option<Record>, b: Option<Record>)
    requires a.Some? && b.Some?
    ensures Select(a, b).value.Synced() == Select(b, a).value.Synced() <==>
      ((a.value.Version() == b.value.Version() && a.value.Live() && b.value.Live()) ==>
        a.value.Synced() == b.value.Synced())
  {
    OlderTrichotomy(a.value.Version(), b.value.Version());
  }

  /** Ties are broken towards the left, so merging commutes on synchronised state exactly when
      live ties agree. */
  lemma MergeCommutesIff(v: Records, w: Records)
    ensures SameState(Merged(v, w), Merged(w, v)) <==> LiveTiesAgree(v, w)
  {
    var a, b := Merged(v, w), Merged(w, v);
    assert a.Keys == b.Keys;
    forall p | p in v && p in w
      ensures a[p].Synced() == b[p].Synced() <==>
        (v[p].Version() == w[p].Version() && v[p].Live() && w[p].Live() ==> v[p].Synced() == w[p].Synced())
    {
      MergedAt(v, w, p);
      MergedAt(w, v, p);
      SelectCommutes(Get(v, p), Get(w, p));
    }
    assert forall p :: p in a && !(p in v && p in w) ==> a[p] == b[p];
    assert forall p :: p in v && p in w ==> p in a;
  }

  /** A concrete tie that does not commute: two different symlinks under one version. */
  lemma MergeDoesNotAlwaysCommute()
    ensures exists v: Records, w: Records :: !SameState(Merged(v, w), Merged(w, v))
  {
    var s := Stamp(1, 0, ZERO_KEY);
    var p: Path := [97];
    var v: Records := map[p := Symlink(LinkEntry([98], s))];
    var w: Records := map[p := Symlink(LinkEntry([99], s))];
    assert v[p].Synced() != w[p].Synced();
    MergeCommutesIff(v, w);
    assert !SameState(Merged(v, w), Merged(w, v));
  }

  /** The merge is at least as new as either side at every path. */
  lemma MergeIsUpperBound(v: Records, w: Records, p: Path)
    ensures p in v ==> p in Merged(v, w) && NotNewer(v[p].Version(), Merged(v, w)[p].Version())
    ensures p in w ==> p in Merged(v, w) && NotNewer(w[p].Version(), Merged(v, w)[p].Version())
  {
    MergedAt(v, w, p);
    if p in v && p in w { OlderTrichotomy(v[p].Version(), w[p].Version()); }
  }
}
