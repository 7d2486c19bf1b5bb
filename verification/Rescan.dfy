/** The whole scan of a share: fast path, four passes, validation, and the saves that follow. */
module Rescan {
  import opened Bytes
  import opened Clock
  import opened Manifests
  import opened Merge
  import opened Scan
  import opened ScanLaws
  import opened Shares

  // ----- The visiting order -------------------------------------------------------------------------

  function LiveOrder(prior: Manifest): seq<Path> {
    Ascending(prior.files.Keys) + Ascending(prior.dirs.Keys) + Ascending(prior.links.Keys)
  }

  ghost predicate Distinct(s: seq<Path>) { forall i, j :: 0 <= i < j < |s| ==> s[i] != s[j] }

  lemma AscendingDistinct(keys: set<Path>)
    ensures Distinct(Ascending(keys)) && Enumerates(Ascending(keys), keys)
  {
  }

  lemma ConcatDistinct(a: seq<Path>, ka: set<Path>, b: seq<Path>, kb: set<Path>)
    requires Distinct(a) && Enumerates(a, ka) && Distinct(b) && Enumerates(b, kb) && ka !! kb
    ensures Distinct(a + b) && Enumerates(a + b, ka + kb)
  {
  }

  lemma ThreeDistinct(a: set<Path>, b: set<Path>, c: set<Path>)
    requires a !! b && a !! c && b !! c
    ensures Distinct(Ascending(a) + Ascending(b) + Ascending(c))
    ensures Enumerates(Ascending(a) + Ascending(b) + Ascending(c), a + b + c)
  {
    AscendingDistinct(a);
    AscendingDistinct(b);
    AscendingDistinct(c);
    ConcatDistinct(Ascending(a), a, Ascending(b), b);
    ConcatDistinct(Ascending(a) + Ascending(b), a + b, Ascending(c), c);
  }

  /** The keys of the three discovered maps, and the previously live paths. */
  ghost predicate Lists(e: Env, f: seq<Path>, d: seq<Path>, k: seq<Path>, l: seq<Path>) {
    && Distinct(f + d + k) && Distinct(l)
    && Enumerates(f, e.found.files.Keys) && Enumerates(d, e.found.dirs.Keys) && Enumerates(k, e.found.links.Keys)
    && (forall i :: 0 <= i < |l| ==> LiveAt(e.prior, l[i])) && (forall p :: LiveAt(e.prior, p) ==> p in l)
  }

  /** Discovered paths first, then previously live ones: only discovered paths come twice. */
  lemma OrderlyLists(e: Env, f: seq<Path>, d: seq<Path>, k: seq<Path>, l: seq<Path>)
    requires Lists(e, f, d, k, l)
    ensures Orderly(e, f + d + k + l) && forall p :: Relevant(e, p) ==> p in f + d + k + l
  {
  }

  lemma FileSection(e: Env, f: seq<Path>, d: seq<Path>, k: seq<Path>, l: seq<Path>)
    requires Lists(e, f, d, k, l)
    ensures Section(Files, e, f + d + k + l, 0, |f|)
  {
  }

  lemma DirSection(e: Env, f: seq<Path>, d: seq<Path>, k: seq<Path>, l: seq<Path>)
    requires Lists(e, f, d, k, l)
    ensures Section(Dirs, e, f + d + k + l, |f|, |f + d|)
  {
  }

  lemma LinkSection(e: Env, f: seq<Path>, d: seq<Path>, k: seq<Path>, l: seq<Path>)
    requires Lists(e, f, d, k, l)
    ensures Section(Links, e, f + d + k + l, |f + d|, |f + d + k|)
  {
  }

  lemma VanishedSection(e: Env, f: seq<Path>, d: seq<Path>, k: seq<Path>, l: seq<Path>)
    requires Lists(e, f, d, k, l)
    ensures Section(Vanished, e, f + d + k + l, |f + d + k|, |f + d + k + l|)
  {
  }

  // ----- All passes ------------------------------------------------------------------------------------

  function Then(pass: Pass, e: Env, prior: Manifest, b: Option<Built>, keys: seq<Path>): Option<Built> {
    if b.None? then None else PassSteps(pass, e, prior, b.value, keys)
  }

  /** The four passes in their order. */
  function AllPasses(e: Env, prior: Manifest, b: Built, f: seq<Path>, d: seq<Path>, k: seq<Path>,
                     l: seq<Path>): Option<Built> {
    Then(Vanished, e, prior, Then(Links, e, prior, Then(Dirs, e, prior, PassSteps(Files, e, prior, b, f), d), k), l)
  }

  lemma ThenFollows(pass: Pass, e: Env, prior: Manifest, order: seq<Path>, lo: nat, hi: nat, b: Option<Built>)
    requires Matches(e, prior) && Section(pass, e, order, lo, hi) && Follows(e, order, lo, b)
    ensures Follows(e, order, hi, Then(pass, e, prior, b, order[lo..hi]))
  {
    if b.Some? { PassTracks(pass, e, prior, order, lo, hi, b.value); }
  }

  /** The passes compute the fold over the whole visiting order, or fail because the clock overflows. */
  lemma AllPassesFollow(e: Env, prior: Manifest, b: Built, f: seq<Path>, d: seq<Path>, k: seq<Path>, l: seq<Path>)
    requires Matches(e, prior) && Lists(e, f, d, k, l) && Tracks(e, [], b)
    ensures var order := f + d + k + l; Follows(e, order, |order|, AllPasses(e, prior, b, f, d, k, l))
  {
    var order := f + d + k + l;
    var n0, n1, n2 := |f|, |f + d|, |f + d + k|;
    assert order[..0] == [];
    assert order[0..n0] == f && order[n0..n1] == d && order[n1..n2] == k && order[n2..|order|] == l;
    FileSection(e, f, d, k, l);
    DirSection(e, f, d, k, l);
    LinkSection(e, f, d, k, l);
    VanishedSection(e, f, d, k, l);
    var b0 := PassSteps(Files, e, prior, b, f);
    ThenFollows(Files, e, prior, order, 0, n0, Some(b));
    var b1 := Then(Dirs, e, prior, b0, d);
    ThenFollows(Dirs, e, prior, order, n0, n1, b0);
    var b2 := Then(Links, e, prior, b1, k);
    ThenFollows(Links, e, prior, order, n1, n2, b1);
    ThenFollows(Vanished, e, prior, order, n2, |order|, b2);
  }

  lemma ListsOf(e: Env, prior: Manifest)
    requires Matches(e, prior)
    ensures Lists(e, Ascending(e.found.files.Keys), Ascending(e.found.dirs.Keys), Ascending(e.found.links.Keys),
                  LiveOrder(prior))
  {
    ThreeDistinct(e.found.files.Keys, e.found.dirs.Keys, e.found.links.Keys);
    AscendingOrder(e.found.files.Keys);
    AscendingOrder(e.found.dirs.Keys);
    AscendingOrder(e.found.links.Keys);
    ThreeDistinct(prior.files.Keys, prior.dirs.Keys, prior.links.Keys);
    LiveListed(e, prior, LiveOrder(prior));
  }

  lemma LiveListed(e: Env, prior: Manifest, l: seq<Path>)
    requires e.prior == prior.View() && Enumerates(l, prior.LivePaths())
    ensures (forall i :: 0 <= i < |l| ==> LiveAt(e.prior, l[i])) && (forall p :: LiveAt(e.prior, p) ==> p in l)
  {
  }

  /** Before the passes: no live records, the previous tombstones. */
  function Start(prior: Manifest, clock: Time, now: u64): Built {
    Built(Manifest(FORMAT, prior.share, now, map[], map[], map[], prior.tombs), 0, clock)
  }

  lemma StartTracks(e: Env, prior: Manifest)
    requires Matches(e, prior)
    ensures Tracks(e, [], Start(prior, e.clock, e.now))
  {
    var b := Start(prior, e.clock, e.now);
    forall q ensures b.m.RecordAt(q) == Get(OldTombs(e.prior), q) { ViewAt(prior, q); }
  }

  function Passes(e: Env, prior: Manifest): Option<Built> {
    AllPasses(e, prior, Start(prior, e.clock, e.now), Ascending(e.found.files.Keys), Ascending(e.found.dirs.Keys),
              Ascending(e.found.links.Keys), LiveOrder(prior))
  }

  method RunPasses(e: Env, prior: Manifest) returns (ok: bool, b: Built)
    ensures Passes(e, prior) == if ok then Some(b) else None
  {
    var clock := new ClockState(e.clock);
    var m, changes;
    b := Start(prior, e.clock, e.now);
    ok, m, changes := RunPass(Files, e, prior, Ascending(e.found.files.Keys), clock, b.m, 0);
    if !ok { return; }
    ok, m, changes := RunPass(Dirs, e, prior, Ascending(e.found.dirs.Keys), clock, m, changes);
    if !ok { return; }
    ok, m, changes := RunPass(Links, e, prior, Ascending(e.found.links.Keys), clock, m, changes);
    if !ok { return; }
    ok, m, changes := RunPass(Vanished, e, prior, LiveOrder(prior), clock, m, changes);
    b := Built(m, changes, clock.Value());
  }

  lemma {:induction false} DistinctSize(s: seq<Path>)
    requires Distinct(s)
    ensures |Elements(s)| == |s|
  {
    if s != [] {
      var front, x := s[..|s| - 1], s[|s| - 1];
      assert s == front + [x];
      DistinctSize(front);
      assert Elements(s) == Elements(front) + {x} && x !in Elements(front);
    }
  }

  lemma TickedIsChanged(e: Env, ticked: seq<Path>, v: Records)
    requires ScanResult(e, ticked, v)
    ensures |ticked| == |Changed(e)|
  {
    assert Elements(ticked) == Changed(e);
    DistinctSize(ticked);
  }

  lemma {:induction false} SameShare(pass: Pass, e: Env, prior: Manifest, b: Built, keys: seq<Path>)
    ensures var r := PassSteps(pass, e, prior, b, keys);
      r.Some? ==> r.value.m.share == b.m.share && r.value.m.format == b.m.format
  {
    if keys != [] { SameShare(pass, e, prior, b, keys[..|keys| - 1]); }
  }

  lemma PassesHeader(e: Env, prior: Manifest)
    ensures Passes(e, prior).Some? ==>
      Passes(e, prior).value.m.share == prior.share && Passes(e, prior).value.m.format == FORMAT
  {
    var b := Start(prior, e.clock, e.now);
    var f, d, k := Ascending(e.found.files.Keys), Ascending(e.found.dirs.Keys), Ascending(e.found.links.Keys);
    SameShare(Files, e, prior, b, f);
    var b0 := PassSteps(Files, e, prior, b, f);
    if b0.Some? { SameShare(Dirs, e, prior, b0.value, d); }
    var b1 := Then(Dirs, e, prior, b0, d);
    if b1.Some? { SameShare(Links, e, prior, b1.value, k); }
    var b2 := Then(Links, e, prior, b1, k);
    if b2.Some? { SameShare(Vanished, e, prior, b2.value, LiveOrder(prior)); }
  }

  /** What the passes mean. */
  lemma PassesResult(e: Env, prior: Manifest) returns (ticked: seq<Path>)
    requires Matches(e, prior)
    ensures Passes(e, prior).None? ==> NthTick(e.clock, e.now, |Changed(e)|).None?
    ensures Passes(e, prior).Some? ==>
      var b := Passes(e, prior).value;
      && b.m.Disjoint() && ScanResult(e, ticked, b.m.View())
      && b.changes == |ticked| == |Changed(e)| && NthTick(e.clock, e.now, |ticked|) == Some(b.clock)
  {
    var f, d, k, l :=
      Ascending(e.found.files.Keys), Ascending(e.found.dirs.Keys), Ascending(e.found.links.Keys), LiveOrder(prior);
    ListsOf(e, prior);
    StartTracks(e, prior);
    AllPassesFollow(e, prior, Start(prior, e.clock, e.now), f, d, k, l);
    OrderlyLists(e, f, d, k, l);
    ticked := FollowsMeans(e, f + d + k + l, Passes(e, prior));
  }

  lemma FollowsMeans(e: Env, order: seq<Path>, r: Option<Built>) returns (ticked: seq<Path>)
    requires Orderly(e, order) && (forall p :: Relevant(e, p) ==> p in order) && Follows(e, order, |order|, r)
    ensures r.None? ==> NthTick(e.clock, e.now, |Changed(e)|).None?
    ensures r.Some? ==>
      && r.value.m.Disjoint() && ScanResult(e, ticked, r.value.m.View())
      && r.value.changes == |ticked| == |Changed(e)| && NthTick(e.clock, e.now, |ticked|) == Some(r.value.clock)
  {
    ScannedAll(e, order);
    ticked := Scanned(e, order).ticked;
    TickedIsChanged(e, ticked, Scanned(e, order).view);
    assert order[..|order|] == order;
    if r.Some? { TracksView(e, order, r.value); }
  }

  lemma TracksView(e: Env, order: seq<Path>, b: Built)
    requires Tracks(e, order, b)
    ensures b.m.View() == Scanned(e, order).view
  {
    forall p ensures Get(b.m.View(), p) == Get(Scanned(e, order).view, p) {
      ViewAt(b.m, p);
      assert b.m.RecordAt(p) == Get(Scanned(e, order).view, p);
    }
    RecordsEqual(b.m.View(), Scanned(e, order).view);
  }

  // ----- The scan -----------------------------------------------------------------------------------------

  datatype Report = Report(manifest: Manifest, clock: Time, changes: nat, manifestChanged: bool)

  function EnvOf(prior: Manifest, found: Found, clock: Time, now: u64, author: Key): Env {
    Env(prior.View(), found, prior.format != LEGACY_FORMAT, clock, now, author)
  }

  /** The counter leaves room for every change, and the result is not too large. */
  ghost predicate Scannable(e: Env) {
    NthTick(e.clock, e.now, |Changed(e)|).Some? && |e.prior.Keys + e.found.Paths()| <= MAX_ENTRIES
  }

  lemma ResultValid(e: Env, ticked: seq<Path>, m: Manifest, share: Key)
    requires m.Disjoint() && m.share == share && m.format == FORMAT && ScanResult(e, ticked, m.View())
    requires e.found.Disjoint() && e.found.Closed() && e.found.FieldsOk() && FieldsOk(e.prior)
    ensures Valid(m, share) <==> |e.prior.Keys + e.found.Paths()| <= MAX_ENTRIES
  {
    ScanHierarchy(e, ticked, m.View());
    ScanFields(e, ticked, m.View());
    ScanPaths(e, ticked, m.View());
    TotalIsViewSize(m);
    assert |m.View()| == |m.View().Keys|;
  }

  lemma FastResult(e: Env, prior: Manifest)
    requires Matches(e, prior) && MatchesPrevious(prior, e.found, e.unknown) && prior.Total() <= MAX_ENTRIES
    ensures ScanResult(e, [], e.prior) && Scannable(e)
  {
    FastPathExact(e, prior);
    TickedIsChanged(e, [], e.prior);
    ScanPaths(e, [], e.prior);
    TotalIsViewSize(prior);
    assert |prior.View()| == |prior.View().Keys|;
  }

  ghost predicate Reports(e: Env, prior: Manifest, ticked: seq<Path>, r: Report) {
    && Valid(r.manifest, prior.share) && r.manifest.format == FORMAT
    && ScanResult(e, ticked, r.manifest.View())
    && r.changes == |ticked| && NthTick(e.clock, e.now, |ticked|) == Some(r.clock)
    && (r.manifestChanged <==> prior.format != FORMAT || prior.View() != r.manifest.View())
  }

  /** `scan_manifest`: the result describes the discovered tree; for a tree as a walk finds it, the
      only failures are clock overflow and too many entries. */
  method ScanManifest(prior: Manifest, found: Found, clock: Time, now: u64, author: Key)
    returns (r: Option<Report>, ghost ticked: seq<Path>)
    requires Valid(prior, prior.share) && found.Disjoint()
    ensures r.Some? ==> Reports(EnvOf(prior, found, clock, now, author), prior, ticked, r.value)
    ensures found.Closed() && found.FieldsOk() ==> (r.Some? <==> Scannable(EnvOf(prior, found, clock, now, author)))
  {
    var e := EnvOf(prior, found, clock, now, author);
    if MatchesPrevious(prior, found, e.unknown) {
      FastResult(e, prior);
      ticked := [];
      r := Some(Report(prior, clock, 0, false));
      return;
    }
    var ok, b := RunPasses(e, prior);
    ticked := PassesResult(e, prior);
    if !ok { return None, ticked; }
    PassesHeader(e, prior);
    var valid := Validate(b.m, prior.share);
    if found.Closed() && found.FieldsOk() { ResultValid(e, ticked, b.m, prior.share); }
    if !valid { return None, ticked; }
    var changed := prior.format != FORMAT || prior.files != b.m.files || prior.dirs != b.m.dirs
                   || prior.links != b.m.links || prior.tombs != b.m.tombs;
    SameMaps(prior, b.m);
    r := Some(Report(b.m, b.clock, b.changes, changed));
  }

  lemma SameMaps(m: Manifest, n: Manifest)
    requires m.Disjoint() && n.Disjoint()
    ensures m.View() == n.View() <==> m.files == n.files && m.dirs == n.dirs && m.links == n.links && m.tombs == n.tombs
  {
    if m.View() == n.View() { ViewDetermines(m, n); }
    if m.files == n.files && m.dirs == n.dirs && m.links == n.links && m.tombs == n.tombs { MapsGiveView(m, n); }
  }

  /** `scan_and_save`: the clock is saved first, then the manifest; a failed scan saves nothing. A
      dominating clock stays dominating. */
  method ScanAndSave(share: Share, found: Found, now: u64, author: Key) returns (ok: bool, ghost ticked: seq<Path>)
    requires Valid(share.manifest, share.id) && found.Disjoint()
    modifies share`manifest, share`clock
    ensures Valid(share.manifest, share.id)
    ensures ok ==>
      ScanResult(old(EnvOf(share.manifest, found, share.clock, now, author)), ticked, share.manifest.View())
    ensures ok ==> NthTick(old(share.clock), now, |ticked|) == Some(share.clock)
    ensures !ok ==> share.manifest == old(share.manifest) && share.clock == old(share.clock)
    ensures found.Closed() && found.FieldsOk() ==>
      (ok <==> Scannable(old(EnvOf(share.manifest, found, share.clock, now, author))))
    ensures Dominates(old(share.clock), old(share.manifest.View())) ==> Dominates(share.clock, share.manifest.View())
  {
    var r;
    ghost var e := EnvOf(share.manifest, found, share.clock, now, author);
    r, ticked := ScanManifest(share.manifest, found, share.clock, now, author);
    ok := r.Some?;
    if !ok { return; }
    if Dominates(e.clock, e.prior) { ScanDominates(e, ticked, r.value.manifest.View(), r.value.clock); }
    if r.value.changes > 0 { share.clock := r.value.clock; }
    if r.value.manifestChanged { share.manifest := r.value.manifest; }
  }
}
