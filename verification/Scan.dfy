/** The scan: a discovered directory tree, the previous manifest and the clock give the next manifest. */
module Scan {
  import opened Bytes
  import opened Chains
  import opened Clock
  import opened Manifests

  datatype FoundFile = FoundFile(size: u64, mtime: u64, sha: Text, perms: Option<u16>)

  /** What a walk of the directory discovered. */
  datatype Found = Found(files: map<Path, FoundFile>, dirs: map<Path, Option<u16>>, links: map<Path, Text>) {
    function Paths(): set<Path> { files.Keys + dirs.Keys + links.Keys }

    predicate Disjoint() { files.Keys !! dirs.Keys && files.Keys !! links.Keys && dirs.Keys !! links.Keys }

    /** A walk reaches a path only through directories. */
    ghost predicate Closed() { forall a, p :: p in Paths() && Below(a, p) ==> a in dirs }

    predicate FieldsOk() {
      && (forall p :: p in Paths() ==> ValidPath(p))
      && (forall p :: p in files ==> ValidSha(files[p].sha) && ValidPerms(files[p].perms))
      && (forall p :: p in dirs ==> ValidPerms(dirs[p]))
      && (forall p :: p in links ==> ValidTarget(links[p]))
    }

    /** What a walk of a directory can find. */
    ghost predicate Walkable() { Disjoint() && Closed() && FieldsOk() }
  }

  predicate PermsMatch(left: Option<u16>, right: Option<u16>, unknownMatches: bool) {
    (unknownMatches && (left.None? || right.None?)) || left == right
  }

  predicate SameFile(e: FileEntry, f: FoundFile, unknown: bool) {
    e.size == f.size && e.sha == f.sha && PermsMatch(e.perms, f.perms, unknown)
  }

  // ----- What a scan decides at one path --------------------------------------------------------

  predicate Unchanged(prior: Option<Record>, found: Found, unknown: bool, p: Path) {
    if p in found.files then prior.Some? && prior.value.File? && SameFile(prior.value.file, found.files[p], unknown)
    else if p in found.dirs then
      prior.Some? && prior.value.Directory? && PermsMatch(prior.value.dir.perms, found.dirs[p], unknown)
    else if p in found.links then prior.Some? && prior.value.Symlink? && prior.value.link.target == found.links[p]
    else !(prior.Some? && prior.value.Live())
  }

  /** An unchanged record keeps everything but a file's modification time. */
  function Refreshed(prior: Option<Record>, found: Found, p: Path): (r: Option<Record>)
    ensures r.Some? <==> prior.Some?
    ensures r.Some? ==> r.value.Synced() == prior.value.Synced() && r.value.Version() == prior.value.Version()
  {
    if p in found.files && prior.Some? && prior.value.File?
    then Some(File(prior.value.file.(mtime := found.files[p].mtime)))
    else prior
  }

  /** A changed path takes what was discovered there, or becomes a tombstone. */
  function Renewed(found: Found, p: Path, version: Stamp): (r: Record)
    ensures r.Version() == version
    ensures r.Live() <==> p in found.Paths()
  {
    if p in found.files then
      var f := found.files[p];
      File(FileEntry(f.size, f.mtime, f.sha, f.perms, version))
    else if p in found.dirs then Directory(DirEntry(found.dirs[p], version))
    else if p in found.links then Symlink(LinkEntry(found.links[p], version))
    else Tombstone(TombEntry(version))
  }

  /** Everything a scan depends on. */
  datatype Env = Env(prior: Records, found: Found, unknown: bool, clock: Time, now: u64, author: Key)

  /** The version issued by the `n`-th tick. */
  function Issue(e: Env, n: nat): (s: Stamp)
    ensures s.author == e.author
    ensures NthTick(e.clock, e.now, n).Some? ==> TimeOf(s) == NthTick(e.clock, e.now, n).value
  {
    var t := NthTick(e.clock, e.now, n);
    if t.Some? then Stamp(t.value.wall, t.value.counter, e.author) else Stamp(0, 0, e.author)
  }

  function StampAt(t: Time, author: Key): Stamp { Stamp(t.wall, t.counter, author) }

  predicate Same(e: Env, p: Path) { Unchanged(Get(e.prior, p), e.found, e.unknown, p) }

  /** The changed paths. */
  function Changed(e: Env): set<Path> { set p | p in e.prior.Keys + e.found.Paths() && !Same(e, p) }

  /** `v` is the outcome of a scan that ticked at the paths `ticked`, in this order: exactly the changed
      paths, each once; the `i`-th gets the `i`-th version, every other path keeps its record. */
  ghost predicate ScanResult(e: Env, ticked: seq<Path>, v: Records) {
    && (forall i, j :: 0 <= i < j < |ticked| ==> ticked[i] != ticked[j])
    && (forall p :: p in ticked <==> !Same(e, p))
    && (forall i :: 0 <= i < |ticked| ==>
          Get(v, ticked[i]) == Some(Renewed(e.found, ticked[i], Issue(e, i + 1))))
    && (forall p :: p !in ticked ==> Get(v, p) == Refreshed(Get(e.prior, p), e.found, p))
  }

  // ----- The passes as a fold over the visited paths ----------------------------------------------

  datatype Progress = Progress(view: Records, ticked: seq<Path>)

  function OldTombs(prior: Records): Records { map p | p in prior && prior[p].Tombstone? :: prior[p] }

  predicate LiveAt(v: Records, p: Path) { p in v && v[p].Live() }

  function Visit(e: Env, s: Progress, p: Path): Progress {
    if LiveAt(s.view, p) then s
    else if !Same(e, p) then
      Progress(s.view[p := Renewed(e.found, p, Issue(e, |s.ticked| + 1))], s.ticked + [p])
    else if p in e.prior then s.(view := s.view[p := Refreshed(Get(e.prior, p), e.found, p).value])
    else s
  }

  function Scanned(e: Env, order: seq<Path>): Progress {
    if order == [] then Progress(OldTombs(e.prior), [])
    else Visit(e, Scanned(e, order[..|order| - 1]), order[|order| - 1])
  }

  /** The outcome as far as the visited paths `done` go. */
  ghost predicate Partial(e: Env, done: set<Path>, s: Progress) {
    && (forall i, j :: 0 <= i < j < |s.ticked| ==> s.ticked[i] != s.ticked[j])
    && (forall p :: p in s.ticked <==> p in done && !Same(e, p))
    && (forall i :: 0 <= i < |s.ticked| ==>
          Get(s.view, s.ticked[i]) == Some(Renewed(e.found, s.ticked[i], Issue(e, i + 1))))
    && (forall p :: p in done && Same(e, p) ==> Get(s.view, p) == Refreshed(Get(e.prior, p), e.found, p))
    && (forall p :: p !in done ==> Get(s.view, p) == Get(OldTombs(e.prior), p))
  }

  /** A path is worth visiting when it was discovered or was live before. */
  predicate Relevant(e: Env, p: Path) { p in e.found.Paths() || LiveAt(e.prior, p) }

  /** A discovered path is live once visited, so visiting it again changes nothing. */
  lemma StillLive(e: Env, done: set<Path>, s: Progress, p: Path)
    requires Partial(e, done, s) && p in done && p in e.found.Paths()
    ensures LiveAt(s.view, p) && Visit(e, s, p) == s
  {
  }

  lemma VisitSame(e: Env, done: set<Path>, s: Progress, p: Path, t: Progress)
    requires Partial(e, done, s) && p !in done && Same(e, p)
    requires t.ticked == s.ticked && Get(t.view, p) == Refreshed(Get(e.prior, p), e.found, p)
    requires forall q :: q != p ==> Get(t.view, q) == Get(s.view, q)
    ensures Partial(e, done + {p}, t)
  {
    forall i | 0 <= i < |t.ticked|
      ensures Get(t.view, t.ticked[i]) == Some(Renewed(e.found, t.ticked[i], Issue(e, i + 1)))
    {
      assert t.ticked[i] in s.ticked;
    }
  }

  lemma VisitChanged(e: Env, done: set<Path>, s: Progress, p: Path, t: Progress)
    requires Partial(e, done, s) && p !in done && !Same(e, p)
    requires t.ticked == s.ticked + [p] && Get(t.view, p) == Some(Renewed(e.found, p, Issue(e, |s.ticked| + 1)))
    requires forall q :: q != p ==> Get(t.view, q) == Get(s.view, q)
    ensures Partial(e, done + {p}, t)
  {
    forall i | 0 <= i < |t.ticked|
      ensures Get(t.view, t.ticked[i]) == Some(Renewed(e.found, t.ticked[i], Issue(e, i + 1)))
    {
      if i < |s.ticked| { assert t.ticked[i] == s.ticked[i] && s.ticked[i] in s.ticked; }
    }
  }

  lemma VisitNew(e: Env, done: set<Path>, s: Progress, p: Path) returns (t: Progress)
    requires Partial(e, done, s) && p !in done && Relevant(e, p)
    ensures t == Visit(e, s, p) && Partial(e, done + {p}, t)
  {
    t := Visit(e, s, p);
    assert Get(s.view, p) == Get(OldTombs(e.prior), p);
    if Same(e, p) { VisitSame(e, done, s, p, t); } else { VisitChanged(e, done, s, p, t); }
  }

  /** Only discovered paths may be visited twice. */
  ghost predicate Orderly(e: Env, order: seq<Path>) {
    && (forall i :: 0 <= i < |order| ==> Relevant(e, order[i]))
    && (forall i, j :: 0 <= i < j < |order| && order[i] == order[j] ==> order[i] in e.found.Paths())
  }

  lemma {:induction false} ScannedPartial(e: Env, order: seq<Path>)
    requires Orderly(e, order)
    ensures Partial(e, Elements(order), Scanned(e, order))
  {
    if order == [] {
      assert Elements(order) == {};
    } else {
      var front, p := order[..|order| - 1], order[|order| - 1];
      ScannedPartial(e, front);
      ScannedNext(e, front, p, order);
    }
  }

  lemma ScannedNext(e: Env, front: seq<Path>, p: Path, order: seq<Path>)
    requires order == front + [p] && Orderly(e, order)
    requires Partial(e, Elements(front), Scanned(e, front))
    ensures Partial(e, Elements(order), Visit(e, Scanned(e, front), p))
  {
    assert Elements(order) == Elements(front) + {p};
    assert order[|front|] == p && Relevant(e, order[|front|]);
    if p in front {
      var i :| 0 <= i < |front| && front[i] == p;
      assert order[i] == order[|front|];
      assert Elements(order) == Elements(front);
      StillLive(e, Elements(front), Scanned(e, front), p);
    } else {
      var t := VisitNew(e, Elements(front), Scanned(e, front), p);
    }
  }

  /** Visiting every relevant path gives the outcome. */
  lemma ScannedAll(e: Env, order: seq<Path>)
    requires Orderly(e, order) && forall p :: Relevant(e, p) ==> p in order
    ensures ScanResult(e, Scanned(e, order).ticked, Scanned(e, order).view)
  {
    var s := Scanned(e, order);
    ScannedPartial(e, order);
    forall p ensures p in s.ticked <==> !Same(e, p) {
      if !Same(e, p) { assert p in order; }
    }
    forall p | p !in s.ticked ensures Get(s.view, p) == Refreshed(Get(e.prior, p), e.found, p) {
      if p !in order { assert Get(s.view, p) == Get(OldTombs(e.prior), p); }
    }
  }

  // ----- The four passes -------------------------------------------------------------------------

  datatype Pass = Files | Dirs | Links | Vanished

  /** The maps under construction, the number of changes and the clock. */
  datatype Built = Built(m: Manifest, changes: nat, clock: Time)

  /** The previous record a pass reuses at a path. */
  function Reused(pass: Pass, e: Env, prior: Manifest, p: Path): Option<Record> {
    match pass
    case Files =>
      if p in e.found.files && p in prior.files && SameFile(prior.files[p], e.found.files[p], e.unknown)
      then Some(File(prior.files[p].(mtime := e.found.files[p].mtime))) else None
    case Dirs =>
      if p in e.found.dirs && p in prior.dirs && PermsMatch(prior.dirs[p].perms, e.found.dirs[p], e.unknown)
      then Some(Directory(prior.dirs[p])) else None
    case Links =>
      if p in e.found.links && p in prior.links && prior.links[p].target == e.found.links[p]
      then Some(Symlink(prior.links[p])) else None
    case Vanished => None
  }

  /** How a pass enters a record into the maps. */
  function Place(m: Manifest, p: Path, r: Record): (n: Manifest)
    ensures n.share == m.share && n.format == m.format
  {
    match r
    case File(e) => m.(tombs := m.tombs - {p}, links := m.links - {p}, files := m.files[p := e])
    case Directory(e) => m.(tombs := m.tombs - {p}, links := m.links - {p}, dirs := m.dirs[p := e])
    case Symlink(e) => m.(tombs := m.tombs - {p}, links := m.links[p := e])
    case Tombstone(e) => m.(tombs := m.tombs[p := e])
  }

  function PassStep(pass: Pass, e: Env, prior: Manifest, b: Built, p: Path): Option<Built> {
    if pass.Vanished? && p in b.m.LivePaths() then Some(b)
    else
      var reused, next := Reused(pass, e, prior, p), Ticked(b.clock, e.now);
      if reused.Some? then Some(b.(m := Place(b.m, p, reused.value)))
      else if next.None? then None
      else Some(Built(Place(b.m, p, Renewed(e.found, p, StampAt(next.value, e.author))), b.changes + 1, next.value))
  }

  function PassSteps(pass: Pass, e: Env, prior: Manifest, b: Built, keys: seq<Path>): Option<Built> {
    if keys == [] then Some(b)
    else
      var before := PassSteps(pass, e, prior, b, keys[..|keys| - 1]);
      if before.None? then None else PassStep(pass, e, prior, before.value, keys[|keys| - 1])
  }

  lemma PassNext(pass: Pass, e: Env, prior: Manifest, b: Built, keys: seq<Path>, i: nat)
    requires i < |keys|
    ensures PassSteps(pass, e, prior, b, keys[..i + 1]) ==
      var before := PassSteps(pass, e, prior, b, keys[..i]);
      if before.None? then None else PassStep(pass, e, prior, before.value, keys[i])
  {
    assert keys[..i + 1][..i] == keys[..i];
  }

  lemma {:induction false} PassStops(pass: Pass, e: Env, prior: Manifest, b: Built, keys: seq<Path>, i: nat)
    requires i <= |keys| && PassSteps(pass, e, prior, b, keys[..i]).None?
    ensures PassSteps(pass, e, prior, b, keys).None?
    decreases |keys| - i
  {
    if i == |keys| {
      assert keys[..i] == keys;
    } else {
      PassNext(pass, e, prior, b, keys, i);
      PassStops(pass, e, prior, b, keys, i + 1);
    }
  }

  /** One path of a pass. */
  method RunStep(pass: Pass, e: Env, prior: Manifest, p: Path, clock: ClockState, start: Manifest, count: nat)
    returns (ok: bool, m: Manifest, changes: nat)
    modifies clock
    ensures PassStep(pass, e, prior, Built(start, count, old(clock.Value())), p) ==
      if ok then Some(Built(m, changes, clock.Value())) else None
  {
    ok, m, changes := true, start, count;
    if pass.Vanished? && (p in m.files || p in m.dirs || p in m.links) { return; }
    var reused := Reused(pass, e, prior, p);
    if reused.Some? {
      m := Place(m, p, reused.value);
      return;
    }
    changes := changes + 1;
    var version := clock.Tick(e.now, e.author);
    if version.None? { return false, m, changes; }
    m := Place(m, p, Renewed(e.found, p, version.value));
  }

  /** One pass of the scan over its keys; it fails when the clock overflows. */
  method RunPass(pass: Pass, e: Env, prior: Manifest, keys: seq<Path>, clock: ClockState, start: Manifest, count: nat)
    returns (ok: bool, m: Manifest, changes: nat)
    modifies clock
    ensures ok ==>
      PassSteps(pass, e, prior, Built(start, count, old(clock.Value())), keys) == Some(Built(m, changes, clock.Value()))
    ensures !ok ==> PassSteps(pass, e, prior, Built(start, count, old(clock.Value())), keys).None?
  {
    ok, m, changes := true, start, count;
    ghost var b := Built(start, count, clock.Value());
    for i := 0 to |keys|
      invariant PassSteps(pass, e, prior, b, keys[..i]) == Some(Built(m, changes, clock.Value()))
    {
      PassNext(pass, e, prior, b, keys, i);
      ok, m, changes := RunStep(pass, e, prior, keys[i], clock, m, changes);
      if !ok {
        PassStops(pass, e, prior, b, keys, i + 1);
        return;
      }
    }
    assert keys[..|keys|] == keys;
  }

  // ----- The passes follow the fold -------------------------------------------------------------------

  /** The maps under construction hold what the fold over the visited paths says. */
  ghost predicate Tracks(e: Env, visited: seq<Path>, b: Built) {
    && b.m.Disjoint()
    && (forall q :: b.m.RecordAt(q) == Get(Scanned(e, visited).view, q))
    && b.changes == |Scanned(e, visited).ticked|
    && NthTick(e.clock, e.now, b.changes) == Some(b.clock)
  }

  lemma PlaceAt(m: Manifest, p: Path, r: Record)
    requires m.Disjoint() && p !in m.LivePaths()
    ensures Place(m, p, r).Disjoint()
    ensures forall q :: Place(m, p, r).RecordAt(q) == if q == p then Some(r) else m.RecordAt(q)
  {
    match r
    case File(e) =>
    case Directory(e) =>
    case Symlink(e) =>
    case Tombstone(e) =>
  }

  lemma ScannedStep(e: Env, order: seq<Path>, i: nat)
    requires i < |order|
    ensures Scanned(e, order[..i + 1]) == Visit(e, Scanned(e, order[..i]), order[i])
  {
    assert order[..i + 1][..i] == order[..i];
  }

  lemma KeepStep(e: Env, order: seq<Path>, i: nat, b: Built, r: Record)
    requires i < |order| && Tracks(e, order[..i], b)
    requires order[i] !in b.m.LivePaths() && Same(e, order[i])
    requires Some(r) == Refreshed(Get(e.prior, order[i]), e.found, order[i])
    ensures Tracks(e, order[..i + 1], b.(m := Place(b.m, order[i], r)))
  {
    ScannedStep(e, order, i);
    assert b.m.RecordAt(order[i]) == Get(Scanned(e, order[..i]).view, order[i]);
    PlaceAt(b.m, order[i], r);
  }

  lemma RenewStep(e: Env, order: seq<Path>, i: nat, b: Built, t: Time)
    requires i < |order| && Tracks(e, order[..i], b) && Ticked(b.clock, e.now) == Some(t)
    requires order[i] !in b.m.LivePaths() && !Same(e, order[i])
    ensures Tracks(e, order[..i + 1],
                   Built(Place(b.m, order[i], Renewed(e.found, order[i], StampAt(t, e.author))), b.changes + 1, t))
  {
    ScannedStep(e, order, i);
    assert b.m.RecordAt(order[i]) == Get(Scanned(e, order[..i]).view, order[i]);
    PlaceAt(b.m, order[i], Renewed(e.found, order[i], StampAt(t, e.author)));
  }

  lemma PresentStep(e: Env, order: seq<Path>, i: nat, b: Built)
    requires i < |order| && Tracks(e, order[..i], b) && order[i] in b.m.LivePaths()
    ensures Tracks(e, order[..i + 1], b)
  {
    ScannedStep(e, order, i);
    assert b.m.RecordAt(order[i]) == Get(Scanned(e, order[..i]).view, order[i]);
  }

  lemma {:induction false} TicksGrow(e: Env, order: seq<Path>, i: nat)
    requires i <= |order|
    ensures |Scanned(e, order[..i]).ticked| <= |Scanned(e, order).ticked|
    decreases |order| - i
  {
    if i == |order| {
      assert order[..i] == order;
    } else {
      ScannedStep(e, order, i);
      TicksGrow(e, order, i + 1);
    }
  }

  lemma {:induction false} TicksStop(t: Time, now: u64, i: nat, j: nat)
    requires i <= j && NthTick(t, now, i).None?
    ensures NthTick(t, now, j).None?
  {
    if i < j { TicksStop(t, now, i, j - 1); }
  }

  ghost predicate Overflows(e: Env, order: seq<Path>) {
    NthTick(e.clock, e.now, |Scanned(e, order).ticked|).None?
  }

  lemma OverflowStep(e: Env, order: seq<Path>, i: nat, b: Built)
    requires i < |order| && Tracks(e, order[..i], b) && Ticked(b.clock, e.now).None?
    requires order[i] !in b.m.LivePaths() && !Same(e, order[i])
    ensures Overflows(e, order)
  {
    ScannedStep(e, order, i);
    assert b.m.RecordAt(order[i]) == Get(Scanned(e, order[..i]).view, order[i]);
    TicksGrow(e, order, i + 1);
    TicksStop(e.clock, e.now, b.changes + 1, |Scanned(e, order).ticked|);
  }

  /** A live path of the maps under construction was discovered and visited. */
  lemma {:induction false} LiveVisited(e: Env, order: seq<Path>, p: Path)
    requires LiveAt(Scanned(e, order).view, p)
    ensures p in order && p in e.found.Paths()
  {
    if order != [] {
      var front := order[..|order| - 1];
      assert order == front + [order[|order| - 1]];
      if LiveAt(Scanned(e, front).view, p) { LiveVisited(e, front, p); }
    }
  }

  lemma LiveThen(e: Env, order: seq<Path>, i: nat, b: Built)
    requires i < |order| && Orderly(e, order) && Tracks(e, order[..i], b)
    ensures order[i] in b.m.LivePaths() <==> order[i] in order[..i] && order[i] in e.found.Paths()
  {
    var p, s := order[i], Scanned(e, order[..i]);
    assert b.m.RecordAt(p) == Get(s.view, p);
    if LiveAt(s.view, p) { LiveVisited(e, order[..i], p); }
    if p in order[..i] && p in e.found.Paths() {
      ScannedPartial(e, order[..i]);
      StillLive(e, Elements(order[..i]), s, p);
    }
  }

  /** The first `n` paths have been visited, or the whole scan overflows the clock. */
  ghost predicate Follows(e: Env, order: seq<Path>, n: nat, r: Option<Built>)
    requires n <= |order|
  {
    match r
    case None => Overflows(e, order)
    case Some(c) => Tracks(e, order[..n], c)
  }

  predicate PassKey(pass: Pass, e: Env, p: Path) {
    match pass
    case Files => p in e.found.files
    case Dirs => p in e.found.dirs
    case Links => p in e.found.links
    case Vanished => LiveAt(e.prior, p)
  }

  /** The part `[lo, hi)` of the visiting order belongs to one pass. */
  ghost predicate Section(pass: Pass, e: Env, order: seq<Path>, lo: nat, hi: nat) {
    && lo <= hi <= |order| && Orderly(e, order)
    && (forall i :: lo <= i < hi ==> PassKey(pass, e, order[i]))
    && (!pass.Vanished? ==> forall i :: lo <= i < hi ==> order[i] !in order[..i])
    && (pass.Vanished? ==> forall p :: p in e.found.Paths() ==> p in order[..lo])
  }

  ghost predicate Matches(e: Env, prior: Manifest) {
    e.prior == prior.View() && prior.Disjoint() && e.found.Disjoint()
  }

  lemma ReusedIsSame(pass: Pass, e: Env, prior: Manifest, p: Path)
    requires Matches(e, prior) && PassKey(pass, e, p) && (pass.Vanished? ==> p !in e.found.Paths())
    ensures Reused(pass, e, prior, p).Some? <==> Same(e, p)
    ensures Same(e, p) ==> Reused(pass, e, prior, p) == Refreshed(Get(e.prior, p), e.found, p)
  {
  }

  lemma StepTracks(pass: Pass, e: Env, prior: Manifest, order: seq<Path>, lo: nat, hi: nat, i: nat, b: Built)
    requires Matches(e, prior) && Section(pass, e, order, lo, hi) && lo <= i < hi && Tracks(e, order[..i], b)
    ensures Follows(e, order, i + 1, PassStep(pass, e, prior, b, order[i]))
  {
    var p := order[i];
    LiveThen(e, order, i, b);
    assert pass.Vanished? && p in e.found.Paths() ==> p in order[..i] by {
      if pass.Vanished? && p in e.found.Paths() { assert p in order[..lo] && order[..lo] == order[..i][..lo]; }
    }
    if p in b.m.LivePaths() {
      PresentStep(e, order, i, b);
    } else {
      ReusedIsSame(pass, e, prior, p);
      FreshStep(pass, e, prior, order, i, b);
    }
  }

  lemma FreshStep(pass: Pass, e: Env, prior: Manifest, order: seq<Path>, i: nat, b: Built)
    requires i < |order| && Tracks(e, order[..i], b) && order[i] !in b.m.LivePaths()
    requires Reused(pass, e, prior, order[i]).Some? <==> Same(e, order[i])
    requires Same(e, order[i]) ==>
      Reused(pass, e, prior, order[i]) == Refreshed(Get(e.prior, order[i]), e.found, order[i])
    ensures Follows(e, order, i + 1, PassStep(pass, e, prior, b, order[i]))
  {
    var reused, next := Reused(pass, e, prior, order[i]), Ticked(b.clock, e.now);
    if reused.Some? {
      KeepStep(e, order, i, b, reused.value);
    } else if next.None? {
      OverflowStep(e, order, i, b);
    } else {
      RenewStep(e, order, i, b, next.value);
    }
  }

  /** After the keys of the section up to `i`, the pass follows the visiting order. */
  ghost predicate Passed(pass: Pass, e: Env, prior: Manifest, order: seq<Path>, lo: nat, i: nat, b: Built)
    requires lo <= i <= |order|
  {
    Follows(e, order, i, PassSteps(pass, e, prior, b, order[lo..i]))
  }

  ghost function PassedAt(pass: Pass, e: Env, prior: Manifest, order: seq<Path>, lo: nat, b: Built): int -> bool {
    (i: int) => lo <= i <= |order| && Passed(pass, e, prior, order, lo, i, b)
  }

  lemma PassedStart(pass: Pass, e: Env, prior: Manifest, order: seq<Path>, lo: nat, b: Built)
    requires lo <= |order| && Follows(e, order, lo, Some(b))
    ensures PassedAt(pass, e, prior, order, lo, b)(lo)
  {
    assert order[lo..lo] == [];
  }

  lemma PassedNext(pass: Pass, e: Env, prior: Manifest, order: seq<Path>, lo: nat, hi: nat, b: Built, i: nat)
    requires Matches(e, prior) && Section(pass, e, order, lo, hi) && lo <= i < hi
    requires PassedAt(pass, e, prior, order, lo, b)(i)
    ensures PassedAt(pass, e, prior, order, lo, b)(i + 1)
  {
    assert Passed(pass, e, prior, order, lo, i, b);
    PassedStep(pass, e, prior, order, lo, hi, b, i);
  }

  lemma PassedStep(pass: Pass, e: Env, prior: Manifest, order: seq<Path>, lo: nat, hi: nat, b: Built, i: nat)
    requires Matches(e, prior) && Section(pass, e, order, lo, hi) && lo <= i < hi
    requires Passed(pass, e, prior, order, lo, i, b)
    ensures Passed(pass, e, prior, order, lo, i + 1, b)
  {
    PassUnfold(pass, e, prior, b, order, lo, i);
    var before := PassSteps(pass, e, prior, b, order[lo..i]);
    if before.Some? { StepTracks(pass, e, prior, order, lo, hi, i, before.value); }
  }

  lemma PassTracks(pass: Pass, e: Env, prior: Manifest, order: seq<Path>, lo: nat, hi: nat, b: Built)
    requires Matches(e, prior) && Section(pass, e, order, lo, hi) && Follows(e, order, lo, Some(b))
    ensures PassedAt(pass, e, prior, order, lo, b)(hi)
  {
    PassedStart(pass, e, prior, order, lo, b);
    var passed := PassedAt(pass, e, prior, order, lo, b);
    forall i | lo <= i < hi && passed(i) ensures passed(i + 1) { PassedNext(pass, e, prior, order, lo, hi, b, i); }
    Climb(passed, lo, hi);
  }

  lemma PassUnfold(pass: Pass, e: Env, prior: Manifest, b: Built, order: seq<Path>, lo: nat, i: nat)
    requires lo <= i < |order|
    ensures PassSteps(pass, e, prior, b, order[lo..i + 1]) ==
      var before := PassSteps(pass, e, prior, b, order[lo..i]);
      if before.None? then None else PassStep(pass, e, prior, before.value, order[i])
  {
    assert order[lo..i + 1][..i - lo] == order[lo..i];
  }
}
