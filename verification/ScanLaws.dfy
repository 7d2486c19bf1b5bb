/** What a scan result means: live paths, tombstones, versions, the clock, and the fast path. */
module ScanLaws {
  import opened Bytes
  import opened Clock
  import opened Manifests
  import opened Merge
  import opened Scan

  /** A changed path got the version of its own tick. */
  lemma TickedRecord(e: Env, ticked: seq<Path>, v: Records, p: Path) returns (n: nat)
    requires ScanResult(e, ticked, v) && p in ticked
    ensures 0 < n <= |ticked| && ticked[n - 1] == p && Get(v, p) == Some(Renewed(e.found, p, Issue(e, n)))
  {
    var i :| 0 <= i < |ticked| && ticked[i] == p;
    assert Get(v, ticked[i]) == Some(Renewed(e.found, ticked[i], Issue(e, i + 1)));
    n := i + 1;
  }

  // ----- Paths and hierarchy -------------------------------------------------------------------------

  /** What a scan result says about one path. */
  lemma ResultAt(e: Env, ticked: seq<Path>, v: Records, p: Path)
    requires ScanResult(e, ticked, v)
    ensures LiveAt(v, p) <==> p in e.found.Paths()
    ensures p in v <==> p in e.prior || p in e.found.Paths()
    ensures Same(e, p) ==> Get(v, p) == Refreshed(Get(e.prior, p), e.found, p)
    ensures p !in e.found.Paths() && p in e.prior && e.prior[p].Tombstone? ==> Get(v, p) == Some(e.prior[p])
    ensures LiveAt(e.prior, p) && p !in e.found.Paths() ==> p in ticked && p in v && v[p].Tombstone?
  {
    if p in ticked {
      var n := TickedRecord(e, ticked, v, p);
    } else {
      assert Same(e, p);
      assert Get(v, p) == Refreshed(Get(e.prior, p), e.found, p);
    }
  }

  /** The live paths are the discovered ones, and no path is forgotten. */
  lemma ScanPaths(e: Env, ticked: seq<Path>, v: Records)
    requires ScanResult(e, ticked, v)
    ensures (set p | LiveAt(v, p) && p in v :: p) == e.found.Paths()
    ensures v.Keys == e.prior.Keys + e.found.Paths()
  {
    forall p
      ensures LiveAt(v, p) <==> p in e.found.Paths()
      ensures p in v <==> p in e.prior || p in e.found.Paths()
    {
      ResultAt(e, ticked, v, p);
    }
  }

  lemma DirectoryAt(e: Env, ticked: seq<Path>, v: Records, p: Path)
    requires ScanResult(e, ticked, v) && p in e.found.dirs && e.found.Disjoint()
    ensures p in v && v[p].Directory?
  {
    ResultAt(e, ticked, v, p);
    if p in ticked {
      var n := TickedRecord(e, ticked, v, p);
    }
  }

  /** A parent-closed discovery gives a parent-closed manifest, whatever the previous one was. */
  lemma ScanHierarchy(e: Env, ticked: seq<Path>, v: Records)
    requires ScanResult(e, ticked, v) && e.found.Disjoint() && e.found.Closed()
    ensures ParentClosed(v) && HierarchyOk(v)
  {
    forall a, p | p in v && Below(a, p) && v[p].Live() ensures a in v && v[a].Directory? {
      ResultAt(e, ticked, v, p);
      DirectoryAt(e, ticked, v, a);
    }
  }

  lemma RenewedValid(found: Found, p: Path, version: Stamp)
    requires found.FieldsOk()
    ensures ValidRecord(Renewed(found, p, version))
  {
  }

  lemma ScanFields(e: Env, ticked: seq<Path>, v: Records)
    requires ScanResult(e, ticked, v) && FieldsOk(e.prior) && e.found.FieldsOk()
    ensures FieldsOk(v)
  {
    forall p | p in v ensures ValidPath(p) && ValidRecord(v[p]) {
      ResultAt(e, ticked, v, p);
      if p in ticked {
        var n := TickedRecord(e, ticked, v, p);
        RenewedValid(e.found, p, Issue(e, n));
      } else {
        assert Get(v, p) == Refreshed(Get(e.prior, p), e.found, p);
      }
    }
  }

  // ----- Versions and the clock -----------------------------------------------------------------------

  /** The versions a scan hands out are above its clock and increase in the order of its ticks. */
  lemma IssuedVersions(e: Env, n: nat, i: nat, j: nat)
    requires 0 < i < j <= n && NthTick(e.clock, e.now, n).Some?
    ensures Before(e.clock, TimeOf(Issue(e, i))) && Older(Issue(e, i), Issue(e, j))
    ensures AtMost(TimeOf(Issue(e, j)), NthTick(e.clock, e.now, n).value)
  {
    if j < n { TicksIncrease(e.clock, e.now, j, n); }
    TicksIncrease(e.clock, e.now, i, j);
    TicksIncrease(e.clock, e.now, 0, i);
  }

  lemma IssuedDiffer(e: Env, n: nat, i: nat, j: nat)
    requires 0 < i <= n && 0 < j <= n && i != j && NthTick(e.clock, e.now, n).Some?
    ensures Issue(e, i) != Issue(e, j)
  {
    if i < j { IssuedVersions(e, n, i, j); } else { IssuedVersions(e, n, j, i); }
    OlderTrichotomy(Issue(e, i), Issue(e, j));
  }

  lemma IssuedWithin(e: Env, n: nat, i: nat)
    requires 0 < i <= n && NthTick(e.clock, e.now, n).Some?
    ensures Before(e.clock, TimeOf(Issue(e, i))) && AtMost(TimeOf(Issue(e, i)), NthTick(e.clock, e.now, n).value)
  {
    if i < n { TicksIncrease(e.clock, e.now, i, n); }
    TicksIncrease(e.clock, e.now, 0, i);
  }

  /** Every issued version is a version of this peer, above the old clock and at most the new one. */
  lemma TickedVersion(e: Env, ticked: seq<Path>, v: Records, p: Path)
    requires ScanResult(e, ticked, v) && NthTick(e.clock, e.now, |ticked|).Some? && p in ticked
    ensures p in v && v[p].Version().author == e.author
    ensures Before(e.clock, TimeOf(v[p].Version()))
    ensures AtMost(TimeOf(v[p].Version()), NthTick(e.clock, e.now, |ticked|).value)
  {
    var n := TickedRecord(e, ticked, v, p);
    IssuedWithin(e, |ticked|, n);
  }

  /** Two different paths changed by one scan never share a version. */
  lemma TickedDistinct(e: Env, ticked: seq<Path>, v: Records, p: Path, q: Path)
    requires ScanResult(e, ticked, v) && NthTick(e.clock, e.now, |ticked|).Some? && p in ticked && q in ticked && p != q
    ensures p in v && q in v && v[p].Version() != v[q].Version()
  {
    var i := TickedRecord(e, ticked, v, p);
    var j := TickedRecord(e, ticked, v, q);
    IssuedDiffer(e, |ticked|, i, j);
  }

  /** If the clock dominates the previous records, the new clock dominates the new ones. */
  lemma ScanDominates(e: Env, ticked: seq<Path>, v: Records, after: Time)
    requires ScanResult(e, ticked, v) && NthTick(e.clock, e.now, |ticked|) == Some(after) && Dominates(e.clock, e.prior)
    ensures Dominates(after, v) && AtMost(e.clock, after)
  {
    if |ticked| > 0 { TicksIncrease(e.clock, e.now, 0, |ticked|); }
    forall p | p in v && !v[p].Symlink? ensures AtMost(TimeOf(v[p].Version()), after) {
      if p in ticked {
        TickedVersion(e, ticked, v, p);
      } else {
        assert Get(v, p) == Refreshed(Get(e.prior, p), e.found, p);
      }
    }
  }

  /** Under a dominating clock a scan never lowers the version of a file, directory or tombstone, and
      raises it where it changes the record. */
  lemma ScanNeverLowers(e: Env, ticked: seq<Path>, v: Records, p: Path)
    requires ScanResult(e, ticked, v) && NthTick(e.clock, e.now, |ticked|).Some? && Dominates(e.clock, e.prior)
    requires p in e.prior && !e.prior[p].Symlink?
    ensures p in v && NotNewer(e.prior[p].Version(), v[p].Version())
    ensures p in ticked ==> Older(e.prior[p].Version(), v[p].Version())
  {
    if p in ticked {
      TickedVersion(e, ticked, v, p);
    } else {
      assert Get(v, p) == Refreshed(Get(e.prior, p), e.found, p);
    }
  }

  // ----- Symlinks: the exact condition ------------------------------------------------------------------

  /** No record of `v` has an older version than `prior` has at its path. */
  ghost predicate KeepsVersions(prior: Records, v: Records) {
    forall p :: p in prior && p in v ==> NotNewer(prior[p].Version(), v[p].Version())
  }

  /** Whatever a walk may discover, the scan lowers no version. */
  ghost predicate NeverLowers(e: Env) {
    forall found: Found, ticked: seq<Path>, v: Records ::
      found.Walkable() && ScanResult(e.(found := found), ticked, v) && NthTick(e.clock, e.now, |ticked|).Some? ==>
        KeepsVersions(e.prior, v)
  }

  /** The first version the scan would issue is not below the version of any symlink. */
  ghost predicate LinksPassed(e: Env) {
    forall p :: p in e.prior && e.prior[p].Symlink? ==> NotNewer(e.prior[p].Version(), Issue(e, 1))
  }

  lemma LinkKept(e: Env, ticked: seq<Path>, v: Records, p: Path)
    requires ScanResult(e, ticked, v) && NthTick(e.clock, e.now, |ticked|).Some? && p in e.prior
    requires NotNewer(e.prior[p].Version(), Issue(e, 1))
    ensures p in v && NotNewer(e.prior[p].Version(), v[p].Version())
  {
    if p in ticked {
      var n := TickedRecord(e, ticked, v, p);
      if n > 1 {
        IssuedVersions(e, |ticked|, 1, n);
        if e.prior[p].Version() != Issue(e, 1) { OlderTransitive(e.prior[p].Version(), Issue(e, 1), Issue(e, n)); }
      }
    } else {
      assert Get(v, p) == Refreshed(Get(e.prior, p), e.found, p);
    }
  }

  /** A discovery of exactly what the records describe, except at `p`, which is gone. */
  function AllBut(prior: Records, p: Path): Found {
    Found(
      map q | q in prior && q != p && prior[q].File? ::
        FoundFile(prior[q].file.size, prior[q].file.mtime, prior[q].file.sha, prior[q].file.perms),
      map q | q in prior && q != p && prior[q].Directory? :: prior[q].dir.perms,
      map q | q in prior && q != p && prior[q].Symlink? :: prior[q].link.target)
  }

  lemma AllButResult(e: Env, p: Path)
    requires LiveAt(e.prior, p)
    ensures ScanResult(e.(found := AllBut(e.prior, p)), [p], e.prior[p := Tombstone(TombEntry(Issue(e, 1)))])
  {
    var f := e.(found := AllBut(e.prior, p));
    assert Issue(f, 1) == Issue(e, 1);
    assert [p][0] == p;
    forall q ensures q in [p] <==> !Same(f, q) {
      if q in e.prior && q != p {
        match e.prior[q]
        case File(x) => assert q in f.found.files;
        case Directory(x) => assert q in f.found.dirs;
        case Symlink(x) => assert q in f.found.links;
        case Tombstone(x) =>
      }
    }
  }

  /** A walk finds that, when the directory changed only by the removal of one symlink. */
  lemma AllButWalkable(prior: Records, p: Path)
    requires ParentClosed(prior) && FieldsOk(prior) && p in prior && prior[p].Symlink?
    ensures AllBut(prior, p).Walkable()
  {
    var found := AllBut(prior, p);
    forall a, q | q in found.Paths() && Below(a, q) ensures a in found.dirs {
      assert q in prior && prior[q].Live();
      assert a in prior && prior[a].Directory?;
    }
    forall q | q in found.Paths() ensures ValidPath(q) { assert q in prior; }
    forall q | q in found.files ensures ValidSha(found.files[q].sha) && ValidPerms(found.files[q].perms) {
      assert ValidRecord(prior[q]);
    }
    forall q | q in found.dirs ensures ValidPerms(found.dirs[q]) { assert ValidRecord(prior[q]); }
    forall q | q in found.links ensures ValidTarget(found.links[q]) { assert ValidRecord(prior[q]); }
  }

  /** The clock does not observe symlink versions. A scan is safe for them exactly when the first
      version it would issue is not below any of theirs. */
  lemma SymlinksSafeIff(e: Env)
    requires ParentClosed(e.prior) && FieldsOk(e.prior)
    requires Dominates(e.clock, e.prior) && NthTick(e.clock, e.now, 1).Some?
    ensures NeverLowers(e) <==> LinksPassed(e)
  {
    if LinksPassed(e) {
      forall found: Found, ticked: seq<Path>, v: Records
        | found.Walkable() && ScanResult(e.(found := found), ticked, v) && NthTick(e.clock, e.now, |ticked|).Some?
        ensures KeepsVersions(e.prior, v)
      {
        LinksSafe(e, e.(found := found), ticked, v);
      }
    }
    if NeverLowers(e) {
      forall p | p in e.prior && e.prior[p].Symlink? ensures NotNewer(e.prior[p].Version(), Issue(e, 1)) {
        var v := e.prior[p := Tombstone(TombEntry(Issue(e, 1)))];
        AllButResult(e, p);
        AllButWalkable(e.prior, p);
        assert |[p]| == 1;
        assert KeepsVersions(e.prior, v);
      }
    }
  }

  lemma LinksSafe(e: Env, f: Env, ticked: seq<Path>, v: Records)
    requires f == e.(found := f.found) && LinksPassed(e) && Dominates(e.clock, e.prior)
    requires ScanResult(f, ticked, v) && NthTick(e.clock, e.now, |ticked|).Some?
    ensures KeepsVersions(e.prior, v)
  {
    assert Issue(f, 1) == Issue(e, 1);
    forall p | p in e.prior && p in v ensures NotNewer(e.prior[p].Version(), v[p].Version()) {
      if e.prior[p].Symlink? { LinkKept(f, ticked, v, p); } else { ScanNeverLowers(f, ticked, v, p); }
    }
  }

  // ----- The fast path -------------------------------------------------------------------------------------

  predicate FilePair(prior: Manifest, found: Found, unknown: bool, p: Path, q: Path) {
    && p == q && p in prior.files && q in found.files
    && SameFile(prior.files[p], found.files[q], unknown) && prior.files[p].mtime == found.files[q].mtime
  }

  predicate DirPair(prior: Manifest, found: Found, unknown: bool, p: Path, q: Path) {
    p == q && p in prior.dirs && q in found.dirs && PermsMatch(prior.dirs[p].perms, found.dirs[q], unknown)
  }

  predicate LinkPair(prior: Manifest, found: Found, p: Path, q: Path) {
    p == q && p in prior.links && q in found.links && prior.links[p].target == found.links[q]
  }

  /** `matches_previous`: equal lengths, then the two maps side by side in key order. */
  predicate MatchesPrevious(prior: Manifest, found: Found, unknown: bool) {
    && prior.format == FORMAT && |prior.files| == |found.files| && |prior.dirs| == |found.dirs|
    && (forall i :: 0 <= i < |prior.files.Keys| ==>
          FilePair(prior, found, unknown, Ascending(prior.files.Keys)[i], Ascending(found.files.Keys)[i]))
    && (forall i :: 0 <= i < |prior.dirs.Keys| ==>
          DirPair(prior, found, unknown, Ascending(prior.dirs.Keys)[i], Ascending(found.dirs.Keys)[i]))
    && |prior.links| == |found.links|
    && (forall i :: 0 <= i < |prior.links.Keys| ==>
          LinkPair(prior, found, Ascending(prior.links.Keys)[i], Ascending(found.links.Keys)[i]))
  }

  lemma SameKeys(a: set<Path>, b: set<Path>)
    requires |a| == |b| && forall i :: 0 <= i < |a| ==> Ascending(a)[i] == Ascending(b)[i]
    ensures a == b
  {
    AscendingOrder(a);
    AscendingOrder(b);
    assert Ascending(a) == Ascending(b);
  }

  /** The fast path, path by path. */
  ghost predicate SameTrees(prior: Manifest, found: Found, unknown: bool) {
    && prior.files.Keys == found.files.Keys
    && prior.dirs.Keys == found.dirs.Keys && prior.links.Keys == found.links.Keys
    && (forall p :: p in prior.files ==> FilePair(prior, found, unknown, p, p))
    && (forall p :: p in prior.dirs ==> DirPair(prior, found, unknown, p, p))
    && (forall p :: p in prior.links ==> LinkPair(prior, found, p, p))
  }

  lemma ZipFiles(prior: Manifest, found: Found, unknown: bool)
    requires MatchesPrevious(prior, found, unknown)
    ensures prior.files.Keys == found.files.Keys &&
      forall p :: p in prior.files ==> FilePair(prior, found, unknown, p, p)
  {
    SameKeys(prior.files.Keys, found.files.Keys);
    AscendingOrder(prior.files.Keys);
    forall p | p in prior.files.Keys ensures FilePair(prior, found, unknown, p, p) {
      var i :| 0 <= i < |prior.files.Keys| && Ascending(prior.files.Keys)[i] == p;
      assert FilePair(prior, found, unknown, Ascending(prior.files.Keys)[i], Ascending(found.files.Keys)[i]);
    }
  }

  lemma ZipDirs(prior: Manifest, found: Found, unknown: bool)
    requires MatchesPrevious(prior, found, unknown)
    ensures prior.dirs.Keys == found.dirs.Keys && forall p :: p in prior.dirs ==> DirPair(prior, found, unknown, p, p)
  {
    SameKeys(prior.dirs.Keys, found.dirs.Keys);
    AscendingOrder(prior.dirs.Keys);
    forall p | p in prior.dirs.Keys ensures DirPair(prior, found, unknown, p, p) {
      var i :| 0 <= i < |prior.dirs.Keys| && Ascending(prior.dirs.Keys)[i] == p;
      assert DirPair(prior, found, unknown, Ascending(prior.dirs.Keys)[i], Ascending(found.dirs.Keys)[i]);
    }
  }

  lemma ZipLinks(prior: Manifest, found: Found, unknown: bool)
    requires MatchesPrevious(prior, found, unknown)
    ensures prior.links.Keys == found.links.Keys && forall p :: p in prior.links ==> LinkPair(prior, found, p, p)
  {
    SameKeys(prior.links.Keys, found.links.Keys);
    AscendingOrder(prior.links.Keys);
    forall p | p in prior.links.Keys ensures LinkPair(prior, found, p, p) {
      var i :| 0 <= i < |prior.links.Keys| && Ascending(prior.links.Keys)[i] == p;
      assert LinkPair(prior, found, Ascending(prior.links.Keys)[i], Ascending(found.links.Keys)[i]);
    }
  }

  /** Comparing the sorted maps side by side is comparing them path by path. */
  lemma ZipIffSameTrees(prior: Manifest, found: Found, unknown: bool)
    ensures MatchesPrevious(prior, found, unknown) <==> prior.format == FORMAT && SameTrees(prior, found, unknown)
  {
    if MatchesPrevious(prior, found, unknown) {
      ZipFiles(prior, found, unknown);
      ZipDirs(prior, found, unknown);
      ZipLinks(prior, found, unknown);
    }
    if prior.format == FORMAT && SameTrees(prior, found, unknown) { SameTreesZip(prior, found, unknown); }
  }

  lemma SameTreesZip(prior: Manifest, found: Found, unknown: bool)
    requires prior.format == FORMAT && SameTrees(prior, found, unknown)
    ensures MatchesPrevious(prior, found, unknown)
  {
    AscendingOrder(prior.files.Keys);
    AscendingOrder(prior.dirs.Keys);
    AscendingOrder(prior.links.Keys);
    assert |prior.files| == |prior.files.Keys| == |found.files|;
    assert |prior.dirs| == |prior.dirs.Keys| == |found.dirs|;
    assert |prior.links| == |prior.links.Keys| == |found.links|;
  }

  lemma SameTreesAt(e: Env, prior: Manifest, p: Path)
    requires Matches(e, prior) && SameTrees(prior, e.found, e.unknown)
    ensures Same(e, p) && Refreshed(Get(e.prior, p), e.found, p) == Get(e.prior, p)
  {
    ViewAt(prior, p);
  }

  lemma SettledAt(e: Env, prior: Manifest, p: Path)
    requires Matches(e, prior) && Same(e, p) && Refreshed(Get(e.prior, p), e.found, p) == Get(e.prior, p)
    ensures p in prior.files <==> p in e.found.files
    ensures p in prior.dirs <==> p in e.found.dirs
    ensures p in prior.links <==> p in e.found.links
    ensures p in prior.files ==> FilePair(prior, e.found, e.unknown, p, p)
    ensures p in prior.dirs ==> DirPair(prior, e.found, e.unknown, p, p)
    ensures p in prior.links ==> LinkPair(prior, e.found, p, p)
  {
  }

  /** The fast path is taken exactly when the format is current and the passes would change nothing: no
      tick, and every record as before. */
  lemma FastPathExact(e: Env, prior: Manifest)
    requires Matches(e, prior)
    ensures MatchesPrevious(prior, e.found, e.unknown) <==> prior.format == FORMAT && ScanResult(e, [], e.prior)
  {
    ZipIffSameTrees(prior, e.found, e.unknown);
    if SameTrees(prior, e.found, e.unknown) {
      forall p ensures Same(e, p) && Refreshed(Get(e.prior, p), e.found, p) == Get(e.prior, p) {
        SameTreesAt(e, prior, p);
      }
    }
    if ScanResult(e, [], e.prior) {
      Settled(e, prior);
    }
  }

  lemma Settled(e: Env, prior: Manifest)
    requires Matches(e, prior) && ScanResult(e, [], e.prior)
    ensures SameTrees(prior, e.found, e.unknown)
  {
    forall p
      ensures p in prior.files <==> p in e.found.files
      ensures p in prior.dirs <==> p in e.found.dirs
      ensures p in prior.links <==> p in e.found.links
      ensures p in prior.files ==> FilePair(prior, e.found, e.unknown, p, p)
      ensures p in prior.dirs ==> DirPair(prior, e.found, e.unknown, p, p)
      ensures p in prior.links ==> LinkPair(prior, e.found, p, p)
    {
      assert Same(e, p) by { assert p in [] <==> !Same(e, p); }
      assert Get(e.prior, p) == Refreshed(Get(e.prior, p), e.found, p);
      SettledAt(e, prior, p);
    }
  }

  lemma FirstIn(s: seq<Path>)
    ensures s == [] || exists p :: p in s
  {
    if s != [] { assert s[0] in s; }
  }

  /** A scan result without changed paths is unique: the slow path gives what the fast path returns. */
  lemma FastPathRefines(e: Env, prior: Manifest, ticked: seq<Path>, v: Records)
    requires Matches(e, prior) && MatchesPrevious(prior, e.found, e.unknown) && ScanResult(e, ticked, v)
    ensures ticked == [] && v == e.prior
  {
    FastPathExact(e, prior);
    assert forall p :: p in ticked <==> p in [];
    FirstIn(ticked);
    forall p ensures Get(v, p) == Get(e.prior, p) {
      assert p !in ticked && p !in [];
    }
    RecordsEqual(v, e.prior);
  }
}
