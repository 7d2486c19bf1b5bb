/** Manifests: four path-keyed maps of versioned records, their validation and their view as
    one map from path to record. */
module Manifests {
  import opened Bytes
  import opened Clock

  // ----- Paths -----------------------------------------------------------------------

  type Path = Text

  const SLASH: u8 := 47
  const BACKSLASH: u8 := 92
  const DOT: Text := [46]
  const DOTDOT: Text := [46, 46]

  /** `p` lies strictly below `a`: `a` is one of the prefixes of `p` that end before a slash. */
  predicate Below(a: Path, p: Path) {
    |a| < |p| && p[|a|] == SLASH && p[..|a|] == a
  }

  function Slashes(p: Path): nat {
    if p == [] then 0 else Slashes(p[..|p| - 1]) + if p[|p| - 1] == SLASH then 1 else 0
  }

  /** `manifest_path_depth`. */
  function Depth(p: Path): nat { Slashes(p) + 1 }

  lemma {:induction false} SlashesOfPrefix(p: Path, n: nat)
    requires n <= |p|
    ensures Slashes(p[..n]) <= Slashes(p)
    decreases |p| - n
  {
    if n == |p| {
      assert p[..n] == p;
    } else {
      assert p[..n + 1][..n] == p[..n];
      SlashesOfPrefix(p, n + 1);
    }
  }

  /** A descendant is deeper than its ancestor and follows it in path order. */
  lemma BelowIsDeeper(a: Path, p: Path)
    requires Below(a, p)
    ensures Depth(a) < Depth(p)
    ensures Less(a, p)
  {
    assert p[..|a| + 1][..|a|] == a;
    SlashesOfPrefix(p, |a| + 1);
    PrefixIsLess(a, p);
  }

  /** Two ancestors of the same path are comparable. */
  lemma AncestorsNested(a: Path, b: Path, p: Path)
    requires Below(a, p) && Below(b, p) && |a| < |b|
    ensures Below(a, b)
  {
  }

  function Components(p: Path): (r: seq<Text>)
    ensures |r| >= 1
  {
    if p == [] then [[]]
    else
      var rest := Components(p[1..]);
      if p[0] == SLASH then [[]] + rest else [[p[0]] + rest[0]] + rest[1..]
  }

  /** `validate_manifest_path`: relative, bounded, and free of parent components. */
  predicate ValidPath(p: Path) {
    && 0 < |p| <= 4096
    && BACKSLASH !in p && 0 !in p
    && p[0] != SLASH
    && Components(p)[0] != DOT
    && DOTDOT !in Components(p)
  }

  // ----- Records ---------------------------------------------------------------------

  datatype FileEntry = FileEntry(size: u64, mtime: u64, sha: Text, perms: Option<u16>, version: Stamp)
  datatype DirEntry = DirEntry(perms: Option<u16>, version: Stamp)
  datatype LinkEntry = LinkEntry(target: Text, version: Stamp)
  datatype TombEntry = TombEntry(version: Stamp)

  datatype Record =
    | File(file: FileEntry)
    | Directory(dir: DirEntry)
    | Symlink(link: LinkEntry)
    | Tombstone(tomb: TombEntry)
  {
    function Version(): Stamp {
      match this
      case File(e) => e.version
      case Directory(e) => e.version
      case Symlink(e) => e.version
      case Tombstone(e) => e.version
    }

    predicate Live() { !Tombstone? }

    /** The synchronised part of a record: everything but the local modification time. */
    function Synced(): Record {
      match this
      case File(e) => File(e.(mtime := 0))
      case _ => this
    }
  }

  predicate HexDigit(c: u8) { 48 <= c <= 57 || 97 <= c <= 102 }

  predicate ValidSha(s: Text) { |s| == 64 && forall i :: 0 <= i < |s| ==> HexDigit(s[i]) }

  predicate ValidPerms(p: Option<u16>) { p.Some? ==> p.value <= 0x0FFF }

  predicate ValidTarget(t: Text) { 0 < |t| <= 4096 && 0 !in t }

  predicate ValidRecord(r: Record) {
    match r
    case File(e) => ValidSha(e.sha) && ValidPerms(e.perms)
    case Directory(e) => ValidPerms(e.perms)
    case Symlink(e) => ValidTarget(e.target)
    case Tombstone(_) => true
  }

  // ----- Manifests -------------------------------------------------------------------

  const FORMAT: u16 := 3
  const PREVIOUS_FORMAT: u16 := 2
  const LEGACY_FORMAT: u16 := 1
  const MAX_ENTRIES := 100_000

  datatype Manifest = Manifest(
    format: u16, share: Key, scannedAt: u64,
    files: map<Path, FileEntry>, dirs: map<Path, DirEntry>,
    links: map<Path, LinkEntry>, tombs: map<Path, TombEntry>)
  {
    function LivePaths(): set<Path> { files.Keys + dirs.Keys + links.Keys }

    function Paths(): set<Path> { LivePaths() + tombs.Keys }

    /** `Manifest::record`: the four maps are consulted in this order. */
    function RecordAt(p: Path): Option<Record> {
      if p in files then Some(File(files[p]))
      else if p in dirs then Some(Directory(dirs[p]))
      else if p in links then Some(Symlink(links[p]))
      else if p in tombs then Some(Tombstone(tombs[p]))
      else None
    }

    function View(): (v: Records) {
      map p | p in Paths() :: RecordAt(p).value
    }

    predicate Disjoint() {
      && files.Keys !! dirs.Keys && files.Keys !! links.Keys && files.Keys !! tombs.Keys
      && dirs.Keys !! links.Keys && dirs.Keys !! tombs.Keys && links.Keys !! tombs.Keys
    }

    function Total(): nat { |files| + |dirs| + |links| + |tombs| }
  }

  type Records = map<Path, Record>

  function Empty(share: Key, now: u64): Manifest {
    Manifest(FORMAT, share, now, map[], map[], map[], map[])
  }

  function Get(v: Records, p: Path): Option<Record> { if p in v then Some(v[p]) else None }

  /** No live record lies below a file, a symlink or a tombstone. */
  ghost predicate HierarchyOk(v: Records) {
    forall a, p :: a in v && p in v && Below(a, p) && v[p].Live() ==> v[a].Directory?
  }

  /** Every ancestor of a live record is a directory record. */
  ghost predicate ParentClosed(v: Records) {
    forall a, p :: p in v && Below(a, p) && v[p].Live() ==> a in v && v[a].Directory?
  }

  ghost predicate FieldsOk(v: Records) {
    forall p :: p in v ==> ValidPath(p) && ValidRecord(v[p])
  }

  ghost predicate Compatible(v: Records, w: Records) {
    forall p :: p in v && p in w && v[p].Version() == w[p].Version() ==> v[p].Synced() == w[p].Synced()
  }

  ghost predicate SameState(v: Records, w: Records) {
    && v.Keys == w.Keys
    && forall p :: p in v ==> v[p].Synced() == w[p].Synced()
  }

  /** The clock is at least the version of every file, directory and tombstone. */
  ghost predicate Dominates(t: Time, v: Records) {
    forall p :: p in v && !v[p].Symlink? ==> AtMost(TimeOf(v[p].Version()), t)
  }

  /** No file, symlink or tombstone sits at an ancestor of the live path `p`. */
  ghost predicate ClearAbove(m: Manifest, p: Path) {
    forall a :: Below(a, p) ==> Clear(m, a)
  }

  predicate Clear(m: Manifest, a: Path) { a !in m.files && a !in m.links && a !in m.tombs }

  /** The plain statement of `validate_manifest_hierarchy`: check every ancestor of every live path. */
  ghost predicate NaiveHierarchy(m: Manifest) {
    forall p :: p in m.LivePaths() ==> ClearAbove(m, p)
  }

  ghost predicate Valid(m: Manifest, share: Key) {
    && m.format in {LEGACY_FORMAT, PREVIOUS_FORMAT, FORMAT}
    && m.share == share
    && m.Total() <= MAX_ENTRIES
    && m.Disjoint()
    && FieldsOk(m.View())
    && HierarchyOk(m.View())
  }

  lemma NaiveIsHierarchyOk(m: Manifest)
    requires m.Disjoint()
    ensures NaiveHierarchy(m) <==> HierarchyOk(m.View())
  {
  }

  lemma ViewAt(m: Manifest, p: Path)
    ensures Get(m.View(), p) == m.RecordAt(p)
  {
  }

  /** A disjoint manifest is determined by its view. */
  lemma ViewDetermines(m: Manifest, n: Manifest)
    requires m.Disjoint() && n.Disjoint() && m.View() == n.View()
    ensures m.files == n.files && m.dirs == n.dirs && m.links == n.links && m.tombs == n.tombs
  {
    forall p ensures m.RecordAt(p) == n.RecordAt(p) {
      ViewAt(m, p);
      ViewAt(n, p);
    }
    assert m.files == n.files by { SameFiles(m, n); }
    assert m.dirs == n.dirs by { SameDirs(m, n); }
    assert m.links == n.links by { SameLinks(m, n); }
    assert m.tombs == n.tombs by { SameTombs(m, n); }
  }

  lemma SameFiles(m: Manifest, n: Manifest)
    requires forall p :: m.RecordAt(p) == n.RecordAt(p)
    ensures m.files == n.files
  {
    forall p ensures p in m.files <==> p in n.files
      ensures p in m.files && p in n.files ==> m.files[p] == n.files[p]
    {
      assert m.RecordAt(p) == n.RecordAt(p);
    }
  }

  lemma SameDirs(m: Manifest, n: Manifest)
    requires m.Disjoint() && n.Disjoint() && forall p :: m.RecordAt(p) == n.RecordAt(p)
    ensures m.dirs == n.dirs
  {
    forall p ensures p in m.dirs <==> p in n.dirs
      ensures p in m.dirs && p in n.dirs ==> m.dirs[p] == n.dirs[p]
    {
      assert m.RecordAt(p) == n.RecordAt(p);
    }
  }

  lemma SameLinks(m: Manifest, n: Manifest)
    requires m.Disjoint() && n.Disjoint() && forall p :: m.RecordAt(p) == n.RecordAt(p)
    ensures m.links == n.links
  {
    forall p ensures p in m.links <==> p in n.links
      ensures p in m.links && p in n.links ==> m.links[p] == n.links[p]
    {
      assert m.RecordAt(p) == n.RecordAt(p);
    }
  }

  lemma SameTombs(m: Manifest, n: Manifest)
    requires m.Disjoint() && n.Disjoint() && forall p :: m.RecordAt(p) == n.RecordAt(p)
    ensures m.tombs == n.tombs
  {
    forall p ensures p in m.tombs <==> p in n.tombs
      ensures p in m.tombs && p in n.tombs ==> m.tombs[p] == n.tombs[p]
    {
      assert m.RecordAt(p) == n.RecordAt(p);
    }
  }

  lemma PathsSize(m: Manifest)
    requires m.Disjoint()
    ensures |m.Paths()| == |m.files.Keys| + |m.dirs.Keys| + |m.links.Keys| + |m.tombs.Keys|
  {
  }

  lemma TotalIsViewSize(m: Manifest)
    requires m.Disjoint()
    ensures m.Total() == |m.View()|
  {
    PathsSize(m);
    ViewKeys(m);
  }

  lemma ViewKeys(m: Manifest)
    ensures m.View().Keys == m.Paths()
    ensures |m.View()| == |m.Paths()|
  {
  }

  // ----- Validation ------------------------------------------------------------------

  /** The inner loop: ancestors shared with the previously visited path are not checked again. */
  method CheckAncestors(m: Manifest, path: Path, previous: Path) returns (ok: bool)
    requires ClearAbove(m, previous)
    ensures ok <==> ClearAbove(m, path)
  {
    var shared := true;
    for s := 0 to |path|
      invariant forall a :: Below(a, path) && |a| < s ==> Clear(m, a)
    {
      if path[s] == SLASH {
        var ancestor := path[..s];
        assert Below(ancestor, path);
        if shared {
          shared := s < |previous| && previous[..s + 1] == path[..s + 1];
          if shared {
            assert previous[s] == previous[..s + 1][s] == SLASH;
            assert previous[..s] == previous[..s + 1][..s] == ancestor;
            assert Below(ancestor, previous);
          }
        }
        if !shared && !Clear(m, ancestor) {
          return false;
        }
      }
    }
    return true;
  }

  /** The hierarchy check with its early return, for any visiting order of the live paths,
      accepts exactly what checking every ancestor of every live path accepts. */
  method ValidateHierarchy(m: Manifest, order: seq<Path>) returns (ok: bool)
    requires Enumerates(order, m.LivePaths())
    ensures ok <==> NaiveHierarchy(m)
  {
    if m.files == map[] && m.links == map[] && m.tombs == map[] {
      return true;
    }
    var previous: Path := [];
    for i := 0 to |order|
      invariant ClearAbove(m, previous)
      invariant forall k :: 0 <= k < i ==> ClearAbove(m, order[k])
    {
      ok := CheckAncestors(m, order[i], previous);
      if !ok { return false; }
      previous := order[i];
    }
    forall p | p in m.LivePaths() ensures ClearAbove(m, p) { assert p in order; }
    return true;
  }

  predicate FileOk(m: Manifest, p: Path)
    requires p in m.files
  {
    ValidPath(p) && ValidRecord(File(m.files[p])) && p !in m.dirs && p !in m.tombs
  }

  predicate DirOk(m: Manifest, p: Path)
    requires p in m.dirs
  {
    ValidPath(p) && ValidRecord(Directory(m.dirs[p])) && p !in m.tombs
  }

  predicate LinkOk(m: Manifest, p: Path)
    requires p in m.links
  {
    && ValidPath(p) && ValidRecord(Symlink(m.links[p]))
    && p !in m.files && p !in m.dirs && p !in m.tombs
  }

  // The per-record checks, made map by map with early exit.

  method ValidateFiles(m: Manifest) returns (ok: bool)
    ensures ok <==> forall p :: p in m.files ==> FileOk(m, p)
  {
    var keys := Ascending(m.files.Keys);
    for i := 0 to |keys|
      invariant forall p :: p in Visited(m.files.Keys, i) ==> p in m.files && FileOk(m, p)
    {
      VisitStep(m.files.Keys, i);
      if !FileOk(m, keys[i]) { return false; }
    }
    VisitedAll(m.files.Keys);
    return true;
  }

  method ValidateDirs(m: Manifest) returns (ok: bool)
    ensures ok <==> forall p :: p in m.dirs ==> DirOk(m, p)
  {
    var keys := Ascending(m.dirs.Keys);
    for i := 0 to |keys|
      invariant forall p :: p in Visited(m.dirs.Keys, i) ==> p in m.dirs && DirOk(m, p)
    {
      VisitStep(m.dirs.Keys, i);
      if !DirOk(m, keys[i]) { return false; }
    }
    VisitedAll(m.dirs.Keys);
    return true;
  }

  method ValidateLinks(m: Manifest) returns (ok: bool)
    ensures ok <==> forall p :: p in m.links ==> LinkOk(m, p)
  {
    var keys := Ascending(m.links.Keys);
    for i := 0 to |keys|
      invariant forall p :: p in Visited(m.links.Keys, i) ==> p in m.links && LinkOk(m, p)
    {
      VisitStep(m.links.Keys, i);
      if !LinkOk(m, keys[i]) { return false; }
    }
    VisitedAll(m.links.Keys);
    return true;
  }

  method ValidateTombs(m: Manifest) returns (ok: bool)
    ensures ok <==> forall p :: p in m.tombs ==> ValidPath(p)
  {
    var keys := Ascending(m.tombs.Keys);
    AscendingOrder(m.tombs.Keys);
    for i := 0 to |keys|
      invariant forall k :: 0 <= k < i ==> ValidPath(keys[k])
    {
      if !ValidPath(keys[i]) { return false; }
    }
    forall p | p in m.tombs ensures ValidPath(p) { assert p in keys; }
    return true;
  }

  ghost predicate RecordsOk(m: Manifest) {
    && (forall p :: p in m.files ==> FileOk(m, p))
    && (forall p :: p in m.dirs ==> DirOk(m, p))
    && (forall p :: p in m.links ==> LinkOk(m, p))
    && (forall p :: p in m.tombs ==> ValidPath(p))
  }

  lemma ChecksSuffice(m: Manifest)
    requires RecordsOk(m)
    ensures m.Disjoint() && FieldsOk(m.View())
  {
    assert m.Disjoint() by {
      assert forall p :: p in m.files ==> FileOk(m, p);
      assert forall p :: p in m.links ==> LinkOk(m, p);
    }
    forall p | p in m.View() ensures ValidPath(p) && ValidRecord(m.View()[p]) {
      ViewAt(m, p);
      if p in m.files { assert FileOk(m, p); }
      else if p in m.dirs { assert DirOk(m, p); }
      else if p in m.links { assert LinkOk(m, p); }
    }
  }

  lemma ChecksNeeded(m: Manifest)
    requires m.Disjoint() && FieldsOk(m.View())
    ensures RecordsOk(m)
  {
    var v := m.View();
    forall p | p in m.files ensures FileOk(m, p) { ViewAt(m, p); assert p in v; }
    forall p | p in m.dirs ensures DirOk(m, p) { ViewAt(m, p); assert p in v; }
    forall p | p in m.links ensures LinkOk(m, p) { ViewAt(m, p); assert p in v; }
    forall p | p in m.tombs ensures ValidPath(p) { ViewAt(m, p); assert p in v; }
  }

  /** `Manifest::validate` as the program runs it. */
  method Validate(m: Manifest, share: Key) returns (ok: bool)
    ensures ok <==> Valid(m, share)
  {
    if m.format !in {LEGACY_FORMAT, PREVIOUS_FORMAT, FORMAT} || m.share != share || m.Total() > MAX_ENTRIES {
      return false;
    }
    assert m.Disjoint() && FieldsOk(m.View()) ==> RecordsOk(m) by {
      if m.Disjoint() && FieldsOk(m.View()) { ChecksNeeded(m); }
    }
    ok := ValidateFiles(m);
    if !ok { return false; }
    ok := ValidateDirs(m);
    if !ok { return false; }
    ok := ValidateLinks(m);
    if !ok { return false; }
    ok := ValidateTombs(m);
    if !ok { return false; }
    ChecksSuffice(m);
    var files, dirs, links := Ascending(m.files.Keys), Ascending(m.dirs.Keys), Ascending(m.links.Keys);
    AscendingOrder(m.files.Keys);
    AscendingOrder(m.dirs.Keys);
    AscendingOrder(m.links.Keys);
    LiveOrder(m, files, dirs, links);
    ok := ValidateHierarchy(m, files + dirs + links);
    NaiveIsHierarchyOk(m);
  }

  lemma LiveOrder(m: Manifest, files: seq<Path>, dirs: seq<Path>, links: seq<Path>)
    requires Enumerates(files, m.files.Keys) && Enumerates(dirs, m.dirs.Keys) && Enumerates(links, m.links.Keys)
    ensures Enumerates(files + dirs + links, m.LivePaths())
  {
  }
}
