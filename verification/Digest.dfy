/** The byte stream that the synchronisation digest hashes, and the shortcut for equal digests. */
module Digest {
  import opened Bytes
  import opened Clock
  import opened Manifests
  import opened Merge
  import opened Reconcile
  import opened Plan
  import opened Exchange

  /** `syncbox-manifest-digest-v1` and a zero byte. */
  const DOMAIN: Text := [115, 121, 110, 99, 98, 111, 120, 45, 109, 97, 110, 105, 102, 101, 115, 116, 45,
                         100, 105, 103, 101, 115, 116, 45, 118, 49, 0]

  function Length(n: nat): (r: Text)
    ensures |r| == 8
  {
    BigEndian(8, n)
  }

  function Prefixed(s: Text): Text { Length(|s|) + s }

  function PermsBytes(p: Option<u16>): Text {
    if p.Some? then [1] + BigEndian(2, p.value) else [0]
  }

  function StampBytes(s: Stamp): (r: Text)
    ensures |r| == 44
  {
    BigEndian(8, s.wall) + BigEndian(4, s.counter) + s.author
  }

  /** One record of a section: everything synchronised, nothing local. */
  function Item(p: Path, r: Record): Text {
    match r
    case File(e) =>
      Prefixed(p) + (BigEndian(8, e.size) + (Prefixed(e.sha) + (PermsBytes(e.perms) + StampBytes(e.version))))
    case Directory(e) => Prefixed(p) + (PermsBytes(e.perms) + StampBytes(e.version))
    case Symlink(e) => Prefixed(p) + (Prefixed(e.target) + StampBytes(e.version))
    case Tombstone(e) => Prefixed(p) + StampBytes(e.version)
  }

  datatype Kind = FileKind | DirKind | LinkKind | TombKind

  function KindOf(r: Record): Kind {
    match r
    case File(_) => FileKind
    case Directory(_) => DirKind
    case Symlink(_) => LinkKind
    case Tombstone(_) => TombKind
  }

  /** The paths of one of the four maps. */
  function KindKeys(v: Records, kind: Kind): set<Path> { set p | p in v && KindOf(v[p]) == kind }

  function Items(v: Records, keys: seq<Path>): Text {
    if keys == [] then []
    else Items(v, keys[..|keys| - 1]) + ItemAt(v, keys[|keys| - 1])
  }

  function ItemAt(v: Records, p: Path): Text { if p in v then Item(p, v[p]) else [] }

  function Section(v: Records, keys: set<Path>): Text { Length(|keys|) + Items(v, Ascending(keys)) }

  /** Everything the hasher is fed about a manifest with this view. */
  function Stream(format: u16, share: Key, v: Records): Text {
    DOMAIN + (BigEndian(2, format) + (share + Body(v)))
  }

  function Body(v: Records): Text {
    Section(v, KindKeys(v, FileKind)) + (Section(v, KindKeys(v, DirKind)) +
      (Section(v, KindKeys(v, LinkKind)) + Section(v, KindKeys(v, TombKind))))
  }

  // ----- Each encoder can be read back from the front ----------------------------------------------------

  lemma SplitFront(a: Text, t: Text, b: Text, u: Text)
    requires a + t == b + u && |a| == |b|
    ensures a == b && t == u
  {
    assert a == (a + t)[..|a|] == (b + u)[..|b|] == b;
    assert t == (a + t)[|a|..] == (b + u)[|b|..] == u;
  }

  lemma NumberFront(w: nat, x: nat, t: Text, y: nat, u: Text)
    requires x < Pow256(w) && y < Pow256(w) && BigEndian(w, x) + t == BigEndian(w, y) + u
    ensures x == y && t == u
  {
    SplitFront(BigEndian(w, x), t, BigEndian(w, y), u);
    BigEndianRoundTrip(w, x);
    BigEndianRoundTrip(w, y);
  }

  predicate Short(s: Text) { |s| < 0x1_0000_0000_0000_0000 }

  lemma PrefixedFront(s: Text, t: Text, r: Text, u: Text)
    requires Short(s) && Short(r) && Prefixed(s) + t == Prefixed(r) + u
    ensures s == r && t == u
  {
    PowersOf256();
    assert Prefixed(s) + t == Length(|s|) + (s + t) && Prefixed(r) + u == Length(|r|) + (r + u);
    NumberFront(8, |s|, s + t, |r|, r + u);
    SplitFront(s, t, r, u);
  }

  lemma PermsFront(p: Option<u16>, t: Text, q: Option<u16>, u: Text)
    requires PermsBytes(p) + t == PermsBytes(q) + u
    ensures p == q && t == u
  {
    PowersOf256();
    assert (PermsBytes(p) + t)[0] == PermsBytes(p)[0] && (PermsBytes(q) + u)[0] == PermsBytes(q)[0];
    if p.Some? && q.Some? {
      assert PermsBytes(p) + t == [1] + (BigEndian(2, p.value) + t);
      assert PermsBytes(q) + u == [1] + (BigEndian(2, q.value) + u);
      SplitFront([1], BigEndian(2, p.value) + t, [1], BigEndian(2, q.value) + u);
      NumberFront(2, p.value, t, q.value, u);
    } else if p.None? && q.None? {
      SplitFront([0], t, [0], u);
    }
  }

  lemma StampFront(s: Stamp, t: Text, r: Stamp, u: Text)
    requires StampBytes(s) + t == StampBytes(r) + u
    ensures s == r && t == u
  {
    PowersOf256();
    SplitFront(StampBytes(s), t, StampBytes(r), u);
    assert StampBytes(s) == BigEndian(8, s.wall) + (BigEndian(4, s.counter) + s.author);
    assert StampBytes(r) == BigEndian(8, r.wall) + (BigEndian(4, r.counter) + r.author);
    NumberFront(8, s.wall, BigEndian(4, s.counter) + s.author, r.wall, BigEndian(4, r.counter) + r.author);
    NumberFront(4, s.counter, s.author, r.counter, r.author);
  }

  predicate ShortRecord(r: Record) {
    match r
    case File(e) => Short(e.sha)
    case Symlink(e) => Short(e.target)
    case _ => true
  }

  /** Two records of one section with the same bytes agree in everything synchronised. */
  lemma ItemFront(p: Path, r: Record, t: Text, q: Path, s: Record, u: Text)
    requires KindOf(r) == KindOf(s) && Short(p) && Short(q) && ShortRecord(r) && ShortRecord(s)
    requires Item(p, r) + t == Item(q, s) + u
    ensures p == q && r.Synced() == s.Synced() && t == u
  {
    match r
    case File(e) => FileFront(p, e, t, q, s.file, u);
    case Directory(e) =>
      var f := s.dir;
      var x, y := PermsBytes(e.perms) + StampBytes(e.version), PermsBytes(f.perms) + StampBytes(f.version);
      Regroup(Prefixed(p), x, t);
      Regroup(Prefixed(q), y, u);
      PrefixedFront(p, x + t, q, y + u);
      Regroup(PermsBytes(e.perms), StampBytes(e.version), t);
      Regroup(PermsBytes(f.perms), StampBytes(f.version), u);
      PermsFront(e.perms, StampBytes(e.version) + t, f.perms, StampBytes(f.version) + u);
      StampFront(e.version, t, f.version, u);
    case Symlink(e) =>
      var f := s.link;
      var x, y := Prefixed(e.target) + StampBytes(e.version), Prefixed(f.target) + StampBytes(f.version);
      Regroup(Prefixed(p), x, t);
      Regroup(Prefixed(q), y, u);
      PrefixedFront(p, x + t, q, y + u);
      Regroup(Prefixed(e.target), StampBytes(e.version), t);
      Regroup(Prefixed(f.target), StampBytes(f.version), u);
      PrefixedFront(e.target, StampBytes(e.version) + t, f.target, StampBytes(f.version) + u);
      StampFront(e.version, t, f.version, u);
    case Tombstone(e) =>
      Regroup(Prefixed(p), StampBytes(e.version), t);
      Regroup(Prefixed(q), StampBytes(s.tomb.version), u);
      PrefixedFront(p, StampBytes(e.version) + t, q, StampBytes(s.tomb.version) + u);
      StampFront(e.version, t, s.tomb.version, u);
  }

  lemma Regroup(a: Text, b: Text, c: Text)
    ensures (a + b) + c == a + (b + c)
  {
  }

  lemma FileFront(p: Path, e: FileEntry, t: Text, q: Path, f: FileEntry, u: Text)
    requires Short(p) && Short(q) && Short(e.sha) && Short(f.sha) && Item(p, File(e)) + t == Item(q, File(f)) + u
    ensures p == q && e.(mtime := 0) == f.(mtime := 0) && t == u
  {
    var x2, y2 := PermsBytes(e.perms) + StampBytes(e.version), PermsBytes(f.perms) + StampBytes(f.version);
    var x1, y1 := Prefixed(e.sha) + x2, Prefixed(f.sha) + y2;
    var x0, y0 := BigEndian(8, e.size) + x1, BigEndian(8, f.size) + y1;
    PowersOf256();
    Regroup(Prefixed(p), x0, t);
    Regroup(Prefixed(q), y0, u);
    PrefixedFront(p, x0 + t, q, y0 + u);
    Regroup(BigEndian(8, e.size), x1, t);
    Regroup(BigEndian(8, f.size), y1, u);
    NumberFront(8, e.size, x1 + t, f.size, y1 + u);
    Regroup(Prefixed(e.sha), x2, t);
    Regroup(Prefixed(f.sha), y2, u);
    PrefixedFront(e.sha, x2 + t, f.sha, y2 + u);
    Regroup(PermsBytes(e.perms), StampBytes(e.version), t);
    Regroup(PermsBytes(f.perms), StampBytes(f.version), u);
    PermsFront(e.perms, StampBytes(e.version) + t, f.perms, StampBytes(f.version) + u);
    StampFront(e.version, t, f.version, u);
  }

  // ----- Sections and the whole stream ---------------------------------------------------------------------

  /** All lengths fit their prefixes. */
  ghost predicate Encodable(v: Records) {
    |v| < 0x1_0000_0000_0000_0000 && forall p :: p in v ==> Short(p) && ShortRecord(v[p])
  }

  ghost predicate OfKind(v: Records, keys: seq<Path>, kind: Kind) {
    forall i :: 0 <= i < |keys| ==> keys[i] in v && KindOf(v[keys[i]]) == kind
  }

  ghost predicate SameItems(v: Records, w: Records, keys: seq<Path>) {
    forall i :: 0 <= i < |keys| ==> SameRecord(Get(v, keys[i]), Get(w, keys[i]))
  }

  lemma ItemsUnfold(v: Records, keys: seq<Path>, t: Text)
    requires keys != []
    ensures Items(v, keys) + t == Items(v, keys[..|keys| - 1]) + (ItemAt(v, keys[|keys| - 1]) + t)
  {
  }

  lemma SnocSame(v: Records, w: Records, keys: seq<Path>)
    requires keys != [] && SameItems(v, w, keys[..|keys| - 1])
    requires SameRecord(Get(v, keys[|keys| - 1]), Get(w, keys[|keys| - 1]))
    ensures SameItems(v, w, keys)
  {
  }

  lemma SnocEqual(ks: seq<Path>, ls: seq<Path>)
    requires |ks| == |ls| > 0 && ks[..|ks| - 1] == ls[..|ls| - 1] && ks[|ks| - 1] == ls[|ls| - 1]
    ensures ks == ls
  {
  }

  lemma {:induction false} ItemsFront(v: Records, ks: seq<Path>, t: Text, w: Records, ls: seq<Path>, u: Text,
                                      kind: Kind)
    requires |ks| == |ls| && Encodable(v) && Encodable(w) && OfKind(v, ks, kind) && OfKind(w, ls, kind)
    requires Items(v, ks) + t == Items(w, ls) + u
    ensures ks == ls && SameItems(v, w, ks) && t == u
  {
    if ks == [] {
      SplitFront([], t, [], u);
    } else {
      var n := |ks| - 1;
      ItemsUnfold(v, ks, t);
      ItemsUnfold(w, ls, u);
      ItemsFront(v, ks[..n], ItemAt(v, ks[n]) + t, w, ls[..n], ItemAt(w, ls[n]) + u, kind);
      ItemFront(ks[n], v[ks[n]], t, ls[n], w[ls[n]], u);
      SnocEqual(ks, ls);
      SnocSame(v, w, ks);
    }
  }

  lemma SectionFront(v: Records, ks: set<Path>, t: Text, w: Records, ls: set<Path>, u: Text, kind: Kind)
    requires Encodable(v) && Encodable(w) && ks == KindKeys(v, kind) && ls == KindKeys(w, kind)
    requires Section(v, ks) + t == Section(w, ls) + u
    ensures ks == ls && t == u && SameItems(v, w, Ascending(ks))
  {
    PowersOf256();
    SubsetSize(ks, v.Keys);
    SubsetSize(ls, w.Keys);
    Regroup(Length(|ks|), Items(v, Ascending(ks)), t);
    Regroup(Length(|ls|), Items(w, Ascending(ls)), u);
    NumberFront(8, |ks|, Items(v, Ascending(ks)) + t, |ls|, Items(w, Ascending(ls)) + u);
    AscendingOrder(ks);
    AscendingOrder(ls);
    ItemsFront(v, Ascending(ks), t, w, Ascending(ls), u, kind);
    assert ks == Elements(Ascending(ks)) && ls == Elements(Ascending(ls));
  }

  /** Both views have the same records of one kind, up to modification times. */
  ghost predicate SameOfKind(v: Records, w: Records, kind: Kind) {
    && KindKeys(v, kind) == KindKeys(w, kind)
    && forall p :: p in KindKeys(v, kind) ==> SameRecord(Get(v, p), Get(w, p))
  }

  lemma KindFront(v: Records, t: Text, w: Records, u: Text, kind: Kind)
    requires Encodable(v) && Encodable(w)
    requires Section(v, KindKeys(v, kind)) + t == Section(w, KindKeys(w, kind)) + u
    ensures SameOfKind(v, w, kind) && t == u
  {
    var keys := KindKeys(v, kind);
    SectionFront(v, keys, t, w, KindKeys(w, kind), u, kind);
    AscendingOrder(keys);
    forall p | p in keys ensures SameRecord(Get(v, p), Get(w, p)) {
      var i :| 0 <= i < |Ascending(keys)| && Ascending(keys)[i] == p;
      assert SameRecord(Get(v, Ascending(keys)[i]), Get(w, Ascending(keys)[i]));
    }
  }

  lemma BodyFront(v: Records, w: Records)
    requires Encodable(v) && Encodable(w) && Body(v) == Body(w)
    ensures SameState(v, w)
  {
    var v3, w3 := Section(v, KindKeys(v, TombKind)), Section(w, KindKeys(w, TombKind));
    var v2, w2 := Section(v, KindKeys(v, LinkKind)) + v3, Section(w, KindKeys(w, LinkKind)) + w3;
    var v1, w1 := Section(v, KindKeys(v, DirKind)) + v2, Section(w, KindKeys(w, DirKind)) + w2;
    KindFront(v, v1, w, w1, FileKind);
    KindFront(v, v2, w, w2, DirKind);
    KindFront(v, v3, w, w3, LinkKind);
    assert v3 + [] == w3 + [];
    KindFront(v, [], w, [], TombKind);
    forall p ensures SameRecord(Get(v, p), Get(w, p)) { KindsCover(v, w, p); }
    SameEverywhere(v, w);
  }

  lemma KindsCover(v: Records, w: Records, p: Path)
    requires SameOfKind(v, w, FileKind) && SameOfKind(v, w, DirKind) && SameOfKind(v, w, LinkKind) &&
      SameOfKind(v, w, TombKind)
    ensures SameRecord(Get(v, p), Get(w, p))
  {
  }

  lemma ItemSynced(p: Path, r: Record, s: Record)
    requires r.Synced() == s.Synced()
    ensures Item(p, r) == Item(p, s)
  {
  }

  lemma {:induction false} ItemsSynced(v: Records, w: Records, keys: seq<Path>)
    requires SameState(v, w)
    ensures Items(v, keys) == Items(w, keys)
  {
    if keys != [] {
      var p := keys[|keys| - 1];
      ItemsSynced(v, w, keys[..|keys| - 1]);
      if p in v { ItemSynced(p, v[p], w[p]); }
    }
  }

  lemma SectionSynced(v: Records, w: Records, kind: Kind)
    requires SameState(v, w)
    ensures Section(v, KindKeys(v, kind)) == Section(w, KindKeys(w, kind))
  {
    forall p ensures p in KindKeys(v, kind) <==> p in KindKeys(w, kind) {
      if p in v { assert v[p].Synced() == w[p].Synced(); }
    }
    assert KindKeys(v, kind) == KindKeys(w, kind);
    ItemsSynced(v, w, Ascending(KindKeys(v, kind)));
  }

  lemma HeaderFront(format: u16, share: Key, v: Text, other: u16, key: Key, w: Text)
    requires DOMAIN + (BigEndian(2, format) + (share + v)) == DOMAIN + (BigEndian(2, other) + (key + w))
    ensures format == other && share == key && v == w
  {
    PowersOf256();
    SplitFront(DOMAIN, BigEndian(2, format) + (share + v), DOMAIN, BigEndian(2, other) + (key + w));
    NumberFront(2, format, share + v, other, key + w);
    SplitFront(share, v, key, w);
  }

  /** Two streams are equal exactly when the formats, the shares and all records up to modification
      times are. */
  lemma StreamIdentifiesState(format: u16, share: Key, v: Records, other: u16, key: Key, w: Records)
    requires Encodable(v) && Encodable(w)
    ensures Stream(format, share, v) == Stream(other, key, w) <==> format == other && share == key && SameState(v, w)
  {
    if Stream(format, share, v) == Stream(other, key, w) {
      HeaderFront(format, share, Body(v), other, key, Body(w));
      BodyFront(v, w);
    }
    if format == other && share == key && SameState(v, w) {
      SectionSynced(v, w, FileKind);
      SectionSynced(v, w, DirKind);
      SectionSynced(v, w, LinkKind);
      SectionSynced(v, w, TombKind);
    }
  }

  lemma ValidEncodable(m: Manifest, share: Key)
    requires Valid(m, share)
    ensures Encodable(m.View())
  {
    TotalIsViewSize(m);
  }

  // ----- Feeding the hasher -------------------------------------------------------------------------------

  lemma ItemsStep(v: Records, keys: seq<Path>, i: nat)
    requires i < |keys|
    ensures Items(v, keys[..i + 1]) == Items(v, keys[..i]) + ItemAt(v, keys[i])
  {
    assert keys[..i + 1][..i] == keys[..i];
  }

  /** One section: its length, then its records in key order. */
  method FeedSection(m: Manifest, keys: set<Path>, fed: Text) returns (stream: Text)
    ensures stream == fed + Section(m.View(), keys)
  {
    var order := Ascending(keys);
    var items: Text := [];
    for i := 0 to |order|
      invariant items == Items(m.View(), order[..i])
    {
      ViewAt(m, order[i]);
      ItemsStep(m.View(), order, i);
      var record := m.RecordAt(order[i]);
      if record.Some? { items := items + Item(order[i], record.value); }
    }
    assert order[..|order|] == order;
    stream := fed + (Length(|keys|) + items);
  }

  lemma KindKeysOf(m: Manifest)
    requires m.Disjoint()
    ensures KindKeys(m.View(), FileKind) == m.files.Keys && KindKeys(m.View(), DirKind) == m.dirs.Keys
    ensures KindKeys(m.View(), LinkKind) == m.links.Keys && KindKeys(m.View(), TombKind) == m.tombs.Keys
  {
    forall p
      ensures p in KindKeys(m.View(), FileKind) <==> p in m.files
      ensures p in KindKeys(m.View(), DirKind) <==> p in m.dirs
      ensures p in KindKeys(m.View(), LinkKind) <==> p in m.links
      ensures p in KindKeys(m.View(), TombKind) <==> p in m.tombs
    {
      ViewAt(m, p);
    }
  }

  /** `sync_digest_after_validation` up to the hash function itself. */
  method FeedDigest(m: Manifest) returns (stream: Text)
    requires m.Disjoint()
    ensures stream == Stream(m.format, m.share, m.View())
  {
    KindKeysOf(m);
    stream := DOMAIN + BigEndian(2, m.format) + m.share;
    stream := FeedSection(m, m.files.Keys, stream);
    stream := FeedSection(m, m.dirs.Keys, stream);
    stream := FeedSection(m, m.links.Keys, stream);
    stream := FeedSection(m, m.tombs.Keys, stream);
    Grouped(DOMAIN, BigEndian(2, m.format), m.share, Section(m.View(), m.files.Keys), Section(m.View(), m.dirs.Keys),
            Section(m.View(), m.links.Keys), Section(m.View(), m.tombs.Keys));
  }

  lemma Grouped(a: Text, b: Text, c: Text, d: Text, e: Text, f: Text, g: Text)
    ensures a + b + c + d + e + f + g == a + (b + (c + (d + (e + (f + g)))))
  {
  }

  // ----- Equal digests: nothing to do -----------------------------------------------------------------------

  lemma SameStateCompatible(a: Records, b: Records)
    requires SameState(a, b)
    ensures Compatible(a, b)
  {
  }

  lemma NoWinners(a: Records, b: Records)
    requires SameState(a, b)
    ensures Winners(a, b) == {} && Winners(b, a) == {}
  {
    forall p | p in a
      ensures !RemoteWins(Get(a, p), Some(b[p])) && !RemoteWins(Get(b, p), Some(a[p]))
    {
      assert a[p].Synced() == b[p].Synced();
      assert a[p].Version() == b[p].Version();
      OlderTrichotomy(a[p].Version(), b[p].Version());
    }
  }

  /** When the digests' pre-images agree, an exchange would request, offer and change nothing. */
  lemma EqualStreamsNeedNothing(m: Manifest, n: Manifest, share: Key)
    requires Valid(m, share) && Valid(n, share)
    requires Stream(m.format, m.share, m.View()) == Stream(n.format, n.share, n.View())
    ensures DownloadSet(m.View(), n.View()) == {} && UploadSet(m.View(), n.View()) == {}
    ensures ServerAfter(m.View(), n.View()) == n.View() && ClientAfter(m.View(), n.View()) == m.View()
  {
    ValidEncodable(m, share);
    ValidEncodable(n, share);
    StreamIdentifiesState(m.format, m.share, m.View(), n.format, n.share, n.View());
    SameStateNeedsNothing(m.View(), n.View());
  }

  lemma SameStateNeedsNothing(a: Records, b: Records)
    requires SameState(a, b)
    ensures DownloadSet(a, b) == {} && UploadSet(a, b) == {}
    ensures ServerAfter(a, b) == b && ClientAfter(a, b) == a
  {
    SameStateCompatible(a, b);
    NoWinners(a, b);
    PlanMatchesApply(a, b);
    NothingMoves(b, a, Wanted(b, a) - Elements(Batch(UploadSet(a, b))));
    NothingMoves(a, b, Wanted(a, b) - Sent(a, b, b));
  }

  lemma NothingMoves(l: Records, r: Records, pending: set<Path>)
    requires Winners(l, r) == {}
    ensures Applied(l, r, pending) == l
  {
  }
}
