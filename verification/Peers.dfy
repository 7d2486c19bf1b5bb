/** The list of known peers: adding one by one, and adding a batch with one final sort. */
module Peers {
  import opened Bytes
  import opened Lookup
  import StableSort

  datatype PeerRecord = PeerRecord(id: Text, added: u64, seen: Option<u64>)

  function Ids(peers: seq<PeerRecord>): (r: seq<Text>)
    ensures |r| == |peers| && forall i :: 0 <= i < |peers| ==> r[i] == peers[i].id
  {
    seq(|peers|, i requires 0 <= i < |peers| => peers[i].id)
  }

  // ----- Stable sort by ID --------------------------------------------------------------------------------

  function ById(): (PeerRecord, PeerRecord) -> bool { (a: PeerRecord, b: PeerRecord) => Less(a.id, b.id) }

  function HasId(id: Text): PeerRecord -> bool { (r: PeerRecord) => r.id == id }

  /** `sort_by` on the ID; the library sort is stable. */
  function Sort(s: seq<PeerRecord>): seq<PeerRecord> { StableSort.Sort(s, ById()) }

  ghost predicate Sorted(s: seq<PeerRecord>) { forall i, j :: 0 <= i < j < |s| ==> !Less(s[j].id, s[i].id) }

  /** The records of one ID, in order. */
  function Of(s: seq<PeerRecord>, id: Text): seq<PeerRecord> { StableSort.Filter(s, HasId(id)) }

  lemma IdsAreOrdered(id: Text)
    ensures StableSort.WeakOrder(ById()) && StableSort.Alike(HasId(id), ById())
  {
    forall x, y: PeerRecord | ById()(x, y) ensures !ById()(y, x) { LessTrichotomy(x.id, y.id); }
    forall x, y, z: PeerRecord | ById()(x, y) ensures ById()(x, z) || ById()(z, y) {
      LessTrichotomy(x.id, z.id);
      if Less(z.id, x.id) { LessTransitive(z.id, x.id, y.id); }
    }
    forall x, y: PeerRecord | HasId(id)(x) && HasId(id)(y) ensures !ById()(x, y) { LessTrichotomy(id, id); }
  }

  lemma OfSnoc(s: seq<PeerRecord>, x: PeerRecord, id: Text)
    ensures Of(s + [x], id) == Of(s, id) + if x.id == id then [x] else []
  {
    StableSort.FilterSnoc(s, x, HasId(id));
  }

  /** Sorting keeps the records of every ID in their order. */
  lemma SortIsStable(s: seq<PeerRecord>, id: Text)
    ensures Sorted(Sort(s)) && Of(Sort(s), id) == Of(s, id)
  {
    IdsAreOrdered(id);
    StableSort.SortIsStable(s, ById(), HasId(id));
    var r := Sort(s);
    forall i, j | 0 <= i < j < |r| ensures !Less(r[j].id, r[i].id) { assert !ById()(r[j], r[i]); }
  }

  lemma OfMember(s: seq<PeerRecord>, id: Text)
    ensures Of(s, id) != [] <==> exists i :: 0 <= i < |s| && s[i].id == id
  {
    StableSort.FilterMember(s, HasId(id));
    if i :| 0 <= i < |s| && s[i].id == id { assert HasId(id)(s[i]); }
    if i :| 0 <= i < |s| && HasId(id)(s[i]) { assert s[i].id == id; }
  }

  lemma HeadIsLeast(s: seq<PeerRecord>, id: Text)
    requires Sorted(s) && Of(s, id) != []
    ensures s != [] && !Less(id, s[0].id)
  {
    OfMember(s, id);
    var i :| 0 <= i < |s| && s[i].id == id;
    if i == 0 { LessTrichotomy(id, id); }
  }

  lemma FirstOf(s: seq<PeerRecord>)
    requires s != []
    ensures Of(s, s[0].id) != []
  {
  }

  /** A sorted list is determined by the records of each ID. */
  lemma {:induction false} SortedUnique(s: seq<PeerRecord>, t: seq<PeerRecord>)
    requires Sorted(s) && Sorted(t) && forall id :: Of(s, id) == Of(t, id)
    ensures s == t
  {
    if s == [] {
      if t != [] { FirstOf(t); }
    } else {
      assert Of(s, s[0].id) == Of(t, s[0].id) && Of(s, s[0].id)[0] == s[0];
      HeadIsLeast(t, s[0].id);
      assert Of(s, t[0].id) == Of(t, t[0].id) && Of(t, t[0].id)[0] == t[0];
      HeadIsLeast(s, t[0].id);
      LessTrichotomy(s[0].id, t[0].id);
      assert s[0] == t[0];
      forall id ensures Of(s[1..], id) == Of(t[1..], id) { SameTails(s, t, id); }
      SortedUnique(s[1..], t[1..]);
      assert s == [s[0]] + s[1..] && t == [t[0]] + t[1..];
    }
  }

  lemma SameTails(s: seq<PeerRecord>, t: seq<PeerRecord>, id: Text)
    requires s != [] && t != [] && s[0] == t[0] && Of(s, id) == Of(t, id)
    ensures Of(s[1..], id) == Of(t[1..], id)
  {
    SameRest(if s[0].id == id then [s[0]] else [], Of(s[1..], id), Of(t[1..], id));
  }

  lemma SameRest(h: seq<PeerRecord>, a: seq<PeerRecord>, b: seq<PeerRecord>)
    requires h + a == h + b
    ensures a == b
  {
    assert a == (h + a)[|h|..] && b == (h + b)[|h|..];
  }

  // ----- Adding peers ----------------------------------------------------------------------------------------

  predicate Knows(s: seq<PeerRecord>, id: Text) { FirstIndex(Ids(s), id).Some? }

  /** One peer, without sorting: the first record of the ID is touched, or a new record is appended. */
  function Touched(s: seq<PeerRecord>, id: Text, now: u64): seq<PeerRecord> {
    var k := FirstIndex(Ids(s), id);
    if k.Some? then s[k.value := s[k.value].(seen := Some(now))] else s + [PeerRecord(id, now, Some(now))]
  }

  /** One peer, sorting after an insertion. */
  function Added(s: seq<PeerRecord>, id: Text, now: u64): seq<PeerRecord> {
    if Knows(s, id) then Touched(s, id, now) else Sort(Touched(s, id, now))
  }

  function AddedAll(s: seq<PeerRecord>, ids: seq<Text>, now: u64): seq<PeerRecord> {
    if ids == [] then s else Added(AddedAll(s, ids[..|ids| - 1], now), ids[|ids| - 1], now)
  }

  datatype Batch = Batch(peers: seq<PeerRecord>, inserted: bool)

  /** A batch without sorting, and whether anything was inserted. */
  function TouchedAll(s: seq<PeerRecord>, ids: seq<Text>, now: u64): Batch {
    if ids == [] then Batch(s, false)
    else
      var b, id := TouchedAll(s, ids[..|ids| - 1], now), ids[|ids| - 1];
      Batch(Touched(b.peers, id, now), b.inserted || !Knows(b.peers, id))
  }

  function Finished(b: Batch): seq<PeerRecord> { if b.inserted then Sort(b.peers) else b.peers }

  // ----- Touching and sorting commute ---------------------------------------------------------------------------

  /** What touching does to the records of the touched ID. */
  function TouchedOf(group: seq<PeerRecord>, id: Text, now: u64): seq<PeerRecord> {
    if group == [] then [PeerRecord(id, now, Some(now))] else [group[0].(seen := Some(now))] + group[1..]
  }

  /** `u` has the groups of `s`, except that the group of `id` is touched. */
  ghost predicate Touches(s: seq<PeerRecord>, u: seq<PeerRecord>, id: Text, now: u64, other: Text) {
    && Of(s, id) != []
    && Of(u, other) == if other == id then TouchedOf(Of(s, id), id, now) else Of(s, other)
  }

  lemma TouchHead(h: PeerRecord, t: seq<PeerRecord>, now: u64, other: Text)
    ensures Touches([h] + t, [h.(seen := Some(now))] + t, h.id, now, other)
  {
  }

  lemma TouchTail(h: PeerRecord, t: seq<PeerRecord>, u: seq<PeerRecord>, id: Text, now: u64, other: Text)
    requires h.id != id && Touches(t, u, id, now, other)
    ensures Touches([h] + t, [h] + u, id, now, other)
  {
  }

  lemma {:induction false} TouchKnown(s: seq<PeerRecord>, u: seq<PeerRecord>, id: Text, now: u64, k: nat, other: Text)
    requires k < |s| && s[k].id == id && (forall i :: 0 <= i < k ==> s[i].id != id)
    requires u == s[k := s[k].(seen := Some(now))]
    ensures Touches(s, u, id, now, other)
  {
    var h, t, v := s[0], s[1..], u[1..];
    assert s == [h] + t && u == [u[0]] + v;
    if k == 0 {
      assert v == t;
      TouchHead(h, t, now, other);
    } else {
      assert v == t[k - 1 := t[k - 1].(seen := Some(now))];
      TouchKnown(t, v, id, now, k - 1, other);
      TouchTail(h, t, v, id, now, other);
    }
  }

  lemma KnowsOf(s: seq<PeerRecord>, id: Text)
    ensures Knows(s, id) <==> Of(s, id) != []
  {
    OfMember(s, id);
    if i :| 0 <= i < |s| && s[i].id == id { assert Ids(s)[i] == id; }
  }

  lemma TouchedGroups(s: seq<PeerRecord>, id: Text, now: u64, other: Text)
    ensures Of(Touched(s, id, now), other) == if other == id then TouchedOf(Of(s, id), id, now) else Of(s, other)
  {
    var k := FirstIndex(Ids(s), id);
    if k.Some? {
      assert forall i :: 0 <= i < k.value ==> s[i].id == Ids(s)[..k.value][i];
      TouchKnown(s, Touched(s, id, now), id, now, k.value, other);
    } else {
      KnowsOf(s, id);
      OfSnoc(s, PeerRecord(id, now, Some(now)), other);
    }
  }

  lemma TouchKeepsSorted(s: seq<PeerRecord>, id: Text, now: u64)
    requires Sorted(s) && Knows(s, id)
    ensures Sorted(Touched(s, id, now))
  {
  }

  /** Adding to the sorted list gives the sorted list of the touched one. */
  lemma AddedIsSorted(s: seq<PeerRecord>, id: Text, now: u64)
    ensures Added(Sort(s), id, now) == Sort(Touched(s, id, now))
  {
    var a, b := Added(Sort(s), id, now), Sort(Touched(s, id, now));
    SortIsStable(s, id);
    SortIsStable(Touched(s, id, now), id);
    if Knows(Sort(s), id) { TouchKeepsSorted(Sort(s), id, now); } else { SortIsStable(Touched(Sort(s), id, now), id); }
    forall other ensures Of(a, other) == Of(b, other) { SameGroups(s, id, now, other); }
    SortedUnique(a, b);
  }

  lemma SameGroups(s: seq<PeerRecord>, id: Text, now: u64, other: Text)
    ensures Of(Added(Sort(s), id, now), other) == Of(Sort(Touched(s, id, now)), other)
  {
    SortIsStable(Touched(s, id, now), other);
    SortIsStable(Touched(Sort(s), id, now), other);
    TouchedGroups(s, id, now, other);
    TouchedGroups(Sort(s), id, now, other);
    SortIsStable(s, id);
    SortIsStable(s, other);
  }

  lemma AddedNext(b: Batch, id: Text, now: u64)
    ensures Added(Finished(b), id, now) == Finished(Batch(Touched(b.peers, id, now), b.inserted || !Knows(b.peers, id)))
  {
    if b.inserted { AddedIsSorted(b.peers, id, now); }
  }

  /** A batch that sorts once at the end equals adding its peers one by one, for every list and every
      batch, sorted or not, with or without repetitions. */
  lemma {:induction false} BatchIsFold(s: seq<PeerRecord>, ids: seq<Text>, now: u64)
    ensures Finished(TouchedAll(s, ids, now)) == AddedAll(s, ids, now)
  {
    if ids != [] {
      BatchIsFold(s, ids[..|ids| - 1], now);
      AddedNext(TouchedAll(s, ids[..|ids| - 1], now), ids[|ids| - 1], now);
    }
  }

  // ----- The list as the program keeps it -----------------------------------------------------------------------

  predicate StrictlySorted(s: seq<PeerRecord>) { forall i :: 0 <= i < |s| - 1 ==> Less(s[i].id, s[i + 1].id) }

  lemma PrefixAscends(s: seq<PeerRecord>, n: nat)
    requires n <= |s| && StrictlySorted(s[..n])
    ensures Ascends(Ids(s)[..n])
  {
    var names := Ids(s)[..n];
    forall k | 0 <= k < |names| - 1 ensures Less(names[k], names[k + 1]) {
      assert Less(s[..n][k].id, s[..n][k + 1].id);
    }
    forall i, j | 0 <= i < j < |names| ensures Less(names[i], names[j]) { StepsAscend(names, i, j); }
  }

  class KnownPeers {
    var peers: seq<PeerRecord>

    constructor (peers: seq<PeerRecord>)
      ensures this.peers == peers
    {
      this.peers := peers;
    }

    /** Finds a record, in the first `prefix` records by binary search. */
    method Find(id: Text, prefix: nat) returns (k: Option<nat>)
      requires prefix <= |peers| && StrictlySorted(peers[..prefix])
      ensures k == FirstIndex(Ids(peers), id)
    {
      var names := Ids(peers);
      PrefixAscends(peers, prefix);
      SearchSplit(names, prefix, id);
      k := BinarySearch(names[..prefix], id);
      if k.None? {
        var rest := FirstIndex(names[prefix..], id);
        k := if rest.None? then None else Some(prefix + rest.value);
      }
    }

    /** `add_or_touch_unsorted`. */
    method TouchUnsorted(id: Text, now: u64, prefix: nat) returns (inserted: bool)
      requires prefix <= |peers| && StrictlySorted(peers[..prefix])
      modifies this
      ensures peers == Touched(old(peers), id, now) && (inserted <==> !Knows(old(peers), id))
      ensures prefix <= |peers| && StrictlySorted(peers[..prefix])
    {
      var k := Find(id, prefix);
      if k.Some? {
        peers := peers[k.value := peers[k.value].(seen := Some(now))];
        assert forall i :: 0 <= i < prefix ==> peers[..prefix][i].id == old(peers)[..prefix][i].id;
        return false;
      }
      peers := peers + [PeerRecord(id, now, Some(now))];
      assert peers[..prefix] == old(peers)[..prefix];
      return true;
    }

    /** `add_or_touch`. */
    method AddOrTouch(id: Text, now: u64)
      modifies this
      ensures peers == Added(old(peers), id, now)
    {
      var inserted := TouchUnsorted(id, now, 0);
      if inserted { peers := Sort(peers); }
    }

    /** `merge_endpoint_ids`: the result of adding the peers one by one. */
    method MergeEndpointIds(ids: seq<Text>, now: u64)
      modifies this
      ensures peers == AddedAll(old(peers), ids, now)
    {
      var prefix := 0;
      if |peers| >= MIN_BINARY_SEARCH && |ids| >= MIN_BINARY_SEARCH && StrictlySorted(peers) {
        prefix := |peers|;
        assert peers[..prefix] == peers;
      }
      ghost var start := peers;
      var inserted := false;
      for i := 0 to |ids|
        invariant prefix <= |peers| && StrictlySorted(peers[..prefix])
        invariant TouchedAll(start, ids[..i], now) == Batch(peers, inserted)
      {
        assert ids[..i + 1][..i] == ids[..i];
        var added := TouchUnsorted(ids[i], now, prefix);
        inserted := inserted || added;
      }
      assert ids[..|ids|] == ids;
      BatchIsFold(start, ids, now);
      if inserted { peers := Sort(peers); }
    }
  }
}
