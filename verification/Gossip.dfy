/** Many peers and no more edits: exchanges in any order bring every peer whom all news reached to the merge
    of all manifests. */
module Gossip {
  import opened Bytes
  import opened Chains
  import opened Clock
  import opened Manifests
  import opened Merge
  import opened Reconcile
  import opened Plan
  import opened Exchange

  /** What every peer holds, and whose initial manifests have reached it so far. */
  datatype Group = Group(views: map<Key, Records>, heard: map<Key, set<Key>>)

  /** Any two initial manifests agree where their versions do. */
  ghost predicate AllCompatible(initial: map<Key, Records>) {
    forall k, l :: k in initial && l in initial ==> Compatible(initial[k], initial[l])
  }

  ghost predicate Beginning(initial: map<Key, Records>, g: Group) {
    && g.views == initial && g.heard.Keys == initial.Keys
    && forall k :: k in initial ==> g.heard[k] == {k}
  }

  /** Peers `i` and `j` synchronise until nothing is wanted: both hold the merge of what they held. */
  ghost predicate Meets(g: Group, h: Group, i: Key, j: Key) {
    && i in g.views && j in g.views && i in g.heard && j in g.heard
    && h.views.Keys == g.views.Keys && h.heard == g.heard[i := g.heard[i] + g.heard[j]][j := g.heard[i] + g.heard[j]]
    && SameState(h.views[i], Merged(g.views[i], g.views[j])) && SameState(h.views[j], Merged(g.views[i], g.views[j]))
    && forall k :: k in g.views && k != i && k != j ==> h.views[k] == g.views[k]
  }

  ghost predicate Next(g: Group, h: Group) { exists i, j :: Meets(g, h, i, j) }

  ghost predicate Run(initial: map<Key, Records>, run: seq<Group>) {
    Chain(run, Steps()) && Beginning(initial, run[0])
  }

  ghost function Steps(): (Group, Group) -> bool { (g, h) => Next(g, h) }

  lemma RunStep(initial: map<Key, Records>, run: seq<Group>, k: nat)
    requires Run(initial, run) && k + 1 < |run|
    ensures Next(run[k], run[k + 1])
  {
    assert Steps()(run[k], run[k + 1]);
  }

  // ----- The newest record among some peers --------------------------------------------------------------

  /** `r` is a newest record at `p` among the initial manifests of `from`, or there is none. */
  ghost predicate Newest(initial: map<Key, Records>, from: set<Key>, p: Path, r: Option<Record>) {
    && from <= initial.Keys
    && (r.Some? ==> exists k :: k in from && p in initial[k] && initial[k][p].Synced() == r.value.Synced())
    && forall k :: k in from && p in initial[k] ==> r.Some? && NotNewer(initial[k][p].Version(), r.value.Version())
  }

  lemma SyncedVersion(r: Record, s: Record)
    requires r.Synced() == s.Synced()
    ensures r.Version() == s.Version()
  {
    assert r.Synced().Version() == r.Version() && s.Synced().Version() == s.Version();
  }

  lemma NotNewerTransitive(a: Stamp, b: Stamp, c: Stamp)
    requires NotNewer(a, b) && NotNewer(b, c)
    ensures NotNewer(a, c)
  {
    if a != b && b != c { OlderTransitive(a, b, c); }
  }

  lemma NewestSame(initial: map<Key, Records>, from: set<Key>, p: Path, r: Option<Record>, s: Option<Record>)
    requires Newest(initial, from, p, r) && SameRecord(r, s)
    ensures Newest(initial, from, p, s)
  {
    if r.Some? { SyncedVersion(r.value, s.value); }
  }

  lemma NewestSelect(initial: map<Key, Records>, k: set<Key>, l: set<Key>, p: Path, x: Option<Record>,
                     y: Option<Record>)
    requires Newest(initial, k, p, x) && Newest(initial, l, p, y)
    ensures Newest(initial, k + l, p, Select(x, y))
  {
    var z := Select(x, y);
    if x.Some? && y.Some? { OlderTrichotomy(x.value.Version(), y.value.Version()); }
    forall m | m in k + l && p in initial[m] ensures z.Some? && NotNewer(initial[m][p].Version(), z.value.Version()) {
      if m in k && z == y { NotNewerTransitive(initial[m][p].Version(), x.value.Version(), y.value.Version()); }
      if m in l && z == x { NotNewerTransitive(initial[m][p].Version(), y.value.Version(), x.value.Version()); }
    }
  }

  /** Where equal versions mean equal records, the newest record is unique up to its modification time. */
  lemma NewestUnique(initial: map<Key, Records>, from: set<Key>, p: Path, x: Option<Record>, y: Option<Record>)
    requires AllCompatible(initial) && Newest(initial, from, p, x) && Newest(initial, from, p, y)
    ensures SameRecord(x, y)
  {
    if x.Some? {
      var k :| k in from && p in initial[k] && initial[k][p].Synced() == x.value.Synced();
      assert y.Some?;
      var l :| l in from && p in initial[l] && initial[l][p].Synced() == y.value.Synced();
      SyncedVersion(initial[k][p], x.value);
      SyncedVersion(initial[l][p], y.value);
      OlderTrichotomy(x.value.Version(), y.value.Version());
      assert Compatible(initial[k], initial[l]);
    }
  }

  // ----- Every peer holds the newest of what it heard -----------------------------------------------------

  /** At every path the view holds the newest record among the initial manifests of `from`. */
  ghost predicate Holds(initial: map<Key, Records>, from: set<Key>, v: Records) {
    forall p :: Newest(initial, from, p, Get(v, p))
  }

  ghost predicate Informed(initial: map<Key, Records>, g: Group, i: Key) {
    i in g.views && i in g.heard && Holds(initial, g.heard[i], g.views[i])
  }

  ghost predicate AllInformed(initial: map<Key, Records>, g: Group) {
    g.views.Keys == initial.Keys && g.heard.Keys == initial.Keys && forall i :: i in initial ==> Informed(initial, g, i)
  }

  lemma BeginningInformed(initial: map<Key, Records>, g: Group)
    requires Beginning(initial, g)
    ensures AllInformed(initial, g)
  {
    forall i, p | i in initial ensures Newest(initial, g.heard[i], p, Get(g.views[i], p)) {
      assert i in {i};
    }
  }

  /** Merging two views that hold the newest of `k` and of `l` gives one that holds the newest of both. */
  lemma MergeHolds(initial: map<Key, Records>, k: set<Key>, v: Records, l: set<Key>, w: Records, u: Records)
    requires Holds(initial, k, v) && Holds(initial, l, w) && SameState(u, Merged(v, w))
    ensures Holds(initial, k + l, u)
  {
    forall p ensures Newest(initial, k + l, p, Get(u, p)) {
      NewestSelect(initial, k, l, p, Get(v, p), Get(w, p));
      MergedAt(v, w, p);
      NewestSame(initial, k + l, p, Select(Get(v, p), Get(w, p)), Get(u, p));
    }
  }

  lemma MeetsHeard(g: Group, h: Group, i: Key, j: Key, k: Key)
    requires Meets(g, h, i, j) && k in g.heard
    ensures k in h.heard && h.heard[k] == if k == i || k == j then g.heard[i] + g.heard[j] else g.heard[k]
  {
  }

  lemma MeetsView(g: Group, h: Group, i: Key, j: Key, k: Key)
    requires Meets(g, h, i, j) && k in g.views
    ensures k in h.views
    ensures if k == i || k == j then SameState(h.views[k], Merged(g.views[i], g.views[j])) else h.views[k] == g.views[k]
  {
  }

  lemma PeerInformed(initial: map<Key, Records>, g: Group, h: Group, i: Key, j: Key, k: Key)
    requires Informed(initial, g, i) && Informed(initial, g, j) && Informed(initial, g, k) && Meets(g, h, i, j)
    ensures Informed(initial, h, k)
  {
    MeetsHeard(g, h, i, j, k);
    MeetsView(g, h, i, j, k);
    if k == i || k == j { MergeHolds(initial, g.heard[i], g.views[i], g.heard[j], g.views[j], h.views[k]); }
  }

  lemma MeetsKeepsInformed(initial: map<Key, Records>, g: Group, h: Group, i: Key, j: Key)
    requires AllInformed(initial, g) && Meets(g, h, i, j)
    ensures AllInformed(initial, h)
  {
    forall k | k in initial ensures Informed(initial, h, k) {
      assert Informed(initial, g, i) && Informed(initial, g, j) && Informed(initial, g, k);
      PeerInformed(initial, g, h, i, j, k);
    }
  }

  lemma {:induction false} RunInformed(initial: map<Key, Records>, run: seq<Group>, n: nat)
    requires Run(initial, run) && n < |run|
    ensures AllInformed(initial, run[n])
  {
    if n == 0 {
      BeginningInformed(initial, run[0]);
    } else {
      RunInformed(initial, run, n - 1);
      RunStep(initial, run, n - 1);
      var i, j :| Meets(run[n - 1], run[n], i, j);
      MeetsKeepsInformed(initial, run[n - 1], run[n], i, j);
    }
  }

  // ----- The merge of all -----------------------------------------------------------------------------------

  /** The initial manifests merged one after the other. */
  function MergedAll(initial: map<Key, Records>, order: seq<Key>): Records
    requires forall k :: k in order ==> k in initial
  {
    if order == [] then map[]
    else Merged(MergedAll(initial, order[..|order| - 1]), initial[order[|order| - 1]])
  }

  function Members(order: seq<Key>): set<Key> { set k | k in order }

  lemma {:induction false} MergedAllNewest(initial: map<Key, Records>, order: seq<Key>, p: Path)
    requires forall k :: k in order ==> k in initial
    ensures Newest(initial, Members(order), p, Get(MergedAll(initial, order), p))
  {
    if order != [] {
      var front, k := order[..|order| - 1], order[|order| - 1];
      MergedAllNewest(initial, front, p);
      assert k in {k} && Newest(initial, {k}, p, Get(initial[k], p));
      NewestSelect(initial, Members(front), {k}, p, Get(MergedAll(initial, front), p), Get(initial[k], p));
      MergedAt(MergedAll(initial, front), initial[k], p);
      assert Members(order) == Members(front) + {k} by { assert order == front + [k]; }
    }
  }

  /** In any sequence of exchanges, a peer whom the manifests of all peers have reached holds the merge of all
      of them, in whatever order that merge is taken; so all such peers agree. */
  lemma GossipConverges(initial: map<Key, Records>, run: seq<Group>, n: nat, i: Key, order: seq<Key>)
    requires AllCompatible(initial) && Run(initial, run) && n < |run| && i in initial
    requires Members(order) == initial.Keys && i in run[n].heard && run[n].heard[i] == initial.Keys
    ensures i in run[n].views && SameState(run[n].views[i], MergedAll(initial, order))
  {
    assert forall k :: k in order ==> k in Members(order);
    RunInformed(initial, run, n);
    assert Informed(initial, run[n], i);
    forall p ensures SameRecord(Get(run[n].views[i], p), Get(MergedAll(initial, order), p)) {
      MergedAllNewest(initial, order, p);
      NewestUnique(initial, initial.Keys, p, Get(run[n].views[i], p), Get(MergedAll(initial, order), p));
    }
    SameEverywhere(run[n].views[i], MergedAll(initial, order));
  }

  /** Enough exchanges between two peers, while nobody edits, are such a meeting. */
  lemma RoundsMeet(g: Group, h: Group, i: Key, j: Key, run: seq<Sides>, k: nat)
    requires i in g.views && j in g.views && i in g.heard && j in g.heard && i in h.views && j in h.views
    requires Repeated(run) && 1 <= k < |run| && Compatible(g.views[i], g.views[j])
    requires run[0] == Sides(g.views[i], g.views[j]) && run[k] == Sides(h.views[i], h.views[j])
    requires |Wanted(g.views[i], g.views[j])| <= MAX_TRANSFER * k &&
      |Wanted(g.views[j], g.views[i])| <= MAX_TRANSFER * k
    requires h.views.Keys == g.views.Keys && forall x :: x in g.views && x != i && x != j ==> h.views[x] == g.views[x]
    requires h.heard == g.heard[i := g.heard[i] + g.heard[j]][j := g.heard[i] + g.heard[j]]
    ensures Meets(g, h, i, j)
  {
    RoundsConverge(run, k);
    SameStateFlip(h.views[i], h.views[j]);
    SameStateTransitive(h.views[j], h.views[i], Merged(g.views[i], g.views[j]));
  }

  lemma SameStateFlip(v: Records, w: Records)
    requires SameState(v, w)
    ensures SameState(w, v)
  {
  }
}
