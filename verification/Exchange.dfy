/** One exchange between two peers, and repeated exchanges, on views: the server applies the client's
    view with the uploaded files, then the client applies the server's new view with the downloads. */
module Exchange {
  import opened Bytes
  import opened Clock
  import opened Manifests
  import opened Merge
  import opened Reconcile
  import opened Plan

  /** The server's view after it applied the client's manifest and uploads. */
  function ServerAfter(a: Records, b: Records): Records {
    Applied(b, a, Wanted(b, a) - Elements(Batch(UploadSet(a, b))))
  }

  /** The requested files the server still has to send (`build_transfer_files`). */
  function Sent(a: Records, b: Records, b1: Records): set<Path> {
    FilesAmong(b1, Elements(Batch(DownloadSet(a, b))))
  }

  function FilesAmong(v: Records, paths: set<Path>): set<Path> { set p | p in paths && p in v && v[p].File? }

  /** The client's view after it applied the server's new manifest and the downloads. */
  function ClientAfter(a: Records, b: Records): Records {
    var b1 := ServerAfter(a, b);
    Applied(a, b1, Wanted(a, b1) - Sent(a, b, b1))
  }

  // ----- One path of an exchange ------------------------------------------------------------------

  /** Two records, one of each side, agree when their versions are equal. */
  predicate Agree(x: Option<Record>, y: Option<Record>) {
    x.Some? && y.Some? && x.value.Version() == y.value.Version() ==> x.value.Synced() == y.value.Synced()
  }

  predicate SameRecord(x: Option<Record>, y: Option<Record>) {
    (x.Some? <==> y.Some?) && (x.Some? ==> x.value.Synced() == y.value.Synced())
  }

  predicate Wants1(x: Option<Record>, y: Option<Record>) {
    y.Some? && RemoteWins(x, y) && y.value.File? && !(x.Some? && SameContent(x.value, y.value))
  }

  /** What becomes of one path: `up` and `down` say whether its file travelled. */
  function Server1(x: Option<Record>, y: Option<Record>, up: bool): Option<Record> {
    if Wants1(y, x) && !up then y else Select(y, x)
  }

  function Client1(x: Option<Record>, y: Option<Record>, up: bool, down: bool): Option<Record> {
    var y1 := Server1(x, y, up);
    if Wants1(x, y1) && !down then x else Select(x, y1)
  }

  lemma OnePath(x: Option<Record>, y: Option<Record>, up: bool, down: bool)
    requires Agree(x, y)
    ensures var x1, y1 := Client1(x, y, up, down), Server1(x, y, up);
      && Agree(x1, y1)
      && (Wants1(x1, y1) <==> Wants1(x, y) && !down)
      && (Wants1(y1, x1) <==> Wants1(y, x) && !up)
      && (Wants1(x, y1) <==> Wants1(x, y))
      && (Wants1(x, y) ==> y1 == y)
      && SameRecord(Select(x1, y1), Select(x, y))
      && SameRecord(Select(x, y1), Select(x, y))
      && (!(Wants1(x, y) && !down) && !(Wants1(y, x) && !up) ==> SameRecord(x1, y1) && SameRecord(x1, Select(x, y)))
  {
    if x.Some? && y.Some? { OlderTrichotomy(x.value.Version(), y.value.Version()); }
  }

  // ----- One exchange --------------------------------------------------------------------------------

  lemma WantedAt(a: Records, b: Records, p: Path)
    ensures p in Wanted(a, b) <==> Wants1(Get(a, p), Get(b, p))
  {
  }

  lemma AgreeAt(a: Records, b: Records, p: Path)
    requires Compatible(a, b)
    ensures Agree(Get(a, p), Get(b, p))
  {
  }

  lemma ServerAt(a: Records, b: Records, p: Path)
    requires Compatible(a, b)
    ensures Get(ServerAfter(a, b), p) == Server1(Get(a, p), Get(b, p), p in Elements(Batch(Wanted(b, a))))
  {
    PlanMatchesApply(a, b);
    WantedAt(b, a, p);
  }

  lemma SentAt(a: Records, b: Records, p: Path)
    requires Compatible(a, b) && p in Wanted(a, ServerAfter(a, b))
    ensures p in Sent(a, b, ServerAfter(a, b)) <==> p in Elements(Batch(Wanted(a, b)))
  {
    PlanMatchesApply(a, b);
  }

  lemma ClientAt(a: Records, b: Records, p: Path)
    requires Compatible(a, b)
    ensures Get(ClientAfter(a, b), p) ==
      Client1(Get(a, p), Get(b, p), p in Elements(Batch(Wanted(b, a))), p in Elements(Batch(Wanted(a, b))))
  {
    var b1 := ServerAfter(a, b);
    ServerAt(a, b, p);
    WantedAt(a, b1, p);
    if p in Wanted(a, b1) { SentAt(a, b, p); }
  }

  /** After one exchange the requested files are no longer wanted, and nothing else has become wanted;
      the merge of the two sides is unchanged. */
  lemma ExchangeProgress(a: Records, b: Records)
    requires Compatible(a, b)
    ensures Compatible(ClientAfter(a, b), ServerAfter(a, b))
    ensures Wanted(ClientAfter(a, b), ServerAfter(a, b)) == Wanted(a, b) - Elements(Batch(Wanted(a, b)))
    ensures Wanted(ServerAfter(a, b), ClientAfter(a, b)) == Wanted(b, a) - Elements(Batch(Wanted(b, a)))
    ensures SameState(Merged(ClientAfter(a, b), ServerAfter(a, b)), Merged(a, b))
  {
    WantedAfter(a, b);
    StateAfter(a, b);
  }

  lemma WantedAfter(a: Records, b: Records)
    requires Compatible(a, b)
    ensures Wanted(ClientAfter(a, b), ServerAfter(a, b)) == Wanted(a, b) - Elements(Batch(Wanted(a, b)))
    ensures Wanted(ServerAfter(a, b), ClientAfter(a, b)) == Wanted(b, a) - Elements(Batch(Wanted(b, a)))
  {
    var a1, b1 := ClientAfter(a, b), ServerAfter(a, b);
    var w, batch := Wanted(a, b), Elements(Batch(Wanted(a, b)));
    var x, sent := Wanted(b, a), Elements(Batch(Wanted(b, a)));
    var w1, x1 := Wanted(a1, b1), Wanted(b1, a1);
    forall p ensures (p in w1 <==> p in w && p !in batch) && (p in x1 <==> p in x && p !in sent) {
      ProgressAt(a, b, p);
    }
    SetMinus(w1, w, batch);
    SetMinus(x1, x, sent);
  }

  lemma SetMinus(s: set<Path>, t: set<Path>, u: set<Path>)
    requires forall p :: p in s <==> p in t && p !in u
    ensures s == t - u
  {
  }

  lemma StateAfter(a: Records, b: Records)
    requires Compatible(a, b)
    ensures Compatible(ClientAfter(a, b), ServerAfter(a, b))
    ensures SameState(Merged(ClientAfter(a, b), ServerAfter(a, b)), Merged(a, b))
  {
    var a1, b1 := ClientAfter(a, b), ServerAfter(a, b);
    forall p
      ensures Agree(Get(a1, p), Get(b1, p))
      ensures SameRecord(Get(Merged(a1, b1), p), Get(Merged(a, b), p))
    {
      ProgressAt(a, b, p);
    }
    AgreeEverywhere(a1, b1);
    SameEverywhere(Merged(a1, b1), Merged(a, b));
  }

  lemma ProgressAt(a: Records, b: Records, p: Path)
    requires Compatible(a, b)
    ensures var a1, b1 := ClientAfter(a, b), ServerAfter(a, b);
      && Agree(Get(a1, p), Get(b1, p))
      && (p in Wanted(a1, b1) <==> p in Wanted(a, b) - Elements(Batch(Wanted(a, b))))
      && (p in Wanted(b1, a1) <==> p in Wanted(b, a) - Elements(Batch(Wanted(b, a))))
      && SameRecord(Get(Merged(a1, b1), p), Get(Merged(a, b), p))
  {
    var a1, b1 := ClientAfter(a, b), ServerAfter(a, b);
    ClientAt(a, b, p);
    ServerAt(a, b, p);
    AgreeAt(a, b, p);
    OnePath(Get(a, p), Get(b, p), p in Elements(Batch(Wanted(b, a))), p in Elements(Batch(Wanted(a, b))));
    WantedAt(a, b, p);
    WantedAt(b, a, p);
    WantedAt(a1, b1, p);
    WantedAt(b1, a1, p);
    MergedAt(a, b, p);
    MergedAt(a1, b1, p);
  }

  lemma AgreeEverywhere(v: Records, w: Records)
    requires forall p :: Agree(Get(v, p), Get(w, p))
    ensures Compatible(v, w)
  {
    forall p | p in v && p in w && v[p].Version() == w[p].Version() ensures v[p].Synced() == w[p].Synced() {
      assert Agree(Get(v, p), Get(w, p));
    }
  }

  lemma SameEverywhere(v: Records, w: Records)
    requires forall p :: SameRecord(Get(v, p), Get(w, p))
    ensures SameState(v, w)
  {
    forall p ensures p in v <==> p in w { assert SameRecord(Get(v, p), Get(w, p)); }
    forall p | p in v ensures v[p].Synced() == w[p].Synced() { assert SameRecord(Get(v, p), Get(w, p)); }
  }

  /** With nothing left waiting, one exchange makes both sides equal to the merge. */
  lemma ExchangeConverges(a: Records, b: Records)
    requires Compatible(a, b)
    requires Elements(Batch(Wanted(a, b))) == Wanted(a, b) && Elements(Batch(Wanted(b, a))) == Wanted(b, a)
    ensures SameState(ClientAfter(a, b), ServerAfter(a, b))
    ensures SameState(ClientAfter(a, b), Merged(a, b))
  {
    var a1, b1 := ClientAfter(a, b), ServerAfter(a, b);
    forall p
      ensures SameRecord(Get(a1, p), Get(b1, p))
      ensures SameRecord(Get(a1, p), Get(Merged(a, b), p))
    {
      ClientAt(a, b, p);
      ServerAt(a, b, p);
      AgreeAt(a, b, p);
      WantedAt(a, b, p);
      WantedAt(b, a, p);
      OnePath(Get(a, p), Get(b, p), p in Elements(Batch(Wanted(b, a))), p in Elements(Batch(Wanted(a, b))));
      MergedAt(a, b, p);
    }
    SameEverywhere(a1, b1);
    SameEverywhere(a1, Merged(a, b));
  }

  // ----- Repeated exchanges ---------------------------------------------------------------------------

  datatype Sides = Sides(client: Records, server: Records)

  predicate Exchanged(s: Sides, t: Sides) {
    t.client == ClientAfter(s.client, s.server) && t.server == ServerAfter(s.client, s.server)
  }

  /** `run[k]` holds both sides after `k` exchanges without local edits. */
  ghost predicate Repeated(run: seq<Sides>) {
    |run| > 0 && forall k :: 0 <= k < |run| - 1 ==> Exchanged(run[k], run[k + 1])
  }

  function Cut(s: set<Path>, k: nat): nat { if MAX_TRANSFER * k < |s| then MAX_TRANSFER * k else |s| }

  /** What remains of a set once its first `k` batches are gone. */
  function Rest(s: set<Path>, k: nat): set<Path> {
    Elements(Ascending(s)[Cut(s, k)..])
  }

  lemma SuffixIsAscending(s: set<Path>, j: nat)
    requires j <= |s|
    ensures Ascending(Elements(Ascending(s)[j..])) == Ascending(s)[j..]
    ensures |Elements(Ascending(s)[j..])| == |s| - j
  {
    AscendingOrder(s);
    var t := Ascending(s)[j..];
    assert Enumerates(t, Elements(t));
    AscendingUnique(t, Elements(t));
  }

  lemma SplitElements(t: seq<Path>, j: nat)
    requires Ascends(t) && j <= |t|
    ensures Elements(t) - Elements(t[..j]) == Elements(t[j..])
  {
    assert t == t[..j] + t[j..];
    forall x | x in t[j..] ensures x !in t[..j] {
      var i :| 0 <= i < |t[j..]| && t[j..][i] == x;
      forall k | 0 <= k < j ensures t[..j][k] != x { LessTrichotomy(t[k], t[j + i]); }
    }
  }

  lemma RestStep(s: set<Path>, k: nat)
    ensures Rest(s, k) - Elements(Batch(Rest(s, k))) == Rest(s, k + 1)
  {
    var j := Cut(s, k);
    var t := Ascending(s)[j..];
    SuffixIsAscending(s, j);
    AscendingOrder(s);
    var n := Cut(s, k + 1) - j;
    assert Batch(Rest(s, k)) == t[..n];
    SplitElements(t, n);
    assert t[n..] == Ascending(s)[Cut(s, k + 1)..];
  }

  lemma RestStart(s: set<Path>)
    ensures Rest(s, 0) == s
  {
    VisitedAll(s);
    assert Ascending(s)[0..] == Ascending(s)[..|s|];
  }

  /** Both wanted sets have lost their first `k` batches in path order, and the merge is still the
      original one. */
  ghost predicate Stage(downs: set<Path>, ups: set<Path>, goal: Records, k: nat, s: Sides) {
    && Compatible(s.client, s.server)
    && Wanted(s.client, s.server) == Rest(downs, k) && Wanted(s.server, s.client) == Rest(ups, k)
    && SameState(Merged(s.client, s.server), goal)
  }

  lemma StageStep(downs: set<Path>, ups: set<Path>, goal: Records, k: nat, s: Sides, t: Sides)
    requires Stage(downs, ups, goal, k, s) && Exchanged(s, t)
    ensures Stage(downs, ups, goal, k + 1, t)
  {
    ExchangeProgress(s.client, s.server);
    RestStep(downs, k);
    RestStep(ups, k);
    SameStateTransitive(Merged(t.client, t.server), Merged(s.client, s.server), goal);
  }

  lemma {:induction false} RunStage(downs: set<Path>, ups: set<Path>, goal: Records, run: seq<Sides>, k: nat)
    requires Repeated(run) && k < |run| && Stage(downs, ups, goal, 0, run[0])
    ensures Stage(downs, ups, goal, k, run[k])
  {
    if k > 0 {
      RunStage(downs, ups, goal, run, k - 1);
      StageStep(downs, ups, goal, k - 1, run[k - 1], run[k]);
    }
  }

  /** After `k` exchanges exactly the first `256 * k` wanted files in path order have arrived, on both
      sides, and the merge is still the original one. */
  lemma RoundsProgress(run: seq<Sides>, k: nat)
    requires Repeated(run) && k < |run| && Compatible(run[0].client, run[0].server)
    ensures var a, b := run[0].client, run[0].server;
      Stage(Wanted(a, b), Wanted(b, a), Merged(a, b), k, run[k])
  {
    var a, b := run[0].client, run[0].server;
    RestStart(Wanted(a, b));
    RestStart(Wanted(b, a));
    RunStage(Wanted(a, b), Wanted(b, a), Merged(a, b), run, k);
  }

  lemma SameStateTransitive(u: Records, v: Records, w: Records)
    requires SameState(u, v) && SameState(v, w)
    ensures SameState(u, w)
  {
  }

  lemma SmallBatch(s: set<Path>)
    requires |s| <= MAX_TRANSFER
    ensures Elements(Batch(s)) == s
  {
    VisitedAll(s);
  }

  lemma RestSize(s: set<Path>, k: nat)
    ensures |Rest(s, k)| == |s| - Cut(s, k)
  {
    SuffixIsAscending(s, Cut(s, k));
  }

  /** The exact number of exchanges: files remain wanted while `256 * k` is below their number. */
  lemma RoundsRemaining(run: seq<Sides>, k: nat)
    requires Repeated(run) && k < |run| && Compatible(run[0].client, run[0].server)
    ensures var downs, ups := Wanted(run[0].client, run[0].server), Wanted(run[0].server, run[0].client);
      && |Wanted(run[k].client, run[k].server)| == |downs| - Cut(downs, k)
      && |Wanted(run[k].server, run[k].client)| == |ups| - Cut(ups, k)
  {
    RoundsProgress(run, k);
    RestSize(Wanted(run[0].client, run[0].server), k);
    RestSize(Wanted(run[0].server, run[0].client), k);
  }

  /** `max(ceil(n / 256), ceil(m / 256))` exchanges, and at least one, make both sides equal to the
      merge of what they started with. */
  lemma RoundsConverge(run: seq<Sides>, k: nat)
    requires Repeated(run) && 1 <= k < |run| && Compatible(run[0].client, run[0].server)
    requires |Wanted(run[0].client, run[0].server)| <= MAX_TRANSFER * k
    requires |Wanted(run[0].server, run[0].client)| <= MAX_TRANSFER * k
    ensures SameState(run[k].client, run[k].server)
    ensures SameState(run[k].client, Merged(run[0].client, run[0].server))
  {
    var a, b := run[0].client, run[0].server;
    RoundsProgress(run, k - 1);
    LastStage(Wanted(a, b), Wanted(b, a), Merged(a, b), k - 1, run[k - 1], run[k]);
  }

  lemma LastStage(downs: set<Path>, ups: set<Path>, goal: Records, k: nat, s: Sides, t: Sides)
    requires Stage(downs, ups, goal, k, s) && Exchanged(s, t)
    requires |downs| <= MAX_TRANSFER * (k + 1) && |ups| <= MAX_TRANSFER * (k + 1)
    ensures SameState(t.client, t.server) && SameState(t.client, goal)
  {
    RestSize(downs, k);
    RestSize(ups, k);
    SmallBatch(Wanted(s.client, s.server));
    SmallBatch(Wanted(s.server, s.client));
    ExchangeConverges(s.client, s.server);
    SameStateTransitive(t.client, Merged(s.client, s.server), goal);
  }
}
