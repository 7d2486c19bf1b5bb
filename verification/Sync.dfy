/** The exchange protocol on two shares with their directories: digest shortcut, planning, the server's
    application, then the client's; once, and repeated until nothing is wanted. */
module Sync {
  import opened Bytes
  import opened Clock
  import opened Manifests
  import opened Merge
  import opened Reconcile
  import opened Simulation
  import opened Shares
  import opened Plan
  import opened Exchange
  import opened Digest

  // ----- One synchronisation as a function --------------------------------------------------------------

  datatype SyncOutcome = SyncOutcome(pendingDownloads: nat, pendingUpdates: int)

  /** Both sides after a synchronisation, and the files each side left out. */
  datatype Meeting = Meeting(client: Replica, server: Replica, outcome: SyncOutcome,
                             leftServer: set<Path>, leftClient: set<Path>)

  /** A client that has not completed its initial synchronisation offers an empty manifest. */
  function Outbound(client: Manifest, id: Key, complete: bool, now: u64): Manifest {
    if complete then client else Empty(id, now)
  }

  function Fed(m: Manifest): Text { Stream(m.format, m.share, m.View()) }

  function Uploaded(outbound: Records, b: Records): set<Path> { Elements(Batch(UploadSet(outbound, b))) }

  /** The server half and then the client half, once the digests differ. */
  ghost function Met(x: Replica, y: Replica, id: Key, outbound: Manifest, now: u64, mx: Modes,
                     my: Modes): Option<Meeting> {
    var o, b := outbound.View(), y.View();
    var served := Transferred(y, id, outbound, Uploaded(o, b), now, my);
    if served.None? then None
    else
      var y1 := served.value.replica;
      var applied := Transferred(x, id, y1.manifest, Sent(o, b, y1.View()), now, mx);
      if applied.None? then None
      else Some(Meeting(applied.value.replica, y1, SyncOutcome(applied.value.outcome.pending, Waiting(o, b)),
                        served.value.left, applied.value.left))
  }

  ghost function Synchronised(x: Replica, y: Replica, id: Key, complete: bool, now: u64, mx: Modes,
                              my: Modes): Option<Meeting> {
    var outbound := Outbound(x.manifest, id, complete, now);
    if Fed(outbound) == Fed(y.manifest) then Some(Meeting(x, y, SyncOutcome(0, 0), {}, {}))
    else Met(x, y, id, outbound, now, mx, my)
  }

  // ----- What it means for any two replicas ----------------------------------------------------------------

  /** The server merged what it was offered, then the client merged what the server then held; each left
      out only winning files it was not sent. */
  ghost predicate BothApplied(outbound: Records, a: Records, b: Records, m: Meeting) {
    && Reconciled(b, outbound, Uploaded(outbound, b), m.leftServer, m.server.View())
    && Reconciled(a, m.server.View(), Sent(outbound, b, m.server.View()), m.leftClient, m.client.View())
    && m.outcome == SyncOutcome(|m.leftClient|, Waiting(outbound, b))
  }

  lemma EmptyIsValid(share: Key, now: u64)
    ensures Valid(Empty(share, now), share) && Empty(share, now).View() == map[]
  {
  }

  lemma NoWinnersReconciled(l: Records, r: Records, delivered: set<Path>)
    requires Winners(l, r) == {}
    ensures Reconciled(l, r, delivered, {}, l)
  {
    NothingMoves(l, r, {});
  }

  lemma NothingWaits(outbound: Records, b: Records)
    requires UploadSet(outbound, b) == {}
    ensures Waiting(outbound, b) == 0
  {
    assert |Ascending({})| == 0;
  }

  /** Doing nothing is an exchange of equal views, and of an empty offer with an empty server. */
  lemma UnchangedViews(outbound: Records, a: Records, b: Records, m: Meeting)
    requires SameState(outbound, b) && (a == outbound || outbound == map[])
    requires m.client.View() == a && m.server.View() == b && m.outcome == SyncOutcome(0, 0)
    requires m.leftServer == {} && m.leftClient == {}
    ensures BothApplied(outbound, a, b, m)
  {
    SameStateNeedsNothing(outbound, b);
    NoWinners(outbound, b);
    NothingWaits(outbound, b);
    NoWinnersReconciled(b, outbound, Uploaded(outbound, b));
    if a != outbound { assert b.Keys == {} && Winners(a, b) == {}; }
    NoWinnersReconciled(a, b, Sent(outbound, b, b));
  }

  lemma FedState(m: Manifest, n: Manifest, id: Key)
    requires Valid(m, id) && Valid(n, id) && Fed(m) == Fed(n)
    ensures SameState(m.View(), n.View())
  {
    ValidEncodable(m, id);
    ValidEncodable(n, id);
    StreamIdentifiesState(m.format, m.share, m.View(), n.format, n.share, n.View());
  }

  lemma MetMeaning(x: Replica, y: Replica, id: Key, outbound: Manifest, now: u64, mx: Modes, my: Modes, m: Meeting)
    requires Valid(x.manifest, id) && Valid(y.manifest, id) && Valid(outbound, id)
    requires Met(x, y, id, outbound, now, mx, my) == Some(m)
    ensures Valid(m.client.manifest, id) && Valid(m.server.manifest, id)
    ensures BothApplied(outbound.View(), x.View(), y.View(), m) && Advanced(x, m.client) && Advanced(y, m.server)
  {
    var o, b := outbound.View(), y.View();
    var served := Transferred(y, id, outbound, Uploaded(o, b), now, my).value;
    TransferMeaning(y, id, outbound, Uploaded(o, b), now, my, served);
    var y1 := served.replica;
    var applied := Transferred(x, id, y1.manifest, Sent(o, b, y1.View()), now, mx).value;
    TransferMeaning(x, id, y1.manifest, Sent(o, b, y1.View()), now, mx, applied);
  }

  /** Whatever the two replicas hold, a successful synchronisation leaves both merged with what the other
      held, except at files that were not sent, and reports exactly what still waits. */
  lemma SyncMeaning(x: Replica, y: Replica, id: Key, complete: bool, now: u64, mx: Modes, my: Modes, m: Meeting)
    requires Valid(x.manifest, id) && Valid(y.manifest, id)
    requires Synchronised(x, y, id, complete, now, mx, my) == Some(m)
    ensures Valid(m.client.manifest, id) && Valid(m.server.manifest, id)
    ensures BothApplied(if complete then x.View() else map[], x.View(), y.View(), m)
    ensures Advanced(x, m.client) && Advanced(y, m.server)
  {
    EmptyIsValid(id, now);
    var outbound := Outbound(x.manifest, id, complete, now);
    if Fed(outbound) == Fed(y.manifest) {
      FedState(outbound, y.manifest, id);
      UnchangedViews(outbound.View(), x.View(), y.View(), m);
    } else {
      MetMeaning(x, y, id, outbound, now, mx, my, m);
    }
  }

  // ----- When it must succeed ------------------------------------------------------------------------------

  /** Equal versions mean equal records, and the merge of the two views is sound and small enough. */
  ghost predicate Joinable(a: Records, b: Records) {
    Compatible(a, b) && Mergeable(a, b) && |Merged(a, b)| <= MAX_ENTRIES
  }

  /** No winning tombstone is blocked, on either side. */
  ghost predicate Open(a: Records, b: Records) { Unblocked(a, b) && Unblocked(b, a) }

  /** The directories mirror the manifests and no counter exceeds `k`. */
  ghost predicate Sound(x: Replica, y: Replica, k: nat) {
    && Mirror(x.tree, x.View(), {}) && Mirror(y.tree, y.View(), {})
    && Within(x.clock, x.View(), k) && Within(x.clock, y.View(), k)
    && Within(y.clock, x.View(), k) && Within(y.clock, y.View(), k)
  }

  ghost predicate Exchangeable(x: Replica, y: Replica, k: nat) {
    Joinable(x.View(), y.View()) && Open(x.View(), y.View()) && Sound(x, y, k) && k + MAX_ENTRIES <= U32_MAX
  }

  lemma SameHierarchy(v: Records, w: Records)
    requires SameState(v, w) && HierarchyOk(v)
    ensures HierarchyOk(w)
  {
  }

  lemma SameSize(v: Records, w: Records)
    requires v.Keys == w.Keys
    ensures |v| == |w|
  {
  }

  lemma MirroredMerge(a: Records, b: Records)
    requires Joinable(a, b)
    ensures Joinable(b, a)
  {
    MergeCommutesIff(a, b);
    SameHierarchy(Merged(a, b), Merged(b, a));
    SameSize(Merged(a, b), Merged(b, a));
  }

  lemma SecondMerge(a: Records, b: Records)
    requires Compatible(a, b)
    ensures SameState(Merged(a, b), Merged(a, ServerAfter(a, b)))
  {
    var b1 := ServerAfter(a, b);
    forall p ensures SameRecord(Get(Merged(a, b), p), Get(Merged(a, b1), p)) {
      ServerAt(a, b, p);
      AgreeAt(a, b, p);
      OnePath(Get(a, p), Get(b, p), p in Elements(Batch(Wanted(b, a))), false);
      MergedAt(a, b, p);
      MergedAt(a, b1, p);
    }
    SameEverywhere(Merged(a, b), Merged(a, b1));
  }

  lemma ServerLeft(a: Records, b: Records)
    ensures LeftOut(b, a, Wanted(b, a) - Elements(Batch(UploadSet(a, b))))
  {
  }

  lemma ServerClosed(a: Records, b: Records)
    requires ParentClosed(a) && ParentClosed(b) && HierarchyOk(Merged(b, a))
    ensures ParentClosed(ServerAfter(a, b))
  {
    var left := Wanted(b, a) - Elements(Batch(UploadSet(a, b)));
    ServerLeft(a, b);
    PartialHierarchy(b, a, left);
    PartialParentClosed(b, a, left);
  }

  /** The server only passes on tombstones that were its own. */
  lemma StillUnblocked(a: Records, b: Records)
    requires Compatible(a, b) && Unblocked(a, b)
    ensures Unblocked(a, ServerAfter(a, b))
  {
    var b1 := ServerAfter(a, b);
    forall p | p in WinningTombs(a, b1) ensures NotBlocked(a, p) {
      ServerAt(a, b, p);
      assert p in b1 && RemoteWins(Get(a, p), Get(b1, p));
      TombFromServer(Get(a, p), Get(b, p), p in Elements(Batch(Wanted(b, a))));
      assert p in WinningTombs(a, b);
    }
  }

  lemma TombFromServer(x: Option<Record>, y: Option<Record>, up: bool)
    requires var y1 := Server1(x, y, up); y1.Some? && y1.value.Tombstone? && RemoteWins(x, y1)
    ensures Server1(x, y, up) == y
  {
    if x.Some? { OlderTrichotomy(x.value.Version(), x.value.Version()); }
  }

  lemma ServerJoinable(a: Records, b: Records)
    requires Joinable(a, b)
    ensures Mergeable(a, ServerAfter(a, b)) && |Merged(a, ServerAfter(a, b))| <= MAX_ENTRIES
  {
    var b1 := ServerAfter(a, b);
    MirroredMerge(a, b);
    ServerClosed(a, b);
    SecondMerge(a, b);
    SameHierarchy(Merged(a, b), Merged(a, b1));
    SameSize(Merged(a, b), Merged(a, b1));
  }

  /** The server's application succeeds, with the predicted view. */
  lemma ServerSucceeds(x: Replica, y: Replica, id: Key, now: u64, my: Modes, k: nat) returns (served: Transfer)
    requires Valid(x.manifest, id) && Valid(y.manifest, id) && Exchangeable(x, y, k)
    ensures Transferred(y, id, x.manifest, Uploaded(x.View(), y.View()), now, my) == Some(served)
    ensures Valid(served.replica.manifest, id) && served.replica.View() == ServerAfter(x.View(), y.View())
    ensures Mirror(served.replica.tree, served.replica.View(), {})
    ensures served.replica.clock.counter <= k + MAX_ENTRIES
  {
    var a, b := x.View(), y.View();
    MirroredMerge(a, b);
    served := TransferSucceeds(y, id, x.manifest, Uploaded(a, b), now, my, k);
    TransferMeaning(y, id, x.manifest, Uploaded(a, b), now, my, served);
  }

  /** So does the client's, on what the server then holds. */
  lemma ClientSucceeds(x: Replica, y1: Replica, id: Key, b: Records, now: u64, mx: Modes, k: nat)
    returns (applied: Transfer)
    requires Valid(x.manifest, id) && Valid(y1.manifest, id) && y1.View() == ServerAfter(x.View(), b)
    requires Joinable(x.View(), b) && Unblocked(x.View(), b) && Mirror(x.tree, x.View(), {})
    requires Within(x.clock, x.View(), k) && Within(x.clock, b, k) && k + MAX_ENTRIES <= U32_MAX
    ensures Transferred(x, id, y1.manifest, Sent(x.View(), b, y1.View()), now, mx) == Some(applied)
    ensures Valid(applied.replica.manifest, id) && applied.replica.View() == ClientAfter(x.View(), b)
    ensures Mirror(applied.replica.tree, applied.replica.View(), {})
    ensures applied.replica.clock.counter <= k + MAX_ENTRIES
  {
    var a := x.View();
    ServerJoinable(a, b);
    StillUnblocked(a, b);
    AppliedWithin(x.clock, b, a, Wanted(b, a) - Uploaded(a, b), k);
    applied := TransferSucceeds(x, id, y1.manifest, Sent(a, b, y1.View()), now, mx, k);
    TransferMeaning(x, id, y1.manifest, Sent(a, b, y1.View()), now, mx, applied);
  }

  // ----- Ready for the next one --------------------------------------------------------------------------------

  /** At one path: once an exchange is over, neither side holds a tombstone that the other lacks. */
  lemma NoTombstoneWins(x: Option<Record>, y: Option<Record>, up: bool, down: bool)
    requires Agree(x, y)
    ensures var x1, y1 := Client1(x, y, up, down), Server1(x, y, up);
      && !(y1.Some? && y1.value.Tombstone? && RemoteWins(x1, y1))
      && !(x1.Some? && x1.value.Tombstone? && RemoteWins(y1, x1))
  {
    if x.Some? && y.Some? { OlderTrichotomy(x.value.Version(), y.value.Version()); }
    if x.Some? { OlderTrichotomy(x.value.Version(), x.value.Version()); }
    if y.Some? { OlderTrichotomy(y.value.Version(), y.value.Version()); }
  }

  /** After an exchange no tombstone is left to apply, so none can be blocked. */
  lemma OpenAfter(a: Records, b: Records)
    requires Compatible(a, b)
    ensures Open(ClientAfter(a, b), ServerAfter(a, b))
  {
    var a1, b1 := ClientAfter(a, b), ServerAfter(a, b);
    forall p ensures p !in WinningTombs(a1, b1) && p !in WinningTombs(b1, a1) {
      ClientAt(a, b, p);
      ServerAt(a, b, p);
      AgreeAt(a, b, p);
      NoTombstoneWins(Get(a, p), Get(b, p), p in Elements(Batch(Wanted(b, a))), p in Elements(Batch(Wanted(a, b))));
    }
  }

  lemma ClientClosed(a: Records, b: Records)
    requires Joinable(a, b)
    ensures ParentClosed(ClientAfter(a, b)) && ParentClosed(ServerAfter(a, b))
  {
    var b1 := ServerAfter(a, b);
    var left := Wanted(a, b1) - Sent(a, b, b1);
    MirroredMerge(a, b);
    ServerClosed(a, b);
    ServerJoinable(a, b);
    PartialHierarchy(a, b1, left);
    PartialParentClosed(a, b1, left);
  }

  lemma JoinableAfter(a: Records, b: Records)
    requires Joinable(a, b)
    ensures Joinable(ClientAfter(a, b), ServerAfter(a, b))
  {
    var a1, b1 := ClientAfter(a, b), ServerAfter(a, b);
    ClientClosed(a, b);
    ExchangeProgress(a, b);
    SameHierarchy(Merged(a, b), Merged(a1, b1));
    SameSize(Merged(a, b), Merged(a1, b1));
  }

  /** Every counter of the new views was a counter of the old ones. */
  lemma CountersAfter(a: Records, b: Records, t: Time, k: nat)
    requires Within(t, a, k) && Within(t, b, k)
    ensures Within(t, ClientAfter(a, b), k) && Within(t, ServerAfter(a, b), k)
  {
    var b1 := ServerAfter(a, b);
    AppliedWithin(t, b, a, Wanted(b, a) - Uploaded(a, b), k);
    AppliedWithin(t, a, b1, Wanted(a, b1) - Sent(a, b, b1), k);
  }

  lemma WithinLater(t: Time, u: Time, v: Records, k: nat, n: nat)
    requires Within(t, v, k) && u.counter <= n && k <= n
    ensures Within(u, v, n)
  {
  }

  /** The synchronisation ended with the predicted views, and another one can follow. */
  ghost predicate Predicted(a: Records, b: Records, m: Meeting, k: nat) {
    && m.server.View() == ServerAfter(a, b) && m.client.View() == ClientAfter(a, b)
    && Joinable(m.client.View(), m.server.View()) && Open(m.client.View(), m.server.View())
    && Sound(m.client, m.server, k + MAX_ENTRIES)
  }

  lemma PredictedWhen(x: Replica, y: Replica, m: Meeting, k: nat)
    requires Exchangeable(x, y, k)
    requires m.server.View() == ServerAfter(x.View(), y.View()) && m.client.View() == ClientAfter(x.View(), y.View())
    requires Mirror(m.client.tree, m.client.View(), {}) && Mirror(m.server.tree, m.server.View(), {})
    requires m.client.clock.counter <= k + MAX_ENTRIES && m.server.clock.counter <= k + MAX_ENTRIES
    ensures Predicted(x.View(), y.View(), m, k)
  {
    var a, b, n := x.View(), y.View(), k + MAX_ENTRIES;
    JoinableAfter(a, b);
    OpenAfter(a, b);
    CountersAfter(a, b, x.clock, k);
    WithinLater(x.clock, m.client.clock, m.client.View(), k, n);
    WithinLater(x.clock, m.client.clock, m.server.View(), k, n);
    WithinLater(x.clock, m.server.clock, m.client.View(), k, n);
    WithinLater(x.clock, m.server.clock, m.server.View(), k, n);
  }

  lemma MetIs(x: Replica, y: Replica, id: Key, outbound: Manifest, now: u64, mx: Modes, my: Modes,
              served: Transfer, applied: Transfer)
    requires Transferred(y, id, outbound, Uploaded(outbound.View(), y.View()), now, my) == Some(served)
    requires Transferred(x, id, served.replica.manifest, Sent(outbound.View(), y.View(), served.replica.View()),
                         now, mx)
      == Some(applied)
    ensures Met(x, y, id, outbound, now, mx, my) ==
      Some(Meeting(applied.replica, served.replica,
                   SyncOutcome(applied.outcome.pending, Waiting(outbound.View(), y.View())), served.left, applied.left))
  {
  }

  lemma MetSucceeds(x: Replica, y: Replica, id: Key, now: u64, mx: Modes, my: Modes, k: nat) returns (m: Meeting)
    requires Valid(x.manifest, id) && Valid(y.manifest, id) && Exchangeable(x, y, k)
    ensures Met(x, y, id, x.manifest, now, mx, my) == Some(m) && Predicted(x.View(), y.View(), m, k)
  {
    var served := ServerSucceeds(x, y, id, now, my, k);
    var applied := ClientSucceeds(x, served.replica, id, y.View(), now, mx, k);
    MetIs(x, y, id, x.manifest, now, mx, my, served, applied);
    m := Meeting(applied.replica, served.replica, SyncOutcome(applied.outcome.pending, Waiting(x.View(), y.View())),
                 served.left, applied.left);
    PredictedWhen(x, y, m, k);
  }

  lemma UnchangedSucceeds(x: Replica, y: Replica, id: Key, k: nat) returns (m: Meeting)
    requires Valid(x.manifest, id) && Valid(y.manifest, id) && Exchangeable(x, y, k) &&
      Fed(x.manifest) == Fed(y.manifest)
    ensures m == Meeting(x, y, SyncOutcome(0, 0), {}, {}) && Predicted(x.View(), y.View(), m, k)
  {
    m := Meeting(x, y, SyncOutcome(0, 0), {}, {});
    FedState(x.manifest, y.manifest, id);
    SameStateNeedsNothing(x.View(), y.View());
    PredictedWhen(x, y, m, k);
  }

  /** Under these conditions a synchronisation succeeds with the predicted views, both directories mirror
      them, and the conditions hold again. */
  lemma SyncSucceeds(x: Replica, y: Replica, id: Key, now: u64, mx: Modes, my: Modes, k: nat) returns (m: Meeting)
    requires Valid(x.manifest, id) && Valid(y.manifest, id) && Exchangeable(x, y, k)
    ensures Synchronised(x, y, id, true, now, mx, my) == Some(m) && Predicted(x.View(), y.View(), m, k)
  {
    if Fed(x.manifest) == Fed(y.manifest) {
      m := UnchangedSucceeds(x, y, id, k);
    } else {
      m := MetSucceeds(x, y, id, now, mx, my, k);
    }
  }

  /** With at most 256 files wanted each way one exchange makes both sides equal to the merge. */
  lemma SmallExchangeConverges(a: Records, b: Records)
    requires Compatible(a, b) && |Wanted(a, b)| <= MAX_TRANSFER && |Wanted(b, a)| <= MAX_TRANSFER
    ensures SameState(ClientAfter(a, b), ServerAfter(a, b)) && SameState(ClientAfter(a, b), Merged(a, b))
  {
    SmallBatch(Wanted(a, b));
    SmallBatch(Wanted(b, a));
    ExchangeConverges(a, b);
  }

  // ----- The protocol as the program runs it ---------------------------------------------------------------------

  /** The server half (`handle_sync_stream`): apply the client's manifest and uploads, then pick the
      requested files that the resulting manifest still holds. */
  method ServeTransfer(server: Share, outbound: Manifest, uploads: seq<Path>, downloads: seq<Path>, now: u64)
    returns (ok: bool, files: set<Path>)
    requires server.manifest.Disjoint() && outbound.Disjoint()
    modifies server`manifest, server`clock, server.disk
    ensures server.manifest.Disjoint() && (server.manifest == old(server.manifest) || Valid(server.manifest, server.id))
    ensures match Transferred(old(server.Held()), server.id, outbound, Elements(uploads), now, server.DiskModes())
      case None => !ok && server.manifest == old(server.manifest) && server.clock == old(server.clock)
      case Some(y) => ok && server.Held() == y.replica && files == FilesAmong(y.replica.View(), Elements(downloads))
  {
    var applied := server.ApplyRemoteTransfer(outbound, Elements(uploads), now);
    ok, files := applied.Some?, RequestedFiles(server.manifest, downloads);
  }

  /** The requested paths that are files of the manifest. */
  function RequestedFiles(m: Manifest, paths: seq<Path>): (r: set<Path>)
    ensures r == FilesAmong(m.View(), Elements(paths))
  {
    assert forall p :: Get(m.View(), p) == m.RecordAt(p);
    set p | p in paths && p in m.files
  }

  /** Both halves, once the digests differ. */
  method Meet(client: Share, server: Share, outbound: Manifest, request: Request, now: u64)
    returns (r: Option<SyncOutcome>)
    requires client != server && client.disk != server.disk && client.id == server.id
    requires client.manifest.Disjoint() && server.manifest.Disjoint() && outbound.Disjoint()
    requires request == RequestFor(outbound.View(), server.manifest.View())
    modifies client`manifest, client`clock, client.disk, server`manifest, server`clock, server.disk
    ensures client.manifest == old(client.manifest) || Valid(client.manifest, client.id)
    ensures server.manifest == old(server.manifest) || Valid(server.manifest, server.id)
    ensures match Met(old(client.Held()), old(server.Held()), client.id, outbound, now,
                      client.DiskModes(), server.DiskModes())
      case None => r.None? && client.manifest == old(client.manifest) && client.clock == old(client.clock)
      case Some(m) => r == Some(m.outcome) && client.Held() == m.client && server.Held() == m.server
  {
    var ok, files := ServeTransfer(server, outbound, request.uploads, request.downloads, now);
    if !ok { return None; }
    var applied := client.ApplyRemoteTransfer(server.manifest, files, now);
    r := if applied.Some? then Some(SyncOutcome(applied.value.pending, request.pendingUpdates)) else None;
  }

  /** One synchronisation of a client with a server, message by message. */
  method RunSync(client: Share, server: Share, complete: bool, now: u64) returns (r: Option<SyncOutcome>)
    requires client != server && client.disk != server.disk && client.id == server.id
    requires Valid(client.manifest, client.id) && Valid(server.manifest, server.id)
    modifies client`manifest, client`clock, client.disk, server`manifest, server`clock, server.disk
    ensures client.manifest == old(client.manifest) || Valid(client.manifest, client.id)
    ensures server.manifest == old(server.manifest) || Valid(server.manifest, server.id)
    ensures match Synchronised(old(client.Held()), old(server.Held()), client.id, complete, now,
                               client.DiskModes(), server.DiskModes())
      case None => r.None? && client.manifest == old(client.manifest) && client.clock == old(client.clock)
      case Some(m) => r == Some(m.outcome) && client.Held() == m.client && server.Held() == m.server
  {
    EmptyIsValid(client.id, now);
    var outbound := Outbound(client.manifest, client.id, complete, now);
    var mine := FeedDigest(outbound);
    var theirs := FeedDigest(server.manifest);
    if mine == theirs { return Some(SyncOutcome(0, 0)); }
    var request := MakeTransferRequest(outbound, server.manifest);
    r := Meet(client, server, outbound, request, now);
  }

  /** Both sides agree and hold the merge of `a` and `b`. */
  ghost predicate Converged(a: Records, b: Records, client: Records, server: Records) {
    SameState(client, server) && SameState(client, Merged(a, b))
  }

  ghost predicate FewWanted(a: Records, b: Records, rounds: nat) {
    |Wanted(a, b)| <= MAX_TRANSFER * rounds && |Wanted(b, a)| <= MAX_TRANSFER * rounds
  }

  /** `sync_with_peer` and `handle_sync_stream` together. Success leaves both sides merged except at unsent
      files. Under the conditions above it must succeed with the predicted views, mirrored on disk; with at
      most 256 files wanted each way both sides then hold the merge. */
  method SyncWithPeer(client: Share, server: Share, complete: bool, now: u64, ghost k: nat)
    returns (r: Option<SyncOutcome>, ghost m: Option<Meeting>)
    requires client != server && client.disk != server.disk && client.id == server.id
    requires Valid(client.manifest, client.id) && Valid(server.manifest, server.id)
    modifies client`manifest, client`clock, client.disk, server`manifest, server`clock, server.disk
    ensures Valid(client.manifest, client.id) && Valid(server.manifest, server.id)
    ensures r.None? <==> m.None?
    ensures m.None? ==> client.manifest == old(client.manifest) && client.clock == old(client.clock)
    ensures m.Some? ==> r == Some(m.value.outcome) && client.Held() == m.value.client && server.Held() == m.value.server
    ensures m.Some? ==>
      BothApplied(if complete then old(client.Held()).View() else map[],
                  old(client.Held()).View(), old(server.Held()).View(),
                  m.value)
    ensures complete && Exchangeable(old(client.Held()), old(server.Held()), k) ==>
      && m.Some? && Predicted(old(client.Held()).View(), old(server.Held()).View(), m.value, k)
      && (FewWanted(old(client.Held()).View(), old(server.Held()).View(), 1) ==>
            Converged(old(client.Held()).View(), old(server.Held()).View(),
                      m.value.client.View(), m.value.server.View()))
  {
    ghost var x, y, mx, my := client.Held(), server.Held(), client.DiskModes(), server.DiskModes();
    r := RunSync(client, server, complete, now);
    m := Synchronised(x, y, client.id, complete, now, mx, my);
    if m.Some? { SyncMeaning(x, y, client.id, complete, now, mx, my, m.value); }
    if complete && Exchangeable(x, y, k) { SyncConverges(x, y, client.id, now, mx, my, k); }
  }

  lemma SyncConverges(x: Replica, y: Replica, id: Key, now: u64, mx: Modes, my: Modes, k: nat)
    requires Valid(x.manifest, id) && Valid(y.manifest, id) && Exchangeable(x, y, k)
    ensures Synchronised(x, y, id, true, now, mx, my).Some?
    ensures var m := Synchronised(x, y, id, true, now, mx, my).value;
      && Predicted(x.View(), y.View(), m, k)
      && (FewWanted(x.View(), y.View(), 1) ==> Converged(x.View(), y.View(), m.client.View(), m.server.View()))
  {
    var m := SyncSucceeds(x, y, id, now, mx, my, k);
    if FewWanted(x.View(), y.View(), 1) { SmallExchangeConverges(x.View(), y.View()); }
  }
}
