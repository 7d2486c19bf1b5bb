/** Synchronising two shares again and again until nothing is wanted. */
module Rounds {
  import opened Bytes
  import opened Chains
  import opened Manifests
  import opened Simulation
  import opened Shares
  import opened Exchange
  import opened Sync

  datatype Pair = Pair(client: Replica, server: Replica)

  function SidesOf(s: Pair): Sides { Sides(s.client.View(), s.server.View()) }

  ghost function Both(client: Share, server: Share): Pair
    reads client, server, client.disk, server.disk
  {
    Pair(client.Held(), server.Held())
  }

  /** Nothing stands in the way of a synchronisation, and no counter exceeds `k`. */
  ghost predicate Ready(s: Pair, k: nat) {
    && Joinable(s.client.View(), s.server.View()) && Open(s.client.View(), s.server.View())
    && Sound(s.client, s.server, k)
  }

  ghost function ReadyWith(n: nat): Pair -> bool { (p: Pair) => Ready(p, n) }

  ghost function Exchanging(): (Pair, Pair) -> bool { (p: Pair, q: Pair) => Exchanged(SidesOf(p), SidesOf(q)) }

  /** From a state that is ready, `q` is the next one, and ready again. */
  ghost predicate Leads(p: Pair, q: Pair, ok: bool) {
    forall n: nat :: ReadyWith(n)(p) && n + MAX_ENTRIES <= U32_MAX ==>
      ok && ReadyWith(n + MAX_ENTRIES)(q) && Exchanging()(p, q)
  }

  ghost function Succeeds(): (Pair, Pair) -> bool { (p, q) => Leads(p, q, true) }

  /** Each state of the history led to the following one. */
  ghost predicate History(ps: seq<Pair>) { Chain(ps, Succeeds()) }

  /** Each synchronisation may raise a counter by the number of entries. */
  function Limit(k: nat, n: nat): nat { if n == 0 then k else Limit(k, n - 1) + MAX_ENTRIES }

  lemma {:induction false} LimitIs(k: nat, n: nat)
    ensures Limit(k, n) == k + MAX_ENTRIES * n
  {
    if n > 0 { LimitIs(k, n - 1); }
  }

  lemma {:induction false} LimitGrows(k: nat, n: nat, m: nat)
    requires n <= m
    ensures Limit(k, n) <= Limit(k, m)
  {
    if n < m { LimitGrows(k, n, m - 1); }
  }

  ghost function ReadyAfter(k: nat): (Pair, nat) -> bool { (p: Pair, n: nat) => ReadyWith(Limit(k, n))(p) }

  lemma ReadyStart(p: Pair, k: nat)
    ensures Ready(p, k) == ReadyAfter(k)(p, 0)
  {
    assert Limit(k, 0) == k;
    assert ReadyWith(k)(p) == Ready(p, k);
  }

  lemma NextState(p: Pair, q: Pair, n: nat)
    requires Succeeds()(p, q) && ReadyWith(n)(p) && n + MAX_ENTRIES <= U32_MAX
    ensures ReadyWith(n + MAX_ENTRIES)(q) && Exchanging()(p, q)
  {
    assert Leads(p, q, true);
  }

  lemma ReadyAfterNext(p: Pair, q: Pair, k: nat, n: nat, last: nat)
    requires Succeeds()(p, q) && ReadyAfter(k)(p, n) && n < last && Limit(k, last) <= U32_MAX
    ensures ReadyAfter(k)(q, n + 1)
  {
    LimitGrows(k, n + 1, last);
    NextState(p, q, Limit(k, n));
  }

  lemma ExchangedNext(p: Pair, q: Pair, k: nat, n: nat, last: nat)
    requires Succeeds()(p, q) && ReadyAfter(k)(p, n) && n < last && Limit(k, last) <= U32_MAX
    ensures Exchanged(SidesOf(p), SidesOf(q))
  {
    LimitGrows(k, n + 1, last);
    NextState(p, q, Limit(k, n));
  }

  lemma ReadyKept(k: nat, last: nat)
    requires Limit(k, last) <= U32_MAX
    ensures forall p, q, n: nat :: n < last && ReadyAfter(k)(p, n) && Succeeds()(p, q) ==> ReadyAfter(k)(q, n + 1)
  {
    forall p, q, n: nat | n < last && ReadyAfter(k)(p, n) && Succeeds()(p, q) ensures ReadyAfter(k)(q, n + 1) {
      ReadyAfterNext(p, q, k, n, last);
    }
  }

  /** A history that starts ready stays ready while counters allow. */
  lemma HistoryReady(ps: seq<Pair>, k: nat, i: nat)
    requires History(ps) && i < |ps| && ReadyAfter(k)(ps[0], 0) && Limit(k, |ps| - 1) <= U32_MAX
    ensures ReadyAfter(k)(ps[i], i)
  {
    ReadyKept(k, |ps| - 1);
    ChainKeeps(ps, Succeeds(), ReadyAfter(k), |ps| - 1, i);
  }

  function AllSides(ps: seq<Pair>): (r: seq<Sides>)
    ensures |r| == |ps| && forall j :: 0 <= j < |ps| ==> r[j] == SidesOf(ps[j])
  {
    seq(|ps|, j requires 0 <= j < |ps| => SidesOf(ps[j]))
  }

  /** Its views are a run of exchanges. */
  lemma HistoryExchanges(ps: seq<Pair>, k: nat)
    requires History(ps) && ReadyAfter(k)(ps[0], 0) && Limit(k, |ps| - 1) <= U32_MAX
    ensures Repeated(AllSides(ps))
  {
    var run := AllSides(ps);
    forall j | 0 <= j < |run| - 1 ensures Exchanged(run[j], run[j + 1]) {
      HistoryReady(ps, k, j);
      ExchangedNext(ps[j], ps[j + 1], k, j, |ps| - 1);
    }
  }

  /** Both directories mirror their manifests; once `256 * rounds` covers the files wanted each way, both
      sides hold the original merge. */
  ghost predicate Finished(a: Records, b: Records, t: Pair, rounds: nat) {
    && Mirror(t.client.tree, t.client.View(), {}) && Mirror(t.server.tree, t.server.View(), {})
    && (rounds > 0 && FewWanted(a, b, rounds) ==> Converged(a, b, t.client.View(), t.server.View()))
  }

  lemma ReadyMirrors(t: Pair, k: nat, n: nat)
    requires ReadyAfter(k)(t, n)
    ensures Mirror(t.client.tree, t.client.View(), {}) && Mirror(t.server.tree, t.server.View(), {})
    ensures Compatible(t.client.View(), t.server.View())
  {
    assert ReadyWith(Limit(k, n))(t);
    assert Ready(t, Limit(k, n));
  }

  lemma HistoryFinishes(ps: seq<Pair>, k: nat)
    requires History(ps) && ReadyAfter(k)(ps[0], 0) && Limit(k, |ps| - 1) <= U32_MAX
    ensures Finished(ps[0].client.View(), ps[0].server.View(), ps[|ps| - 1], |ps| - 1)
  {
    var rounds := |ps| - 1;
    HistoryReady(ps, k, rounds);
    HistoryExchanges(ps, k);
    ReadyMirrors(ps[0], k, 0);
    ReadyMirrors(ps[rounds], k, rounds);
    if rounds > 0 && FewWanted(ps[0].client.View(), ps[0].server.View(), rounds) {
      RoundsConverge(AllSides(ps), rounds);
    }
  }

  lemma SyncNext(p: Pair, id: Key, now: u64, mx: Modes, my: Modes, n: nat) returns (q: Pair)
    requires Valid(p.client.manifest, id) && Valid(p.server.manifest, id)
    requires Ready(p, n) && n + MAX_ENTRIES <= U32_MAX
    ensures match Synchronised(p.client, p.server, id, true, now, mx, my)
      case None => false
      case Some(m) => q == Pair(m.client, m.server)
    ensures Ready(q, n + MAX_ENTRIES) && Exchanged(SidesOf(p), SidesOf(q))
  {
    var m := SyncSucceeds(p.client, p.server, id, now, mx, my, n);
    q := Pair(m.client, m.server);
  }

  lemma SyncLeads(p: Pair, id: Key, now: u64, mx: Modes, my: Modes, ok: bool, q: Pair)
    requires Valid(p.client.manifest, id) && Valid(p.server.manifest, id)
    requires match Synchronised(p.client, p.server, id, true, now, mx, my)
      case None => !ok
      case Some(m) => ok && q == Pair(m.client, m.server)
    ensures Leads(p, q, ok)
  {
    forall n: nat | ReadyWith(n)(p) && n + MAX_ENTRIES <= U32_MAX
      ensures ok && ReadyWith(n + MAX_ENTRIES)(q) && Exchanging()(p, q)
    {
      var r := SyncNext(p, id, now, mx, my, n);
    }
  }

  /** One synchronisation from a state that is ready leads to the next such state. */
  method SyncOnce(client: Share, server: Share, now: u64) returns (ok: bool)
    requires client != server && client.disk != server.disk && client.id == server.id
    requires Valid(client.manifest, client.id) && Valid(server.manifest, server.id)
    modifies client`manifest, client`clock, client.disk, server`manifest, server`clock, server.disk
    ensures Valid(client.manifest, client.id) && Valid(server.manifest, server.id)
    ensures Leads(old(Both(client, server)), Both(client, server), ok)
  {
    ghost var p, mx, my := Both(client, server), client.DiskModes(), server.DiskModes();
    var r := RunSync(client, server, true, now);
    ok := r.Some?;
    SyncLeads(p, client.id, now, mx, my, ok, Both(client, server));
  }

  /** A failure after `i` rounds means that they did not start ready. */
  lemma FailureUnready(ps: seq<Pair>, q: Pair, k: nat, rounds: nat)
    requires History(ps) && |ps| <= rounds && Leads(ps[|ps| - 1], q, false)
    ensures !(Ready(ps[0], k) && Limit(k, rounds) <= U32_MAX)
  {
    ReadyStart(ps[0], k);
    LimitGrows(k, |ps| - 1, |ps|);
    LimitGrows(k, |ps|, rounds);
    if Ready(ps[0], k) && Limit(k, rounds) <= U32_MAX {
      HistoryReady(ps, k, |ps| - 1);
    }
  }

  /** Two shares that synchronise again and again while nobody edits. If nothing stands in the way of the
      first time and counters are far enough from overflow, every synchronisation succeeds, and once
      `256 * k` covers the files wanted each way, `k` of them leave both shares with the original merge, in
      the manifests and on disk. */
  method SyncRepeatedly(client: Share, server: Share, times: seq<u64>, ghost k: nat) returns (ok: bool)
    requires client != server && client.disk != server.disk && client.id == server.id
    requires Valid(client.manifest, client.id) && Valid(server.manifest, server.id)
    modifies client`manifest, client`clock, client.disk, server`manifest, server`clock, server.disk
    ensures Valid(client.manifest, client.id) && Valid(server.manifest, server.id)
    ensures Ready(old(Both(client, server)), k) && k + MAX_ENTRIES * |times| <= U32_MAX ==>
      ok && Finished(old(client.Held()).View(), old(server.Held()).View(), Both(client, server), |times|)
  {
    ghost var ps := [Both(client, server)];
    LimitIs(k, |times|);
    for i := 0 to |times|
      invariant Valid(client.manifest, client.id) && Valid(server.manifest, server.id)
      invariant |ps| == i + 1 && ps[0] == old(Both(client, server)) && ps[i] == Both(client, server) && History(ps)
    {
      ok := SyncOnce(client, server, times[i]);
      if !ok {
        FailureUnready(ps, Both(client, server), k, |times|);
        return;
      }
      ChainGrows(ps, Succeeds(), Both(client, server));
      ps := ps + [Both(client, server)];
    }
    ok := true;
    ReadyStart(ps[0], k);
    if Ready(ps[0], k) && Limit(k, |times|) <= U32_MAX { HistoryFinishes(ps, k); }
  }
}
