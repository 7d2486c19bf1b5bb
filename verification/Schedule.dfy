/** Peer schedules and the selection of the peers to contact next. */
module Schedules {
  import opened Bytes
  import StableSort

  const SYNC_INTERVAL := 5_000
  const IDLE_PEER_INTERVAL := 30_000
  const MAX_CONCURRENT_PEERS := 2

  /** What an attempt to synchronise reported. */
  datatype Report = Report(connected: bool, pendingDownloads: nat, pendingUpdates: nat)

  datatype Pending = Pending(downloads: nat, updates: nat)

  /** When to contact a peer again; times are in milliseconds. */
  datatype Schedule = Schedule(nextAt: Option<nat>, lastGeneration: nat, failures: u32, lastOutcome: Option<Pending>) {
    predicate Due(now: nat, generation: nat) {
      generation != lastGeneration || nextAt.None? || now >= nextAt.value
    }

    function RetryNow(): (s: Schedule)
      ensures forall now: nat, generation: nat :: s.Due(now, generation)
    {
      this.(nextAt := None, failures := 0)
    }

    /** The jitter is a random number of milliseconds below 1000. */
    function AfterAttempt(now: nat, generation: nat, report: Option<Report>, jitter: nat): (s: Schedule)
      requires jitter < 1000
      ensures s.lastGeneration == generation && s.nextAt.Some?
      ensures now + SYNC_INTERVAL <= s.nextAt.value <= now + IDLE_PEER_INTERVAL
      ensures forall t: nat :: s.Due(t, generation) <==> t >= s.nextAt.value
      ensures s.failures == 0 <==> report.Some? && report.value.connected
      ensures report.Some? && report.value.connected ==>
        && s.lastOutcome == Some(Pending(report.value.pendingDownloads, report.value.pendingUpdates))
        && (s.nextAt.value == now + SYNC_INTERVAL <==>
            report.value.pendingDownloads > 0 || report.value.pendingUpdates > 0)
        && (s.nextAt.value == now + IDLE_PEER_INTERVAL <==>
            report.value.pendingDownloads == 0 && report.value.pendingUpdates == 0)
      ensures !(report.Some? && report.value.connected) ==>
        s.lastOutcome.None? && (failures < U32_MAX ==> s.failures == failures + 1)
    {
      if report.Some? && report.value.connected then
        var busy := report.value.pendingDownloads > 0 || report.value.pendingUpdates > 0;
        Schedule(Some(now + if busy then SYNC_INTERVAL else IDLE_PEER_INTERVAL), generation, 0,
                 Some(Pending(report.value.pendingDownloads, report.value.pendingUpdates)))
      else
        Schedule(Some(now + Backoff(failures, jitter)), generation,
                 if failures == U32_MAX then failures else failures + 1, None)
    }
  }

  function Doublings(n: nat): (r: nat)
    ensures r >= 1
  {
    if n == 0 then 1 else 2 * Doublings(n - 1)
  }

  function Backoff(failures: nat, jitter: nat): (r: nat)
    ensures SYNC_INTERVAL <= r <= IDLE_PEER_INTERVAL
  {
    var delay := SYNC_INTERVAL * Doublings(if failures < 3 then failures else 3) + jitter;
    if delay < IDLE_PEER_INTERVAL then delay else IDLE_PEER_INTERVAL
  }

  /** Failures double the delay from 5 to 20 seconds; from the fourth on it is 30 seconds. */
  lemma BackoffDoubles(failures: nat, jitter: nat)
    requires jitter < 1000
    ensures failures == 0 ==> Backoff(failures, jitter) == 5_000 + jitter
    ensures failures == 1 ==> Backoff(failures, jitter) == 10_000 + jitter
    ensures failures == 2 ==> Backoff(failures, jitter) == 20_000 + jitter
    ensures failures >= 3 ==> Backoff(failures, jitter) == 30_000
  {
    assert Doublings(0) == 1 && Doublings(1) == 2 && Doublings(2) == 4 && Doublings(3) == 8;
  }

  const UNSCHEDULED := Schedule(None, 0, 0, None)

  // ----- The reference: filter, stable sort, take four --------------------------------------------------

  datatype Entry = Entry(at: Option<nat>, peer: Key)

  /** `Option<Instant>` order: no time comes first. */
  predicate Sooner(a: Option<nat>, b: Option<nat>) { b.Some? && (a.None? || a.value < b.value) }

  predicate IsDue(schedules: map<Key, Schedule>, peer: Key, now: nat, generation: nat) {
    peer in schedules ==> schedules[peer].Due(now, generation)
  }

  function EntryOf(schedules: map<Key, Schedule>, peer: Key): Entry {
    Entry(if peer in schedules then schedules[peer].nextAt else None, peer)
  }

  function DueEntries(schedules: map<Key, Schedule>, peers: seq<Key>, now: nat, generation: nat): seq<Entry> {
    if peers == [] then []
    else
      var p, before := peers[|peers| - 1], DueEntries(schedules, peers[..|peers| - 1], now, generation);
      if IsDue(schedules, p, now, generation) then before + [EntryOf(schedules, p)] else before
  }

  function Earlier(): (Entry, Entry) -> bool { (a: Entry, b: Entry) => Sooner(a.at, b.at) }

  function Insert(s: seq<Entry>, x: Entry): (r: seq<Entry>)
    ensures |r| == |s| + 1
  {
    StableSort.Insert(s, x, Earlier())
  }

  function Sort(s: seq<Entry>): (r: seq<Entry>)
    ensures |r| == |s|
  {
    StableSort.Sort(s, Earlier())
  }

  function First4(s: seq<Entry>): seq<Entry> { if |s| <= 4 then s else s[..4] }

  ghost predicate Sorted(s: seq<Entry>) { forall i, j :: 0 <= i < j < |s| ==> !Sooner(s[j].at, s[i].at) }

  /** The entries with one particular time, in order. */
  function AtTime(s: seq<Entry>, at: Option<nat>): seq<Entry> { StableSort.Filter(s, (e: Entry) => e.at == at) }

  /** The reference sort: sorted by time, with the entries of each time in their original order. */
  lemma SortIsStable(s: seq<Entry>, at: Option<nat>)
    ensures Sorted(Sort(s)) && AtTime(Sort(s), at) == AtTime(s, at)
  {
    StableSort.SortIsStable(s, Earlier(), (e: Entry) => e.at == at);
    var r := Sort(s);
    forall i, j | 0 <= i < j < |r| ensures !Sooner(r[j].at, r[i].at) { assert !Earlier()(r[j], r[i]); }
  }

  lemma SortMembers(s: seq<Entry>, e: Entry)
    ensures e in Sort(s) <==> e in s
  {
    StableSort.SortMembers(s, Earlier(), e);
  }

  // ----- The four slots -------------------------------------------------------------------------------------

  /** Only the four first entries can stay among the four first. */
  lemma First4Insert(s: seq<Entry>, x: Entry)
    ensures First4(Insert(s, x)) == First4(Insert(First4(s), x))
  {
    if |s| > 4 { StableSort.FirstOfInsert(s, x, Earlier(), 4); }
  }

  /** The first `|s|` slots hold the entries, the others are free. */
  ghost predicate Holds(slots: seq<Option<Entry>>, s: seq<Entry>) {
    && |slots| == 4 && |s| <= 4
    && forall i :: 0 <= i < 4 ==> slots[i] == if i < |s| then Some(s[i]) else None
  }

  predicate Yields(slot: Option<Entry>, x: Entry) { slot.None? || Sooner(x.at, slot.value.at) }

  lemma SlotInserted(slots: seq<Option<Entry>>, after: seq<Option<Entry>>, s: seq<Entry>, x: Entry, k: nat)
    requires Holds(slots, s) && k < 4 && Yields(slots[k], x) && forall i :: 0 <= i < k ==> !Yields(slots[i], x)
    requires after == slots[..k] + [Some(x)] + slots[k..3]
    ensures Holds(after, First4(Insert(s, x)))
  {
    assert |s| < 4 ==> slots[|s|].None?;
    assert forall i :: 0 <= i < k ==> slots[i] == Some(s[i]);
    StableSort.InsertPosition(s, x, Earlier(), k);
    var r := First4(Insert(s, x));
    forall i | 0 <= i < 4 ensures after[i] == if i < |r| then Some(r[i]) else None {
      if i < k { assert after[i] == slots[i]; } else if i > k { assert after[i] == slots[i - 1]; }
    }
  }

  lemma SlotsFull(slots: seq<Option<Entry>>, s: seq<Entry>, x: Entry)
    requires Holds(slots, s) && forall i :: 0 <= i < 4 ==> !Yields(slots[i], x)
    ensures First4(Insert(s, x)) == s
  {
    assert !Yields(slots[3], x) && slots[3].Some?;
    assert forall i :: 0 <= i < 4 ==> slots[i] == Some(s[i]);
    StableSort.InsertPosition(s, x, Earlier(), 4);
  }

  /** Finds the first slot that yields, rotates the rest by one and writes the entry there. */
  method InsertSlot(selected: array<Option<Entry>>, x: Entry, ghost s: seq<Entry>)
    requires selected.Length == 4 && Holds(selected[..], s)
    modifies selected
    ensures Holds(selected[..], First4(Insert(s, x)))
  {
    ghost var slots := selected[..];
    var position := 0;
    while position < 4 && !Yields(selected[position], x)
      invariant 0 <= position <= 4 && selected[..] == slots
      invariant forall i :: 0 <= i < position ==> !Yields(slots[i], x)
    {
      position := position + 1;
    }
    if position == 4 {
      SlotsFull(slots, s, x);
      return;
    }
    var last, k := selected[3], 3;
    while k > position
      invariant position <= k <= 3
      invariant selected[..] == slots[..k + 1] + slots[k..3]
    {
      selected[k] := selected[k - 1];
      k := k - 1;
    }
    selected[position] := last;
    selected[position] := Some(x);
    SlotInserted(slots, selected[..], s, x, position);
  }

  function Peers(s: seq<Entry>): (r: seq<Key>)
    ensures |r| == |s| && forall i :: 0 <= i < |s| ==> r[i] == s[i].peer
  {
    seq(|s|, i requires 0 <= i < |s| => s[i].peer)
  }

  function Selected(schedules: map<Key, Schedule>, peers: seq<Key>, now: nat, generation: nat): seq<Entry> {
    First4(Sort(DueEntries(schedules, peers, now, generation)))
  }

  lemma DueStep(schedules: map<Key, Schedule>, peers: seq<Key>, now: nat, generation: nat, i: nat)
    requires i < |peers|
    ensures Selected(schedules, peers[..i + 1], now, generation) ==
      if IsDue(schedules, peers[i], now, generation)
      then First4(Insert(Selected(schedules, peers[..i], now, generation), EntryOf(schedules, peers[i])))
      else Selected(schedules, peers[..i], now, generation)
  {
    assert peers[..i + 1][..i] == peers[..i];
    var before := DueEntries(schedules, peers[..i], now, generation);
    if IsDue(schedules, peers[i], now, generation) {
      var x := EntryOf(schedules, peers[i]);
      assert (before + [x])[..|before|] == before;
      First4Insert(Sort(before), x);
    }
  }

  method CollectSlots(selected: array<Option<Entry>>, ghost s: seq<Entry>) returns (r: seq<Key>)
    requires selected.Length == 4 && Holds(selected[..], s)
    ensures r == Peers(s)
  {
    r := [];
    for i := 0 to 4
      invariant r == Peers(s[..if i < |s| then i else |s|])
    {
      if selected[i].Some? {
        assert selected[..][i] == Some(s[i]);
        r := r + [selected[i].value.peer];
      }
    }
    assert s[..|s|] == s;
  }

  lemma NoneSelected(schedules: map<Key, Schedule>, now: nat, generation: nat)
    ensures Selected(schedules, [], now, generation) == []
  {
    assert DueEntries(schedules, [], now, generation) == [];
  }

  /** One candidate, as the source's shortcut has it. */
  lemma OneSelected(schedules: map<Key, Schedule>, peer: Key, now: nat, generation: nat)
    ensures Peers(Selected(schedules, [peer], now, generation)) ==
      if IsDue(schedules, peer, now, generation) then [peer] else []
  {
    var candidates := [peer];
    assert candidates[..1] == candidates && candidates[..0] == [];
    NoneSelected(schedules, now, generation);
    DueStep(schedules, candidates, now, generation, 0);
    if IsDue(schedules, peer, now, generation) {
      var x := EntryOf(schedules, peer);
      assert Selected(schedules, candidates, now, generation) == First4(Insert([], x)) == [x];
    }
  }

  method FillSlots(selected: array<Option<Entry>>, candidates: seq<Key>, schedules: map<Key, Schedule>,
                   now: nat, generation: nat)
    requires selected.Length == 4 && Holds(selected[..], [])
    modifies selected
    ensures Holds(selected[..], Selected(schedules, candidates, now, generation))
  {
    ghost var s: seq<Entry> := [];
    NoneSelected(schedules, now, generation);
    assert candidates[..0] == [];
    for i := 0 to |candidates|
      invariant s == Selected(schedules, candidates[..i], now, generation)
      invariant Holds(selected[..], s)
    {
      DueStep(schedules, candidates, now, generation, i);
      if IsDue(schedules, candidates[i], now, generation) {
        var x := EntryOf(schedules, candidates[i]);
        InsertSlot(selected, x, s);
        s := First4(Insert(s, x));
      }
    }
    assert candidates[..|candidates|] == candidates;
  }

  /** `select_due_peers`: the due peers, stably sorted by their next time, and of those the first four. */
  method SelectDuePeers(candidates: seq<Key>, schedules: map<Key, Schedule>, now: nat, generation: nat)
    returns (r: seq<Key>)
    ensures r == Peers(Selected(schedules, candidates, now, generation))
  {
    if |candidates| == 0 {
      NoneSelected(schedules, now, generation);
      return [];
    }
    if |candidates| == 1 {
      OneSelected(schedules, candidates[0], now, generation);
      assert candidates == [candidates[0]];
      return if IsDue(schedules, candidates[0], now, generation) then candidates else [];
    }
    var selected := new Option<Entry>[4](_ => None);
    FillSlots(selected, candidates, schedules, now, generation);
    r := CollectSlots(selected, Selected(schedules, candidates, now, generation));
  }
}
