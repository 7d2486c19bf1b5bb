/** Waiting peers are not starved: while a peer whose time has come waits, every other peer is started
    ahead of it at most once. */
module Fairness {
  import opened Bytes
  import opened Chains
  import opened Schedules

  /** The schedules, the peers in a running session, and the time. */
  datatype Fleet = Fleet(schedules: map<Key, Schedule>, active: set<Key>, now: nat)

  datatype Action =
    | Wait(later: nat)
    | Fill(generation: nat)
    | Finish(peer: Key, generation: nat, report: Option<Report>, jitter: nat)

  function Idle(known: seq<Key>, active: set<Key>): seq<Key> {
    if known == [] then []
    else
      var p, before := known[|known| - 1], Idle(known[..|known| - 1], active);
      if p in active then before else before + [p]
  }

  function Available(active: set<Key>): nat {
    if |active| < MAX_CONCURRENT_PEERS then MAX_CONCURRENT_PEERS - |active| else 0
  }

  /** The schedules that are kept for the known peers and the running sessions. */
  function Kept(s: Fleet, known: seq<Key>): map<Key, Schedule> {
    map p | p in s.schedules && (p in known || p in s.active) :: s.schedules[p]
  }

  function Candidates(s: Fleet, known: seq<Key>, generation: nat): seq<Entry> {
    Selected(Kept(s, known), Idle(known, s.active), s.now, generation)
  }

  /** The peers that a fill starts: the first selected ones, as far as there is room. */
  function Started(s: Fleet, known: seq<Key>, generation: nat): set<Key> {
    FirstPeers(Peers(Candidates(s, known, generation)), Available(s.active))
  }

  function FirstPeers(peers: seq<Key>, n: nat): set<Key> { set i | 0 <= i < |peers| && i < n :: peers[i] }

  /** Steps without a retry: time passes, free sessions are filled, a session ends and is recorded. */
  ghost predicate Step(s: Fleet, a: Action, t: Fleet, known: seq<Key>) {
    match a
    case Wait(later) => s.now <= later && t == s.(now := later)
    case Fill(generation) =>
      if Available(s.active) == 0 then t == s
      else t == Fleet(Kept(s, known), s.active + Started(s, known, generation), s.now)
    case Finish(peer, generation, report, jitter) =>
      && peer in s.active && jitter < 1000
      && var before := if peer in s.schedules then s.schedules[peer] else UNSCHEDULED;
      t == Fleet(s.schedules[peer := before.AfterAttempt(s.now, generation, report, jitter)], s.active - {peer}, s.now)
  }

  ghost predicate Next(s: Fleet, t: Fleet, known: seq<Key>) { exists a: Action :: Step(s, a, t, known) }

  ghost predicate Run(run: seq<Fleet>, known: seq<Key>) {
    forall k :: 0 <= k < |run| - 1 ==> Next(run[k], run[k + 1], known)
  }

  /** `p` is not running and its time `at` has come. */
  ghost predicate Waiting(s: Fleet, known: seq<Key>, p: Key, at: nat) {
    p in known && p !in s.active && p in s.schedules && s.schedules[p].nextAt == Some(at) && at <= s.now
  }

  /** `q` is running, or is to be contacted only after `at`. */
  ghost predicate Passed(s: Fleet, q: Key, at: nat) {
    q in s.active || (q in s.schedules && s.schedules[q].nextAt.Some? && s.schedules[q].nextAt.value > at)
  }

  // ----- A selection serves the earlier time first ------------------------------------------------------------

  lemma {:induction false} IdleMember(known: seq<Key>, active: set<Key>, p: Key)
    ensures p in Idle(known, active) <==> p in known && p !in active
  {
    if known != [] {
      IdleMember(known[..|known| - 1], active, p);
      assert known == known[..|known| - 1] + [known[|known| - 1]];
    }
  }

  lemma {:induction false} DueMember(schedules: map<Key, Schedule>, peers: seq<Key>, now: nat, generation: nat,
                                     e: Entry)
    ensures e in DueEntries(schedules, peers, now, generation) <==>
      e.peer in peers && IsDue(schedules, e.peer, now, generation) && e == EntryOf(schedules, e.peer)
  {
    if peers != [] {
      DueMember(schedules, peers[..|peers| - 1], now, generation, e);
      assert peers == peers[..|peers| - 1] + [peers[|peers| - 1]];
    }
  }

  /** In a sorted list an earlier entry comes first, so a prefix with the later one has it too. */
  lemma EarlierFirst(s: seq<Entry>, e: Entry, i: nat)
    requires Sorted(s) && e in s && i < |s| && Sooner(e.at, s[i].at)
    ensures exists k :: 0 <= k < i && s[k] == e
  {
  }

  lemma FillServesWaiting(s: Fleet, known: seq<Key>, generation: nat, p: Key, q: Key, at: nat)
    requires Waiting(s, known, p, at) && Passed(s, q, at) && q !in s.active && q in Started(s, known, generation)
    ensures p in Started(s, known, generation)
  {
    var schedules, idle := Kept(s, known), Idle(known, s.active);
    var due := DueEntries(schedules, idle, s.now, generation);
    var entries := Candidates(s, known, generation);
    var peers := Peers(entries);
    var i :| 0 <= i < |peers| && i < Available(s.active) && peers[i] == q;
    SortIsStable(due, None);
    assert entries[i] in Sort(due) && entries[i] == Sort(due)[i];
    SortMembers(due, entries[i]);
    DueMember(schedules, idle, s.now, generation, entries[i]);
    IdleMember(known, s.active, q);
    var e := EntryOf(schedules, p);
    IdleMember(known, s.active, p);
    DueMember(schedules, idle, s.now, generation, e);
    SortMembers(due, e);
    EarlierFirst(Sort(due), e, i);
    var k :| 0 <= k < i && Sort(due)[k] == e;
    assert peers[k] == e.peer;
  }

  // ----- One step ------------------------------------------------------------------------------------------------

  lemma StartedKnown(s: Fleet, known: seq<Key>, generation: nat, q: Key)
    requires q in Started(s, known, generation)
    ensures q in known
  {
    var idle, entries := Idle(known, s.active), Candidates(s, known, generation);
    var peers := Peers(entries);
    var i :| 0 <= i < |peers| && peers[i] == q;
    var due := DueEntries(Kept(s, known), idle, s.now, generation);
    assert entries[i] == Sort(due)[i] && entries[i] in Sort(due);
    SortMembers(due, entries[i]);
    DueMember(Kept(s, known), idle, s.now, generation, entries[i]);
    IdleMember(known, s.active, q);
  }

  /** What matters of a step to a peer `p` that waits since `at`: it goes on waiting unless it starts, peers
      that have passed stay passed, and none of those starts without `p`. */
  ghost predicate Fair(s: Fleet, t: Fleet, known: seq<Key>, p: Key, at: nat) {
    && (Waiting(s, known, p, at) && p !in t.active ==> Waiting(t, known, p, at))
    && (forall q :: q in known && Passed(s, q, at) && at <= s.now ==> Passed(t, q, at))
    && (forall q :: q in t.active && q !in s.active ==> q in known)
    && (forall q :: q in t.active && q !in s.active && Passed(s, q, at) && Waiting(s, known, p, at) ==> p in t.active)
  }

  lemma FillIsFair(s: Fleet, t: Fleet, known: seq<Key>, generation: nat, p: Key, at: nat)
    requires Step(s, Action.Fill(generation), t, known)
    ensures Fair(s, t, known, p, at)
  {
    forall q | q in t.active && q !in s.active ensures q in known {
      StartedKnown(s, known, generation, q);
    }
    forall q | q in t.active && q !in s.active && Passed(s, q, at) && Waiting(s, known, p, at) ensures p in t.active {
      FillServesWaiting(s, known, generation, p, q, at);
    }
  }

  lemma StepIsFair(s: Fleet, a: Action, t: Fleet, known: seq<Key>, p: Key, at: nat)
    requires Step(s, a, t, known)
    ensures Fair(s, t, known, p, at)
  {
    if a.Fill? { FillIsFair(s, t, known, a.generation, p, at); }
  }

  // ----- Over a run ----------------------------------------------------------------------------------------------

  ghost function FairTo(known: seq<Key>, p: Key, at: nat): (Fleet, Fleet) -> bool {
    (s, t) => Fair(s, t, known, p, at)
  }

  lemma RunIsFair(run: seq<Fleet>, known: seq<Key>, p: Key, at: nat)
    requires Run(run, known) && run != []
    ensures Chain(run, FairTo(known, p, at))
  {
    forall j, k | 0 <= j < k < |run| && k == j + 1 ensures FairTo(known, p, at)(run[j], run[k]) {
      assert Next(run[j], run[j + 1], known);
      var a: Action :| Step(run[j], a, run[k], known);
      StepIsFair(run[j], a, run[k], known, p, at);
    }
  }

  /** `p` waits from state `i` on and does not start before state `end`. */
  ghost predicate WaitsFrom(run: seq<Fleet>, known: seq<Key>, p: Key, at: nat, i: nat, end: nat) {
    && Chain(run, FairTo(known, p, at)) && i <= end < |run| && Waiting(run[i], known, p, at)
    && forall k :: i <= k <= end ==> p !in run[k].active
  }

  lemma FairStep(run: seq<Fleet>, known: seq<Key>, p: Key, at: nat, k: nat)
    requires Chain(run, FairTo(known, p, at)) && k + 1 < |run|
    ensures Fair(run[k], run[k + 1], known, p, at)
  {
    assert FairTo(known, p, at)(run[k], run[k + 1]);
  }

  lemma {:induction false} WaitsUntil(run: seq<Fleet>, known: seq<Key>, p: Key, at: nat, i: nat, end: nat, j: nat)
    requires WaitsFrom(run, known, p, at, i, end) && i <= j <= end
    ensures Waiting(run[j], known, p, at)
  {
    if i < j {
      WaitsUntil(run, known, p, at, i, end, j - 1);
      FairStep(run, known, p, at, j - 1);
      assert p !in run[j].active;
    }
  }

  /** While `p` waits, a peer that has passed stays passed. */
  lemma {:induction false} StaysPassed(run: seq<Fleet>, known: seq<Key>, p: Key, q: Key, at: nat, i: nat, end: nat,
                                       m: nat, j: nat)
    requires WaitsFrom(run, known, p, at, i, end) && i <= m <= j <= end && q in known && Passed(run[m], q, at)
    ensures Passed(run[j], q, at)
  {
    if m < j {
      StaysPassed(run, known, p, q, at, i, end, m, j - 1);
      WaitsUntil(run, known, p, at, i, end, j - 1);
      FairStep(run, known, p, at, j - 1);
    }
  }

  ghost predicate Starts(run: seq<Fleet>, k: nat, q: Key)
    requires k + 1 < |run|
  {
    q !in run[k].active && q in run[k + 1].active
  }

  /** While `p` waits, a peer that starts at step `m` does not start again at a later step `j`. */
  lemma NoSecondStart(run: seq<Fleet>, known: seq<Key>, p: Key, q: Key, at: nat, i: nat, end: nat, m: nat, j: nat)
    requires WaitsFrom(run, known, p, at, i, end) && i <= m < j < end && q in known && Starts(run, m, q)
    ensures !Starts(run, j, q)
  {
    StaysPassed(run, known, p, q, at, i, end, m + 1, j);
    WaitsUntil(run, known, p, at, i, end, j);
    FairStep(run, known, p, at, j);
    assert p !in run[j + 1].active;
  }

  /** In every run without retries: while a peer whose time has come waits, no other peer starts twice. */
  lemma StartedAtMostOnce(run: seq<Fleet>, known: seq<Key>, p: Key, q: Key, at: nat, i: nat, end: nat, m: nat, j: nat)
    requires Run(run, known) && i <= m < j < end < |run| && q in known
    requires Waiting(run[i], known, p, at) && forall k :: i <= k <= end ==> p !in run[k].active
    requires Starts(run, m, q)
    ensures !Starts(run, j, q)
  {
    RunIsFair(run, known, p, at);
    NoSecondStart(run, known, p, q, at, i, end, m, j);
  }

  // ----- How often it can be overtaken ------------------------------------------------------------------------

  function Members(known: seq<Key>): set<Key> { set p | p in known }

  /** The peers that step `k` starts. */
  function Starters(run: seq<Fleet>, k: nat): set<Key>
    requires k + 1 < |run|
  {
    run[k + 1].active - run[k].active
  }

  /** How many sessions the steps `i`, ..., `j - 1` start. */
  function StartCount(run: seq<Fleet>, i: nat, j: nat): nat
    requires i <= j < |run|
  {
    if i == j then 0 else StartCount(run, i, j - 1) + |Starters(run, j - 1)|
  }

  /** The peers that the steps `i`, ..., `j - 1` start. */
  function AllStarters(run: seq<Fleet>, i: nat, j: nat): set<Key>
    requires i <= j < |run|
  {
    if i == j then {} else AllStarters(run, i, j - 1) + Starters(run, j - 1)
  }

  lemma {:induction false} StarterAt(run: seq<Fleet>, i: nat, j: nat, q: Key) returns (k: nat)
    requires i <= j < |run| && q in AllStarters(run, i, j)
    ensures i <= k < j && Starts(run, k, q)
  {
    if q in Starters(run, j - 1) {
      k := j - 1;
    } else {
      k := StarterAt(run, i, j - 1, q);
    }
  }

  /** A peer that starts while `p` waits is known, is not `p`, and did not start before. */
  lemma StarterIsNew(run: seq<Fleet>, known: seq<Key>, p: Key, at: nat, i: nat, end: nat, j: nat, q: Key)
    requires WaitsFrom(run, known, p, at, i, end) && i <= j < end && Starts(run, j, q)
    ensures q in Members(known) - {p} && q !in AllStarters(run, i, j)
  {
    FairStep(run, known, p, at, j);
    assert p !in run[j + 1].active;
    if q in AllStarters(run, i, j) {
      var k := StarterAt(run, i, j, q);
      NoSecondStart(run, known, p, q, at, i, end, k, j);
    }
  }

  lemma StartersDisjoint(run: seq<Fleet>, known: seq<Key>, p: Key, at: nat, i: nat, end: nat, j: nat)
    requires WaitsFrom(run, known, p, at, i, end) && i <= j < end
    ensures AllStarters(run, i, j) !! Starters(run, j) && Starters(run, j) <= Members(known) - {p}
  {
    forall q | q in Starters(run, j) ensures q in Members(known) - {p} && q !in AllStarters(run, i, j) {
      StarterIsNew(run, known, p, at, i, end, j, q);
    }
  }

  lemma UnionSize(a: set<Key>, b: set<Key>)
    requires a !! b
    ensures |a + b| == |a| + |b|
  {
  }

  /** Step `k` starts only peers of `among` that did not start before. */
  ghost predicate StartsNew(run: seq<Fleet>, i: nat, k: nat, among: set<Key>)
    requires i <= k && k + 1 < |run|
  {
    AllStarters(run, i, k) !! Starters(run, k) && Starters(run, k) <= among
  }

  lemma {:induction false} StartersDiffer(run: seq<Fleet>, i: nat, j: nat, among: set<Key>)
    requires i <= j < |run| && forall k :: i <= k < j ==> StartsNew(run, i, k, among)
    ensures |AllStarters(run, i, j)| == StartCount(run, i, j) && AllStarters(run, i, j) <= among
  {
    if i < j {
      StartersDiffer(run, i, j - 1, among);
      assert StartsNew(run, i, j - 1, among);
      UnionSize(AllStarters(run, i, j - 1), Starters(run, j - 1));
    }
  }

  /** While a peer whose time has come waits, fewer sessions start than there are known peers. */
  lemma OvertakenAtMost(run: seq<Fleet>, known: seq<Key>, p: Key, at: nat, i: nat, end: nat)
    requires Run(run, known) && i <= end < |run|
    requires Waiting(run[i], known, p, at) && forall k :: i <= k <= end ==> p !in run[k].active
    ensures StartCount(run, i, end) <= |Members(known)| - 1
  {
    var among := Members(known) - {p};
    RunIsFair(run, known, p, at);
    forall k | i <= k < end ensures StartsNew(run, i, k, among) { StartersDisjoint(run, known, p, at, i, end, k); }
    StartersDiffer(run, i, end, among);
    assert p in Members(known);
    Fits(AllStarters(run, i, end), among);
  }

  lemma Fits(a: set<Key>, b: set<Key>)
    requires a <= b
    ensures |a| <= |b|
  {
    assert b == a + (b - a);
  }

  // ----- The running sessions -------------------------------------------------------------------------------------

  lemma FirstPeersNext(peers: seq<Key>, i: nat)
    requires i < |peers|
    ensures FirstPeers(peers, i + 1) == FirstPeers(peers, i) + {peers[i]}
  {
  }

  lemma FirstPeersAll(peers: seq<Key>, i: nat, n: nat)
    requires i <= n && i <= |peers| && (i == n || i == |peers|)
    ensures FirstPeers(peers, i) == FirstPeers(peers, n)
  {
  }

  class PeerSessions {
    var active: set<Key>

    constructor ()
      ensures active == {}
    {
      active := {};
    }

    /** Starts a session for the first `available` peers. */
    method SpawnFirst(peers: seq<Key>, available: nat)
      modifies this
      ensures active == old(active) + FirstPeers(peers, available)
    {
      var i := 0;
      while i < |peers| && i < available
        invariant 0 <= i <= |peers| && i <= available
        invariant active == old(active) + FirstPeers(peers, i)
      {
        FirstPeersNext(peers, i);
        active := active + {peers[i]};
        i := i + 1;
      }
      FirstPeersAll(peers, i, available);
    }

    /** `fill` and `due_peers`: a fill step. Without a free session nothing happens, not even the removal of
        schedules of unknown peers. */
    method Fill(known: seq<Key>, schedules: map<Key, Schedule>, now: nat, generation: nat)
      returns (kept: map<Key, Schedule>)
      modifies this
      ensures Step(Fleet(schedules, old(active), now), Action.Fill(generation), Fleet(kept, active, now), known)
    {
      if Available(active) == 0 { return schedules; }
      kept := Kept(Fleet(schedules, active, now), known);
      var peers := SelectDuePeers(Idle(known, active), kept, now, generation);
      SpawnFirst(peers, Available(active));
    }
  }
}
