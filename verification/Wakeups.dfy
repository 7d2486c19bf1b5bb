/** The shared state of an active share under interleaved sessions, saves and retries: no wakeup is lost,
    and cached and recorded generations mean what they say. */
module Wakeups {
  import opened Bytes
  import opened Chains
  import opened Manifests
  import opened Digest
  import opened Schedules

  datatype Snapshot = Snapshot(manifest: Manifest, digest: Text)

  function SnapshotOf(m: Manifest): Snapshot { Snapshot(m, Stream(m.format, m.share, m.View())) }

  /** What the locks and atomics of an active share protect. */
  datatype Shared = Shared(stored: Manifest, cache: Option<Snapshot>, manifestGeneration: nat, networkGeneration: nat,
                           schedules: map<Key, Schedule>)

  function Reset(schedules: map<Key, Schedule>): map<Key, Schedule> {
    map p | p in schedules :: schedules[p].RetryNow()
  }

  function Recorded(x: Shared, peer: Key, generation: nat, network: nat, now: nat, report: Option<Report>,
                    jitter: nat): Shared
    requires jitter < 1000
  {
    var before := if peer in x.schedules then x.schedules[peer] else UNSCHEDULED;
    var after := before.AfterAttempt(now, generation, report, jitter);
    x.(schedules := x.schedules[peer := if x.networkGeneration != network then after.RetryNow() else after])
  }

  function Loaded(x: Shared): Shared { if x.cache.Some? then x else x.(cache := Some(SnapshotOf(x.stored))) }

  // ----- The operations --------------------------------------------------------------------------------------

  class ActiveShare {
    var shared: Shared

    constructor (m: Manifest)
      ensures shared == Shared(m, None, 0, 0, map[])
    {
      shared := Shared(m, None, 0, 0, map[]);
    }

    /** `retry_peers`: first the generation, then, under the schedule lock, every schedule. */
    method RetryPeers()
      modifies this
      ensures shared ==
        old(shared).(networkGeneration := old(shared.networkGeneration) + 1, schedules := Reset(old(shared.schedules)))
    {
      shared := shared.(networkGeneration := shared.networkGeneration + 1);
      ghost var before := shared.schedules;
      var todo := shared.schedules.Keys;
      while todo != {}
        invariant todo <= before.Keys == shared.schedules.Keys
        invariant shared ==
          old(shared).(networkGeneration := old(shared.networkGeneration) + 1, schedules := shared.schedules)
        invariant forall p :: p in before ==>
          shared.schedules[p] == if p in todo then before[p] else before[p].RetryNow()
      {
        var p :| p in todo;
        shared := shared.(schedules := shared.schedules[p := shared.schedules[p].RetryNow()]);
        todo := todo - {p};
      }
      assert shared.schedules == Reset(before);
    }

    /** `record_peer_attempt`. */
    method RecordPeerAttempt(peer: Key, generation: nat, network: nat, now: nat, report: Option<Report>, jitter: nat)
      requires jitter < 1000
      modifies this
      ensures shared == Recorded(old(shared), peer, generation, network, now, report, jitter)
    {
      var schedule := if peer in shared.schedules then shared.schedules[peer] else UNSCHEDULED;
      schedule := schedule.AfterAttempt(now, generation, report, jitter);
      if shared.networkGeneration != network { schedule := schedule.RetryNow(); }
      shared := shared.(schedules := shared.schedules[peer := schedule]);
    }

    /** `manifest_snapshot`: with a sound cache, the result is the stored manifest and its digest. */
    method ManifestSnapshot() returns (r: Snapshot)
      requires shared.cache.Some? ==> shared.cache.value == SnapshotOf(shared.stored)
      modifies this
      ensures r == SnapshotOf(shared.stored) && shared == Loaded(old(shared))
    {
      if shared.cache.Some? { return shared.cache.value; }
      r := SnapshotOf(shared.stored);
      shared := shared.(cache := Some(r));
    }

    /** `save_manifest`; a failed write leaves the old or the new manifest and empties the cache. */
    method SaveManifest(m: Manifest, share: Key, failed: bool, written: bool) returns (ok: bool)
      modifies this
      ensures ok <==> m.share == share && !failed
      ensures m.share != share ==> shared == old(shared)
      ensures m.share == share ==>
        && shared.manifestGeneration == old(shared.manifestGeneration) + 1
        && shared.stored == (if failed && !written then old(shared.stored) else m)
        && shared.cache == (if failed then None else Some(SnapshotOf(m)))
        && shared.networkGeneration == old(shared.networkGeneration) && shared.schedules == old(shared.schedules)
    {
      if m.share != share { return false; }
      if failed {
        shared := shared.(stored := if written then m else shared.stored, cache := None);
        shared := shared.(manifestGeneration := shared.manifestGeneration + 1);
        return false;
      }
      shared := shared.(stored := m, cache := Some(SnapshotOf(m)));
      shared := shared.(manifestGeneration := shared.manifestGeneration + 1);
      return true;
    }
  }

  // ----- Interleaved steps ------------------------------------------------------------------------------------

  /** A running session: what it has read so far, in this order. */
  datatype Session = Session(generation: nat, network: Option<nat>, used: Option<Used>)

  /** The manifest a session took, how many saves had happened by then, and whether it is the empty one that
      a client offers before its initial synchronisation is complete. */
  datatype Used = Used(manifest: Manifest, saves: nat, initial: bool)

  /** `saves` counts stored manifests; `saving` is set while a save holds the cache lock; `retries` are
      the retries that have bumped the generation but not yet reset the schedules. `lastNetwork` and
      `lastUsed` remember what the last recorded attempt of each peer had read. */
  datatype World = World(shared: Shared, saves: nat, saving: bool, sessions: map<Key, Session>, retries: set<nat>,
                         lastNetwork: map<Key, nat>, lastUsed: map<Key, Used>)

  datatype Action =
    | Begin(peer: Key)
    | ReadNetwork(peer: Key)
    | TakeSnapshot(peer: Key)
    | TakeEmpty(peer: Key, wall: u64)
    | Record(peer: Key, now: nat, report: Option<Report>, jitter: nat)
    | SaveStore(m: Manifest, failed: bool, written: bool)
    | SaveBump
    | LoadCache
    | RetryBump
    | RetryReset(generation: nat)
    | Retain(peers: set<Key>)

  ghost predicate Step(s: World, a: Action, t: World) {
    match a
    case Begin(p) =>
      p !in s.sessions && t == s.(sessions := s.sessions[p := Session(s.shared.manifestGeneration, None, None)])
    case ReadNetwork(p) =>
      && p in s.sessions && s.sessions[p].network.None?
      && t == s.(sessions := s.sessions[p := s.sessions[p].(network := Some(s.shared.networkGeneration))])
    case TakeSnapshot(p) =>
      && p in s.sessions && s.sessions[p].network.Some? && s.sessions[p].used.None? && !s.saving
      && var shared := Loaded(s.shared);
      t == s.(shared := shared,
              sessions :=
                s.sessions[p := s.sessions[p].(used := Some(Used(shared.cache.value.manifest, s.saves, false)))])
    case TakeEmpty(p, wall) =>
      && p in s.sessions && s.sessions[p].network.Some? && s.sessions[p].used.None?
      && var empty := Used(Empty(s.shared.stored.share, wall), s.saves, true);
      t == s.(sessions := s.sessions[p := s.sessions[p].(used := Some(empty))])
    case Record(p, now, report, jitter) =>
      && p in s.sessions && s.sessions[p].network.Some? && jitter < 1000
      && (report.Some? && report.value.connected ==> s.sessions[p].used.Some?)
      && var session := s.sessions[p];
      t == s.(shared := Recorded(s.shared, p, session.generation, session.network.value, now, report, jitter),
              sessions := s.sessions - {p}, lastNetwork := s.lastNetwork[p := session.network.value],
              lastUsed := if session.used.Some? then s.lastUsed[p := session.used.value] else s.lastUsed)
    case SaveStore(m, failed, written) =>
      && !s.saving
      && var stored := if failed && !written then s.shared.stored else m;
      t == s.(shared := s.shared.(stored := stored, cache := if failed then None else Some(SnapshotOf(m))),
              saves := s.saves + 1, saving := true)
    case SaveBump =>
      s.saving && t == s.(shared := s.shared.(manifestGeneration := s.shared.manifestGeneration + 1), saving := false)
    case LoadCache => !s.saving && t == s.(shared := Loaded(s.shared))
    case RetryBump =>
      t == s.(shared := s.shared.(networkGeneration := s.shared.networkGeneration + 1),
              retries := s.retries + {s.shared.networkGeneration + 1})
    case RetryReset(n) =>
      n in s.retries
      && t == s.(shared := s.shared.(schedules := Reset(s.shared.schedules)), retries := s.retries - {n})
    case Retain(peers) =>
      t == s.(shared := s.shared.(schedules := map p | p in s.shared.schedules && p in peers :: s.shared.schedules[p]))
  }

  ghost predicate Initial(s: World) {
    && s.shared.cache.None? && s.shared.manifestGeneration == 0
    && s.shared.networkGeneration == 0 && s.shared.schedules == map[]
    && s.saves == 0 && !s.saving && s.sessions == map[] && s.retries == {}
  }

  ghost predicate Next(s: World, t: World) { exists a: Action :: Step(s, a, t) }

  ghost predicate Run(run: seq<World>) { Chain(run, Steps()) && Initial(run[0]) }

  ghost function Steps(): (World, World) -> bool { (s, t) => Next(s, t) }

  lemma RunStep(run: seq<World>, k: nat)
    requires Run(run) && k + 1 < |run|
    ensures Next(run[k], run[k + 1])
  {
    assert Steps()(run[k], run[k + 1]);
  }

  // ----- The invariant -------------------------------------------------------------------------------------------

  ghost predicate CacheOk(s: World) {
    && (s.shared.cache.Some? ==> s.shared.cache.value == SnapshotOf(s.shared.stored))
    && s.saves == s.shared.manifestGeneration + (if s.saving then 1 else 0)
  }

  /** What a session took, unless it was the empty manifest: if nothing was saved since, it is what is stored. */
  ghost predicate UsedOk(s: World, u: Used, generation: nat) {
    generation <= u.saves <= s.saves && (u.saves == s.saves && !u.initial ==> u.manifest == s.shared.stored)
  }

  ghost predicate SessionOk(s: World, x: Session) {
    x.generation <= s.shared.manifestGeneration && (x.used.Some? ==> UsedOk(s, x.used.value, x.generation))
  }

  ghost predicate SessionsOk(s: World) { forall p :: p in s.sessions ==> SessionOk(s, s.sessions[p]) }

  /** A scheduled time is younger than every retry that has finished. */
  ghost predicate WokenOk(s: World, p: Key)
    requires p in s.shared.schedules
  {
    s.shared.schedules[p].nextAt.Some? ==>
      && p in s.lastNetwork
      && forall n :: 0 <= n <= s.shared.networkGeneration && n !in s.retries ==> n <= s.lastNetwork[p]
  }

  ghost predicate OutcomeOk(s: World, p: Key)
    requires p in s.shared.schedules
  {
    s.shared.schedules[p].lastOutcome.Some? ==>
      p in s.lastUsed && UsedOk(s, s.lastUsed[p], s.shared.schedules[p].lastGeneration)
  }

  ghost predicate SchedulesOk(s: World) {
    forall p :: p in s.shared.schedules ==> WokenOk(s, p) && OutcomeOk(s, p)
  }

  ghost predicate Inv(s: World) { CacheOk(s) && SessionsOk(s) && SchedulesOk(s) }

  lemma StepCache(s: World, a: Action, t: World)
    requires Inv(s) && Step(s, a, t)
    ensures CacheOk(t)
  {
  }

  lemma StepSessions(s: World, a: Action, t: World)
    requires Inv(s) && Step(s, a, t)
    ensures SessionsOk(t)
  {
    forall p | p in t.sessions ensures SessionOk(t, t.sessions[p]) {
      if p in s.sessions { assert SessionOk(s, s.sessions[p]); }
    }
  }

  lemma StepWoken(s: World, a: Action, t: World, p: Key)
    requires Inv(s) && Step(s, a, t) && p in t.shared.schedules
    ensures WokenOk(t, p)
  {
    if p in s.shared.schedules { assert WokenOk(s, p); }
  }

  lemma RecordOutcome(s: World, a: Action, t: World)
    requires Inv(s) && a.Record? && Step(s, a, t)
    ensures a.peer in t.shared.schedules ==> OutcomeOk(t, a.peer)
  {
    assert SessionOk(s, s.sessions[a.peer]);
    if a.peer in s.shared.schedules { assert OutcomeOk(s, a.peer); }
  }

  lemma StepOutcome(s: World, a: Action, t: World, p: Key)
    requires Inv(s) && Step(s, a, t) && p in t.shared.schedules
    ensures OutcomeOk(t, p)
  {
    if p in s.shared.schedules { assert OutcomeOk(s, p); }
    if a.Record? && a.peer == p { RecordOutcome(s, a, t); }
  }

  lemma NextKeepsInv(s: World, t: World)
    requires Inv(s) && Next(s, t)
    ensures Inv(t)
  {
    var a: Action :| Step(s, a, t);
    StepCache(s, a, t);
    StepSessions(s, a, t);
    forall p | p in t.shared.schedules ensures WokenOk(t, p) && OutcomeOk(t, p) {
      StepWoken(s, a, t, p);
      StepOutcome(s, a, t, p);
    }
  }

  lemma {:induction false} RunInv(run: seq<World>, k: nat)
    requires Run(run) && k < |run|
    ensures Inv(run[k])
  {
    if k > 0 {
      RunInv(run, k - 1);
      RunStep(run, k - 1);
      NextKeepsInv(run[k - 1], run[k]);
    }
  }

  // ----- What it means ---------------------------------------------------------------------------------------------

  /** An attempt that read the network generation before a retry leaves its peer due as soon as both have
      finished, in every interleaving. */
  lemma NoLostWakeup(run: seq<World>, k: nat, p: Key, retry: nat, now: nat, generation: nat)
    requires Run(run) && k < |run| && p in run[k].shared.schedules && p in run[k].lastNetwork
    requires retry <= run[k].shared.networkGeneration && retry !in run[k].retries && run[k].lastNetwork[p] < retry
    ensures run[k].shared.schedules[p].Due(now, generation)
  {
    RunInv(run, k);
    assert WokenOk(run[k], p);
  }

  /** A successful attempt recorded at the current manifest generation used the stored manifest, or was part
      of the initial synchronisation, which offers an empty one. */
  lemma CurrentManifestUsed(run: seq<World>, k: nat, p: Key)
    requires Run(run) && k < |run| && !run[k].saving && p in run[k].shared.schedules
    requires run[k].shared.schedules[p].lastOutcome.Some?
    requires run[k].shared.schedules[p].lastGeneration == run[k].shared.manifestGeneration
    ensures p in run[k].lastUsed && (run[k].lastUsed[p].initial || run[k].lastUsed[p].manifest == run[k].shared.stored)
  {
    RunInv(run, k);
    assert OutcomeOk(run[k], p);
  }

  /** A cached snapshot is the stored manifest with its digest. */
  lemma CacheIsStored(run: seq<World>, k: nat)
    requires Run(run) && k < |run| && run[k].shared.cache.Some?
    ensures run[k].shared.cache.value == SnapshotOf(run[k].shared.stored)
  {
    RunInv(run, k);
  }
}
