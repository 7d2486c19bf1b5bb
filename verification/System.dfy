/** N peers that scan, exchange and crash: what holds in every reachable state. */
module System {
  import opened Bytes
  import opened Chains
  import opened Clock
  import opened Manifests
  import opened Merge
  import opened Reconcile
  import opened Scan
  import opened ScanLaws

  /** What one peer has stored. */
  datatype Peer = Peer(view: Records, clock: Time)

  /** All peers, by endpoint ID, and every view that any of them ever stored: a message may carry any of
      those views, at any later time and any number of times. */
  datatype State = State(peers: map<Key, Peer>, history: set<Records>)

  datatype Action =
    | ScanBy(i: Key, found: Found, unknown: bool, now: u64, ticked: seq<Path>)
    | ScanCrash(i: Key, now: u64, ticks: nat)
    | Receive(i: Key, remote: Records, left: set<Path>)
    | ReceiveCrash(i: Key)

  function EnvAt(s: State, a: Action): Env
    requires a.ScanBy? && a.i in s.peers
  {
    Env(s.peers[a.i].view, a.found, a.unknown, s.peers[a.i].clock, a.now, a.i)
  }

  /** `t` is `s` after peer `i` stored `x`. */
  predicate Stores(s: State, t: State, i: Key, x: Peer)
    requires i in s.peers
  {
    t.peers == s.peers[i := x] && t.history == s.history + {x.view}
  }

  ghost predicate Step(s: State, a: Action, t: State) {
    && a.i in s.peers && a.i in t.peers
    && var before, after := s.peers[a.i], t.peers[a.i];
    && Stores(s, t, a.i, after)
    && match a {
         // A scan of whatever a walk of the directory finds.
         case ScanBy(i, found, unknown, now, ticked) =>
           && found.Disjoint() && found.Closed()
           && ScanResult(EnvAt(s, a), ticked, after.view)
           && NthTick(before.clock, now, |ticked|) == Some(after.clock)
         // The clock was saved, the manifest was not.
         case ScanCrash(i, now, ticks) =>
           after.view == before.view && NthTick(before.clock, now, ticks) == Some(after.clock)
         // Any stored view arrives, with any part of its files.
         case Receive(i, remote, left) =>
           && remote in s.history && LeftOut(before.view, remote, left)
           && after.view == Applied(before.view, remote, left) && HierarchyOk(after.view)
           && AtMost(before.clock, after.clock)
           && (after.view != before.view ==> Dominates(after.clock, after.view))
         case ReceiveCrash(i) =>
           after.view == before.view && AtMost(before.clock, after.clock)
       }
  }

  /** Every peer starts with an empty manifest and the zero clock. */
  ghost predicate Initial(s: State) {
    && s.history == {map[]}
    && forall i :: i in s.peers ==> s.peers[i] == Peer(map[], ORIGIN)
  }

  ghost predicate Next(s: State, t: State) { exists a: Action :: Step(s, a, t) }

  /** A run of the system. */
  ghost predicate Run(run: seq<State>) { Chain(run, Steps()) && Initial(run[0]) }

  ghost function Steps(): (State, State) -> bool { (s, t) => Next(s, t) }

  lemma RunStep(run: seq<State>, k: nat)
    requires Run(run) && k + 1 < |run|
    ensures Next(run[k], run[k + 1])
  {
    assert Steps()(run[k], run[k + 1]);
  }

  // ----- The invariant ------------------------------------------------------------------------------------

  /** Equal versions mean the same path and the same synchronised record. */
  ghost predicate Consistent(v: Records, w: Records) {
    forall p, q :: p in v && q in w && v[p].Version() == w[q].Version() ==> p == q && v[p].Synced() == w[q].Synced()
  }

  /** No version exceeds the clock of the peer that issued it. */
  ghost predicate Issued(s: State, v: Records) {
    forall p :: p in v ==>
      v[p].Version().author in s.peers && AtMost(TimeOf(v[p].Version()), s.peers[v[p].Version().author].clock)
  }

  /** Every peer's clock dominates its own files, directories and tombstones. */
  ghost predicate PeersOk(s: State) {
    forall i :: i in s.peers ==>
      s.peers[i].view in s.history && Dominates(s.peers[i].clock, s.peers[i].view)
  }

  ghost predicate HistoryOk(s: State) { forall v :: v in s.history ==> Issued(s, v) && ParentClosed(v) }

  ghost predicate AllConsistent(h: set<Records>) { forall v, w :: v in h && w in h ==> Consistent(v, w) }

  ghost predicate Inv(s: State) { PeersOk(s) && HistoryOk(s) && AllConsistent(s.history) }

  /** The record of `w` at `p` was stored before, up to its modification time. */
  ghost predicate Known(s: State, w: Records, p: Path)
    requires p in w
  {
    exists v: Records :: v in s.history && p in v && v[p].Synced() == w[p].Synced()
  }

  lemma KnownBy(s: State, w: Records, p: Path) returns (u: Records)
    requires p in w && Known(s, w, p)
    ensures u in s.history && p in u && u[p].Synced() == w[p].Synced() && u[p].Version() == w[p].Version()
  {
    u :| u in s.history && p in u && u[p].Synced() == w[p].Synced();
    assert u[p].Synced().Version() == u[p].Version() && w[p].Synced().Version() == w[p].Version();
  }

  /** The record of `w` at `p` carries a version that peer `i` has just issued. */
  predicate JustIssued(s: State, i: Key, w: Records, p: Path, clock: Time)
    requires p in w && i in s.peers
  {
    var version := w[p].Version();
    version.author == i && Before(s.peers[i].clock, TimeOf(version)) && AtMost(TimeOf(version), clock)
  }

  /** A view whose records are known or just issued, the latter with distinct versions. */
  ghost predicate Grows(s: State, i: Key, w: Records, clock: Time)
    requires i in s.peers
  {
    && (forall p :: p in w ==> Known(s, w, p) || JustIssued(s, i, w, p, clock))
    && (forall p, q :: p in w && q in w && w[p].Version() == w[q].Version() && JustIssued(s, i, w, p, clock) ==> p == q)
  }

  lemma KnownConsistent(s: State, i: Key, w: Records, clock: Time, v: Records, p: Path, q: Path)
    requires Inv(s) && i in s.peers && Grows(s, i, w, clock) && v in s.history
    requires p in w && q in v && w[p].Version() == v[q].Version()
    ensures p == q && w[p].Synced() == v[q].Synced() && Known(s, w, p)
  {
    assert Issued(s, v) && !JustIssued(s, i, w, p, clock);
    var u := KnownBy(s, w, p);
    assert Consistent(u, v);
  }

  lemma GrownConsistent(s: State, i: Key, w: Records, clock: Time, v: Records)
    requires Inv(s) && i in s.peers && Grows(s, i, w, clock) && v in s.history
    ensures Consistent(w, v) && Consistent(v, w)
  {
    forall p, q | p in w && q in v && w[p].Version() == v[q].Version()
      ensures p == q && w[p].Synced() == v[q].Synced()
    {
      KnownConsistent(s, i, w, clock, v, p, q);
    }
  }

  lemma SelfConsistent(s: State, i: Key, w: Records, clock: Time)
    requires Inv(s) && i in s.peers && Grows(s, i, w, clock)
    ensures Consistent(w, w)
  {
    forall p, q | p in w && q in w && w[p].Version() == w[q].Version()
      ensures p == q && w[p].Synced() == w[q].Synced()
    {
      if Known(s, w, q) {
        var u := KnownBy(s, w, q);
        KnownConsistent(s, i, w, clock, u, p, q);
      } else if Known(s, w, p) {
        var u := KnownBy(s, w, p);
        KnownConsistent(s, i, w, clock, u, q, p);
      }
    }
  }

  lemma GrownIssued(s: State, t: State, i: Key, w: Records, clock: Time)
    requires Inv(s) && i in s.peers && Stores(s, t, i, Peer(w, clock)) && AtMost(s.peers[i].clock, clock)
    requires Grows(s, i, w, clock)
    ensures Issued(t, w)
  {
    forall p | p in w
      ensures w[p].Version().author in t.peers
      ensures AtMost(TimeOf(w[p].Version()), t.peers[w[p].Version().author].clock)
    {
      if Known(s, w, p) {
        var u := KnownBy(s, w, p);
        assert Issued(s, u);
      }
    }
  }

  lemma StillIssued(s: State, t: State, i: Key, x: Peer, v: Records)
    requires i in s.peers && Stores(s, t, i, x) && AtMost(s.peers[i].clock, x.clock) && Issued(s, v)
    ensures Issued(t, v)
  {
  }

  lemma GrownHistory(s: State, t: State, i: Key, w: Records, clock: Time)
    requires Inv(s) && i in s.peers && Stores(s, t, i, Peer(w, clock)) && AtMost(s.peers[i].clock, clock)
    requires Grows(s, i, w, clock)
    ensures forall v :: v in t.history ==> Issued(t, v) && Consistent(w, v) && Consistent(v, w)
  {
    forall v | v in t.history ensures Issued(t, v) && Consistent(w, v) && Consistent(v, w) {
      if v == w {
        GrownIssued(s, t, i, w, clock);
        SelfConsistent(s, i, w, clock);
      } else {
        StillIssued(s, t, i, Peer(w, clock), v);
        GrownConsistent(s, i, w, clock, v);
      }
    }
  }

  /** Storing a view that only grows keeps the invariant. */
  lemma GrowthKeepsInv(s: State, t: State, i: Key, w: Records, clock: Time)
    requires Inv(s) && i in s.peers && Stores(s, t, i, Peer(w, clock)) && AtMost(s.peers[i].clock, clock)
    requires Grows(s, i, w, clock) && Dominates(clock, w) && ParentClosed(w)
    ensures Inv(t)
  {
    GrownHistory(s, t, i, w, clock);
    assert HistoryOk(t);
    StillConsistent(s.history, w);
  }

  lemma StillConsistent(h: set<Records>, w: Records)
    requires AllConsistent(h) && forall v :: v in h + {w} ==> Consistent(w, v) && Consistent(v, w)
    ensures AllConsistent(h + {w})
  {
  }

  // ----- Every step keeps the invariant --------------------------------------------------------------------

  lemma ScanKnown(s: State, a: Action, w: Records, clock: Time, p: Path)
    requires Inv(s) && a.ScanBy? && a.i in s.peers && ScanResult(EnvAt(s, a), a.ticked, w)
    requires NthTick(s.peers[a.i].clock, a.now, |a.ticked|) == Some(clock) && p in w
    ensures if p in a.ticked then JustIssued(s, a.i, w, p, clock)
            else Known(s, w, p) && !JustIssued(s, a.i, w, p, clock)
  {
    var e, v := EnvAt(s, a), s.peers[a.i].view;
    if p in a.ticked {
      TickedVersion(e, a.ticked, w, p);
    } else {
      assert Get(w, p) == Refreshed(Get(v, p), e.found, p);
      assert v in s.history && p in v && v[p].Synced() == w[p].Synced();
      assert Issued(s, v);
    }
  }

  /** Everything a scan stores was stored before or has just been issued. */
  lemma ScanGrows(s: State, a: Action, w: Records, clock: Time)
    requires Inv(s) && a.ScanBy? && a.i in s.peers && ScanResult(EnvAt(s, a), a.ticked, w)
    requires NthTick(s.peers[a.i].clock, a.now, |a.ticked|) == Some(clock)
    ensures Grows(s, a.i, w, clock)
  {
    forall p | p in w ensures Known(s, w, p) || JustIssued(s, a.i, w, p, clock) { ScanKnown(s, a, w, clock, p); }
    forall p, q | p in w && q in w && w[p].Version() == w[q].Version() && JustIssued(s, a.i, w, p, clock)
      ensures p == q
    {
      ScanKnown(s, a, w, clock, p);
      ScanKnown(s, a, w, clock, q);
      if p != q { TickedDistinct(EnvAt(s, a), a.ticked, w, p, q); }
    }
  }

  lemma ReceiveGrows(s: State, i: Key, remote: Records, left: set<Path>, clock: Time)
    requires Inv(s) && i in s.peers && remote in s.history
    ensures Grows(s, i, Applied(s.peers[i].view, remote, left), clock)
  {
    var v, w := s.peers[i].view, Applied(s.peers[i].view, remote, left);
    forall p | p in w ensures Known(s, w, p) && !JustIssued(s, i, w, p, clock) {
      assert Get(w, p) == Some(w[p]);
      assert (p in v && v[p] == w[p]) || (p in remote && remote[p] == w[p]);
      assert Issued(s, v) && Issued(s, remote);
    }
  }

  lemma SameGrows(s: State, i: Key, clock: Time)
    requires Inv(s) && i in s.peers
    ensures Grows(s, i, s.peers[i].view, clock)
  {
  }

  lemma {:induction false} TicksForward(t: Time, now: u64, n: nat)
    requires NthTick(t, now, n).Some?
    ensures AtMost(t, NthTick(t, now, n).value)
  {
    if n > 0 { TicksIncrease(t, now, 0, n); }
  }

  lemma StillDominates(t: Time, u: Time, v: Records)
    requires Dominates(t, v) && AtMost(t, u)
    ensures Dominates(u, v)
  {
  }

  lemma ScanStepKeepsInv(s: State, a: Action, t: State)
    requires Inv(s) && Step(s, a, t) && a.ScanBy?
    ensures Inv(t)
  {
    var after := t.peers[a.i];
    ScanGrows(s, a, after.view, after.clock);
    ScanDominates(EnvAt(s, a), a.ticked, after.view, after.clock);
    ScanHierarchy(EnvAt(s, a), a.ticked, after.view);
    GrowthKeepsInv(s, t, a.i, after.view, after.clock);
  }

  lemma ReceiveStepKeepsInv(s: State, a: Action, t: State)
    requires Inv(s) && Step(s, a, t) && a.Receive?
    ensures Inv(t)
  {
    var before, after := s.peers[a.i], t.peers[a.i];
    assert HistoryOk(s) && before.view in s.history;
    ReceiveGrows(s, a.i, a.remote, a.left, after.clock);
    PartialParentClosed(before.view, a.remote, a.left);
    StillDominates(before.clock, after.clock, before.view);
    GrowthKeepsInv(s, t, a.i, after.view, after.clock);
  }

  lemma CrashStepKeepsInv(s: State, a: Action, t: State)
    requires Inv(s) && Step(s, a, t) && (a.ScanCrash? || a.ReceiveCrash?)
    ensures Inv(t)
  {
    var before, after := s.peers[a.i], t.peers[a.i];
    assert HistoryOk(s) && before.view in s.history;
    if a.ScanCrash? { TicksForward(before.clock, a.now, a.ticks); }
    SameGrows(s, a.i, after.clock);
    StillDominates(before.clock, after.clock, before.view);
    GrowthKeepsInv(s, t, a.i, after.view, after.clock);
  }

  /** The invariant holds in every state of every run. */
  lemma {:induction false} RunInv(run: seq<State>, k: nat)
    requires Run(run) && k < |run|
    ensures Inv(run[k])
  {
    if k > 0 {
      RunInv(run, k - 1);
      RunStep(run, k - 1);
      var a: Action :| Step(run[k - 1], a, run[k]);
      match a
      case ScanBy(_, _, _, _, _) => ScanStepKeepsInv(run[k - 1], a, run[k]);
      case Receive(_, _, _) => ReceiveStepKeepsInv(run[k - 1], a, run[k]);
      case _ => CrashStepKeepsInv(run[k - 1], a, run[k]);
    }
  }

  // ----- What this means for every run ----------------------------------------------------------------------

  /** Two records that were ever stored anywhere with the same version have the same path and the same
      synchronised fields. */
  lemma VersionsIdentifyRecords(run: seq<State>, k: nat, v: Records, w: Records, p: Path, q: Path)
    requires Run(run) && k < |run| && v in run[k].history && w in run[k].history
    requires p in v && q in w && v[p].Version() == w[q].Version()
    ensures p == q && v[p].Synced() == w[q].Synced()
  {
    RunInv(run, k);
    assert Consistent(v, w);
  }

  lemma ConsistentIsCompatible(v: Records, w: Records)
    requires Consistent(v, w)
    ensures Compatible(v, w) && LiveTiesAgree(v, w)
  {
  }

  /** In every run merging any stored views is idempotent, commutative and associative on synchronised state. */
  lemma RunMergeLaws(run: seq<State>, k: nat, u: Records, v: Records, w: Records)
    requires Run(run) && k < |run| && u in run[k].history && v in run[k].history && w in run[k].history
    ensures Compatible(u, v)
    ensures Merged(u, u) == u
    ensures SameState(Merged(u, v), Merged(v, u))
    ensures Merged(Merged(u, v), w) == Merged(u, Merged(v, w))
  {
    RunInv(run, k);
    ConsistentIsCompatible(u, v);
    MergeIdempotent(u);
    MergeCommutesIff(u, v);
    MergeAssociative(u, v, w);
  }

  /** In every state the clock dominates the stored files, directories and tombstones, so the next
      local version is newer than all of them; no version exceeds its author's clock. */
  lemma RunClocks(run: seq<State>, k: nat, i: Key, now: u64)
    requires Run(run) && k < |run| && i in run[k].peers
    ensures var x := run[k].peers[i];
      && Dominates(x.clock, x.view)
      && (forall p :: p in x.view && !x.view[p].Symlink? && Ticked(x.clock, now).Some? ==>
            Older(x.view[p].Version(), StampAt(Ticked(x.clock, now).value, i)))
      && (forall p :: p in x.view && x.view[p].Version().author == i ==> AtMost(TimeOf(x.view[p].Version()), x.clock))
  {
    RunInv(run, k);
    var x := run[k].peers[i];
    assert Issued(run[k], x.view);
  }

  lemma StepNeverLowers(s: State, a: Action, t: State, i: Key, p: Path)
    requires Inv(s) && Step(s, a, t) && i in s.peers && p in s.peers[i].view && !s.peers[i].view[p].Symlink?
    ensures p in t.peers[i].view && NotNewer(s.peers[i].view[p].Version(), t.peers[i].view[p].Version())
  {
    if i == a.i {
      match a
      case ScanBy(_, _, _, _, ticked) => ScanNeverLowers(EnvAt(s, a), ticked, t.peers[i].view, p);
      case Receive(_, remote, left) => AppliedNeverOlder(s.peers[i].view, remote, left, p);
      case _ =>
    }
  }

  /** No step of any run lowers the version of a file, directory or tombstone, or forgets its path. */
  lemma RunNeverLowers(run: seq<State>, k: nat, i: Key, p: Path)
    requires Run(run) && k + 1 < |run| && i in run[k].peers
    requires p in run[k].peers[i].view && !run[k].peers[i].view[p].Symlink?
    ensures i in run[k + 1].peers && p in run[k + 1].peers[i].view
    ensures NotNewer(run[k].peers[i].view[p].Version(), run[k + 1].peers[i].view[p].Version())
  {
    RunInv(run, k);
    RunStep(run, k);
    var a: Action :| Step(run[k], a, run[k + 1]);
    StepNeverLowers(run[k], a, run[k + 1], i, p);
  }

  /** Every stored view of every run is parent-closed, so its hierarchy is sound. */
  lemma RunHierarchy(run: seq<State>, k: nat, v: Records)
    requires Run(run) && k < |run| && v in run[k].history
    ensures ParentClosed(v) && HierarchyOk(v)
  {
    RunInv(run, k);
    assert HistoryOk(run[k]);
  }
}
