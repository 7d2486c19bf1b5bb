/** The steps of the system are what the operations on a share do, and what a crash cuts short. */
module Nodes {
  import opened Bytes
  import opened Clock
  import opened Manifests
  import opened Merge
  import opened Reconcile
  import opened Disks
  import opened Simulation
  import opened Shares
  import opened Scan
  import opened ScanLaws
  import opened Rescan
  import opened System
  import opened Plan
  import opened Exchange
  import opened Sync
  import Gossip

  ghost function PeerOf(share: Share): Peer
    reads share
  {
    Peer(share.manifest.View(), share.clock)
  }

  ghost function Recorded(s: State, i: Key, x: Peer): State
    requires i in s.peers
  {
    State(s.peers[i := x], s.history + {x.view})
  }

  lemma ScanRecorded(s: State, i: Key, found: Found, unknown: bool, now: u64, ticked: seq<Path>, x: Peer)
    requires i in s.peers && found.Disjoint() && found.Closed()
    requires ScanResult(Env(s.peers[i].view, found, unknown, s.peers[i].clock, now, i), ticked, x.view)
    requires NthTick(s.peers[i].clock, now, |ticked|) == Some(x.clock)
    ensures Step(s, ScanBy(i, found, unknown, now, ticked), Recorded(s, i, x))
  {
  }

  /** A scan of a share is a scan step of its peer; a failed scan stores nothing. */
  method ScanStep(ghost s: State, share: Share, author: Key, found: Found, now: u64)
    returns (ok: bool, ghost a: Action, ghost t: State)
    requires author in s.peers && s.peers[author] == PeerOf(share)
    requires Valid(share.manifest, share.id) && found.Disjoint() && found.Closed()
    modifies share`manifest, share`clock
    ensures Valid(share.manifest, share.id)
    ensures ok ==> a.i == author && Step(s, a, t) && t.peers[author] == PeerOf(share)
    ensures !ok ==> PeerOf(share) == old(PeerOf(share))
  {
    ghost var unknown := share.manifest.format != LEGACY_FORMAT;
    ghost var ticked;
    ok, ticked := ScanAndSave(share, found, now, author);
    a := ScanBy(author, found, unknown, now, ticked);
    t := Recorded(s, author, PeerOf(share));
    if ok { ScanRecorded(s, author, found, unknown, now, ticked, PeerOf(share)); }
  }

  /** Applying a stored view of any peer is a receive step. */
  method ReceiveStep(ghost s: State, share: Share, author: Key, remote: Manifest, delivered: set<Path>, now: u64)
    returns (r: Option<Outcome>, ghost a: Action, ghost t: State)
    requires author in s.peers && s.peers[author] == PeerOf(share) && remote.View() in s.history
    requires Valid(share.manifest, share.id) && Valid(remote, share.id)
    modifies share`manifest, share`clock, share.disk
    ensures Valid(share.manifest, share.id)
    ensures r.Some? ==> a.i == author && Step(s, a, t) && t.peers[author] == PeerOf(share)
    ensures r.None? ==> PeerOf(share) == old(PeerOf(share))
  {
    ghost var x := share.Held();
    r := share.ApplyRemoteTransfer(remote, delivered, now);
    ghost var y := Transferred(x, share.id, remote, delivered, now, share.DiskModes());
    if y.Some? {
      TransferMeaning(x, share.id, remote, delivered, now, share.DiskModes(), y.value);
      a := Receive(author, remote.View(), y.value.left);
    } else {
      a := ReceiveCrash(author);
    }
    t := Recorded(s, author, PeerOf(share));
  }

  // ----- The disk after a scan ---------------------------------------------------------------------------

  /** `found` is what a walk of the tree finds. */
  ghost predicate Walks(found: Found, t: Tree) {
    && (forall p :: p in t <==> p in found.Paths())
    && (forall p :: p in found.files ==>
          t[p].FileNode? && t[p].size == found.files[p].size && t[p].sha == found.files[p].sha
          && found.files[p].perms == Some(t[p].mode))
    && (forall p :: p in found.dirs ==> t[p].DirNode? && found.dirs[p] == Some(t[p].mode))
    && (forall p :: p in found.links ==> t[p] == LinkNode(found.links[p]))
  }

  lemma WalkIsClosed(found: Found, t: Tree)
    requires Walks(found, t) && WellFormed(t)
    ensures found.Disjoint() && found.Closed()
  {
  }

  /** After a scan the directory mirrors the manifest: the hypothesis of the next application. */
  lemma ScanMirrors(e: Env, ticked: seq<Path>, v: Records, t: Tree)
    requires ScanResult(e, ticked, v) && Walks(e.found, t)
    ensures Mirror(t, v, {})
  {
    forall p ensures p in t <==> p in v && v[p].Live() { ResultAt(e, ticked, v, p); }
    forall p | p in t ensures Renders(t[p], v[p], false) {
      ResultAt(e, ticked, v, p);
      if p in ticked {
        var n := TickedRecord(e, ticked, v, p);
      }
    }
  }

  // ----- Exchanges in runs -----------------------------------------------------------------------------------

  /** In every state of every run, an exchange between any two peers that want at most 256 files of each
      other makes both equal to the merge of their manifests. */
  lemma RunExchangeConverges(run: seq<State>, k: nat, i: Key, j: Key)
    requires Run(run) && k < |run| && i in run[k].peers && j in run[k].peers
    requires |Wanted(run[k].peers[i].view, run[k].peers[j].view)| <= MAX_TRANSFER
    requires |Wanted(run[k].peers[j].view, run[k].peers[i].view)| <= MAX_TRANSFER
    ensures var a, b := run[k].peers[i].view, run[k].peers[j].view;
      SameState(ClientAfter(a, b), ServerAfter(a, b)) && SameState(ClientAfter(a, b), Merged(a, b))
  {
    var a, b := run[k].peers[i].view, run[k].peers[j].view;
    RunInv(run, k);
    RunMergeLaws(run, k, a, b, b);
    SmallExchangeConverges(a, b);
  }

  /** An exchange is two receive steps: the server receives the client's view, then the client receives the
      server's new one, each leaving out the wanted files it was not sent. */
  lemma ExchangeIsTwoReceives(s: State, i: Key, j: Key, server: Time, client: Time) returns (t: State, u: State)
    requires i in s.peers && j in s.peers && i != j && s.peers[i].view in s.history
    requires var a, b := s.peers[i].view, s.peers[j].view;
      && HierarchyOk(ServerAfter(a, b)) && Dominates(server, ServerAfter(a, b)) && AtMost(s.peers[j].clock, server)
      && HierarchyOk(ClientAfter(a, b)) && Dominates(client, ClientAfter(a, b)) && AtMost(s.peers[i].clock, client)
    ensures System.Next(s, t) && System.Next(t, u)
    ensures u.peers[i] == Peer(ClientAfter(s.peers[i].view, s.peers[j].view), client)
    ensures u.peers[j] == Peer(ServerAfter(s.peers[i].view, s.peers[j].view), server)
  {
    var a, b := s.peers[i].view, s.peers[j].view;
    var b1 := ServerAfter(a, b);
    var left, kept := Wanted(b, a) - Uploaded(a, b), Wanted(a, b1) - Sent(a, b, b1);
    t := Recorded(s, j, Peer(b1, server));
    assert Step(s, Receive(j, a, left), t);
    u := Recorded(t, i, Peer(ClientAfter(a, b), client));
    assert Step(t, Receive(i, b1, kept), u);
  }

  /** The views of all peers in any state of any run may be gossiped: equal versions mean equal records. */
  lemma RunGossips(run: seq<State>, k: nat)
    requires Run(run) && k < |run|
    ensures Gossip.AllCompatible(map i | i in run[k].peers :: run[k].peers[i].view)
  {
    RunInv(run, k);
    forall i, j | i in run[k].peers && j in run[k].peers
      ensures Compatible(run[k].peers[i].view, run[k].peers[j].view) {
      RunMergeLaws(run, k, run[k].peers[i].view, run[k].peers[j].view, run[k].peers[j].view);
    }
  }
}
