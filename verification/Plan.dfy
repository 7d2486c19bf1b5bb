/** Planning a transfer: which files to request and which to offer, at most 256 of each. */
module Plan {
  import opened Bytes
  import opened Chains
  import opened Clock
  import opened Manifests
  import opened Merge
  import opened Reconcile

  const MAX_TRANSFER := 256

  /** The test the planner applies to a remote file, in terms of `select_record`. */
  predicate Downloads(local: Option<Record>, remote: Record) {
    && remote.File?
    && (var selected := Select(local, Some(remote)).value;
        selected.Version() == remote.Version() && selected.Tombstone? == remote.Tombstone?)
    && !(local.Some? && SameContent(local.value, remote))
  }

  /** The test the planner applies to a local file. */
  predicate Uploads(local: Record, remote: Option<Record>) {
    && local.File?
    && (var selected := Select(Some(local), remote).value;
        selected.Version() == local.Version() && !selected.Tombstone?)
    && !(remote.Some? && SameContent(remote.value, local))
  }

  function DownloadSet(l: Records, r: Records): set<Path> { set p | p in r && Downloads(Get(l, p), r[p]) }
  function UploadSet(l: Records, r: Records): set<Path> { set p | p in l && Uploads(l[p], Get(r, p)) }

  /** The first 256 paths of a set in path order. */
  function Batch(s: set<Path>): seq<Path> {
    Ascending(s)[..if |s| < MAX_TRANSFER then |s| else MAX_TRANSFER]
  }

  // ----- The planner's tests and the apply phase agree ------------------------------------------

  lemma DownloadIsWin(local: Option<Record>, remote: Record)
    requires local.Some? && local.value.Version() == remote.Version() ==> local.value.Synced() == remote.Synced()
    ensures Downloads(local, remote) <==>
      remote.File? && RemoteWins(local, Some(remote)) && !(local.Some? && SameContent(local.value, remote))
  {
  }

  lemma UploadIsWin(local: Record, remote: Option<Record>)
    requires remote.Some? && remote.value.Version() == local.Version() ==> local.Synced() == remote.value.Synced()
    ensures Uploads(local, remote) <==>
      local.File? && RemoteWins(remote, Some(local)) && !(remote.Some? && SameContent(remote.value, local))
  {
    if remote.Some? { OlderTrichotomy(local.Version(), remote.value.Version()); }
  }

  /** When equal versions mean equal records, the planner asks for exactly the files that the apply
      phase would otherwise leave out, and offers exactly those the peer would leave out. */
  lemma PlanMatchesApply(l: Records, r: Records)
    requires Compatible(l, r)
    ensures DownloadSet(l, r) == Wanted(l, r)
    ensures UploadSet(l, r) == Wanted(r, l)
  {
    forall p ensures p in DownloadSet(l, r) <==> p in Wanted(l, r) {
      if p in r { DownloadIsWin(Get(l, p), r[p]); }
    }
    forall p ensures p in UploadSet(l, r) <==> p in Wanted(r, l) {
      if p in l { UploadIsWin(l[p], Get(r, p)); }
    }
  }

  // ----- The planning loops -----------------------------------------------------------------------

  /** The chosen paths among the visited keys. */
  ghost function Chosen(keys: set<Path>, wanted: set<Path>, i: nat): set<Path>
    requires i <= |keys|
  {
    Visited(keys, i) * wanted
  }

  lemma ChosenStep(keys: set<Path>, wanted: set<Path>, i: nat)
    requires i < |keys| && wanted <= keys
    ensures Ascending(keys)[i] in keys
    ensures Ascending(keys)[i] !in wanted ==> Chosen(keys, wanted, i + 1) == Chosen(keys, wanted, i)
    ensures Ascending(keys)[i] in wanted ==>
      Ascending(Chosen(keys, wanted, i + 1)) == Ascending(Chosen(keys, wanted, i)) + [Ascending(keys)[i]]
  {
    var p := Ascending(keys)[i];
    VisitStep(keys, i);
    var before, after := Chosen(keys, wanted, i), Chosen(keys, wanted, i + 1);
    if p in wanted {
      assert after == before + {p};
      AppendGreatest(keys, before, i);
    } else {
      assert after == before;
    }
  }

  lemma AppendGreatest(keys: set<Path>, before: set<Path>, i: nat)
    requires i < |keys| && before <= Visited(keys, i)
    ensures Ascending(before + {Ascending(keys)[i]}) == Ascending(before) + [Ascending(keys)[i]]
  {
    var s, p := Ascending(before), Ascending(keys)[i];
    AscendingOrder(before);
    AscendingOrder(keys);
    forall x | x in before ensures Less(x, p) {
      var k :| 0 <= k < i && Ascending(keys)[..i][k] == x;
    }
    assert Ascends(s + [p]);
    forall k | k in before + {p} ensures k in s + [p] { assert k in s || k == p; }
    AscendingUnique(s + [p], before + {p});
  }

  /** Keeping the first 256 wanted paths of a list. */
  function Pick(wanted: set<Path>, order: seq<Path>): (r: seq<Path>)
    ensures |r| <= MAX_TRANSFER
  {
    if order == [] then []
    else
      var p, before := order[|order| - 1], Pick(wanted, order[..|order| - 1]);
      if p in wanted && |before| < MAX_TRANSFER then before + [p] else before
  }

  lemma PickStep(wanted: set<Path>, order: seq<Path>, i: nat)
    requires i < |order|
    ensures Pick(wanted, order[..i + 1]) ==
      var before := Pick(wanted, order[..i]);
      if order[i] in wanted && |before| < MAX_TRANSFER then before + [order[i]] else before
  {
    assert order[..i + 1][..i] == order[..i];
  }

  lemma {:induction false} PickFull(wanted: set<Path>, order: seq<Path>, i: nat)
    requires i <= |order| && |Pick(wanted, order[..i])| == MAX_TRANSFER
    ensures Pick(wanted, order) == Pick(wanted, order[..i])
    decreases |order| - i
  {
    if i == |order| {
      assert order[..i] == order;
    } else {
      PickStep(wanted, order, i);
      PickFull(wanted, order, i + 1);
    }
  }

  lemma PickNext(wanted: set<Path>, keys: set<Path>, i: nat)
    requires wanted <= keys && i < |keys|
    requires Pick(wanted, Ascending(keys)[..i]) == Batch(Chosen(keys, wanted, i))
    ensures Pick(wanted, Ascending(keys)[..i + 1]) == Batch(Chosen(keys, wanted, i + 1))
  {
    PickStep(wanted, Ascending(keys), i);
    ChosenStep(keys, wanted, i);
    if Ascending(keys)[i] in wanted {
      BatchStep(Chosen(keys, wanted, i), Chosen(keys, wanted, i + 1), Ascending(keys)[i]);
    }
  }

  ghost function Picked(wanted: set<Path>, keys: set<Path>): int -> bool {
    (i: int) => 0 <= i <= |keys| && Pick(wanted, Ascending(keys)[..i]) == Batch(Chosen(keys, wanted, i))
  }

  lemma PickStart(wanted: set<Path>, keys: set<Path>)
    ensures Picked(wanted, keys)(0)
  {
    VisitedAll(keys);
    assert Chosen(keys, wanted, 0) == {};
  }

  lemma PickPrefix(wanted: set<Path>, keys: set<Path>)
    requires wanted <= keys
    ensures Picked(wanted, keys)(|keys|)
  {
    PickStart(wanted, keys);
    var picked := Picked(wanted, keys);
    forall i | 0 <= i < |keys| && picked(i) ensures picked(i + 1) { PickNext(wanted, keys, i); }
    Climb(picked, 0, |keys|);
  }

  /** Picking along the path order gives the first 256 wanted paths. */
  lemma PickIsBatch(wanted: set<Path>, keys: set<Path>)
    requires wanted <= keys
    ensures Pick(wanted, Ascending(keys)) == Batch(wanted)
  {
    PickPrefix(wanted, keys);
    VisitedAll(keys);
    assert Ascending(keys)[..|keys|] == Ascending(keys);
    assert Chosen(keys, wanted, |keys|) == wanted;
  }

  ghost predicate DownloadTests(local: Manifest, remote: Manifest, order: seq<Path>, wanted: set<Path>) {
    forall i :: 0 <= i < |order| ==>
      && order[i] in remote.files
      && (Downloads(local.RecordAt(order[i]), File(remote.files[order[i]])) <==> order[i] in wanted)
  }

  /** The download loop with its early exit. */
  method DownloadLoop(local: Manifest, remote: Manifest, order: seq<Path>, ghost wanted: set<Path>)
    returns (paths: seq<Path>)
    requires DownloadTests(local, remote, order, wanted)
    ensures paths == Pick(wanted, order)
  {
    paths := [];
    for i := 0 to |order|
      invariant paths == Pick(wanted, order[..i]) && |paths| < MAX_TRANSFER
    {
      PickStep(wanted, order, i);
      if Downloads(local.RecordAt(order[i]), File(remote.files[order[i]])) {
        paths := paths + [order[i]];
        if |paths| == MAX_TRANSFER {
          PickFull(wanted, order, i + 1);
          return;
        }
      }
    }
    assert order[..|order|] == order;
  }

  /** The requested downloads: the first 256 in path order. */
  method PlanDownloads(local: Manifest, remote: Manifest) returns (paths: seq<Path>)
    requires remote.Disjoint()
    ensures paths == Batch(DownloadSet(local.View(), remote.View()))
  {
    var order := Ascending(remote.files.Keys);
    DownloadsAreFiles(local, remote);
    DownloadOrder(local, remote);
    PickIsBatch(DownloadSet(local.View(), remote.View()), remote.files.Keys);
    paths := DownloadLoop(local, remote, order, DownloadSet(local.View(), remote.View()));
  }

  lemma DownloadOrder(local: Manifest, remote: Manifest)
    requires remote.Disjoint()
    ensures DownloadTests(local, remote, Ascending(remote.files.Keys), DownloadSet(local.View(), remote.View()))
  {
    var order := Ascending(remote.files.Keys);
    AscendingOrder(remote.files.Keys);
    forall i | 0 <= i < |order|
      ensures order[i] in remote.files
      ensures Downloads(local.RecordAt(order[i]), File(remote.files[order[i]])) <==>
        order[i] in DownloadSet(local.View(), remote.View())
    {
      DownloadTest(local, remote, order[i]);
    }
  }

  lemma DownloadsAreFiles(local: Manifest, remote: Manifest)
    requires remote.Disjoint()
    ensures DownloadSet(local.View(), remote.View()) <= remote.files.Keys
  {
  }

  lemma DownloadTest(local: Manifest, remote: Manifest, p: Path)
    requires remote.Disjoint() && p in remote.files
    ensures Downloads(local.RecordAt(p), File(remote.files[p])) <==> p in DownloadSet(local.View(), remote.View())
  {
    ViewAt(local, p);
    ViewAt(remote, p);
  }

  ghost predicate UploadTests(local: Manifest, remote: Manifest, order: seq<Path>, wanted: set<Path>) {
    forall i :: 0 <= i < |order| ==>
      && order[i] in local.files
      && (Uploads(File(local.files[order[i]]), remote.RecordAt(order[i])) <==> order[i] in wanted)
  }

  /** How many paths of a list are wanted. */
  function Wants(wanted: set<Path>, order: seq<Path>): nat {
    if order == [] then 0
    else Wants(wanted, order[..|order| - 1]) + if order[|order| - 1] in wanted then 1 else 0
  }

  lemma {:induction false} WantsCount(wanted: set<Path>, keys: set<Path>, i: nat)
    requires wanted <= keys && i <= |keys|
    ensures Wants(wanted, Ascending(keys)[..i]) == |Chosen(keys, wanted, i)|
  {
    if i == 0 {
      VisitedAll(keys);
      assert Chosen(keys, wanted, 0) == {};
    } else {
      WantsCount(wanted, keys, i - 1);
      var order := Ascending(keys);
      assert order[..i][..i - 1] == order[..i - 1];
      ChosenStep(keys, wanted, i - 1);
      if order[i - 1] in wanted { BatchStep(Chosen(keys, wanted, i - 1), Chosen(keys, wanted, i), order[i - 1]); }
    }
  }

  /** The upload loop: it counts every wanted file and keeps the first 256. */
  method UploadLoop(local: Manifest, remote: Manifest, order: seq<Path>, ghost wanted: set<Path>)
    returns (paths: seq<Path>, pending: int)
    requires UploadTests(local, remote, order, wanted)
    ensures paths == Pick(wanted, order) && pending == Wants(wanted, order) - |paths|
  {
    paths := [];
    var requested := 0;
    for i := 0 to |order|
      invariant paths == Pick(wanted, order[..i]) && requested == Wants(wanted, order[..i])
    {
      PickStep(wanted, order, i);
      assert order[..i + 1][..i] == order[..i];
      if Uploads(File(local.files[order[i]]), remote.RecordAt(order[i])) {
        requested := requested + 1;
        if |paths| < MAX_TRANSFER {
          paths := paths + [order[i]];
        }
      }
    }
    assert order[..|order|] == order;
    pending := requested - |paths|;
  }

  /** The offered uploads and the number that must wait for a later exchange. */
  method PlanUploads(local: Manifest, remote: Manifest) returns (paths: seq<Path>, pending: int)
    requires local.Disjoint()
    ensures paths == Batch(UploadSet(local.View(), remote.View()))
    ensures pending == |UploadSet(local.View(), remote.View())| - |paths|
  {
    var keys := local.files.Keys;
    UploadsAreFiles(local, remote);
    UploadOrder(local, remote);
    ghost var wanted := UploadSet(local.View(), remote.View());
    PickIsBatch(wanted, keys);
    UploadCount(wanted, keys);
    paths, pending := UploadLoop(local, remote, Ascending(keys), wanted);
  }

  lemma UploadCount(wanted: set<Path>, keys: set<Path>)
    requires wanted <= keys
    ensures Wants(wanted, Ascending(keys)) == |wanted|
  {
    WantsCount(wanted, keys, |keys|);
    VisitedAll(keys);
    assert Ascending(keys)[..|keys|] == Ascending(keys);
    assert Chosen(keys, wanted, |keys|) == wanted;
  }

  lemma UploadOrder(local: Manifest, remote: Manifest)
    requires local.Disjoint()
    ensures UploadTests(local, remote, Ascending(local.files.Keys), UploadSet(local.View(), remote.View()))
  {
    var order := Ascending(local.files.Keys);
    AscendingOrder(local.files.Keys);
    forall i | 0 <= i < |order|
      ensures order[i] in local.files
      ensures Uploads(File(local.files[order[i]]), remote.RecordAt(order[i])) <==>
        order[i] in UploadSet(local.View(), remote.View())
    {
      UploadTest(local, remote, order[i]);
    }
  }

  lemma BatchStep(before: set<Path>, after: set<Path>, p: Path)
    requires Ascending(after) == Ascending(before) + [p]
    ensures |after| == |before| + 1
    ensures Batch(after) == if |Batch(before)| < MAX_TRANSFER then Batch(before) + [p] else Batch(before)
  {
  }

  lemma UploadsAreFiles(local: Manifest, remote: Manifest)
    requires local.Disjoint()
    ensures UploadSet(local.View(), remote.View()) <= local.files.Keys
  {
  }

  lemma UploadTest(local: Manifest, remote: Manifest, p: Path)
    requires local.Disjoint() && p in local.files
    ensures Uploads(File(local.files[p]), remote.RecordAt(p)) <==> p in UploadSet(local.View(), remote.View())
  {
    ViewAt(local, p);
    ViewAt(remote, p);
  }

  // ----- The request ----------------------------------------------------------------------------------------

  /** The requested downloads, the offered uploads, and how many more uploads must wait. */
  datatype Request = Request(downloads: seq<Path>, uploads: seq<Path>, pendingUpdates: int)

  /** How many files must wait for a later exchange. */
  function Waiting(l: Records, r: Records): int { |UploadSet(l, r)| - |Batch(UploadSet(l, r))| }

  function RequestFor(l: Records, r: Records): Request {
    Request(Batch(DownloadSet(l, r)), Batch(UploadSet(l, r)), Waiting(l, r))
  }

  /** `make_transfer_request`. */
  method MakeTransferRequest(local: Manifest, remote: Manifest) returns (request: Request)
    requires local.Disjoint() && remote.Disjoint()
    ensures request == RequestFor(local.View(), remote.View())
  {
    var downloads := PlanDownloads(local, remote);
    var uploads, pending := PlanUploads(local, remote);
    request := Request(downloads, uploads, pending);
  }
}
