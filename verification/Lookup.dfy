/** Binary search in place of a linear one, for resume offsets and known peers. */
module Lookup {
  import opened Bytes
  import opened Chunks
  import opened Manifests

  const MIN_BINARY_SEARCH := 64
  const MAX_FILES := 256

  /** The linear search. */
  function FirstIndex(names: seq<Text>, x: Text): (r: Option<nat>)
    ensures r.Some? ==> r.value < |names| && names[r.value] == x && x !in names[..r.value]
    ensures r.None? <==> x !in names
  {
    if names == [] then None
    else if names[0] == x then Some(0)
    else
      var rest := FirstIndex(names[1..], x);
      assert names == [names[0]] + names[1..];
      if rest.None? then None
      else
        assert names[..rest.value + 1] == [names[0]] + names[1..][..rest.value];
        Some(rest.value + 1)
  }

  lemma FirstIndexIs(names: seq<Text>, x: Text, k: nat)
    requires k < |names| && names[k] == x && x !in names[..k]
    ensures FirstIndex(names, x) == Some(k)
  {
  }

  lemma FoundInFront(names: seq<Text>, n: nat, x: Text, k: nat)
    requires n <= |names| && FirstIndex(names[..n], x) == Some(k)
    ensures FirstIndex(names, x) == Some(k)
  {
    assert names[..k] == names[..n][..k];
    FirstIndexIs(names, x, k);
  }

  lemma FoundInBack(names: seq<Text>, n: nat, x: Text, k: nat)
    requires n <= |names| && x !in names[..n] && FirstIndex(names[n..], x) == Some(k)
    ensures FirstIndex(names, x) == Some(n + k)
  {
    assert names[..n + k] == names[..n] + names[n..][..k];
    FirstIndexIs(names, x, n + k);
  }

  /** Searching a list part by part. */
  lemma SearchSplit(names: seq<Text>, n: nat, x: Text)
    requires n <= |names|
    ensures FirstIndex(names, x) ==
      if FirstIndex(names[..n], x).Some? then FirstIndex(names[..n], x)
      else match FirstIndex(names[n..], x) case None => None case Some(k) => Some(n + k)
  {
    var front, back := FirstIndex(names[..n], x), FirstIndex(names[n..], x);
    if front.Some? {
      FoundInFront(names, n, x, front.value);
    } else if back.Some? {
      FoundInBack(names, n, x, back.value);
    } else {
      assert names == names[..n] + names[n..];
    }
  }

  lemma UniqueIndex(names: seq<Text>, x: Text, i: nat)
    requires Ascends(names) && i < |names| && names[i] == x
    ensures FirstIndex(names, x) == Some(i)
  {
    var k := FirstIndex(names, x).value;
    LessTrichotomy(names[i], names[k]);
  }

  /** Everything before `low` is smaller and everything from `high` on is larger. */
  ghost predicate Narrowed(names: seq<Text>, x: Text, low: nat, high: nat) {
    && low <= high <= |names|
    && (forall i :: 0 <= i < low ==> Less(names[i], x)) && (forall i :: high <= i < |names| ==> Less(x, names[i]))
  }

  lemma NarrowedEmpty(names: seq<Text>, x: Text, low: nat)
    requires Narrowed(names, x, low, low)
    ensures FirstIndex(names, x).None?
  {
    forall i | 0 <= i < |names| ensures names[i] != x {
      LessTrichotomy(names[i], x);
      if i < low { assert Less(names[i], x); } else { assert Less(x, names[i]); }
    }
  }

  lemma Raise(names: seq<Text>, x: Text, low: nat, high: nat, middle: nat)
    requires Ascends(names) && Narrowed(names, x, low, high) && low <= middle < high && Less(names[middle], x)
    ensures Narrowed(names, x, middle + 1, high)
  {
    forall i | 0 <= i < middle ensures Less(names[i], x) { LessTransitive(names[i], names[middle], x); }
  }

  lemma Lower(names: seq<Text>, x: Text, low: nat, high: nat, middle: nat)
    requires Ascends(names) && Narrowed(names, x, low, high) && low <= middle < high && Less(x, names[middle])
    ensures Narrowed(names, x, low, middle)
  {
    forall i | middle < i < |names| ensures Less(x, names[i]) { LessTransitive(x, names[middle], names[i]); }
  }

  /** On strictly ascending names binary search finds what linear search finds. */
  method BinarySearch(names: seq<Text>, x: Text) returns (r: Option<nat>)
    requires Ascends(names)
    ensures r == FirstIndex(names, x)
  {
    var low: nat, high: nat := 0, |names|;
    while low < high
      invariant Narrowed(names, x, low, high)
      decreases high - low
    {
      var middle := (low + high) / 2;
      LessTrichotomy(names[middle], x);
      if names[middle] == x {
        UniqueIndex(names, x, middle);
        return Some(middle);
      } else if Less(names[middle], x) {
        Raise(names, x, low, high, middle);
        low := middle + 1;
      } else {
        Lower(names, x, low, high, middle);
        high := middle;
      }
    }
    NarrowedEmpty(names, x, low);
    r := None;
  }

  // ----- Resume offsets ------------------------------------------------------------------------------------

  function PathsOf(files: seq<TransferFile>): (r: seq<Text>)
    ensures |r| == |files| && forall i :: 0 <= i < |files| ==> r[i] == files[i].path
  {
    seq(|files|, i requires 0 <= i < |files| => files[i].path)
  }

  ghost predicate DistinctPaths(files: seq<TransferFile>) {
    forall i, j :: 0 <= i < j < |files| ==> files[i].path != files[j].path
  }

  /** `validate_transfer_file_shapes`. */
  predicate ShapesOk(files: seq<TransferFile>) {
    && |files| <= MAX_FILES
    && (forall i :: 0 <= i < |files| ==>
          ValidPath(files[i].path) && ValidSha(files[i].sha) && files[i].offset <= files[i].size)
    && (forall i, j :: 0 <= i < j < |files| ==> files[i].path != files[j].path)
  }

  /** `validate_path_list`. */
  predicate PathsOk(paths: seq<Path>) {
    && |paths| <= MAX_FILES && (forall i :: 0 <= i < |paths| ==> ValidPath(paths[i]))
    && (forall i, j :: 0 <= i < j < |paths| ==> paths[i] != paths[j])
  }

  predicate InOrder(files: seq<TransferFile>) {
    forall i :: 0 <= i < |files| - 1 ==> files[i].path == files[i + 1].path || Less(files[i].path, files[i + 1].path)
  }

  /** What the sender offers for a file: it resumes only a partial file of the same content. */
  function Offered(p: Path, e: FileEntry, resumes: seq<TransferFile>): TransferFile {
    var k := FirstIndex(PathsOf(resumes), p);
    TransferFile(p, e.sha, e.size,
                 if k.Some? && resumes[k.value].sha == e.sha && resumes[k.value].size == e.size
                 then (if resumes[k.value].offset < e.size then resumes[k.value].offset else e.size) else 0)
  }

  lemma {:induction false} StepsAscend(names: seq<Text>, i: nat, j: nat)
    requires i < j < |names| && forall k :: 0 <= k < |names| - 1 ==> Less(names[k], names[k + 1])
    ensures Less(names[i], names[j])
  {
    if i < j - 1 {
      StepsAscend(names, i, j - 1);
      LessTransitive(names[i], names[j - 1], names[j]);
    }
  }

  lemma SortedDistinctAscends(files: seq<TransferFile>)
    requires InOrder(files) && DistinctPaths(files)
    ensures Ascends(PathsOf(files))
  {
    var names := PathsOf(files);
    assert forall k :: 0 <= k < |names| - 1 ==> Less(names[k], names[k + 1]);
    forall i, j | 0 <= i < j < |names| ensures Less(names[i], names[j]) { StepsAscend(names, i, j); }
  }

  /** The lookup of one resume record, by binary search when `fast`. */
  method FindResume(resumes: seq<TransferFile>, p: Path, fast: bool) returns (r: Option<nat>)
    requires fast ==> InOrder(resumes) && DistinctPaths(resumes)
    ensures r == FirstIndex(PathsOf(resumes), p)
  {
    if fast {
      SortedDistinctAscends(resumes);
      r := BinarySearch(PathsOf(resumes), p);
    } else {
      var names := PathsOf(resumes);
      var i := 0;
      while i < |names| && names[i] != p
        invariant 0 <= i <= |names| && p !in names[..i]
      {
        i := i + 1;
      }
      r := if i < |names| then Some(i) else None;
    }
  }

  lemma OffersOnce(files: map<Path, FileEntry>, paths: seq<Path>, i: nat)
    requires i < |paths|
    ensures (set p | p in paths[..i + 1] && p in files) ==
      (set p | p in paths[..i] && p in files) + (if paths[i] in files then {paths[i]} else {})
  {
  }

  /** `build_transfer_files`: the request is validated, and then the offers are those of the linear
      search, whichever search was used. */
  method BuildTransferFiles(files: map<Path, FileEntry>, paths: seq<Path>, resumes: seq<TransferFile>)
    returns (ok: bool, offers: map<Path, TransferFile>)
    ensures ok <==> PathsOk(paths) && ShapesOk(resumes)
    ensures ok ==> offers.Keys == set p | p in paths && p in files
    ensures ok ==> forall p :: p in offers ==> offers[p] == Offered(p, files[p], resumes)
  {
    offers := map[];
    if !PathsOk(paths) || !ShapesOk(resumes) { return false, offers; }
    var fast := |paths| >= MIN_BINARY_SEARCH && |resumes| >= MIN_BINARY_SEARCH && InOrder(resumes);
    for i := 0 to |paths|
      invariant offers.Keys == set p | p in paths[..i] && p in files
      invariant forall p :: p in offers ==> offers[p] == Offered(p, files[p], resumes)
    {
      var p := paths[i];
      OffersOnce(files, paths, i);
      if p in files {
        var e := files[p];
        var k := FindResume(resumes, p, fast);
        var offset := 0;
        if k.Some? && resumes[k.value].sha == e.sha && resumes[k.value].size == e.size {
          offset := if resumes[k.value].offset < e.size then resumes[k.value].offset else e.size;
        }
        offers := offers[p := TransferFile(p, e.sha, e.size, offset)];
      }
    }
    assert paths[..|paths|] == paths;
    ok := true;
  }
}
