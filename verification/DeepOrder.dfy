/** The order in which deletions and directory modes are applied: deepest paths first. */
module DeepOrder {
  import opened Bytes
  import opened Manifests

  /** The comparison used to sort deletions: deeper first, then descending path order. */
  predicate Precedes(a: Path, b: Path) {
    Depth(a) > Depth(b) || (Depth(a) == Depth(b) && Less(b, a))
  }

  function DeepInsert(p: Path, s: seq<Path>): seq<Path> {
    if s == [] || Precedes(p, s[0]) then [p] + s else [s[0]] + DeepInsert(p, s[1..])
  }

  function DeepSort(s: seq<Path>): seq<Path> {
    if s == [] then [] else DeepInsert(s[0], DeepSort(s[1..]))
  }

  ghost predicate DeepSorted(s: seq<Path>) {
    forall i, j :: 0 <= i < j < |s| ==> Precedes(s[i], s[j])
  }

  lemma PrecedesTransitive(a: Path, b: Path, c: Path)
    requires Precedes(a, b) && Precedes(b, c)
    ensures Precedes(a, c)
  {
    if Less(b, a) && Less(c, b) { LessTransitive(c, b, a); }
  }

  lemma {:induction false} DeepInsertElements(p: Path, s: seq<Path>)
    ensures forall x :: x in DeepInsert(p, s) <==> x == p || x in s
    ensures |DeepInsert(p, s)| == |s| + 1
  {
    if s != [] && !Precedes(p, s[0]) {
      DeepInsertElements(p, s[1..]);
      assert s == [s[0]] + s[1..];
    }
  }

  lemma ConsSorted(h: Path, s: seq<Path>)
    requires DeepSorted(s) && forall x :: x in s ==> Precedes(h, x)
    ensures DeepSorted([h] + s)
  {
  }

  lemma {:induction false} DeepInsertSorted(p: Path, s: seq<Path>)
    requires DeepSorted(s) && p !in s
    ensures DeepSorted(DeepInsert(p, s))
  {
    if s == [] {
    } else if Precedes(p, s[0]) {
      forall x | x in s ensures Precedes(p, x) {
        if x != s[0] { PrecedesTransitive(p, s[0], x); }
      }
      ConsSorted(p, s);
    } else {
      LessTrichotomy(p, s[0]);
      assert Precedes(s[0], p);
      DeepInsertSorted(p, s[1..]);
      DeepInsertElements(p, s[1..]);
      ConsSorted(s[0], DeepInsert(p, s[1..]));
    }
  }

  lemma {:induction false} DeepSortSorts(s: seq<Path>)
    requires forall i, j :: 0 <= i < j < |s| ==> s[i] != s[j]
    ensures DeepSorted(DeepSort(s)) && |DeepSort(s)| == |s|
    ensures forall x :: x in DeepSort(s) <==> x in s
  {
    if s != [] {
      DeepSortSorts(s[1..]);
      DeepInsertElements(s[0], DeepSort(s[1..]));
      assert s[0] !in s[1..];
      DeepInsertSorted(s[0], DeepSort(s[1..]));
      assert s == [s[0]] + s[1..];
    }
  }

  function DeepestFirst(keys: set<Path>): seq<Path> { DeepSort(Ascending(keys)) }

  ghost function First(s: seq<Path>, i: nat): set<Path>
    requires i <= |s|
  {
    Elements(s[..i])
  }

  lemma DeepestFirstOrder(keys: set<Path>)
    ensures |DeepestFirst(keys)| == |keys|
    ensures DeepSorted(DeepestFirst(keys))
    ensures forall x :: x in DeepestFirst(keys) <==> x in keys
    ensures First(DeepestFirst(keys), |keys|) == keys
  {
    var s := Ascending(keys);
    AscendingOrder(keys);
    forall i, j | 0 <= i < j < |s| ensures s[i] != s[j] { LessTrichotomy(s[i], s[j]); }
    DeepSortSorts(s);
    assert DeepestFirst(keys)[..|keys|] == DeepestFirst(keys);
  }

  lemma FirstStep(s: seq<Path>, i: nat)
    requires DeepSorted(s) && i < |s|
    ensures s[i] !in First(s, i) && First(s, i + 1) == First(s, i) + {s[i]}
  {
    assert s[..i + 1] == s[..i] + [s[i]];
    forall k | 0 <= k < i ensures s[..i][k] != s[i] {
      assert Precedes(s[k], s[i]);
      LessTrichotomy(s[k], s[i]);
    }
  }

  lemma FirstAreDeepest(s: seq<Path>, i: nat, q: Path)
    requires DeepSorted(s) && i < |s| && q in s
    ensures Depth(q) > Depth(s[i]) ==> q in First(s, i)
    ensures q in First(s, i) ==> Depth(q) >= Depth(s[i])
  {
  }
}
