/** Applying a remote view to a local one: which records win, and what a full or partial
    application leaves behind. */
module Reconcile {
  import opened Bytes
  import opened Clock
  import opened Manifests
  import opened Merge

  /** The paths at which the remote record replaces the local one. */
  function Winners(l: Records, r: Records): set<Path> {
    set p | p in r && RemoteWins(Get(l, p), Some(r[p]))
  }

  /** `l` with the records of `r` installed at the paths in `d`. */
  function Overlay(l: Records, r: Records, d: set<Path>): (v: Records)
    ensures forall p :: Get(v, p) == if p in d then Get(r, p) else Get(l, p)
  {
    map p | p in (l.Keys - d) + (r.Keys * d) :: if p in d then r[p] else l[p]
  }

  predicate SameContent(a: Record, b: Record) {
    a.File? && b.File? && a.file.size == b.file.size && a.file.sha == b.file.sha
  }

  /** Winning remote files whose content the local side does not already record. */
  function Wanted(l: Records, r: Records): set<Path> {
    set p | p in Winners(l, r) && r[p].File? && !(p in l && SameContent(l[p], r[p]))
  }

  /** `pending` is a set of winning files that an application left out. */
  ghost predicate LeftOut(l: Records, r: Records, pending: set<Path>) {
    pending <= Winners(l, r) && forall p :: p in pending ==> r[p].File?
  }

  /** What an application that leaves out `pending` leaves behind. */
  function Applied(l: Records, r: Records, pending: set<Path>): (v: Records)
    ensures forall p :: Get(v, p) == if p in pending then Get(l, p) else Select(Get(l, p), Get(r, p))
  {
    assert forall p :: p in r ==> Get(r, p) == Some(r[p]);
    Overlay(l, r, Winners(l, r) - pending)
  }

  /** With nothing left out, applying is merging, although the two use different comparisons. */
  lemma AppliedAllIsMerge(l: Records, r: Records)
    ensures Applied(l, r, {}) == Merged(l, r)
  {
  }

  /** Where nothing was left out, the result is the merge; a left-out path merges to a remote file. */
  lemma AppliedAt(l: Records, r: Records, pending: set<Path>, p: Path)
    requires LeftOut(l, r, pending)
    ensures p !in pending ==> Get(Applied(l, r, pending), p) == Get(Merged(l, r), p)
    ensures p in pending ==> Get(Applied(l, r, pending), p) == Get(l, p)
    ensures p in pending ==> p in Merged(l, r) && Merged(l, r)[p] == r[p] && r[p].File?
  {
  }

  /** Every partial application of a sound merge is sound: no live record below a file, a symlink
      or a tombstone, whichever files are missing. */
  lemma PartialHierarchy(l: Records, r: Records, pending: set<Path>)
    requires LeftOut(l, r, pending)
    requires HierarchyOk(Merged(l, r))
    ensures HierarchyOk(Applied(l, r, pending))
  {
  }

  /** Parent closure survives every application whose result has a sound hierarchy. */
  lemma PartialParentClosed(l: Records, r: Records, pending: set<Path>)
    requires LeftOut(l, r, pending)
    requires ParentClosed(l) && ParentClosed(r)
    requires HierarchyOk(Applied(l, r, pending))
    ensures ParentClosed(Applied(l, r, pending))
  {
  }

  lemma PartialFields(l: Records, r: Records, pending: set<Path>)
    requires LeftOut(l, r, pending)
    requires FieldsOk(l) && FieldsOk(r)
    ensures FieldsOk(Applied(l, r, pending))
  {
  }

  /** A partial application is never larger than the merge. */
  lemma PartialSize(l: Records, r: Records, pending: set<Path>)
    requires LeftOut(l, r, pending)
    ensures Applied(l, r, pending).Keys <= Merged(l, r).Keys
    ensures |Applied(l, r, pending)| <= |Merged(l, r)|
  {
    var c, m := Applied(l, r, pending), Merged(l, r);
    forall p | p in c ensures p in m {
      assert Get(c, p) == Some(c[p]);
      AppliedAt(l, r, pending, p);
    }
    SubsetSize(c.Keys, m.Keys);
  }

  lemma {:induction false} SubsetSize<T>(a: set<T>, b: set<T>)
    requires a <= b
    ensures |a| <= |b|
  {
    assert b == a + (b - a);
    assert a !! (b - a);
  }

  /** Applying never turns a path back to an older version. */
  lemma AppliedNeverOlder(l: Records, r: Records, pending: set<Path>, p: Path)
    requires LeftOut(l, r, pending) && p in l
    ensures p in Applied(l, r, pending)
    ensures NotNewer(l[p].Version(), Applied(l, r, pending)[p].Version())
  {
  }
}
