/** Stable insertion sort by any strict weak order, the meaning of the library's stable sort. */
module StableSort {

  /** A strict weak order: "neither is less" is an equivalence. */
  ghost predicate WeakOrder<T(!new)>(less: (T, T) -> bool) {
    && (forall x, y :: less(x, y) ==> !less(y, x))
    && (forall x, y, z :: less(x, y) ==> less(x, z) || less(z, y))
  }

  /** Before the first greater element, hence after every equivalent one. */
  function Insert<T>(s: seq<T>, x: T, less: (T, T) -> bool): (r: seq<T>)
    ensures |r| == |s| + 1
  {
    if s == [] then [x] else if less(x, s[0]) then [x] + s else [s[0]] + Insert(s[1..], x, less)
  }

  function Sort<T>(s: seq<T>, less: (T, T) -> bool): (r: seq<T>)
    ensures |r| == |s|
  {
    if s == [] then [] else Insert(Sort(s[..|s| - 1], less), s[|s| - 1], less)
  }

  ghost predicate Sorted<T(!new)>(s: seq<T>, less: (T, T) -> bool) {
    forall i, j :: 0 <= i < j < |s| ==> !less(s[j], s[i])
  }

  function Filter<T>(s: seq<T>, keep: T -> bool): seq<T> {
    if s == [] then [] else (if keep(s[0]) then [s[0]] else []) + Filter(s[1..], keep)
  }

  /** All kept elements are equivalent. */
  ghost predicate Alike<T(!new)>(keep: T -> bool, less: (T, T) -> bool) {
    forall x, y :: keep(x) && keep(y) ==> !less(x, y)
  }

  lemma {:induction false} InsertMembers<T>(s: seq<T>, x: T, less: (T, T) -> bool, e: T)
    ensures e in Insert(s, x, less) <==> e == x || e in s
  {
    if s != [] && !less(x, s[0]) {
      InsertMembers(s[1..], x, less, e);
      assert s == [s[0]] + s[1..];
    }
  }

  /** What goes before the first element goes strictly before all. */
  lemma BeforeAll<T(!new)>(s: seq<T>, x: T, less: (T, T) -> bool, i: nat)
    requires WeakOrder(less) && Sorted(s, less) && i < |s| && less(x, s[0])
    ensures less(x, s[i]) && !less(s[i], x)
  {
    assert i == 0 || !less(s[i], s[0]);
  }

  lemma {:induction false} InsertSorts<T(!new)>(s: seq<T>, x: T, less: (T, T) -> bool)
    requires WeakOrder(less) && Sorted(s, less)
    ensures Sorted(Insert(s, x, less), less)
  {
    if s != [] {
      if less(x, s[0]) {
        forall i | 0 <= i < |s| ensures !less(s[i], x) { BeforeAll(s, x, less, i); }
      } else {
        InsertSorts(s[1..], x, less);
        var r := Insert(s[1..], x, less);
        forall j | 0 <= j < |r| ensures !less(r[j], s[0]) { InsertMembers(s[1..], x, less, r[j]); }
      }
    }
  }

  lemma FilterCons<T>(x: T, s: seq<T>, keep: T -> bool)
    ensures Filter([x] + s, keep) == (if keep(x) then [x] else []) + Filter(s, keep)
  {
    assert ([x] + s)[1..] == s;
  }

  lemma {:induction false} FilterSnoc<T>(s: seq<T>, x: T, keep: T -> bool)
    ensures Filter(s + [x], keep) == Filter(s, keep) + if keep(x) then [x] else []
  {
    if s == [] {
      FilterCons(x, [], keep);
      assert s + [x] == [x] + [];
    } else {
      FilterSnoc(s[1..], x, keep);
      FilterCons(s[0], s[1..] + [x], keep);
      assert s + [x] == [s[0]] + (s[1..] + [x]);
    }
  }

  lemma {:induction false} FilterNone<T>(s: seq<T>, keep: T -> bool)
    requires forall i :: 0 <= i < |s| ==> !keep(s[i])
    ensures Filter(s, keep) == []
  {
    if s != [] { FilterNone(s[1..], keep); }
  }

  /** Inserting keeps equivalent elements in order and puts the new one last among them. */
  lemma {:induction false} InsertStable<T(!new)>(s: seq<T>, x: T, less: (T, T) -> bool, keep: T -> bool)
    requires WeakOrder(less) && Sorted(s, less) && Alike(keep, less)
    ensures Filter(Insert(s, x, less), keep) == Filter(s, keep) + if keep(x) then [x] else []
  {
    if s != [] {
      if less(x, s[0]) {
        FilterCons(x, s, keep);
        if keep(x) {
          forall i | 0 <= i < |s| ensures !keep(s[i]) { BeforeAll(s, x, less, i); }
          FilterNone(s, keep);
        }
      } else {
        InsertStable(s[1..], x, less, keep);
        FilterCons(s[0], Insert(s[1..], x, less), keep);
      }
    }
  }

  /** The result is sorted and keeps equivalent elements in their original order. */
  lemma {:induction false} SortIsStable<T(!new)>(s: seq<T>, less: (T, T) -> bool, keep: T -> bool)
    requires WeakOrder(less) && Alike(keep, less)
    ensures Sorted(Sort(s, less), less) && Filter(Sort(s, less), keep) == Filter(s, keep)
  {
    if s != [] {
      var front, x := s[..|s| - 1], s[|s| - 1];
      SortIsStable(front, less, keep);
      InsertSorts(Sort(front, less), x, less);
      InsertStable(Sort(front, less), x, less, keep);
      FilterSnoc(front, x, keep);
      assert s == front + [x];
    }
  }

  lemma {:induction false} SortMembers<T>(s: seq<T>, less: (T, T) -> bool, e: T)
    ensures e in Sort(s, less) <==> e in s
  {
    if s != [] {
      SortMembers(s[..|s| - 1], less, e);
      InsertMembers(Sort(s[..|s| - 1], less), s[|s| - 1], less, e);
      assert s == s[..|s| - 1] + [s[|s| - 1]];
    }
  }

  lemma {:induction false} FilterMember<T>(s: seq<T>, keep: T -> bool)
    ensures Filter(s, keep) != [] <==> exists i :: 0 <= i < |s| && keep(s[i])
  {
    if s != [] {
      FilterMember(s[1..], keep);
      if !keep(s[0]) && Filter(s[1..], keep) != [] {
        var i :| 0 <= i < |s[1..]| && keep(s[1..][i]);
        assert keep(s[i + 1]);
      }
      if i :| 0 <= i < |s| && keep(s[i]) {
        if i > 0 { assert keep(s[1..][i - 1]); }
      }
    }
  }

  lemma {:induction false} InsertPosition<T>(s: seq<T>, x: T, less: (T, T) -> bool, k: nat)
    requires k <= |s| && (forall i :: 0 <= i < k ==> !less(x, s[i])) && (k < |s| ==> less(x, s[k]))
    ensures Insert(s, x, less) == s[..k] + [x] + s[k..]
  {
    if k > 0 {
      InsertPosition(s[1..], x, less, k - 1);
      assert s[..k] == [s[0]] + s[1..][..k - 1] && s[k..] == s[1..][k - 1..];
    }
  }

  /** The first `n` elements after an insertion depend only on the first `n` before it. */
  lemma {:induction false} FirstOfInsert<T>(s: seq<T>, x: T, less: (T, T) -> bool, n: nat)
    requires n <= |s|
    ensures Insert(s, x, less)[..n] == Insert(s[..n], x, less)[..n]
  {
    if n > 0 && !less(x, s[0]) {
      FirstOfInsert(s[1..], x, less, n - 1);
      assert s[..n][1..] == s[1..][..n - 1];
      assert Insert(s, x, less)[..n] == [s[0]] + Insert(s[1..], x, less)[..n - 1];
      assert Insert(s[..n], x, less)[..n] == [s[0]] + Insert(s[1..][..n - 1], x, less)[..n - 1];
    } else if n > 0 {
      assert Insert(s, x, less)[..n] == [x] + s[..n - 1];
      assert Insert(s[..n], x, less)[..n] == [x] + s[..n][..n - 1];
    }
  }
}
