/** Fixed-width integers, byte strings, their lexicographic order, and the ascending
    enumeration of a finite set of byte strings (the iteration order of a B-tree map). */
module Bytes {

  datatype Option<+T> = None | Some(value: T)

  newtype u8 = x: int | 0 <= x < 0x100
  type u16 = x: nat | x < 0x1_0000
  type u32 = x: nat | x < 0x1_0000_0000
  type u64 = x: nat | x < 0x1_0000_0000_0000_0000

  const U32_MAX := 0xFFFF_FFFF

  /** UTF-8 text or raw bytes; the program compares both bytewise. */
  type Text = seq<u8>

  /** A 32-byte identifier: a share ID, a share secret or an endpoint ID. */
  type Key = b: seq<u8> | |b| == 32 witness seq(32, _ => 0)

  const ZERO_KEY: Key := seq(32, _ => 0)

  // ----- Lexicographic order ---------------------------------------------------------

  predicate Less(a: Text, b: Text) {
    b != [] && (a == [] || a[0] < b[0] || (a[0] == b[0] && Less(a[1..], b[1..])))
  }

  lemma {:induction false} LessTransitive(a: Text, b: Text, c: Text)
    requires Less(a, b) && Less(b, c)
    ensures Less(a, c)
  {
    if a != [] && a[0] == b[0] == c[0] {
      LessTransitive(a[1..], b[1..], c[1..]);
    }
  }

  /** Exactly one of `a < b`, `a == b`, `b < a` holds. */
  lemma {:induction false} LessTrichotomy(a: Text, b: Text)
    ensures Less(a, b) || Less(b, a) <==> a != b
    ensures !(Less(a, b) && Less(b, a))
  {
    if a != [] && b != [] && a[0] == b[0] {
      LessTrichotomy(a[1..], b[1..]);
      assert a == [a[0]] + a[1..] && b == [b[0]] + b[1..];
    }
  }

  lemma {:induction false} PrefixIsLess(a: Text, b: Text)
    requires |a| < |b| && b[..|a|] == a
    ensures Less(a, b)
  {
    if a != [] {
      assert a[0] == b[..|a|][0] == b[0];
      assert b[1..][..|a[1..]|] == a[1..];
      PrefixIsLess(a[1..], b[1..]);
    }
  }

  // ----- Ascending sequences ---------------------------------------------------------

  ghost predicate Ascends(s: seq<Text>) {
    forall i, j :: 0 <= i < j < |s| ==> Less(s[i], s[j])
  }

  ghost predicate Enumerates(s: seq<Text>, keys: set<Text>) {
    && (forall i :: 0 <= i < |s| ==> s[i] in keys)
    && (forall k :: k in keys ==> k in s)
  }

  predicate IsLeast(m: Text, s: set<Text>) {
    m in s && forall q :: q in s ==> q == m || Less(m, q)
  }

  lemma {:induction false} LeastExists(s: set<Text>)
    requires s != {}
    ensures exists m :: IsLeast(m, s)
  {
    var x :| x in s;
    if s == {x} {
      assert IsLeast(x, s);
    } else {
      var rest := s - {x};
      assert s == rest + {x};
      LeastExists(rest);
      var m :| IsLeast(m, rest);
      LessTrichotomy(x, m);
      if Less(x, m) {
        forall q | q in s ensures q == x || Less(x, q) {
          if q != x && q != m { LessTransitive(x, m, q); }
        }
        assert IsLeast(x, s);
      } else {
        assert IsLeast(m, s);
      }
    }
  }

  lemma LeastUnique(s: set<Text>, a: Text, b: Text)
    requires IsLeast(a, s) && IsLeast(b, s)
    ensures a == b
  {
    LessTrichotomy(a, b);
  }

  /** The keys of a B-tree set or map in iteration order. */
  function Ascending(s: set<Text>): (r: seq<Text>)
    ensures |r| == |s|
  {
    if s == {} then []
    else
      LeastExists(s);
      assert forall a, b :: IsLeast(a, s) && IsLeast(b, s) ==> a == b by {
        forall a, b | IsLeast(a, s) && IsLeast(b, s) ensures a == b { LeastUnique(s, a, b); }
      }
      var m :| m in s && IsLeast(m, s);
      [m] + Ascending(s - {m})
  }

  /** `Ascending` lists exactly the given keys, in strictly increasing order. */
  lemma {:induction false} AscendingOrder(s: set<Text>)
    ensures Ascends(Ascending(s)) && Enumerates(Ascending(s), s)
    decreases |s|
  {
    if s != {} {
      LeastExists(s);
      var m :| m in s && IsLeast(m, s) && Ascending(s) == [m] + Ascending(s - {m});
      AscendingOrder(s - {m});
      LeastFirst(m, Ascending(s - {m}), s);
    }
  }

  lemma LeastFirst(m: Text, rest: seq<Text>, keys: set<Text>)
    requires IsLeast(m, keys) && Ascends(rest) && Enumerates(rest, keys - {m})
    ensures Ascends([m] + rest) && Enumerates([m] + rest, keys)
  {
  }

  /** An ascending enumeration of a set is unique. */
  lemma {:induction false} AscendingUnique(s: seq<Text>, keys: set<Text>)
    requires Ascends(s) && Enumerates(s, keys)
    ensures s == Ascending(keys)
    decreases |s|
  {
    if s == [] {
      assert keys == {} by { assert forall k :: k in keys ==> k in s; }
    } else {
      assert s[0] in keys;
      LeastExists(keys);
      var m :| m in keys && IsLeast(m, keys) && Ascending(keys) == [m] + Ascending(keys - {m});
      FirstIsLeast(s, keys);
      LeastUnique(keys, s[0], m);
      RestEnumerates(s, keys);
      AscendingUnique(s[1..], keys - {m});
      assert s == [s[0]] + s[1..];
    }
  }

  lemma FirstIsLeast(s: seq<Text>, keys: set<Text>)
    requires Ascends(s) && Enumerates(s, keys) && s != []
    ensures IsLeast(s[0], keys)
  {
  }

  lemma RestEnumerates(s: seq<Text>, keys: set<Text>)
    requires Ascends(s) && Enumerates(s, keys) && s != []
    ensures Ascends(s[1..]) && Enumerates(s[1..], keys - {s[0]})
  {
    forall i | 0 <= i < |s[1..]| ensures s[1..][i] in keys - {s[0]} {
      LessTrichotomy(s[0], s[i + 1]);
    }
    forall k | k in keys - {s[0]} ensures k in s[1..] {
      assert k in s;
      var i :| 0 <= i < |s| && s[i] == k;
      assert s[1..][i - 1] == k;
    }
  }

  /** The elements of a sequence, as a set. */
  function Elements(s: seq<Text>): set<Text> {
    set x | x in s
  }

  /** The first `i` keys in iteration order, as a set: what a loop has visited. */
  function Visited(keys: set<Text>, i: nat): set<Text>
    requires i <= |keys|
  {
    Elements(Ascending(keys)[..i])
  }

  lemma VisitedWithin(keys: set<Text>, i: nat)
    requires i <= |keys|
    ensures Visited(keys, i) <= keys
  {
    AscendingOrder(keys);
  }

  lemma LesserVisited(s: seq<Text>, keys: set<Text>, i: nat, q: Text)
    requires Ascends(s) && Enumerates(s, keys) && i < |s| && q in keys && Less(q, s[i])
    ensures q in s[..i]
  {
    assert q in s;
    var k :| 0 <= k < |s| && s[k] == q;
    LessTrichotomy(s[k], s[i]);
    assert s[..i][k] == q;
  }

  lemma ElementsGrow(s: seq<Text>, i: nat)
    requires i < |s|
    ensures Elements(s[..i + 1]) == Elements(s[..i]) + {s[i]}
  {
    assert s[..i + 1] == s[..i] + [s[i]];
  }

  lemma UnvisitedNext(s: seq<Text>, i: nat)
    requires Ascends(s) && i < |s|
    ensures s[i] !in s[..i]
  {
    forall k | 0 <= k < i ensures s[..i][k] != s[i] { LessTrichotomy(s[k], s[i]); }
  }

  lemma LesserAreVisited(keys: set<Text>, i: nat)
    requires i < |keys|
    ensures forall q :: q in keys && Less(q, Ascending(keys)[i]) ==> q in Visited(keys, i)
  {
    AscendingOrder(keys);
    forall q | q in keys && Less(q, Ascending(keys)[i]) ensures q in Visited(keys, i) {
      LesserVisited(Ascending(keys), keys, i, q);
    }
  }

  /** One iteration visits one further key of the set. */
  lemma VisitStep(keys: set<Text>, i: nat)
    requires i < |keys|
    ensures Ascending(keys)[i] in keys && Ascending(keys)[i] !in Visited(keys, i)
    ensures Visited(keys, i) <= keys
    ensures Visited(keys, i + 1) == Visited(keys, i) + {Ascending(keys)[i]}
    ensures forall q :: q in keys && Less(q, Ascending(keys)[i]) ==> q in Visited(keys, i)
  {
    LesserAreVisited(keys, i);
    VisitedWithin(keys, i);
    ElementsGrow(Ascending(keys), i);
    assert Ascending(keys)[i] in keys && Ascending(keys)[i] !in Visited(keys, i) by {
      AscendingOrder(keys);
      UnvisitedNext(Ascending(keys), i);
    }
  }

  /** A finished loop has visited every key. */
  lemma VisitedAll(keys: set<Text>)
    ensures Visited(keys, 0) == {} && Visited(keys, |keys|) == keys
  {
    var s := Ascending(keys);
    AscendingOrder(keys);
    assert s[..|keys|] == s;
  }

  // ----- Big-endian integers ---------------------------------------------------------

  function Pow256(n: nat): (r: nat)
    ensures r > 0
  {
    if n == 0 then 1 else 256 * Pow256(n - 1)
  }

  /** The `width`-byte big-endian form of `value` (`to_be_bytes`). */
  function BigEndian(width: nat, value: nat): (r: Text)
    ensures |r| == width
  {
    if width == 0 then []
    else BigEndian(width - 1, value / 256) + [(value % 256) as u8]
  }

  function FromBigEndian(b: Text): (r: nat)
  {
    if b == [] then 0 else 256 * FromBigEndian(b[..|b| - 1]) + b[|b| - 1] as nat
  }

  /** `from_be_bytes` undoes `to_be_bytes` on every value that fits the width. */
  lemma {:induction false} BigEndianRoundTrip(width: nat, value: nat)
    requires value < Pow256(width)
    ensures FromBigEndian(BigEndian(width, value)) == value
  {
    if width > 0 {
      BigEndianRoundTrip(width - 1, value / 256);
      var b := BigEndian(width, value);
      assert b[..|b| - 1] == BigEndian(width - 1, value / 256);
    }
  }

  lemma {:induction false} FromBigEndianRoundTrip(b: Text)
    ensures FromBigEndian(b) < Pow256(|b|)
    ensures BigEndian(|b|, FromBigEndian(b)) == b
  {
    if b != [] {
      var front := b[..|b| - 1];
      FromBigEndianRoundTrip(front);
      assert b == front + [b[|b| - 1]];
      var v := FromBigEndian(b);
      assert v / 256 == FromBigEndian(front) && v % 256 == b[|b| - 1] as nat;
    }
  }

  lemma PowersOf256()
    ensures Pow256(2) == 0x1_0000
    ensures Pow256(4) == 0x1_0000_0000
    ensures Pow256(8) == 0x1_0000_0000_0000_0000
  {
  }
}
