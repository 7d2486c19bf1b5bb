/** Unpadded base64url, section 5 of RFC 4648. */
module Base64 {
  import opened Bytes

  type Sextet = x: nat | x < 64

  function Letter(d: Sextet): u8 {
    if d < 26 then (65 + d) as u8
    else if d < 52 then (71 + d) as u8
    else if d < 62 then (d - 4) as u8
    else if d == 62 then 45 else 95
  }

  predicate IsLetter(c: u8) { 65 <= c <= 90 || 97 <= c <= 122 || 48 <= c <= 57 || c == 45 || c == 95 }

  function Value(c: u8): Sextet {
    if 65 <= c <= 90 then c as nat - 65
    else if 97 <= c <= 122 then c as nat - 71
    else if 48 <= c <= 57 then c as nat + 4
    else if c == 45 then 62 else 63
  }

  lemma LetterRoundTrip(d: Sextet)
    ensures IsLetter(Letter(d)) && Value(Letter(d)) == d
  {
  }

  function Sextet1(a: u8): Sextet { a as nat / 4 }
  function Sextet2(a: u8, b: u8): Sextet { a as nat % 4 * 16 + b as nat / 16 }
  function Sextet3(b: u8, c: u8): Sextet { b as nat % 16 * 4 + c as nat / 64 }
  function Sextet4(c: u8): Sextet { c as nat % 64 }

  /** Three bytes make four letters; one or two remaining bytes make two or three. */
  function Encode(b: Text): (r: Text)
    ensures |r| == (4 * |b| + 2) / 3
  {
    if |b| == 0 then []
    else if |b| == 1 then [Letter(Sextet1(b[0])), Letter(Sextet2(b[0], 0))]
    else if |b| == 2 then [Letter(Sextet1(b[0])), Letter(Sextet2(b[0], b[1])), Letter(Sextet3(b[1], 0))]
    else
      [Letter(Sextet1(b[0])), Letter(Sextet2(b[0], b[1])), Letter(Sextet3(b[1], b[2])), Letter(Sextet4(b[2]))]
      + Encode(b[3..])
  }

  function Byte1(x: Sextet, y: Sextet): u8 { (x * 4 + y / 16) as u8 }
  function Byte2(y: Sextet, z: Sextet): u8 { (y % 16 * 16 + z / 4) as u8 }
  function Byte3(z: Sextet, w: Sextet): u8 { (z % 4 * 64 + w) as u8 }

  /** `None` for a foreign letter, an impossible length or stray trailing bits. */
  function Decode(t: Text): Option<Text> {
    if exists i :: 0 <= i < |t| && !IsLetter(t[i]) then None else Join(t)
  }

  function Join(t: Text): Option<Text> {
    if |t| == 0 then Some([])
    else if |t| == 1 then None
    else if |t| == 2 then Join2(Value(t[0]), Value(t[1]))
    else if |t| == 3 then Join3(Value(t[0]), Value(t[1]), Value(t[2]))
    else
      var rest := Join(t[4..]);
      if rest.None? then None else Some(Join4(Value(t[0]), Value(t[1]), Value(t[2]), Value(t[3])) + rest.value)
  }

  function Join2(x: Sextet, y: Sextet): Option<Text> { if y % 16 != 0 then None else Some([Byte1(x, y)]) }

  function Join3(x: Sextet, y: Sextet, z: Sextet): Option<Text> {
    if z % 4 != 0 then None else Some([Byte1(x, y), Byte2(y, z)])
  }

  function Join4(x: Sextet, y: Sextet, z: Sextet, w: Sextet): Text { [Byte1(x, y), Byte2(y, z), Byte3(z, w)] }

  lemma Split16(x: nat, y: nat)
    requires y < 16
    ensures (x * 16 + y) / 16 == x && (x * 16 + y) % 16 == y
  {
  }

  lemma Split4(x: nat, y: nat)
    requires y < 4
    ensures (x * 4 + y) / 4 == x && (x * 4 + y) % 4 == y
  {
  }

  lemma FirstByte(a: u8, b: u8)
    ensures Byte1(Sextet1(a), Sextet2(a, b)) == a
  {
    Split16(a as nat % 4, b as nat / 16);
  }

  lemma SecondByte(a: u8, b: u8, c: u8)
    ensures Byte2(Sextet2(a, b), Sextet3(b, c)) == b
  {
    Split16(a as nat % 4, b as nat / 16);
    Split4(b as nat % 16, c as nat / 64);
  }

  lemma ThirdByte(b: u8, c: u8)
    ensures Byte3(Sextet3(b, c), Sextet4(c)) == c
  {
    Split4(b as nat % 16, c as nat / 64);
  }

  lemma SpareBits(a: u8)
    ensures Sextet2(a, 0) % 16 == 0 && Sextet3(a, 0) % 4 == 0
  {
    Split16(a as nat % 4, 0);
    Split4(a as nat % 16, 0);
  }

  lemma LettersRoundTrip(a: u8, b: u8, c: u8)
    ensures IsLetter(Letter(Sextet1(a))) && Value(Letter(Sextet1(a))) == Sextet1(a)
    ensures IsLetter(Letter(Sextet2(a, b))) && Value(Letter(Sextet2(a, b))) == Sextet2(a, b)
    ensures IsLetter(Letter(Sextet3(b, c))) && Value(Letter(Sextet3(b, c))) == Sextet3(b, c)
    ensures IsLetter(Letter(Sextet4(c))) && Value(Letter(Sextet4(c))) == Sextet4(c)
  {
    LetterRoundTrip(Sextet1(a));
    LetterRoundTrip(Sextet2(a, b));
    LetterRoundTrip(Sextet3(b, c));
    LetterRoundTrip(Sextet4(c));
  }

  lemma Joined2(a: u8)
    ensures Join2(Sextet1(a), Sextet2(a, 0)) == Some([a])
  {
    FirstByte(a, 0);
    SpareBits(a);
  }

  lemma Joined3(a: u8, b: u8)
    ensures Join3(Sextet1(a), Sextet2(a, b), Sextet3(b, 0)) == Some([a, b])
  {
    FirstByte(a, b);
    SecondByte(a, b, 0);
    SpareBits(b);
  }

  lemma Joined4(a: u8, b: u8, c: u8)
    ensures Join4(Sextet1(a), Sextet2(a, b), Sextet3(b, c), Sextet4(c)) == [a, b, c]
  {
    FirstByte(a, b);
    SecondByte(a, b, c);
    ThirdByte(b, c);
  }

  lemma JoinLetters(p: u8, q: u8, r: u8, s: u8, rest: Text)
    ensures Join([p, q]) == Join2(Value(p), Value(q))
    ensures Join([p, q, r]) == Join3(Value(p), Value(q), Value(r))
    ensures Join([p, q, r, s] + rest) ==
      if Join(rest).None? then None else Some(Join4(Value(p), Value(q), Value(r), Value(s)) + Join(rest).value)
  {
    assert ([p, q, r, s] + rest)[4..] == rest;
  }

  lemma EncodeCons(a: u8, b: u8, c: u8, rest: Text)
    ensures Encode([a, b, c] + rest) ==
      [Letter(Sextet1(a)), Letter(Sextet2(a, b)), Letter(Sextet3(b, c)), Letter(Sextet4(c))] + Encode(rest)
  {
    assert ([a, b, c] + rest)[3..] == rest;
  }

  lemma RoundTrip1(a: u8)
    ensures Join(Encode([a])) == Some([a])
  {
    LettersRoundTrip(a, 0, 0);
    Joined2(a);
    JoinLetters(Letter(Sextet1(a)), Letter(Sextet2(a, 0)), 0, 0, []);
  }

  lemma RoundTrip2(a: u8, b: u8)
    ensures Join(Encode([a, b])) == Some([a, b])
  {
    var p, q, r := Letter(Sextet1(a)), Letter(Sextet2(a, b)), Letter(Sextet3(b, 0));
    assert Encode([a, b]) == [p, q, r];
    JoinThree(p, q, r, a, b) by { LettersRoundTrip(a, b, 0); }
  }

  lemma JoinThree(p: u8, q: u8, r: u8, a: u8, b: u8)
    requires Value(p) == Sextet1(a) && Value(q) == Sextet2(a, b) && Value(r) == Sextet3(b, 0)
    ensures Join([p, q, r]) == Some([a, b])
  {
    Joined3(a, b);
    JoinLetters(p, q, r, 0, []);
  }

  lemma RoundTrip3(a: u8, b: u8, c: u8, rest: Text)
    requires Join(Encode(rest)) == Some(rest)
    ensures Join(Encode([a, b, c] + rest)) == Some([a, b, c] + rest)
  {
    EncodeCons(a, b, c, rest);
    LettersRoundTrip(a, b, c);
    Joined4(a, b, c);
    JoinLetters(Letter(Sextet1(a)), Letter(Sextet2(a, b)), Letter(Sextet3(b, c)), Letter(Sextet4(c)), Encode(rest));
  }

  lemma {:induction false} JoinEncoded(b: Text)
    ensures Join(Encode(b)) == Some(b)
  {
    if |b| == 1 {
      assert b == [b[0]];
      RoundTrip1(b[0]);
    } else if |b| == 2 {
      assert b == [b[0], b[1]];
      RoundTrip2(b[0], b[1]);
    } else if |b| > 2 {
      assert b == [b[0], b[1], b[2]] + b[3..];
      JoinEncoded(b[3..]);
      RoundTrip3(b[0], b[1], b[2], b[3..]);
    }
  }

  /** Decoding undoes encoding. */
  lemma RoundTrip(b: Text)
    ensures Decode(Encode(b)) == Some(b)
  {
    EncodedLetters(b);
    JoinEncoded(b);
  }

  /** An encoding uses only the 64 letters. */
  lemma {:induction false} EncodedLetters(b: Text)
    ensures forall i :: 0 <= i < |Encode(b)| ==> IsLetter(Encode(b)[i])
  {
    if |b| >= 3 {
      EncodedLetters(b[3..]);
      LettersRoundTrip(b[0], b[1], b[2]);
    } else if |b| > 0 {
      LettersRoundTrip(b[0], if |b| > 1 then b[1] else 0, 0);
    }
  }
}
