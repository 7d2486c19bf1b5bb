/** Share tickets: a checksummed binary form in base64url text. */
module Tickets {
  import opened Bytes
  import opened Base64

  /** `syncbox1:` */
  const PREFIX: Text := [115, 121, 110, 99, 98, 111, 120, 49, 58]
  /** `SBTK` */
  const MAGIC: Text := [83, 66, 84, 75]
  const VERSION: u16 := 1
  const MAX_PEERS := 64
  const MAX_TEXT := 4096

  type Checksum = b: seq<u8> | |b| == 16 witness seq(16, _ => 0)

  datatype Ticket = Ticket(version: u16, share: Key, secret: Key, peers: seq<Key>)

  function HexDigit(d: nat): u8
    requires d < 16
  {
    if d < 10 then (48 + d) as u8 else (87 + d) as u8
  }

  /** The printed form of an endpoint ID, by which peers are sorted. */
  function Hex(b: Text): Text {
    if b == [] then [] else [HexDigit(b[0] as nat / 16), HexDigit(b[0] as nat % 16)] + Hex(b[1..])
  }

  /** Sorting by the printed form is sorting by the bytes. */
  lemma {:induction false} HexOrder(a: Text, b: Text)
    requires |a| == |b|
    ensures Less(Hex(a), Hex(b)) <==> Less(a, b)
  {
    if a != [] {
      var x, y := Hex(a), Hex(b);
      assert x[1..][1..] == Hex(a[1..]) && y[1..][1..] == Hex(b[1..]);
      HexOrder(a[1..], b[1..]);
    }
  }

  ghost predicate SortedPeers(peers: seq<Key>) {
    forall i :: 0 <= i < |peers| - 1 ==> Less(Hex(peers[i]), Hex(peers[i + 1]))
  }

  /** What the type of a ticket and `validate` guarantee; `endpoint` recognises endpoint IDs. */
  ghost predicate Valid(t: Ticket, endpoint: Key -> bool) {
    && t.version == VERSION && |t.peers| <= MAX_PEERS && SortedPeers(t.peers)
    && forall i :: 0 <= i < |t.peers| ==> endpoint(t.peers[i])
  }

  /** `validate` on a list of endpoint IDs: one pass that remembers the previous printed form. */
  method Validate(t: Ticket) returns (ok: bool)
    ensures ok <==> t.version == VERSION && |t.peers| <= MAX_PEERS && SortedPeers(t.peers)
  {
    if t.version != VERSION || |t.peers| > MAX_PEERS { return false; }
    var previous: Option<Text> := None;
    for i := 0 to |t.peers|
      invariant previous == if i == 0 then None else Some(Hex(t.peers[i - 1]))
      invariant forall j :: 0 <= j < i - 1 ==> Less(Hex(t.peers[j]), Hex(t.peers[j + 1]))
    {
      var value := Hex(t.peers[i]);
      if previous.Some? && !Less(previous.value, value) { return false; }
      previous := Some(value);
    }
    ok := true;
  }

  // ----- The binary form ---------------------------------------------------------------------------------

  function Flat(peers: seq<Key>): (r: Text)
    ensures |r| == 32 * |peers|
  {
    if peers == [] then [] else Flat(peers[..|peers| - 1]) + peers[|peers| - 1]
  }

  function Header(version: u16, count: nat): (r: Text)
    ensures |r| == 8
  {
    MAGIC + BigEndian(2, version) + BigEndian(2, count)
  }

  function Content(t: Ticket): (r: Text)
    ensures |r| == 72 + 32 * |t.peers|
  {
    Header(t.version, |t.peers|) + t.share + t.secret + Flat(t.peers)
  }

  function Sealed(t: Ticket, checksum: Text -> Checksum): (r: Text)
    ensures |r| == 88 + 32 * |t.peers|
  {
    Content(t) + checksum(Content(t))
  }

  function TextOf(t: Ticket, checksum: Text -> Checksum): Text { PREFIX + Encode(Sealed(t, checksum)) }

  /** A valid ticket never exceeds the limit on its text. */
  lemma LengthBound(t: Ticket, checksum: Text -> Checksum)
    requires |t.peers| <= MAX_PEERS
    ensures |TextOf(t, checksum)| <= 2857 < MAX_TEXT
  {
  }

  function PeerAt(c: Text, i: nat): Key
    requires 72 + 32 * i + 32 <= |c|
  {
    c[72 + 32 * i..72 + 32 * i + 32]
  }

  function PeersOf(c: Text, n: nat): (r: seq<Key>)
    requires |c| == 72 + 32 * n
    ensures |r| == n && forall i :: 0 <= i < n ==> r[i] == PeerAt(c, i)
  {
    seq(n, i requires 0 <= i < n => PeerAt(c, i))
  }

  /** Reading the binary form without its checksum. */
  ghost function ReadContent(c: Text, endpoint: Key -> bool): Option<Ticket> {
    if |c| < 72 || c[..4] != MAGIC || FromBigEndian(c[4..6]) != VERSION then None
    else
      var n := FromBigEndian(c[6..8]);
      if n > MAX_PEERS || |c| != 72 + 32 * n then None
      else
        var t := Ticket(VERSION, c[8..40], c[40..72], PeersOf(c, n));
        if Valid(t, endpoint) then Some(t) else None
  }

  lemma {:induction false} FlatSlice(peers: seq<Key>, i: nat)
    requires i < |peers|
    ensures Flat(peers)[32 * i..32 * i + 32] == peers[i]
  {
    if i < |peers| - 1 {
      FlatSlice(peers[..|peers| - 1], i);
      assert Flat(peers)[32 * i..32 * i + 32] == Flat(peers[..|peers| - 1])[32 * i..32 * i + 32];
    }
  }

  lemma ContentFields(t: Ticket, i: nat)
    requires i < |t.peers|
    ensures PeerAt(Content(t), i) == t.peers[i]
  {
    FlatSlice(t.peers, i);
    assert Content(t)[72..] == Flat(t.peers);
    assert Content(t)[72 + 32 * i..72 + 32 * i + 32] == Content(t)[72..][32 * i..32 * i + 32];
  }

  lemma ContentHeader(t: Ticket)
    requires t.version == VERSION && |t.peers| <= MAX_PEERS
    ensures var c := Content(t);
      && c[..4] == MAGIC && FromBigEndian(c[4..6]) == VERSION && FromBigEndian(c[6..8]) == |t.peers|
      && c[8..40] == t.share && c[40..72] == t.secret
  {
    var c := Content(t);
    PowersOf256();
    BigEndianRoundTrip(2, t.version);
    BigEndianRoundTrip(2, |t.peers|);
    assert c[4..6] == BigEndian(2, t.version) && c[6..8] == BigEndian(2, |t.peers|);
  }

  lemma ReadWritten(t: Ticket, endpoint: Key -> bool)
    requires Valid(t, endpoint)
    ensures ReadContent(Content(t), endpoint) == Some(t)
  {
    ContentHeader(t);
    forall i | 0 <= i < |t.peers| ensures PeerAt(Content(t), i) == t.peers[i] { ContentFields(t, i); }
    assert PeersOf(Content(t), |t.peers|) == t.peers;
  }

  lemma {:induction false} FlatPeers(c: Text, n: nat, k: nat)
    requires |c| == 72 + 32 * n && k <= n
    ensures Flat(PeersOf(c, n)[..k]) == c[72..72 + 32 * k]
  {
    if k > 0 {
      FlatPeers(c, n, k - 1);
      assert PeersOf(c, n)[..k][..k - 1] == PeersOf(c, n)[..k - 1];
      assert c[72..72 + 32 * k] == c[72..72 + 32 * (k - 1)] + PeerAt(c, k - 1);
    }
  }

  lemma WrittenRead(c: Text, endpoint: Key -> bool)
    requires ReadContent(c, endpoint).Some?
    ensures Content(ReadContent(c, endpoint).value) == c
  {
    var t := ReadContent(c, endpoint).value;
    FromBigEndianRoundTrip(c[4..6]);
    FromBigEndianRoundTrip(c[6..8]);
    FlatPeers(c, |t.peers|, |t.peers|);
    assert PeersOf(c, |t.peers|)[..|t.peers|] == t.peers;
    assert c == c[..4] + c[4..6] + c[6..8] + c[8..40] + c[40..72] + c[72..];
    assert c[72..72 + 32 * |t.peers|] == c[72..];
  }

  // ----- The text form -------------------------------------------------------------------------------------

  /** `encode`: fails exactly on a list of peers that is too long or not strictly sorted. */
  method EncodeTicket(t: Ticket, checksum: Text -> Checksum) returns (r: Option<Text>)
    ensures r == if t.version == VERSION && |t.peers| <= MAX_PEERS && SortedPeers(t.peers)
                 then Some(TextOf(t, checksum)) else None
  {
    var ok := Validate(t);
    if !ok { return None; }
    var bytes := MAGIC;
    bytes := bytes + BigEndian(2, t.version);
    bytes := bytes + BigEndian(2, |t.peers|);
    bytes := bytes + t.share;
    bytes := bytes + t.secret;
    for i := 0 to |t.peers|
      invariant bytes == Header(t.version, |t.peers|) + t.share + t.secret + Flat(t.peers[..i])
    {
      assert t.peers[..i + 1][..i] == t.peers[..i];
      bytes := bytes + t.peers[i];
    }
    assert t.peers[..|t.peers|] == t.peers;
    assert bytes == Content(t);
    bytes := bytes + checksum(bytes);
    var value := PREFIX + Encode(bytes);
    LengthBound(t, checksum);
    r := Some(value);
  }

  /** The bytes of a ticket text, if it is canonical. */
  function Armoured(text: Text): Option<Text> {
    if |text| > MAX_TEXT || !(PREFIX <= text) || |text| == |PREFIX| then None
    else
      var encoded := text[|PREFIX|..];
      if exists i :: 0 <= i < |encoded| && !IsLetter(encoded[i]) then None
      else
        var bytes := Decode(encoded);
        if bytes.None? || Encode(bytes.value) != encoded then None else bytes
  }

  /** The content in front of a matching checksum. */
  function Unsealed(bytes: Text, checksum: Text -> Checksum): Option<Text> {
    if |bytes| < 88 || checksum(bytes[..|bytes| - 16]) != bytes[|bytes| - 16..] then None
    else Some(bytes[..|bytes| - 16])
  }

  function Opened(text: Text, checksum: Text -> Checksum): Option<Text> {
    var bytes := Armoured(text);
    if bytes.None? then None else Unsealed(bytes.value, checksum)
  }

  /** What `parse` accepts. */
  ghost function Parsed(text: Text, checksum: Text -> Checksum, endpoint: Key -> bool): Option<Ticket> {
    var content := Opened(text, checksum);
    if content.None? then None else ReadContent(content.value, endpoint)
  }

  lemma ArmourOf(bytes: Text)
    requires 0 < |bytes| && |Encode(bytes)| + 9 <= MAX_TEXT
    ensures Armoured(PREFIX + Encode(bytes)) == Some(bytes)
  {
    RoundTrip(bytes);
    EncodedLetters(bytes);
    assert (PREFIX + Encode(bytes))[|PREFIX|..] == Encode(bytes);
  }

  lemma OpenSealed(t: Ticket, checksum: Text -> Checksum)
    requires |t.peers| <= MAX_PEERS
    ensures Opened(TextOf(t, checksum), checksum) == Some(Content(t))
  {
    var bytes := Sealed(t, checksum);
    LengthBound(t, checksum);
    ArmourOf(bytes);
    assert bytes[..|bytes| - 16] == Content(t) && bytes[|bytes| - 16..] == checksum(Content(t));
  }

  /** Parsing the text of a valid ticket gives the ticket back. */
  lemma ParseEncoded(t: Ticket, checksum: Text -> Checksum, endpoint: Key -> bool)
    requires Valid(t, endpoint)
    ensures Parsed(TextOf(t, checksum), checksum, endpoint) == Some(t)
  {
    OpenSealed(t, checksum);
    ReadWritten(t, endpoint);
  }

  lemma ArmouredText(text: Text)
    requires Armoured(text).Some?
    ensures text == PREFIX + Encode(Armoured(text).value)
  {
  }

  lemma SealOpened(text: Text, checksum: Text -> Checksum, content: Text)
    requires Opened(text, checksum) == Some(content)
    ensures text == PREFIX + Encode(content + checksum(content))
  {
    ArmouredText(text);
    UnsealedBytes(Armoured(text).value, checksum);
  }

  lemma UnsealedBytes(bytes: Text, checksum: Text -> Checksum)
    requires Unsealed(bytes, checksum).Some?
    ensures var content := Unsealed(bytes, checksum).value; bytes == content + checksum(content)
  {
  }

  /** Every accepted text is the text of the valid ticket it stands for: no second form is accepted. */
  lemma EncodeParsed(text: Text, checksum: Text -> Checksum, endpoint: Key -> bool)
    requires Parsed(text, checksum, endpoint).Some?
    ensures var t := Parsed(text, checksum, endpoint).value; Valid(t, endpoint) && TextOf(t, checksum) == text
  {
    var content := Opened(text, checksum).value;
    SealOpened(text, checksum, content);
    WrittenRead(content, endpoint);
  }

  /** The fixed part and the loop of `parse`, with its cursor. */
  method ReadFields(c: Text, endpoint: Key -> bool) returns (r: Option<Ticket>)
    requires |c| >= 72
    ensures r == ReadContent(c, endpoint)
  {
    var cursor := 4;
    if c[..cursor] != MAGIC { return None; }
    var version := FromBigEndian(c[cursor..cursor + 2]);
    cursor := cursor + 2;
    if version != VERSION { return None; }
    var count := FromBigEndian(c[cursor..cursor + 2]);
    cursor := cursor + 2;
    if count > MAX_PEERS || |c| != 72 + 32 * count { return None; }
    var share: Key := c[cursor..cursor + 32];
    cursor := cursor + 32;
    var secret: Key := c[cursor..cursor + 32];
    cursor := cursor + 32;
    var peers: seq<Key> := [];
    for i := 0 to count
      invariant cursor == 72 + 32 * i && peers == PeersOf(c, count)[..i]
      invariant forall j :: 0 <= j < i ==> endpoint(peers[j])
    {
      var peer: Key := c[cursor..cursor + 32];
      assert peer == PeersOf(c, count)[i];
      if !endpoint(peer) { return None; }
      peers := peers + [peer];
      cursor := cursor + 32;
    }
    assert peers == PeersOf(c, count);
    var t := Ticket(version, share, secret, peers);
    var ok := Validate(t);
    r := if ok then Some(t) else None;
  }

  /** `parse`. */
  method ParseTicket(text: Text, checksum: Text -> Checksum, endpoint: Key -> bool) returns (r: Option<Ticket>)
    ensures r == Parsed(text, checksum, endpoint)
  {
    var content := Opened(text, checksum);
    if content.None? { return None; }
    r := ReadFields(content.value, endpoint);
  }
}
