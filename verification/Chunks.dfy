/** Chunked file transfer: framing, the sending and receiving loops, and resumption after a cut. */
module Chunks {
  import opened Bytes

  const MAX_CHUNK := 0x10_0000

  datatype TransferFile = TransferFile(path: Text, sha: Text, size: u64, offset: u64)

  // ----- One chunk -----------------------------------------------------------------------------------------

  function Header(index: nat, offset: nat, length: nat): (h: Text)
    ensures |h| == 16
  {
    BigEndian(4, index) + BigEndian(8, offset) + BigEndian(4, length)
  }

  function Frame(index: nat, offset: nat, data: Text): Text { Header(index, offset, |data|) + data }

  predicate Fits(data: Text) { 0 < |data| <= MAX_CHUNK }

  datatype Chunk = Chunk(data: Text, rest: Text)

  /** What `read_chunk` takes from a stream; `None` is an error or the end of the stream. */
  function TakeChunk(stream: Text, index: nat, offset: nat, remaining: nat): (r: Option<Chunk>)
    ensures r.Some? ==> Fits(r.value.data) && |r.value.data| <= remaining
  {
    if |stream| < 16 || stream[..4] != BigEndian(4, index) || stream[4..12] != BigEndian(8, offset) then None
    else
      var length := FromBigEndian(stream[12..16]);
      if length == 0 || length > remaining || length > MAX_CHUNK || |stream| < 16 + length then None
      else Some(Chunk(stream[16..16 + length], stream[16 + length..]))
  }

  /** Whatever is accepted is a frame that a sender could have written. */
  lemma AcceptedIsFrame(stream: Text, index: nat, offset: nat, remaining: nat)
    requires TakeChunk(stream, index, offset, remaining).Some?
    ensures var c := TakeChunk(stream, index, offset, remaining).value; stream == Frame(index, offset, c.data) + c.rest
  {
    FromBigEndianRoundTrip(stream[12..16]);
    assert stream[..16] == stream[..4] + stream[4..12] + stream[12..16];
  }

  lemma HeaderFields(index: nat, offset: nat, data: Text, t: Text)
    requires Fits(data)
    ensures var s := Frame(index, offset, data) + t;
      && |s| == 16 + |data| + |t| && s[..4] == BigEndian(4, index) && s[4..12] == BigEndian(8, offset)
      && FromBigEndian(s[12..16]) == |data| && s[16..16 + |data|] == data && s[16 + |data|..] == t
  {
    var s := Frame(index, offset, data) + t;
    PowersOf256();
    BigEndianRoundTrip(4, |data|);
    assert s[12..16] == BigEndian(4, |data|);
  }

  /** A chunk that was written is read back, and nothing after it is consumed. */
  lemma ChunkRoundTrip(index: nat, offset: nat, data: Text, t: Text, remaining: nat)
    requires Fits(data) && |data| <= remaining
    ensures TakeChunk(Frame(index, offset, data) + t, index, offset, remaining) == Some(Chunk(data, t))
  {
    HeaderFields(index, offset, data, t);
  }

  /** A chunk that was cut short is not accepted. */
  lemma CutChunk(index: nat, offset: nat, data: Text, s: Text, remaining: nat)
    requires Fits(data) && |s| < |Frame(index, offset, data)| && s <= Frame(index, offset, data)
    ensures TakeChunk(s, index, offset, remaining).None?
  {
    HeaderFields(index, offset, data, []);
    var whole := Frame(index, offset, data) + [];
    assert whole == Frame(index, offset, data);
    if |s| >= 16 { assert s[..4] == whole[..4] && s[4..12] == whole[4..12] && s[12..16] == whole[12..16]; }
  }

  // ----- One file --------------------------------------------------------------------------------------------

  function Joined(cuts: seq<Text>): Text { if cuts == [] then [] else cuts[0] + Joined(cuts[1..]) }

  /** The frames of one file whose remaining data was read in the pieces `cuts`. */
  function Frames(index: nat, offset: nat, cuts: seq<Text>): Text
    decreases |cuts|
  {
    if cuts == [] then [] else Frame(index, offset, cuts[0]) + Frames(index, offset + |cuts[0]|, cuts[1..])
  }

  ghost predicate AllFit(cuts: seq<Text>) { forall i :: 0 <= i < |cuts| ==> Fits(cuts[i]) }

  datatype Taken = Taken(data: Text, rest: Option<Text>)

  /** The receiving loop of one file: the data it writes and the stream it leaves, or `None` on failure. */
  function TakeFile(stream: Text, index: nat, offset: nat, size: nat): Taken
    decreases size - offset
  {
    if offset >= size then Taken([], Some(stream))
    else
      var c := TakeChunk(stream, index, offset, size - offset);
      if c.None? then Taken([], None)
      else
        var t := TakeFile(c.value.rest, index, offset + |c.value.data|, size);
        Taken(c.value.data + t.data, t.rest)
  }

  lemma FrameTaken(index: nat, offset: nat, c: Text, rest: Text, size: nat)
    requires Fits(c) && offset + |c| <= size
    ensures TakeFile(Frame(index, offset, c) + rest, index, offset, size) ==
      Taken(c + TakeFile(rest, index, offset + |c|, size).data, TakeFile(rest, index, offset + |c|, size).rest)
  {
    ChunkRoundTrip(index, offset, c, rest, size - offset);
  }

  lemma Reassociated(a: Text, b: Text, c: Text)
    ensures a + b + c == a + (b + c)
  {
  }

  lemma FramesCons(index: nat, offset: nat, first: Text, others: seq<Text>)
    ensures Frames(index, offset, [first] + others) ==
      Frame(index, offset, first) + Frames(index, offset + |first|, others)
    ensures Joined([first] + others) == first + Joined(others)
  {
  }

  lemma FramesNext(index: nat, offset: nat, cuts: seq<Text>, t: Text)
    requires cuts != [] && AllFit(cuts)
    ensures Frames(index, offset, cuts) + t ==
      Frame(index, offset, cuts[0]) + (Frames(index, offset + |cuts[0]|, cuts[1..]) + t)
    ensures Joined(cuts) == cuts[0] + Joined(cuts[1..]) && Fits(cuts[0]) && AllFit(cuts[1..])
  {
    assert cuts == [cuts[0]] + cuts[1..];
    FramesCons(index, offset, cuts[0], cuts[1..]);
    Reassociated(Frame(index, offset, cuts[0]), Frames(index, offset + |cuts[0]|, cuts[1..]), t);
  }

  lemma TripNext(index: nat, offset: nat, c: Text, rest: Text, size: nat, data: Text, t: Text)
    requires Fits(c) && offset + |c| <= size && TakeFile(rest, index, offset + |c|, size) == Taken(data, Some(t))
    ensures TakeFile(Frame(index, offset, c) + rest, index, offset, size) == Taken(c + data, Some(t))
  {
    FrameTaken(index, offset, c, rest, size);
  }

  /** However the sender's reads were split, the receiver rebuilds the data and stops where the file ends. */
  lemma {:induction false} FileRoundTrip(index: nat, offset: nat, cuts: seq<Text>, size: nat, t: Text, s: Text)
    requires AllFit(cuts) && offset + |Joined(cuts)| == size && s == Frames(index, offset, cuts) + t
    ensures TakeFile(s, index, offset, size) == Taken(Joined(cuts), Some(t))
    decreases |cuts|
  {
    if cuts == [] {
      assert s == t;
    } else {
      var c, rest := cuts[0], Frames(index, offset + |cuts[0]|, cuts[1..]) + t;
      FramesNext(index, offset, cuts, t);
      FileRoundTrip(index, offset + |c|, cuts[1..], size, t, rest);
      TripNext(index, offset, c, rest, size, Joined(cuts[1..]), t);
    }
  }

  /** What a stream that may be cut yields: a prefix of the data, and all of it if the loop finishes. */
  ghost predicate PrefixTaken(r: Taken, data: Text, t: Text) {
    r.data <= data && (r.rest.Some? ==> r.data == data && r.rest.value <= t)
  }

  lemma {:induction false} FileCut(index: nat, offset: nat, cuts: seq<Text>, size: nat, t: Text, s: Text)
    requires AllFit(cuts) && offset + |Joined(cuts)| == size && s <= Frames(index, offset, cuts) + t
    ensures PrefixTaken(TakeFile(s, index, offset, size), Joined(cuts), t)
    decreases |cuts|
  {
    if cuts == [] {
      assert Frames(index, offset, cuts) + t == t;
    } else {
      var c, next := cuts[0], Frames(index, offset + |cuts[0]|, cuts[1..]) + t;
      FramesNext(index, offset, cuts, t);
      if |s| >= 16 + |c| {
        CutAfter(Frame(index, offset, c), next, s);
        FileCut(index, offset + |c|, cuts[1..], size, t, s[16 + |c|..]);
      }
      CutStep(index, offset, c, next, s, size, Joined(cuts[1..]), t);
    }
  }

  lemma CutStep(index: nat, offset: nat, c: Text, next: Text, s: Text, size: nat, data: Text, t: Text)
    requires Fits(c) && offset + |c| <= size && s <= Frame(index, offset, c) + next
    requires |s| >= 16 + |c| ==> PrefixTaken(TakeFile(s[16 + |c|..], index, offset + |c|, size), data, t)
    ensures PrefixTaken(TakeFile(s, index, offset, size), c + data, t)
  {
    if |s| < 16 + |c| {
      CutBefore(Frame(index, offset, c), next, s);
      CutChunk(index, offset, c, s, size - offset);
    } else {
      CutAfter(Frame(index, offset, c), next, s);
      CutNext(index, offset, c, s[16 + |c|..], size, data, t);
    }
  }

  lemma CutNext(index: nat, offset: nat, c: Text, rest: Text, size: nat, data: Text, t: Text)
    requires Fits(c) && offset + |c| <= size && PrefixTaken(TakeFile(rest, index, offset + |c|, size), data, t)
    ensures PrefixTaken(TakeFile(Frame(index, offset, c) + rest, index, offset, size), c + data, t)
  {
    FrameTaken(index, offset, c, rest, size);
  }

  lemma CutBefore(a: Text, b: Text, s: Text)
    requires s <= a + b && |s| <= |a|
    ensures s <= a
  {
  }

  lemma CutAfter(a: Text, b: Text, s: Text)
    requires s <= a + b && |s| >= |a|
    ensures s == a + s[|a|..] && s[|a|..] <= b
  {
  }

  // ----- A list of files ----------------------------------------------------------------------------------------

  /** A partial file is kept per path and content hash. */
  datatype Slot = Slot(path: Text, sha: Text)

  type Store = map<Slot, Text>

  function SlotOf(f: TransferFile): Slot { Slot(f.path, f.sha) }

  function PartialAt(store: Store, slot: Slot): Text { if slot in store then store[slot] else [] }

  /** `set_len`: cut off, or extend with zeros. */
  function SetLength(s: Text, n: nat): (r: Text)
    ensures |r| == n
  {
    if n <= |s| then s[..n] else s + seq(n - |s|, _ => 0)
  }

  /** `partial_size`: where a transfer can resume. */
  function ResumeOffset(store: Store, slot: Slot, size: nat): (n: nat)
    ensures n <= size && n <= |PartialAt(store, slot)|
  {
    var length := |PartialAt(store, slot)|;
    if length <= size then length else 0
  }

  datatype Attempt = Attempt(store: Store, rest: Option<Text>)

  /** One file of an attempt: resize the partial file, receive, verify. A wrong hash discards it. */
  function ReceiveOne(f: TransferFile, k: nat, hash: Text -> Text, store: Store, stream: Text): Attempt {
    var t := TakeFile(stream, k, f.offset, f.size);
    var got := SetLength(PartialAt(store, SlotOf(f)), f.offset) + t.data;
    if t.rest.None? || |got| != f.size then Attempt(store[SlotOf(f) := got], None)
    else if hash(got) != f.sha then Attempt(store - {SlotOf(f)}, None)
    else Attempt(store[SlotOf(f) := got], t.rest)
  }

  /** One file after an attempt that may have failed before it. */
  function Extended(files: seq<TransferFile>, k: nat, hash: Text -> Text, b: Attempt): Attempt
    requires k < |files|
  {
    if b.rest.None? then b else ReceiveOne(files[k], k, hash, b.store, b.rest.value)
  }

  /** The first `n` files of an attempt. */
  function Received(files: seq<TransferFile>, n: nat, hash: Text -> Text, store: Store, stream: Text): Attempt
    requires n <= |files|
  {
    if n == 0 then Attempt(store, Some(stream))
    else Extended(files, n - 1, hash, Received(files, n - 1, hash, store, stream))
  }

  /** The whole stream for a list of files, each read in its own pieces. */
  function Sent(files: seq<TransferFile>, cuts: seq<seq<Text>>, k: nat): Text
    requires |cuts| <= |files|
    decreases |cuts| - k
  {
    if k >= |cuts| then [] else Frames(k, files[k].offset, cuts[k]) + Sent(files, cuts, k + 1)
  }

  /** The pieces are what the sender's disk holds from the resume offset on. */
  ghost predicate CutsOf(files: seq<TransferFile>, contents: seq<Text>, cuts: seq<seq<Text>>) {
    && |cuts| <= |files| == |contents|
    && forall i :: 0 <= i < |cuts| ==>
         files[i].offset <= |contents[i]| && AllFit(cuts[i]) && Joined(cuts[i]) == contents[i][files[i].offset..]
  }

  /** The contents are the ones the manifest describes, and slots are not shared. */
  ghost predicate Described(files: seq<TransferFile>, contents: seq<Text>, hash: Text -> Text) {
    && |files| == |contents|
    && (forall i :: 0 <= i < |files| ==>
          |contents[i]| == files[i].size && hash(contents[i]) == files[i].sha && files[i].offset <= files[i].size)
    && (forall i, j :: 0 <= i < j < |files| ==> SlotOf(files[i]) != SlotOf(files[j]))
  }

  ghost predicate PrefixAt(files: seq<TransferFile>, contents: seq<Text>, store: Store, i: nat)
    requires i < |files| == |contents|
  {
    PartialAt(store, SlotOf(files[i])) <= contents[i]
  }

  /** Every partial file of the list is a prefix of its content. */
  ghost predicate Prefixes(files: seq<TransferFile>, contents: seq<Text>, store: Store)
    requires |files| == |contents|
  {
    forall i :: 0 <= i < |files| ==> PrefixAt(files, contents, store, i)
  }

  /** From file `k` on, the partial files reach the agreed offsets. */
  ghost predicate Reaching(files: seq<TransferFile>, store: Store, k: nat) {
    forall i :: k <= i < |files| ==> files[i].offset <= |PartialAt(store, SlotOf(files[i]))|
  }

  /** The first `n` files are complete. */
  ghost predicate Complete(files: seq<TransferFile>, contents: seq<Text>, store: Store, n: nat)
    requires n <= |files| == |contents|
  {
    forall i :: 0 <= i < n ==> SlotOf(files[i]) in store && store[SlotOf(files[i])] == contents[i]
  }

  lemma PrefixGrows(content: Text, offset: nat, partial: Text, data: Text)
    requires offset <= |partial| && partial <= content && data <= content[offset..]
    ensures SetLength(partial, offset) + data <= content
    ensures data == content[offset..] ==> SetLength(partial, offset) + data == content
  {
  }

  /** One file of an attempt on a stream that may be cut. */
  lemma OneReceived(f: TransferFile, content: Text, k: nat,
                    hash: Text -> Text, store: Store, cuts: seq<Text>, t: Text, s: Text)
    requires |content| == f.size && hash(content) == f.sha && f.offset <= |PartialAt(store, SlotOf(f))|
    requires PartialAt(store, SlotOf(f)) <= content && AllFit(cuts) && Joined(cuts) == content[f.offset..]
    requires s <= Frames(k, f.offset, cuts) + t
    ensures var r := ReceiveOne(f, k, hash, store, s);
      && SlotOf(f) in r.store && r.store == store[SlotOf(f) := r.store[SlotOf(f)]] && r.store[SlotOf(f)] <= content
      && (r.rest.Some? ==> r.store[SlotOf(f)] == content && r.rest.value <= t)
      && (s == Frames(k, f.offset, cuts) + t ==> r.rest == Some(t))
  {
    FileCut(k, f.offset, cuts, f.size, t, s);
    if s == Frames(k, f.offset, cuts) + t { FileRoundTrip(k, f.offset, cuts, f.size, t, s); }
    PrefixGrows(content, f.offset, PartialAt(store, SlotOf(f)), TakeFile(s, k, f.offset, f.size).data);
  }

  /** Where an attempt stands before file `k`, on a stream that starts the sender's stream; `whole` says
      that nothing of it is missing. */
  ghost predicate Standing(files: seq<TransferFile>, contents: seq<Text>, cuts: seq<seq<Text>>, t: Text, k: nat,
                           b: Attempt, whole: bool)
    requires k <= |files| == |contents| && |cuts| == |files|
  {
    && Prefixes(files, contents, b.store)
    && (b.rest.Some? ==>
          && Reaching(files, b.store, k) && Complete(files, contents, b.store, k)
          && b.rest.value <= Sent(files, cuts, k) + t)
    && (whole ==> b.rest == Some(Sent(files, cuts, k) + t))
  }

  lemma SentNext(files: seq<TransferFile>, cuts: seq<seq<Text>>, k: nat, t: Text)
    requires k < |cuts| <= |files|
    ensures Sent(files, cuts, k) + t == Frames(k, files[k].offset, cuts[k]) + (Sent(files, cuts, k + 1) + t)
  {
  }

  lemma StoredOne(files: seq<TransferFile>, contents: seq<Text>, hash: Text -> Text, store: Store, after: Store, k: nat)
    requires Described(files, contents, hash) && k < |files|
    requires Prefixes(files, contents, store) && Reaching(files, store, k) && Complete(files, contents, store, k)
    requires SlotOf(files[k]) in after && after == store[SlotOf(files[k]) := after[SlotOf(files[k])]]
    requires after[SlotOf(files[k])] <= contents[k]
    ensures Prefixes(files, contents, after) && Reaching(files, after, k + 1) && Complete(files, contents, after, k)
    ensures after[SlotOf(files[k])] == contents[k] ==> Complete(files, contents, after, k + 1)
  {
    forall i | 0 <= i < |files| && i != k
      ensures PartialAt(after, SlotOf(files[i])) == PartialAt(store, SlotOf(files[i])) {
      assert SlotOf(files[if i < k then i else k]) != SlotOf(files[if i < k then k else i]);
    }
    forall i | 0 <= i < |files| ensures PrefixAt(files, contents, after, i) {
      assert PrefixAt(files, contents, store, i);
    }
  }

  lemma StandingNext(files: seq<TransferFile>, contents: seq<Text>,
                     hash: Text -> Text, cuts: seq<seq<Text>>, t: Text, k: nat,
                     b: Attempt, whole: bool) returns (c: Attempt)
    requires Described(files, contents, hash) && CutsOf(files, contents, cuts) && k < |files| == |cuts|
    requires StandingAt(files, contents, cuts, t, whole)(k, b)
    ensures c == Extended(files, k, hash, b) && Standing(files, contents, cuts, t, k + 1, c, whole)
  {
    StandingMeans(files, contents, cuts, t, k, b, whole);
    c := Extended(files, k, hash, b);
    if b.rest.Some? {
      SentNext(files, cuts, k, t);
      assert PrefixAt(files, contents, b.store, k);
      OneReceived(files[k], contents[k], k, hash, b.store, cuts[k], Sent(files, cuts, k + 1) + t, b.rest.value);
      StoredOne(files, contents, hash, b.store, c.store, k);
    }
  }

  /** What holds at the start of an attempt, and what every file of it keeps. */
  lemma {:induction false} ReceivedKeeps(files: seq<TransferFile>, hash: Text -> Text, store: Store, s: Text,
                                         good: (int, Attempt) -> bool, n: nat)
    requires n <= |files| && good(0, Attempt(store, Some(s)))
    requires forall k, b :: 0 <= k < |files| && good(k, b) ==> good(k + 1, Extended(files, k, hash, b))
    ensures good(n, Received(files, n, hash, store, s))
  {
    if n > 0 { ReceivedKeeps(files, hash, store, s, good, n - 1); }
  }

  ghost function StandingAt(files: seq<TransferFile>, contents: seq<Text>, cuts: seq<seq<Text>>, t: Text, whole: bool)
    : (int, Attempt) -> bool
  {
    (k: int, b: Attempt) =>
      0 <= k <= |files| == |contents| == |cuts| && Standing(files, contents, cuts, t, k, b, whole)
  }

  lemma StandingMeans(files: seq<TransferFile>, contents: seq<Text>, cuts: seq<seq<Text>>, t: Text, k: nat,
                      b: Attempt, whole: bool)
    requires k <= |files| == |contents| == |cuts|
    ensures StandingAt(files, contents, cuts, t, whole)(k, b) == Standing(files, contents, cuts, t, k, b, whole)
  {
  }

  /** An attempt on a stream that is cut anywhere leaves prefixes; without an error every file is complete;
      on the whole stream there is no error and exactly the bytes that were sent are consumed. */
  lemma AttemptStands(files: seq<TransferFile>, contents: seq<Text>, hash: Text -> Text, store: Store,
                      cuts: seq<seq<Text>>, t: Text, s: Text, whole: bool) returns (b: Attempt)
    requires Described(files, contents, hash) && CutsOf(files, contents, cuts) && |files| == |cuts|
    requires Standing(files, contents, cuts, t, 0, Attempt(store, Some(s)), whole)
    ensures b == Received(files, |files|, hash, store, s)
    ensures Standing(files, contents, cuts, t, |files|, b, whole)
  {
    var good := StandingAt(files, contents, cuts, t, whole);
    b := Received(files, |files|, hash, store, s);
    forall k, c | 0 <= k < |files| && good(k, c) ensures good(k + 1, Extended(files, k, hash, c)) {
      var d := StandingNext(files, contents, hash, cuts, t, k, c, whole);
      StandingMeans(files, contents, cuts, t, k + 1, d, whole);
    }
    ReceivedKeeps(files, hash, store, s, good, |files|);
  }

  // ----- Attempts that resume ------------------------------------------------------------------------------------

  /** The request of the next attempt: every file resumes where its partial file ends. */
  function Resumed(files: seq<TransferFile>, store: Store): (r: seq<TransferFile>)
    ensures |r| == |files|
    ensures forall i :: 0 <= i < |files| ==>
      r[i] == files[i].(offset := ResumeOffset(store, SlotOf(files[i]), files[i].size)) &&
        SlotOf(r[i]) == SlotOf(files[i])
  {
    seq(|files|, i requires 0 <= i < |files| =>
      files[i].(offset := ResumeOffset(store, SlotOf(files[i]), files[i].size)))
  }

  /** `after` is what one attempt leaves: the sender's stream, read in any pieces, arrived up to any point. */
  ghost predicate AttemptStep(files: seq<TransferFile>, contents: seq<Text>,
                              hash: Text -> Text, store: Store, after: Store)
    requires |files| == |contents|
  {
    exists cuts: seq<seq<Text>>, s: Text :: Attempts(files, contents, hash, store, after, cuts, s)
  }

  ghost predicate Attempts(files: seq<TransferFile>, contents: seq<Text>,
                           hash: Text -> Text, store: Store, after: Store,
                           cuts: seq<seq<Text>>, s: Text)
    requires |files| == |contents|
  {
    var request := Resumed(files, store);
    && CutsOf(request, contents, cuts) && |cuts| == |files| && s <= Sent(request, cuts, 0)
    && after == Received(request, |request|, hash, store, s).store
  }

  lemma ResumedIsReaching(files: seq<TransferFile>, contents: seq<Text>, hash: Text -> Text, store: Store)
    requires Described(files, contents, hash) && Prefixes(files, contents, store)
    ensures Described(Resumed(files, store), contents, hash)
    ensures Prefixes(Resumed(files, store), contents, store) && Reaching(Resumed(files, store), store, 0)
  {
    SamePrefixes(files, Resumed(files, store), contents, store);
  }

  lemma SamePrefixes(files: seq<TransferFile>, others: seq<TransferFile>, contents: seq<Text>, store: Store)
    requires |files| == |others| == |contents| && forall i :: 0 <= i < |files| ==> SlotOf(files[i]) == SlotOf(others[i])
    requires Prefixes(files, contents, store)
    ensures Prefixes(others, contents, store)
  {
    forall i | 0 <= i < |others| ensures PrefixAt(others, contents, store, i) {
      assert PrefixAt(files, contents, store, i);
    }
  }

  /** Any number of attempts, each cut anywhere, leaves prefixes of the contents. */
  lemma {:induction false} AttemptsLeavePrefixes(files: seq<TransferFile>, contents: seq<Text>, hash: Text -> Text,
                                                 stores: seq<Store>, n: nat)
    requires Described(files, contents, hash) && n < |stores| && Prefixes(files, contents, stores[0])
    requires forall k :: 0 <= k < |stores| - 1 ==> AttemptStep(files, contents, hash, stores[k], stores[k + 1])
    ensures Prefixes(files, contents, stores[n])
  {
    if n > 0 {
      AttemptsLeavePrefixes(files, contents, hash, stores, n - 1);
      StepLeavesPrefixes(files, contents, hash, stores[n - 1], stores[n]);
    }
  }

  lemma StepLeavesPrefixes(files: seq<TransferFile>, contents: seq<Text>,
                           hash: Text -> Text, store: Store, after: Store)
    requires Described(files, contents, hash) && Prefixes(files, contents, store)
    requires AttemptStep(files, contents, hash, store, after)
    ensures Prefixes(files, contents, after)
  {
    var cuts: seq<seq<Text>>, s: Text :| Attempts(files, contents, hash, store, after, cuts, s);
    CutAttempt(files, contents, hash, store, after, cuts, s);
  }

  lemma CutAttempt(files: seq<TransferFile>, contents: seq<Text>, hash: Text -> Text, store: Store, after: Store,
                   cuts: seq<seq<Text>>, s: Text)
    requires Described(files, contents, hash) && Prefixes(files, contents, store)
    requires Attempts(files, contents, hash, store, after, cuts, s)
    ensures Prefixes(files, contents, after)
  {
    var request := Resumed(files, store);
    ResumedIsReaching(files, contents, hash, store);
    assert Sent(request, cuts, 0) + [] == Sent(request, cuts, 0);
    var b := AttemptStands(request, contents, hash, store, cuts, [], s, false);
    SamePrefixes(request, files, contents, after);
  }

  lemma WholeAttempt(files: seq<TransferFile>, contents: seq<Text>, hash: Text -> Text, store: Store,
                     cuts: seq<seq<Text>>, t: Text) returns (r: Attempt)
    requires Described(files, contents, hash) && CutsOf(files, contents, cuts) && |cuts| == |files|
    requires Prefixes(files, contents, store) && Reaching(files, store, 0)
    ensures r == Received(files, |files|, hash, store, Sent(files, cuts, 0) + t)
    ensures r.rest == Some(t) && Complete(files, contents, r.store, |files|)
  {
    r := AttemptStands(files, contents, hash, store, cuts, t, Sent(files, cuts, 0) + t, true);
    assert Sent(files, cuts, |files|) + t == t;
  }

  /** After any such history, an attempt whose stream arrives whole completes every file. */
  lemma LastAttemptCompletes(files: seq<TransferFile>, contents: seq<Text>, hash: Text -> Text, store: Store,
                             cuts: seq<seq<Text>>, t: Text) returns (r: Attempt)
    requires Described(files, contents, hash) && Prefixes(files, contents, store)
    requires CutsOf(Resumed(files, store), contents, cuts) && |cuts| == |files|
    ensures r == Received(Resumed(files, store), |files|, hash, store, Sent(Resumed(files, store), cuts, 0) + t)
    ensures r.rest == Some(t) && Complete(files, contents, r.store, |files|)
  {
    var request := Resumed(files, store);
    ResumedIsReaching(files, contents, hash, store);
    r := WholeAttempt(request, contents, hash, store, cuts, t);
    SameComplete(request, files, contents, r.store);
  }

  lemma SameComplete(files: seq<TransferFile>, others: seq<TransferFile>, contents: seq<Text>, store: Store)
    requires |files| == |others| == |contents| && forall i :: 0 <= i < |files| ==> SlotOf(files[i]) == SlotOf(others[i])
    requires Complete(files, contents, store, |files|)
    ensures Complete(others, contents, store, |others|)
  {
  }

  // ----- The loops -------------------------------------------------------------------------------------------------

  /** A byte stream between two peers. */
  class Pipe {
    var bytes: Text

    constructor (bytes: Text)
      ensures this.bytes == bytes
    {
      this.bytes := bytes;
    }

    /** `write_chunk`. */
    method WriteChunk(index: u32, offset: u64, data: Text) returns (ok: bool)
      modifies this
      ensures ok <==> Fits(data)
      ensures bytes == if ok then old(bytes) + Frame(index, offset, data) else old(bytes)
    {
      if |data| == 0 || |data| > MAX_CHUNK { return false; }
      var header := BigEndian(4, index) + BigEndian(8, offset) + BigEndian(4, |data|);
      bytes := bytes + header;
      bytes := bytes + data;
      assert bytes == old(bytes) + Frame(index, offset, data);
      return true;
    }

    /** `read_chunk`; after an error the stream is abandoned. */
    method ReadChunk(index: u32, offset: u64, remaining: u64) returns (r: Option<Text>)
      modifies this
      ensures var c := TakeChunk(old(bytes), index, offset, remaining);
        if c.None? then r.None? else r == Some(c.value.data) && bytes == c.value.rest
    {
      if |bytes| < 16 { return None; }
      var header := bytes[..16];
      bytes := bytes[16..];
      assert header[..4] == old(bytes)[..4] && header[4..12] == old(bytes)[4..12];
      if header[..4] != BigEndian(4, index) || header[4..12] != BigEndian(8, offset) { return None; }
      assert header[12..] == old(bytes)[12..16];
      var length := FromBigEndian(header[12..]);
      if length == 0 || length > remaining || length > MAX_CHUNK { return None; }
      if |bytes| < length { return None; }
      assert bytes[..length] == old(bytes)[16..16 + length] && bytes[length..] == old(bytes)[16 + length..];
      r := Some(bytes[..length]);
      bytes := bytes[length..];
    }
  }

  lemma {:induction false} FramesSnoc(index: nat, offset: nat, cuts: seq<Text>, c: Text)
    ensures Frames(index, offset, cuts + [c]) == Frames(index, offset, cuts) + Frame(index, offset + |Joined(cuts)|, c)
    ensures Joined(cuts + [c]) == Joined(cuts) + c
    decreases |cuts|
  {
    if cuts == [] {
      FramesCons(index, offset, c, []);
      assert cuts + [c] == [c] + [];
    } else {
      var first, others := cuts[0], cuts[1..];
      assert cuts == [first] + others && cuts + [c] == [first] + (others + [c]);
      FramesCons(index, offset, first, others);
      FramesCons(index, offset, first, others + [c]);
      FramesSnoc(index, offset + |first|, others, c);
      Reassociated(Frame(index, offset, first), Frames(index, offset + |first|, others),
                   Frame(index, offset + |Joined(cuts)|, c));
    }
  }

  /** The state of the sending loop: the pieces `cuts` reach up to `offset` and are on the stream. */
  ghost predicate Sending(index: nat, f: TransferFile, content: Text, cuts: seq<Text>, offset: nat, start: Text,
                          bytes: Text) {
    && f.offset <= offset <= f.size == |content| && AllFit(cuts) && Joined(cuts) == content[f.offset..offset]
    && bytes == start + Frames(index, f.offset, cuts)
  }

  lemma SendingStart(index: nat, f: TransferFile, content: Text, start: Text)
    requires f.offset <= f.size == |content|
    ensures Sending(index, f, content, [], f.offset, start, start)
  {
  }

  lemma SendingStep(index: nat, f: TransferFile, content: Text, cuts: seq<Text>, offset: nat, start: Text,
                    bytes: Text, end: nat)
    requires Sending(index, f, content, cuts, offset, start, bytes) && offset < end <= f.size &&
      end - offset <= MAX_CHUNK
    ensures var data := content[offset..end];
      Fits(data) && Sending(index, f, content, cuts + [data], end, start, bytes + Frame(index, offset, data))
  {
    var data := content[offset..end];
    FramesSnoc(index, f.offset, cuts, data);
    assert content[f.offset..end] == content[f.offset..offset] + data;
    Reassociated(start, Frames(index, f.offset, cuts), Frame(index, offset, data));
  }

  /** The sending loop of one file; every read may return any positive number of bytes up to the buffer. */
  method SendFile(pipe: Pipe, index: u32, f: TransferFile, content: Text, capacity: nat) returns (ghost cuts: seq<Text>)
    requires |content| == f.size && f.offset <= f.size
    requires capacity <= MAX_CHUNK && (f.offset < f.size ==> 0 < capacity)
    modifies pipe
    ensures Sending(index, f, content, cuts, f.size, old(pipe.bytes), pipe.bytes)
  {
    cuts := [];
    var offset: nat := f.offset;
    ghost var start := pipe.bytes;
    SendingStart(index, f, content, start);
    while offset < f.size
      invariant Sending(index, f, content, cuts, offset, start, pipe.bytes)
    {
      var wanted := if f.size - offset < capacity then f.size - offset else capacity;
      var count: nat :| 0 < count <= wanted;
      SendingStep(index, f, content, cuts, offset, start, pipe.bytes, offset + count);
      var data := content[offset..offset + count];
      var ok := pipe.WriteChunk(index, offset, data);
      cuts := cuts + [data];
      offset := offset + count;
    }
  }

  lemma {:induction false} SentSnoc(files: seq<TransferFile>, cuts: seq<seq<Text>>, c: seq<Text>, k: nat)
    requires |cuts| < |files| && k <= |cuts|
    ensures Sent(files, cuts + [c], k) == Sent(files, cuts, k) + Frames(|cuts|, files[|cuts|].offset, c)
    decreases |cuts| - k
  {
    if k < |cuts| {
      SentSnoc(files, cuts, c, k + 1);
      Reassociated(Frames(k, files[k].offset, cuts[k]), Sent(files, cuts, k + 1),
        Frames(|cuts|, files[|cuts|].offset, c));
    } else {
      assert Sent(files, cuts + [c], k) == Frames(k, files[k].offset, c) + Sent(files, cuts + [c], k + 1);
    }
  }

  lemma CutsSnoc(files: seq<TransferFile>, contents: seq<Text>, cuts: seq<seq<Text>>, c: seq<Text>)
    requires CutsOf(files, contents, cuts) && |cuts| < |files| && AllFit(c)
    requires files[|cuts|].offset <= |contents[|cuts|]| && Joined(c) == contents[|cuts|][files[|cuts|].offset..]
    ensures CutsOf(files, contents, cuts + [c])
  {
  }

  lemma FileSent(files: seq<TransferFile>, contents: seq<Text>, cuts: seq<seq<Text>>, c: seq<Text>,
                 start: Text, middle: Text, end: Text)
    requires CutsOf(files, contents, cuts) && |cuts| < |files| && middle == start + Sent(files, cuts, 0)
    requires Sending(|cuts|, files[|cuts|], contents[|cuts|], c, files[|cuts|].size, middle, end)
    ensures CutsOf(files, contents, cuts + [c]) && end == start + Sent(files, cuts + [c], 0)
  {
    var content, offset := contents[|cuts|], files[|cuts|].offset;
    assert content[offset..|content|] == content[offset..];
    CutsSnoc(files, contents, cuts, c);
    SentSnoc(files, cuts, c, 0);
    Reassociated(start, Sent(files, cuts, 0), Frames(|cuts|, offset, c));
  }

  /** `send_file_chunks_from_root`: whatever the reads return, the stream is a division of the remaining
      contents into chunks that the receiver accepts; a file of another size stops it. */
  method SendFiles(pipe: Pipe, files: seq<TransferFile>, contents: seq<Text>)
    returns (ok: bool, ghost cuts: seq<seq<Text>>)
    requires |files| == |contents| && |files| <= U32_MAX &&
      forall i :: 0 <= i < |files| ==> files[i].offset <= files[i].size
    modifies pipe
    ensures ok <==> forall i :: 0 <= i < |files| ==> |contents[i]| == files[i].size
    ensures ok ==>
      |cuts| == |files| && CutsOf(files, contents, cuts) && pipe.bytes == old(pipe.bytes) + Sent(files, cuts, 0)
  {
    cuts := [];
    var capacity := 0;
    for i := 0 to |files|
      invariant |cuts| == i && CutsOf(files, contents, cuts) && capacity <= MAX_CHUNK
      invariant forall j :: 0 <= j < i ==> |contents[j]| == files[j].size
      invariant pipe.bytes == old(pipe.bytes) + Sent(files, cuts, 0)
    {
      var f := files[i];
      if |contents[i]| != f.size { return false, cuts; }
      var required := if f.size - f.offset < MAX_CHUNK then f.size - f.offset else MAX_CHUNK;
      if capacity < required { capacity := required; }
      ghost var middle := pipe.bytes;
      ghost var c := SendFile(pipe, i, f, contents[i], capacity);
      FileSent(files, contents, cuts, c, old(pipe.bytes), middle, pipe.bytes);
      cuts := cuts + [c];
    }
    ok := true;
  }

  /** The receiving loop of one file. */
  method ReceiveFile(pipe: Pipe, index: u32, f: TransferFile, base: Text) returns (ok: bool, got: Text)
    requires f.offset <= f.size
    modifies pipe
    ensures var t := TakeFile(old(pipe.bytes), index, f.offset, f.size);
      got == base + t.data && (ok <==> t.rest.Some?) && (ok ==> pipe.bytes == t.rest.value)
  {
    got := base;
    var offset: nat := f.offset;
    ghost var t := TakeFile(pipe.bytes, index, f.offset, f.size);
    while offset < f.size
      invariant f.offset <= offset <= f.size
      invariant Resumes(t, got, base, TakeFile(pipe.bytes, index, offset, f.size))
    {
      ReceiveStep(pipe.bytes, index, offset, f.size, t, got, base);
      var data := pipe.ReadChunk(index, offset, f.size - offset);
      if data.None? { return false, got; }
      got := got + data.value;
      offset := offset + |data.value|;
    }
    ok := true;
  }

  /** What was written so far and what the rest of the loop will write are together what the loop writes. */
  ghost predicate Resumes(whole: Taken, got: Text, base: Text, rest: Taken) {
    base + whole.data == got + rest.data && whole.rest == rest.rest
  }

  lemma ReceiveStep(stream: Text, index: nat, offset: nat, size: nat, whole: Taken, got: Text, base: Text)
    requires offset < size && Resumes(whole, got, base, TakeFile(stream, index, offset, size))
    ensures match TakeChunk(stream, index, offset, size - offset)
      case None => got == base + whole.data && whole.rest.None?
      case Some(c) => Resumes(whole, got + c.data, base, TakeFile(c.rest, index, offset + |c.data|, size))
  {
  }

  lemma {:induction false} ReceivedStops(files: seq<TransferFile>, n: nat,
                                         hash: Text -> Text, store: Store, stream: Text)
    requires n <= |files| && Received(files, n, hash, store, stream).rest.None?
    ensures Received(files, |files|, hash, store, stream) == Received(files, n, hash, store, stream)
    decreases |files| - n
  {
    if n < |files| { ReceivedStops(files, n + 1, hash, store, stream); }
  }

  predicate Yields(r: Attempt, ok: bool, store: Store, bytes: Text) {
    store == r.store && (if ok then r.rest == Some(bytes) else r.rest.None?)
  }

  lemma ReceivedNext(files: seq<TransferFile>, n: nat,
                     hash: Text -> Text, store: Store, stream: Text, b: Store, rest: Text)
    requires n < |files| && Received(files, n, hash, store, stream) == Attempt(b, Some(rest))
    ensures Received(files, n + 1, hash, store, stream) == ReceiveOne(files[n], n, hash, b, rest)
  {
  }

  /** One file of `receive_file_chunks`: resize the partial file, receive and verify it. */
  method ReceiveNext(pipe: Pipe, f: TransferFile, index: u32, hash: Text -> Text, start: Store)
    returns (ok: bool, store: Store)
    requires f.offset <= f.size
    modifies pipe
    ensures Yields(ReceiveOne(f, index, hash, start, old(pipe.bytes)), ok, store, pipe.bytes)
  {
    var base := SetLength(PartialAt(start, SlotOf(f)), f.offset);
    var received, got := ReceiveFile(pipe, index, f, base);
    store := start[SlotOf(f) := got];
    if !received || |got| != f.size { return false, store; }
    if hash(got) != f.sha {
      store := store - {SlotOf(f)};
      assert store == start - {SlotOf(f)};
      return false, store;
    }
    ok := true;
  }

  /** `receive_file_chunks`. */
  method ReceiveFiles(pipe: Pipe, files: seq<TransferFile>, hash: Text -> Text, start: Store)
    returns (ok: bool, store: Store)
    requires |files| <= U32_MAX && forall i :: 0 <= i < |files| ==> files[i].offset <= files[i].size
    modifies pipe
    ensures Yields(Received(files, |files|, hash, start, old(pipe.bytes)), ok, store, pipe.bytes)
  {
    store := start;
    ghost var stream := pipe.bytes;
    for i := 0 to |files|
      invariant Received(files, i, hash, start, stream) == Attempt(store, Some(pipe.bytes))
    {
      ReceivedNext(files, i, hash, start, stream, store, pipe.bytes);
      ok, store := ReceiveNext(pipe, files[i], i, hash, store);
      if !ok {
        ReceivedStops(files, i + 1, hash, start, stream);
        return;
      }
    }
    ok := true;
  }
}
