/** The client of the end-to-end tests: what it uploads, how it puts a download together, and how it compares a file. */
module TestClient {
  import opened Wrappers
  import opened Words
  import opened Streaming

  const PERIOD: nat := 53
  const BUFFER_SIZE: nat := 32

  /** The upper-case letters, the lower-case letters and a line feed. */
  const REFERENCE: seq<byte> := seq(PERIOD, i requires 0 <= i < PERIOD => Letter(i))

  function Letter(i: nat): byte
    requires i < PERIOD
  {
    if i < 26 then (65 + i) as byte else if i < 52 then (97 + i - 26) as byte else 10
  }

  /** `n` bytes of the endlessly repeated reference, from position `p` on. */
  function Cyclic(p: nat, n: nat): (bytes: seq<byte>)
    ensures |bytes| == n
  {
    seq(n, i requires 0 <= i < n => Letter((p + i) % PERIOD))
  }

  /** It reads "ABC" to "XYZ", "abc" to "xyz", a line feed, and starts over. */
  lemma ReferenceReads(letter: nat)
    requires letter < 26
    ensures Cyclic(0, PERIOD)[letter] as int == 'A' as int + letter && Cyclic(0, PERIOD)[26 + letter] as int == 'a' as int + letter
    ensures |Cyclic(0, PERIOD)| == 26 + 26 + 1 && Cyclic(0, PERIOD)[52] as int == '\n' as int
    ensures Cyclic(52, 2)[1] as int == 'A' as int
  {
    hide Cyclic;
    CyclicReads(0, PERIOD, letter);
    CyclicReads(0, PERIOD, 26 + letter);
    CyclicReads(0, PERIOD, 52);
    CyclicReads(52, 2, 1);
  }

  lemma CyclicReads(p: nat, n: nat, i: nat)
    requires i < n
    ensures Cyclic(p, n)[i] == Letter((p + i) % PERIOD)
  {
  }

  lemma CyclicAdds(p: nat, m: nat, n: nat)
    ensures Cyclic(p, m) + Cyclic(p + m, n) == Cyclic(p, m + n)
  {
  }

  lemma PeriodRepeats(j: nat, k: nat)
    requires k == j + PERIOD
    ensures k % PERIOD == j % PERIOD
  {
  }

  lemma CyclicRepeats(p: nat, n: nat)
    ensures Cyclic(p + PERIOD, n) == Cyclic(p, n)
  {
    forall i | 0 <= i < n ensures Cyclic(p + PERIOD, n)[i] == Cyclic(p, n)[i] {
      PeriodRepeats(p + i, p + PERIOD + i);
    }
  }

  lemma CyclicFromStart(p: nat, n: nat)
    ensures Cyclic(p % PERIOD, n) == Cyclic(p, n)
    decreases p
  {
    hide Cyclic;
    if p >= PERIOD {
      PeriodRepeats(p - PERIOD, p);
      CyclicFromStart(p - PERIOD, n);
      CyclicRepeats(p - PERIOD, n);
    }
  }

  /** A window of `n` bytes at `p` runs over the end of a period. */
  predicate Crosses(p: nat, n: nat) {
    p % PERIOD + n > PERIOD
  }

  /** `substr`: no more than there is. */
  function Substr(s: seq<byte>, from: nat, count: nat): seq<byte>
    requires from <= |s|
  {
    if from + count <= |s| then s[from..from + count] else s[from..]
  }

  lemma WindowWithin(p: nat, n: nat)
    requires n <= PERIOD && !Crosses(p, n)
    ensures Substr(REFERENCE, p % PERIOD, n) == Cyclic(p, n)
  {
    CyclicFromStart(p, n);
  }

  /** A window that crosses is read in two pieces, the second at most one period long. */
  lemma WindowAcross(p: nat, n: nat)
    requires Crosses(p, n)
    ensures var rem := PERIOD - p % PERIOD;
            && rem < n && Substr(REFERENCE, p % PERIOD, rem) == Cyclic(p, rem)
            && Substr(REFERENCE, 0, n - rem) == Cyclic(p + rem, if n - rem <= PERIOD then n - rem else PERIOD)
  {
    var rem := PERIOD - p % PERIOD;
    WindowWithin(p, rem);
    assert (p + rem) % PERIOD == 0;
    WindowWithin(p + rem, if n - rem <= PERIOD then n - rem else PERIOD);
  }

  lemma CrossingIsDivision(p: nat, n: nat)
    requires 1 <= n
    ensures p / PERIOD == (p + n - 1) / PERIOD <==> !Crosses(p, n)
  {
  }

  lemma WithinVerdict(p: nat, data: seq<byte>, size: nat)
    requires !Crosses(p, size)
    ensures Substr(REFERENCE, p % PERIOD, size) == Substr(data, 0, size) <==> size <= |data| && data[..size] == Cyclic(p, size)
  {
    WindowWithin(p, size);
    hide Cyclic;
  }

  /** What a window that crosses is compared with: it ends at the second period end at the latest. */
  function Reach(p: nat, size: nat): nat
    requires Crosses(p, size)
  {
    var longest := PERIOD - p % PERIOD + PERIOD;
    if size <= longest then size else longest
  }

  /** The second comparison takes in all that is left of the buffer. */
  lemma AcrossVerdict(p: nat, data: seq<byte>, size: nat)
    requires Crosses(p, size)
    ensures var rem := PERIOD - p % PERIOD;
            && rem < size
            && (Substr(REFERENCE, p % PERIOD, rem) == Substr(data, 0, rem) ==> rem <= |data|)
            && ((Substr(REFERENCE, p % PERIOD, rem) == Substr(data, 0, rem) && Substr(REFERENCE, 0, size - rem) == data[rem..])
                <==> data == Cyclic(p, Reach(p, size)))
  {
    var rem, reach := PERIOD - p % PERIOD, Reach(p, size);
    WindowAcross(p, size);
    CyclicAdds(p, rem, reach - rem);
    hide Cyclic, Substr;
    TwoPieces(data, Cyclic(p, rem), Cyclic(p + rem, reach - rem));
  }

  lemma TwoPieces(data: seq<byte>, first: seq<byte>, second: seq<byte>)
    ensures first == Substr(data, 0, |first|) ==> |first| <= |data|
    ensures first == Substr(data, 0, |first|) && second == data[|first|..] <==> data == first + second
  {
    if |first| <= |data| {
      assert data == data[..|first|] + data[|first|..];
    }
  }

  lemma SplitsAt<T>(s: seq<T>, a: seq<T>, b: seq<T>)
    requires |s| == |a| + |b|
    ensures s == a + b <==> s[..|a|] == a && s[|a|..] == b
  {
    assert s == s[..|a|] + s[|a|..];
  }

  /** What the comparison accepts, for every buffer and every size. */
  predicate Matches(p: nat, data: seq<byte>, size: nat) {
    && size > 0
    && if Crosses(p, size) then data == Cyclic(p, Reach(p, size))
       else size <= |data| && data[..size] == Cyclic(p, size)
  }

  /**
   On windows of at most a period within the buffer, the comparison accepts no wrong bytes, and turns the right
   ones down exactly if there are none to compare or the window crosses and does not fill the buffer.
   */
  lemma MatchesExactlyWhen(p: nat, data: seq<byte>, size: nat)
    requires size <= |data| && size <= PERIOD
    ensures Matches(p, data, size) <==> size > 0 && data[..size] == Cyclic(p, size) && (Crosses(p, size) ==> |data| == size)
  {
    hide Cyclic;
  }

  /**
   What the comparison accepts is the reference for as long as was asked if and only if the window ends at the
   second period end at the latest: beyond it, fewer bytes pass.
   */
  lemma SoundExactlyWhen(p: nat, size: nat)
    ensures (forall data :: Matches(p, data, size) ==> size <= |data| && data[..size] == Cyclic(p, size))
       <==> !Crosses(p, size) || Reach(p, size) == size
  {
    hide Cyclic;
    if Crosses(p, size) {
      var shown := Cyclic(p, Reach(p, size));
      assert Matches(p, shown, size) && |shown| == Reach(p, size);
      assert shown[..|shown|] == shown;
    }
  }

  /** Two periods pass for any greater number. */
  lemma LongWindowsPass(size: nat)
    requires size > PERIOD + PERIOD
    ensures Matches(0, Cyclic(0, PERIOD + PERIOD), size) && !Matches(0, Cyclic(0, size), size)
  {
    assert |Cyclic(0, size)| != |Cyclic(0, PERIOD + PERIOD)|;
  }

  class TestBlob {
    var position: nat

    constructor ()
      ensures position == 0
    {
      position := 0;
    }

    /**
     Compares the first `size` bytes of the buffer with the reference from the current position on. When the
     window crosses a period the whole rest of the buffer is compared, not just `size` bytes of it, and no more
     than one further period of the reference.
     */
    method Compare(data: seq<byte>, size: nat) returns (same: bool)
      modifies this
      ensures position == old(position) + size
      ensures same <==> Matches(old(position), data, size)
    {
      if size < 1 {
        return false;
      }
      hide Cyclic, Letter, Substr;
      var end := position + size;
      same := false;
      CrossingIsDivision(position, size);
      if position / PERIOD == (end - 1) / PERIOD {
        WithinVerdict(position, data, size);
        same := Substr(REFERENCE, position % PERIOD, size) == Substr(data, 0, size);
      } else {
        var b := position % PERIOD;
        var rem := PERIOD - b;
        AcrossVerdict(position, data, size);
        if Substr(REFERENCE, b, rem) == Substr(data, 0, rem) {
          same := Substr(REFERENCE, 0, size - rem) == data[rem..];
        }
      }
      position := position + size;
    }
  }

  // ----- The stream of an upload -----

  /** Full chunks of one period each, but for the last; one empty chunk for an empty blob. */
  predicate WellSized(chunks: seq<Message>, size: nat) {
    && (forall k | 0 <= k < |chunks| :: chunks[k].Chunk? && |chunks[k].data| <= PERIOD && (k < |chunks| - 1 ==> |chunks[k].data| == PERIOD))
    && |chunks| == if size == 0 then 1 else (size + PERIOD - 1) / PERIOD
  }

  /** Faults 1 and 6 of the tests name a wrong session and announce a wrong size. */
  predicate IsUpload(messages: seq<Message>, session: nat, size: nat, fault: nat) {
    && messages != []
    && messages[0] == Metadata(API_VERSION, Add64(session, if fault == 1 then 1 else 0), Some(Add64(size, if fault == 6 then 1 else 0)))
    && WellSized(messages[1..], size)
    && Payload(messages[1..]) == Cyclic(0, size)
  }

  lemma {:induction false} PayloadOfOneMore(messages: seq<Message>, data: seq<byte>)
    requires AllChunks(messages)
    ensures Payload(messages + [Chunk(data)]) == Payload(messages) + data
    decreases |messages|
  {
    if messages == [] {
      assert Payload([Chunk(data)]) == data + Payload([Chunk(data)][1..]);
    } else {
      assert messages[0] in messages;
      assert (messages + [Chunk(data)])[1..] == messages[1..] + [Chunk(data)];
      PayloadOfOneMore(messages[1..], data);
    }
  }

  lemma BeginningIsCyclic(count: nat)
    requires count <= PERIOD
    ensures REFERENCE[..count] == Cyclic(0, count)
  {
  }

  lemma {:induction false} CyclicAfterPeriods(periods: nat, count: nat)
    ensures Cyclic(PERIOD * periods, count) == Cyclic(0, count)
    decreases periods
  {
    hide Cyclic;
    if periods == 0 {
    } else {
      CyclicRepeats(PERIOD * (periods - 1), count);
      CyclicAfterPeriods(periods - 1, count);
    }
  }

  predicate WholeChunks(chunks: seq<Message>) {
    forall k | 0 <= k < |chunks| :: chunks[k].Chunk? && |chunks[k].data| == PERIOD
  }

  /** After whole periods, a chunk from the beginning of the reference continues the endless one. */
  lemma ChunkContinues(chunks: seq<Message>, data: seq<byte>)
    requires WholeChunks(chunks) && Payload(chunks) == Cyclic(0, PERIOD * |chunks|) && data == Cyclic(0, |data|)
    ensures Payload(chunks + [Chunk(data)]) == Cyclic(0, PERIOD * |chunks| + |data|)
  {
    hide Cyclic, Payload, AllChunks;
    var done := PERIOD * |chunks|;
    CyclicAfterPeriods(|chunks|, |data|);
    CyclicAdds(0, done, |data|);
    assert 0 + done == done;
    WholeChunksAreChunks(chunks);
    PayloadOfOneMore(chunks, data);
  }

  lemma WholeChunksAreChunks(chunks: seq<Message>)
    requires WholeChunks(chunks)
    ensures AllChunks(chunks)
  {
  }

  lemma OneMoreChunk(chunks: seq<Message>, data: seq<byte>)
    requires WholeChunks(chunks) && |data| <= PERIOD
    ensures |data| == PERIOD ==> WholeChunks(chunks + [Chunk(data)])
    ensures |data| > 0 || chunks == [] ==> WellSized(chunks + [Chunk(data)], PERIOD * |chunks| + |data|)
  {
  }

  // ----- Comparing a file -----

  /** How much of a file of `n` bytes is left for the last, partly filled buffer. */
  function Tail(n: nat): nat {
    n % BUFFER_SIZE
  }

  /** The comparer is at `p`: the last buffer is only partly filled and runs over the end of a period. */
  predicate TailCrosses(p: nat, n: nat) {
    Tail(n) > 0 && Crosses(p + n - Tail(n), Tail(n))
  }

  /** The file is a piece of the endless reference from `p` on. */
  predicate IsPiece(p: nat, file: seq<byte>) {
    file == Cyclic(p, |file|)
  }

  /** What a comparer at `p` accepts. */
  predicate Accepted(p: nat, file: seq<byte>) {
    file == [] || (IsPiece(p, file) && !TailCrosses(p, |file|))
  }

  lemma TailIsLast(n: nat, at: nat, size: nat)
    requires at % BUFFER_SIZE == 0 && at < n
    requires size == if n - at < BUFFER_SIZE then n - at else BUFFER_SIZE
    ensures size < BUFFER_SIZE <==> size == Tail(n) > 0 && at + size == n
    ensures size < BUFFER_SIZE ==> at == n - Tail(n)
    ensures size == BUFFER_SIZE && at + size == n ==> Tail(n) == 0
    ensures at + size < n ==> (at + size) % BUFFER_SIZE == 0
  {
  }

  /** The buffer at `at` decides: everything before it matched. */
  lemma BufferDecides(p: nat, file: seq<byte>, at: nat, size: nat)
    requires at + size <= |file| && file[..at] == Cyclic(p, at)
    ensures file[..at + size] == Cyclic(p, at + size) <==> file[at..at + size] == Cyclic(p + at, size)
    ensures file[at..at + size] != Cyclic(p + at, size) ==> !IsPiece(p, file)
  {
    hide Cyclic;
    var head, rest := file[..at + size], |file| - (at + size);
    CyclicAdds(p, at, size);
    assert head[..at] == file[..at] && head[at..] == file[at..at + size];
    SplitsAt(head, Cyclic(p, at), Cyclic(p + at, size));
    CyclicAdds(p, at + size, rest);
    SplitsAt(file, Cyclic(p, at + size), Cyclic(p + (at + size), rest));
  }

  /** One buffer of the file: its verdict carries the comparison on, or decides it. */
  lemma OneBuffer(p: nat, file: seq<byte>, at: nat, size: nat, buffer: seq<byte>)
    requires at % BUFFER_SIZE == 0 && at < |file| && file[..at] == Cyclic(p, at)
    requires size == if |file| - at < BUFFER_SIZE then |file| - at else BUFFER_SIZE
    requires |buffer| == BUFFER_SIZE && buffer[..size] == file[at..at + size]
    ensures at + size < |file| ==> (at + size) % BUFFER_SIZE == 0
    ensures Matches(p + at, buffer, size) <==> file[..at + size] == Cyclic(p, at + size) && (at + size == |file| ==> !TailCrosses(p, |file|))
    ensures !Matches(p + at, buffer, size) ==> !Accepted(p, file)
  {
    hide Cyclic, Matches, Crosses, Tail;
    BufferDecides(p, file, at, size);
    TailIsLast(|file|, at, size);
    MatchesExactlyWhen(p + at, buffer, size);
    if at + size == |file| {
      assert file[..at + size] == file;
    }
  }

  /**
   What the client asks for; faults 1, 5 and 3 put session, blob and tag off by one, in 64 bits. It never sets the
   storage, which therefore is 0.
   */
  function Asked(session: nat, blob: nat, tag: nat, fault: nat): GetRequest {
    match fault
    case 1 => GetRequest(API_VERSION, ForSession(Add64(session, 1)), Reference(0, Add64(blob, 0), Add64(tag, 0)))
    case 5 => GetRequest(API_VERSION, ForSession(Add64(session, 0)), Reference(0, Add64(blob, 1), Add64(tag, 0)))
    case 3 => GetRequest(API_VERSION, ForSession(Add64(session, 0)), Reference(0, Add64(blob, 0), Add64(tag, 1)))
    case _ => GetRequest(API_VERSION, ForSession(Add64(session, 0)), Reference(0, Add64(blob, 0), Add64(tag, 0)))
  }

  class Client {
    const session: nat
    const reference: TestBlob

    constructor (session: nat)
      ensures this.session == session && fresh(reference) && reference.position == 0
    {
      this.session := session;
      reference := new TestBlob();
    }

    /** The requests written to the server. */
    method Put(size: nat, fault: nat) returns (messages: seq<Message>)
      ensures IsUpload(messages, session, size, fault)
    {
      hide Cyclic, Payload, WellSized, WholeChunks;
      var metadata := Metadata(API_VERSION, Add64(session, if fault == 1 then 1 else 0), Some(Add64(size, if fault == 6 then 1 else 0)));
      var chunks: seq<Message> := [];
      var transferred := 0;
      NothingYet();
      while true
        invariant transferred == PERIOD * |chunks| && (chunks == [] || transferred < size)
        invariant WholeChunks(chunks) && Payload(chunks) == Cyclic(0, transferred)
        decreases size - transferred, chunks == []
      {
        var count := if size - transferred < PERIOD then size - transferred else PERIOD;
        var chunk := REFERENCE[..count];
        BeginningIsCyclic(count);
        ChunkContinues(chunks, chunk);
        OneMoreChunk(chunks, chunk);
        chunks := chunks + [Chunk(chunk)];
        transferred := transferred + count;
        if transferred >= size {
          break;
        }
      }
      messages := [metadata] + chunks;
      assert messages[1..] == chunks;
    }

    /** The request for a download; three faults spoil one field each. */
    method Ask(blob: word, tag: word, fault: nat) returns (request: GetRequest)
      ensures request == Asked(session, blob, tag, fault)
    {
      var reference := Reference(0, Add64(blob, if fault == 5 then 1 else 0), Add64(tag, if fault == 3 then 1 else 0));
      request := GetRequest(API_VERSION, ForSession(Add64(session, if fault == 1 then 1 else 0)), reference);
    }

    /**
     The file a download leaves behind, `None` if it cannot be opened; `ok` is false if the call throws. Nothing
     is read from the server before the file is open.
     */
    method Get(opens: bool, status: Status, responses: seq<Response>) returns (left: Option<seq<byte>>, ok: bool)
      ensures left.Some? <==> opens
      ensures !opens ==> !ok
      ensures opens && responses == [] ==> left.value == [] && (ok <==> status == Ok)
      ensures opens && responses != [] && !responses[0].BlobSize? ==> left.value == [] && !ok
      ensures opens && responses != [] && responses[0].BlobSize? ==>
                left.value == Sent(responses[1..]) && (ok <==> status == Ok && |left.value| == responses[0].size)
    {
      if !opens {
        return None, false;
      }
      var file: seq<byte> := [];
      if responses != [] {
        if !responses[0].BlobSize? {
          return Some(file), false;
        }
        for i := 1 to |responses|
          invariant file + Sent(responses[i..]) == Sent(responses[1..])
        {
          assert responses[i..][1..] == responses[i + 1..];
          if responses[i].Data? {
            file := file + responses[i].data;
          }
        }
        if |file| != responses[0].size {
          return Some(file), false;
        }
      }
      return Some(file), status == Ok;
    }

    /**
     The file is read through one buffer, which keeps its old bytes behind a short read. Exactly the pieces of
     the reference are accepted whose last buffer does not run over the end of a period; an empty file always is.
     `None` is a file that cannot be opened.
     */
    method Compare(file: Option<seq<byte>>) returns (same: bool)
      modifies reference
      ensures same <==> file.Some? && Accepted(old(reference.position), file.value)
      ensures same ==> reference.position == old(reference.position) + |file.value|
    {
      if file.None? {
        return false;
      }
      hide Cyclic, Matches, TailCrosses;
      var bytes, p := file.value, reference.position;
      var buffer := seq(BUFFER_SIZE, _ => 0 as byte);
      var at := 0;
      while at < |bytes|
        invariant at <= |bytes| && (at < |bytes| ==> at % BUFFER_SIZE == 0) && |buffer| == BUFFER_SIZE
        invariant reference.position == p + at && bytes[..at] == Cyclic(p, at)
        invariant at == |bytes| > 0 ==> !TailCrosses(p, |bytes|)
      {
        var size := if |bytes| - at < BUFFER_SIZE then |bytes| - at else BUFFER_SIZE;
        buffer := bytes[at..at + size] + buffer[size..];
        assert buffer[..size] == bytes[at..at + size];
        OneBuffer(p, bytes, at, size, buffer);
        var matches := reference.Compare(buffer, size);
        if !matches {
          return false;
        }
        at := at + size;
      }
      assert bytes[..at] == bytes;
      return true;
    }
  }

  lemma NothingYet()
    ensures Cyclic(0, 0) == [] && Payload([]) == [] && WholeChunks([])
  {
  }
}
