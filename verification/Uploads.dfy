/** What a `Put` without interference leaves behind, whatever stream it is given. */
module Uploads {
  import opened Wrappers
  import opened Words
  import opened Naming
  import opened BlobSessions
  import opened Streaming

  /** The store has room for `size` more bytes. */
  predicate Fits(w: World, size: nat) {
    w.quota == 0 || w.usage + size <= w.quota
  }

  /** No message is so large that adding it to a counter within the quota leaves 64 bits. */
  ghost predicate NoWrap(quota: word, messages: seq<Message>) {
    forall m | m in messages && m.Chunk? :: quota == 0 || quota + |m.data| < WORD_LIMIT
  }

  /** The next blob id is unused, both as a key and as a file name, and the counter is within the quota. */
  predicate Ready(w: World, id: nat) {
    && id in w.sessions
    && w.lastBlob + 1 !in w.sessions[id].blobs
    && UploadPath(w.directory, w.lastBlob + 1) !in w.files
    && Fits(w, 0)
  }

  /** The state in which the next upload of session `id` holds exactly `data`, charged and on disk. */
  ghost function WithUpload(w: World, id: nat, data: seq<byte>): (u: World)
    requires Ready(w, id) && Fits(w, |data|)
    ensures u.sessions.Keys == w.sessions.Keys && id in u.sessions
  {
    var blob := w.lastBlob + 1;
    var path := UploadPath(w.directory, blob);
    WithBlobs(w, id, w.sessions[id].blobs[blob := Entry(path, |data| % WORD_LIMIT)]).(
      lastBlob := blob,
      usage := if w.quota == 0 then w.usage else w.usage + |data|,
      files := w.files[path := data])
  }

  /** The wrapped 64-bit comparison decides as plain arithmetic would if and only if the sum does not wrap. */
  lemma ReserveIsExact(w: World, size: word)
    requires w.quota != 0 && w.usage <= w.quota
    ensures (Reserve(w, size).1 <==> Fits(w, size)) <==> w.usage + size < WORD_LIMIT
    ensures w.usage + size < WORD_LIMIT && Fits(w, size) ==> Reserve(w, size).0 == w.(usage := w.usage + size)
  {
  }

  /** Whatever the counter may hold, a request is decided exactly if and only if quota and request together fit 64 bits. */
  lemma NoWrapIsNeeded(w: World, size: word)
    requires w.quota != 0
    ensures (forall u: word | u <= w.quota :: Reserve(w.(usage := u), size).1 <==> Fits(w.(usage := u), size))
       <==> w.quota + size < WORD_LIMIT
  {
    if w.quota + size >= WORD_LIMIT {
      ReserveIsExact(w.(usage := w.quota), size);
    } else {
      forall u: word | u <= w.quota ensures Reserve(w.(usage := u), size).1 <==> Fits(w.(usage := u), size) {
        ReserveIsExact(w.(usage := u), size);
      }
    }
  }

  lemma CreationStartsEmpty(w: World, id: nat)
    requires Ready(w, id)
    ensures var (w1, blob, path) := CreateBlobFile(w, id);
            && blob == w.lastBlob + 1 && path == UploadPath(w.directory, blob)
            && Open(w1, path) == WithUpload(w, id, []) && w1 == Unlink(WithUpload(w, id, []), path)
  {
    hide UploadPath;
    var path := UploadPath(w.directory, w.lastBlob + 1);
    assert w.files[path := []] - {path} == w.files;
  }

  lemma DeletingUndoesUpload(w: World, id: nat, data: seq<byte>)
    requires Ready(w, id) && Fits(w, |data|)
    ensures DeleteBlobFile(WithUpload(w, id, data), id, w.lastBlob + 1) == NextBlobId(w)
  {
    var blob := w.lastBlob + 1;
    var u := WithUpload(w, id, data);
    assert u.sessions[id].blobs - {blob} == w.sessions[id].blobs;
    assert w.sessions[id := w.sessions[id]] == w.sessions;
    assert u.files - {UploadPath(w.directory, blob)} == w.files;
  }

  /** One more chunk is refused without a trace if it does not fit. */
  lemma ChunkRefused(w: World, id: nat, data: seq<byte>, more: seq<byte>)
    requires Ready(w, id) && Fits(w, |data|) && w.quota + |more| < WORD_LIMIT
    requires !Fits(w, |data + more|)
    ensures ReserveFor(WithUpload(w, id, data), id, w.lastBlob + 1, |more|) == (WithUpload(w, id, data), Refused)
  {
  }

  /** One more chunk is charged and written if it fits. */
  lemma ChunkAccepted(w: World, id: nat, data: seq<byte>, more: seq<byte>)
    requires Ready(w, id) && Fits(w, |data + more|)
    ensures var (w1, reservation) := ReserveFor(WithUpload(w, id, data), id, w.lastBlob + 1, |more|);
            reservation == Granted && Append(w1, UploadPath(w.directory, w.lastBlob + 1), more) == WithUpload(w, id, data + more)
  {
    hide UploadPath;
    var blob, path := w.lastBlob + 1, UploadPath(w.directory, w.lastBlob + 1);
    var before, after := Entry(path, |data| % WORD_LIMIT), Entry(path, |data + more| % WORD_LIMIT);
    var u := WithUpload(w, id, data);
    var session := w.sessions[id];
    TotalAdds(data, more);
    hide Add64;
    Overwritten(session.blobs, blob, before, after);
    Overwritten(w.sessions, id, u.sessions[id], session.(blobs := session.blobs[blob := after]));
    Overwritten(w.files, path, data, data + more);
    RoomIsReserved(w, id, data, more);
  }

  lemma RoomIsReserved(w: World, id: nat, data: seq<byte>, more: seq<byte>)
    requires Ready(w, id) && Fits(w, |data + more|)
    ensures var u := WithUpload(w, id, data);
            Reserve(u, |more|) == (u.(usage := WithUpload(w, id, data + more).usage), true)
  {
    hide UploadPath;
  }

  lemma Overwritten<K, V>(m: map<K, V>, k: K, first: V, second: V)
    ensures m[k := first][k := second] == m[k := second]
  {
  }

  lemma TotalAdds(data: seq<byte>, more: seq<byte>)
    ensures Add64(|data| % WORD_LIMIT, |more|) == |data + more| % WORD_LIMIT
  {
  }

  /**
   The receive loop in closed form. Only two things about the rest of the stream matter: the bytes of its
   leading chunks, and whether something other than a chunk follows them.
   */
  lemma {:induction false} ReceiveOutcome(w: World, id: nat, data: seq<byte>, messages: seq<Message>)
    requires Ready(w, id) && Fits(w, |data|) && NoWrap(w.quota, messages)
    ensures var all := data + Payload(messages);
            Receive(WithUpload(w, id, data), id, w.lastBlob + 1, UploadPath(w.directory, w.lastBlob + 1), messages, |data| % WORD_LIMIT)
            == if !Fits(w, |all|) then (NextBlobId(w), Exhausted)
               else (WithUpload(w, id, all), if AllChunks(messages) then Complete(|all| % WORD_LIMIT) else NotAChunk)
    decreases |messages|
  {
    hide ReserveFor, DeleteBlobFile, Append, UploadPath, WithUpload, Ready, Add64;
    if messages == [] {
      assert data + Payload(messages) == data;
    } else if !messages[0].Chunk? {
      assert data + Payload(messages) == data;
      assert messages[0] in messages;
    } else {
      var more := messages[0].data;
      assert messages[0] in messages;
      assert (data + more) + Payload(messages[1..]) == data + Payload(messages);
      if Fits(w, |data + more|) {
        ChunkAccepted(w, id, data, more);
        TotalAdds(data, more);
        ReceiveOutcome(w, id, data + more, messages[1..]);
        assert AllChunks(messages) <==> AllChunks(messages[1..]) by {
          assert messages == [messages[0]] + messages[1..];
        }
      } else {
        ChunkRefused(w, id, data, more);
        DeletingUndoesUpload(w, id, data);
      }
    }
  }

  // ----- The whole call -----

  /** A well-formed request of session `id`: acceptable metadata, then anything. */
  predicate StartsUpload(messages: seq<Message>, id: nat) {
    messages != [] && messages[0].Metadata? && messages[0].apiVersion <= API_VERSION && messages[0].session == id
  }

  /** The announced size, if there is one, is the number of bytes sent, counted in 64 bits. */
  predicate SizeAgrees(messages: seq<Message>)
    requires messages != [] && messages[0].Metadata?
  {
    messages[0].blobSize.Some? ==> messages[0].blobSize.value == |Payload(messages[1..])| % WORD_LIMIT
  }

  /**
   Put in closed form. A file that cannot be opened leaves an entry of charge zero. Refusal for lack of room
   spends an id and changes nothing else; the other two failures leave the entry charged with exactly the bytes
   taken in, with or without its file.
   */
  lemma PutOutcome(w: World, config: Config, opens: bool, id: nat, messages: seq<Message>)
    requires Ready(w, id) && NoWrap(w.quota, messages) && StartsUpload(messages, id)
    ensures var data := Payload(messages[1..]);
            var blob := w.lastBlob + 1;
            Put(w, config, opens, messages)
            == if !opens then (Unlink(WithUpload(w, id, []), UploadPath(w.directory, blob)), PutReply(FailedPrecondition, None))
               else if !Fits(w, |data|) then (NextBlobId(w), PutReply(ResourceExhausted, None))
               else if !AllChunks(messages[1..]) then (WithUpload(w, id, data), PutReply(InvalidArgument, None))
               else if !SizeAgrees(messages) then
                 (Unlink(WithUpload(w, id, data), UploadPath(w.directory, blob)), PutReply(InvalidArgument, None))
               else (WithUpload(w, id, data), PutReply(Ok, Some(Reference(SESSION_STORAGE, blob, config.referenceTag(blob, id)))))
  {
    hide UploadPath, WithUpload, CreateBlobFile, Open, Receive, Payload, AllChunks, NoWrap;
    CreationStartsEmpty(w, id);
    ChunksAfterHead(w.quota, messages);
    ReceiveOutcome(w, id, [], messages[1..]);
    assert [] + Payload(messages[1..]) == Payload(messages[1..]);
  }

  lemma ChunksAfterHead(quota: word, messages: seq<Message>)
    requires messages != [] && NoWrap(quota, messages)
    ensures NoWrap(quota, messages[1..])
  {
  }

  /** A stream that never reaches a session is the only one that leaves no trace; any other spends an id at least. */
  lemma NoTraceExactlyWhen(w: World, config: Config, opens: bool, messages: seq<Message>)
    requires (forall id | id in w.sessions :: Ready(w, id)) && NoWrap(w.quota, messages)
    ensures var (after, reply) := Put(w, config, opens, messages);
            && (after == w <==> !(exists id :: id in w.sessions && StartsUpload(messages, id)))
            && (after == w ==> reply.reference.None? && reply.status in {InvalidArgument, Unavailable, NotFound})
            && (messages != [] && messages[0].Metadata? && messages[0].apiVersion > API_VERSION ==> reply.status == Unavailable)
  {
    if messages != [] && messages[0].Metadata? && messages[0].apiVersion <= API_VERSION && messages[0].session in w.sessions {
      var id := messages[0].session;
      assert StartsUpload(messages, id);
      PutOutcome(w, config, opens, id, messages);
      hide Put, Payload, AllChunks, SizeAgrees;
    }
  }

  /**
   How an upload goes on once its entry has been removed: the next chunk is its last. If the store grants it, the
   bytes stay on the counter and the client is told that the blob is not found.
   */
  lemma RemovedUploadOutcome(w: World, config: Config, id: nat, blob: nat, path: string, announced: Option<nat>, messages: seq<Message>, total: word)
    requires id in w.sessions && blob !in w.sessions[id].blobs && messages != [] && NoWrap(w.quota, messages) && Fits(w, 0)
    ensures var (after, intake) := Receive(w, id, blob, path, messages, total);
            Conclude(after, config, id, blob, path, announced, intake)
            == if !messages[0].Chunk? then (w, PutReply(InvalidArgument, None))
               else if !Fits(w, |messages[0].data|) then (w, PutReply(ResourceExhausted, None))
               else (w.(usage := if w.quota == 0 then w.usage else w.usage + |messages[0].data|), PutReply(NotFound, None))
  {
    assert messages[0] in messages;
  }

  /** The stream gets as far as a live session. */
  predicate ReachesSession(w: World, messages: seq<Message>) {
    messages != [] && messages[0].Metadata? && messages[0].session in w.sessions && StartsUpload(messages, messages[0].session)
  }

  /** Which reply an undisturbed upload gets, for every stream: each status exactly when, and a reference only with success. */
  lemma PutStatusExactlyWhen(w: World, config: Config, opens: bool, messages: seq<Message>)
    requires (forall id | id in w.sessions :: Ready(w, id)) && NoWrap(w.quota, messages)
    ensures var reply := Put(w, config, opens, messages).1;
            var begun := ReachesSession(w, messages) && opens;
            && (reply.status == Unavailable <==> messages != [] && messages[0].Metadata? && messages[0].apiVersion > 1)
            && (reply.status == NotFound <==>
                  messages != [] && messages[0].Metadata? && messages[0].apiVersion <= 1 && messages[0].session !in w.sessions)
            && (reply.status == FailedPrecondition <==> ReachesSession(w, messages) && !opens)
            && (reply.status == ResourceExhausted <==> begun && !Fits(w, |Payload(messages[1..])|))
            && (reply.status == InvalidArgument <==>
                  || messages == [] || !messages[0].Metadata?
                  || (begun && Fits(w, |Payload(messages[1..])|) && !(AllChunks(messages[1..]) && SizeAgrees(messages))))
            && (reply.status == Ok <==>
                  begun && Fits(w, |Payload(messages[1..])|) && AllChunks(messages[1..]) && SizeAgrees(messages))
            && reply.status in {Unavailable, NotFound, FailedPrecondition, ResourceExhausted, InvalidArgument, Ok}
            && (reply.reference.Some? <==> reply.status == Ok)
  {
    if ReachesSession(w, messages) {
      PutOutcome(w, config, opens, messages[0].session, messages);
      hide Put, Payload, AllChunks, SizeAgrees;
    }
  }

  /** However the bytes are split into chunks, empty ones included, the outcome is the same. */
  lemma SplittingDoesNotMatter(w: World, config: Config, id: nat, first: seq<Message>, second: seq<Message>)
    requires Ready(w, id) && NoWrap(w.quota, first) && NoWrap(w.quota, second)
    requires StartsUpload(first, id) && StartsUpload(second, id) && first[0] == second[0]
    requires AllChunks(first[1..]) && AllChunks(second[1..])
    requires Payload(first[1..]) == Payload(second[1..])
    ensures Put(w, config, true, first) == Put(w, config, true, second)
    ensures Put(w, config, true, first).1.status == Ok <==> Fits(w, |Payload(first[1..])|) && SizeAgrees(first)
  {
    PutOutcome(w, config, true, id, first);
    PutOutcome(w, config, true, id, second);
  }

  /** What a failed upload leaves behind is given back in full by removing the blob. */
  lemma FailureIsGivenBack(w: World, config: Config, opens: bool, id: nat, messages: seq<Message>)
    requires Ready(w, id) && NoWrap(w.quota, messages) && StartsUpload(messages, id)
    requires Put(w, config, opens, messages).1.status != Ok
    ensures DeleteBlobFile(Put(w, config, opens, messages).0, id, w.lastBlob + 1) == NextBlobId(w)
  {
    hide Put, Payload, AllChunks, SizeAgrees;
    var data := if opens then Payload(messages[1..]) else [];
    PutOutcome(w, config, opens, id, messages);
    if Fits(w, |data|) {
      DeletingUndoesUpload(w, id, data);
      UnlinkingFirstChangesNothing(WithUpload(w, id, data), id, w.lastBlob + 1);
    }
  }

  lemma UnlinkingFirstChangesNothing(w: World, id: nat, blob: nat)
    requires id in w.sessions && blob in w.sessions[id].blobs
    ensures DeleteBlobFile(Unlink(w, w.sessions[id].blobs[blob].path), id, blob) == DeleteBlobFile(w, id, blob)
  {
    var path := w.sessions[id].blobs[blob].path;
    assert w.files - {path} - {path} == w.files - {path};
  }
}
