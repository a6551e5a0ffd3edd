/** The end-to-end tests against the server: which of them pass, for every size of blob. */
module EndToEnd {
  import opened Wrappers
  import opened Words
  import opened Naming
  import opened BlobSessions
  import opened Streaming
  import opened Uploads
  import opened Downloads
  import opened Runs
  import opened Delivery
  import opened TestClient

  lemma WellSizedIsChunks(messages: seq<Message>, quota: word, size: nat)
    requires messages != [] && messages[0].Metadata? && WellSized(messages[1..], size) && (quota == 0 || quota + PERIOD < WORD_LIMIT)
    ensures AllChunks(messages[1..]) && NoWrap(quota, messages)
  {
    forall m | m in messages && m.Chunk? ensures quota == 0 || quota + |m.data| < WORD_LIMIT {
      var k :| 0 <= k < |messages| && messages[k] == m;
      assert messages[1..][k - 1] == m;
    }
  }

  /** The client's upload is taken in exactly when it fits, and leaves the reference on disk. */
  lemma ClientUpload(w: World, config: Config, id: word, size: word, messages: seq<Message>)
    requires Inv(w) && id in w.sessions && (w.quota == 0 || w.quota + PERIOD < WORD_LIMIT) && IsUpload(messages, id, size, 0)
    ensures StartsUpload(messages, id) && NoWrap(w.quota, messages)
    ensures var (after, reply) := Put(w, config, true, messages);
            && reply.status == (if Fits(w, size) then Ok else ResourceExhausted)
            && (Fits(w, size) ==>
                  && Find(after, id, w.lastBlob + 1) == Some(UploadPath(w.directory, w.lastBlob + 1))
                  && UploadPath(w.directory, w.lastBlob + 1) in after.files
                  && after.files[UploadPath(w.directory, w.lastBlob + 1)] == Cyclic(0, size))
  {
    hide Inv, Put, Cyclic, UploadPath, NoWrap, Ready, AllChunks;
    WellSizedIsChunks(messages, w.quota, size);
    InvGivesReady(w, id);
    PutOutcome(w, config, true, id, messages);
  }

  /** The upload test, a fresh client comparing the file its upload left, passes exactly for these sizes. */
  lemma UploadTestPassesExactlyWhen(w: World, config: Config, id: word, size: word, messages: seq<Message>)
    requires Inv(w) && id in w.sessions && (w.quota == 0 || w.quota + PERIOD < WORD_LIMIT) && IsUpload(messages, id, size, 0)
    ensures var (after, reply) := Put(w, config, true, messages);
            var path := UploadPath(w.directory, w.lastBlob + 1);
            (reply.status == Ok && path in after.files && Accepted(0, after.files[path]))
            <==> Fits(w, size) && !TailCrosses(0, size)
  {
    ClientUpload(w, config, id, size, messages);
    hide Inv, Put, Cyclic, Fits, UploadPath, IsUpload;
  }

  /**
   The download after it, by the client's own request for the blob and its tag, with any other requests in between
   that spare the blob: the client gets the reference back without throwing, for every chunk size of the server.
   */
  lemma ClientDownload(w: World, config: Config, id: word, size: word, messages: seq<Message>, ops: seq<Operation>, tag: word)
    requires Inv(w) && id in w.sessions && (w.quota == 0 || w.quota + PERIOD < WORD_LIMIT) && IsUpload(messages, id, size, 0)
    requires Fits(w, size) && config.chunkSize > 0 && w.lastBlob + 1 < WORD_LIMIT
    requires TagPasses(config, WantedTag(w, config, id, w.lastBlob + 1), tag)
    requires var after := Put(w, config, true, messages).0;
             AllowedRun(after, config, ops) && SparesAlong(after, config, ops, id, w.lastBlob + 1)
    ensures var last := Run(Put(w, config, true, messages).0, config, ops);
            var (status, responses) := Get(last, config, Asked(id, w.lastBlob + 1, tag, 0));
            && status == Ok && responses != [] && responses[0] == BlobSize(size)
            && Sent(responses[1..]) == Cyclic(0, size)
            && (Accepted(0, Sent(responses[1..])) <==> !TailCrosses(0, size))
  {
    ClientUpload(w, config, id, size, messages);
    hide Inv, Put, Get, Fits, UploadPath, NoWrap, AllowedRun, SparesAlong, AsksFor, TagPasses;
    var after := Put(w, config, true, messages).0;
    UploadIsHeld(w, config, id, messages);
    RunSpares(after, config, ops, id, w.lastBlob + 1, w.sessions[id].transaction, Payload(messages[1..]));
    AskedIsHeld(w, config, Run(after, config, ops), id, w.lastBlob + 1, w.sessions[id].transaction, Payload(messages[1..]), tag);
    RoundTripAcrossRuns(w, config, id, messages, ops, Asked(id, w.lastBlob + 1, tag, 0));
  }

  /** The client asks for the blob that is there, and the tag it wants has not changed. */
  lemma AskedIsHeld(w: World, config: Config, last: World, id: word, blob: word, transaction: Option<nat>, data: seq<byte>, tag: word)
    requires Holds(last, id, blob, transaction, data) && id in w.sessions && w.sessions[id].transaction == transaction
    ensures AsksFor(last, Asked(id, blob, tag, 0), id, blob) && Asked(id, blob, tag, 0).reference.tag == tag
    ensures WantedTag(last, config, id, blob) == WantedTag(w, config, id, blob)
  {
    hide UploadPath;
  }

  /** Fault 1, the session off by one: nothing happens unless that session is there, too. */
  lemma WrongSessionIsTurnedDown(w: World, config: Config, opens: bool, id: word, size: word, messages: seq<Message>)
    requires IsUpload(messages, id, size, 1) && Add64(id, 1) !in w.sessions
    ensures Put(w, config, opens, messages) == (w, PutReply(NotFound, None))
  {
  }

  /** A wrongly announced size is turned down. */
  lemma WrongSizeIsTurnedDown(w: World, config: Config, id: word, size: word, messages: seq<Message>)
    requires Inv(w) && id in w.sessions && (w.quota == 0 || w.quota + PERIOD < WORD_LIMIT) && IsUpload(messages, id, size, 6)
    requires Fits(w, size)
    ensures Put(w, config, true, messages).1 == PutReply(InvalidArgument, None)
  {
    hide Inv, Put, Cyclic, UploadPath, NoWrap, Ready, WithUpload, AllChunks;
    WellSizedIsChunks(messages, w.quota, size);
    InvGivesReady(w, id);
    PutOutcome(w, config, true, id, messages);
  }

  /**
   What the server makes of the faults of a download, of a blob it would deliver otherwise: the blob is in one
   session only, so a wrong session never has it; a wrong tag is denied unless it passes by chance; a wrong blob is
   not found unless the session has that one too.
   */
  lemma FaultsAreTurnedDown(w: World, config: Config, id: word, blob: word, tag: word)
    requires FreshIds(w) && Get(w, config, Asked(id, blob, tag, 0)).0 == Ok
    ensures id in w.sessions && blob in w.sessions[id].blobs
    ensures Get(w, config, Asked(id, blob, tag, 1)) == (if Add64(id, 1) in w.sessions then NotFound else Internal, [])
    ensures !TagPasses(config, WantedTag(w, config, id, blob), Add64(tag, 1)) <==> Get(w, config, Asked(id, blob, tag, 3)) == (PermissionDenied, [])
    ensures Add64(blob, 1) !in w.sessions[id].blobs ==> Get(w, config, Asked(id, blob, tag, 5)) == (NotFound, [])
  {
    hide Chunks;
    assert Add64(id, 0) == id && Add64(blob, 0) == blob && Add64(tag, 0) == tag;
    assert Live(w, id, blob);
    assert Add64(id, 1) != id;
    assert !Live(w, Add64(id, 1), blob);
  }

  /** The comparer is not complete: 54 bytes of the very reference are the smallest file it turns down. */
  lemma FiftyFourBytesAreTurnedDown()
    ensures IsPiece(0, Cyclic(0, 54)) && !Accepted(0, Cyclic(0, 54))
    ensures forall n: nat | n < 54 :: Accepted(0, Cyclic(0, n))
  {
    hide Cyclic, TailCrosses;
    TailOfFiftyFour();
    forall n: nat | n < 54 ensures Accepted(0, Cyclic(0, n)) {
      TailOfFewer(n);
    }
  }

  lemma TailOfFiftyFour()
    ensures TailCrosses(0, 54)
  {
    assert Tail(54) == 22 && Crosses(32, 22);
  }

  lemma TailOfFewer(n: nat)
    requires n < 54
    ensures !TailCrosses(0, n)
  {
    assert Tail(n) == if n < 32 then n else n - 32;
  }
}
