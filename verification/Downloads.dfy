/** What `Get` sends, and that it returns what `Put` took in. */
module Downloads {
  import opened Wrappers
  import opened Words
  import opened BlobSessions
  import opened Streaming
  import opened Uploads

  /** All pieces are nonempty and, except possibly the last, as large as the buffer. */
  ghost predicate WellCut(pieces: seq<Response>, size: nat) {
    && (forall i | 0 <= i < |pieces| :: pieces[i].Data? && 0 < |pieces[i].data| <= size)
    && (forall i | 0 <= i < |pieces| - 1 :: |pieces[i].data| == size)
  }

  /** `count` is `n` divided by `size`, rounded up. */
  predicate IsCeiling(count: nat, n: nat, size: nat) {
    n <= count * size && (count > 0 ==> (count - 1) * size < n)
  }

  lemma CeilingStep(count: nat, n: nat, size: nat)
    requires size < n && IsCeiling(count, n - size, size)
    ensures IsCeiling(count + 1, n, size)
  {
    assert (count + 1) * size == count * size + size;
    assert count > 0 ==> count * size == (count - 1) * size + size;
  }

  /** With a positive buffer the loop ends, having sent every byte once, in order, in as few pieces as possible. */
  lemma {:induction false} ChunksAreExact(data: seq<byte>, size: nat)
    requires size > 0
    ensures var pieces := Chunks(data, size);
            Sent(pieces) == data && WellCut(pieces, size) && IsCeiling(|pieces|, |data|, size)
    decreases |data|
  {
    if data == [] {
    } else {
      var got := if size < |data| then size else |data|;
      var rest := Chunks(data[got..], size);
      ChunksAreExact(data[got..], size);
      assert Chunks(data, size) == [Data(data[..got])] + rest;
      assert Chunks(data, size)[1..] == rest;
      assert data[..got] + data[got..] == data;
      if size < |data| {
        CeilingStep(|rest|, |data|, size);
      }
    }
  }

  /** An empty buffer sends nothing, so the bytes arrive if and only if the buffer is positive or there are none. */
  lemma BytesArriveExactlyWhen(data: seq<byte>, size: nat)
    ensures Sent(Chunks(data, size)) == data <==> size > 0 || data == []
  {
    if size > 0 {
      ChunksAreExact(data, size);
    }
  }

  /** The request asks for a blob of session `id`, by session or through the index by transaction. */
  predicate AsksFor(w: World, request: GetRequest, id: nat, blob: nat) {
    && request.apiVersion <= API_VERSION
    && request.reference.storage == SESSION_STORAGE && request.reference.blob == blob
    && id in w.sessions
    && match request.context
       case ForSession(s) => s == id
       case ForTransaction(t) => SessionIdOf(w, t) == Some(id) && w.sessions[id].transaction == Some(t)
       case NoContext => false
  }

  /** The tag `Get` wants for a blob of session `id`: by its transaction if it has one, else by the session. */
  function WantedTag(w: World, config: Config, id: nat, blob: nat): nat
    requires id in w.sessions
  {
    config.datastoreTag(blob, w.sessions[id].transaction.GetOr(id))
  }

  /** In development the largest tag of all is accepted, too. */
  predicate TagPasses(config: Config, wanted: nat, given: nat) {
    given == wanted || (config.acceptMockTag && given == WORD_LIMIT - 1)
  }

  lemma GetOutcome(w: World, config: Config, request: GetRequest, id: nat, blob: nat)
    requires AsksFor(w, request, id, blob)
    requires blob in w.sessions[id].blobs && w.sessions[id].blobs[blob].path in w.files
    ensures var data := w.files[w.sessions[id].blobs[blob].path];
            Get(w, config, request)
            == if TagPasses(config, WantedTag(w, config, id, blob), request.reference.tag)
               then (Ok, [BlobSize(|data|)] + Chunks(data, config.chunkSize))
               else (PermissionDenied, [])
  {
  }

  /** The file a request leads to: an entry of the session it names, by id or through the index, or a data store path. */
  ghost predicate LeadsTo(w: World, config: Config, request: GetRequest, path: string) {
    var blob := request.reference.blob;
    if request.reference.storage == SESSION_STORAGE then
      exists id :: AsksFor(w, request, id, blob) && Find(w, id, blob) == Some(path)
    else
      && request.apiVersion <= API_VERSION && request.reference.storage == LIMESTONE_STORE
      && (request.context.ForSession? ==> request.context.session in w.sessions)
      && !request.context.NoContext? && path == config.datastorePath(blob) && path in w.files
  }

  /** The request carries the tag for its transaction, or for that of the session it names, or for the session itself. */
  predicate Passes(w: World, config: Config, request: GetRequest)
    requires request.context.ForSession? ==> request.context.session in w.sessions
    requires !request.context.NoContext?
  {
    var issuer := if request.context.ForTransaction? then request.context.transaction
                  else w.sessions[request.context.session].transaction.GetOr(request.context.session);
    TagPasses(config, config.datastoreTag(request.reference.blob, issuer), request.reference.tag)
  }

  /**
   There is nothing to send: no session runs the transaction, the session has no such entry, the entry's file is gone,
   or the data store has no such file.
   */
  ghost predicate Missing(w: World, config: Config, request: GetRequest) {
    var blob := request.reference.blob;
    && request.apiVersion <= 1 && !request.context.NoContext?
    && if request.reference.storage == 0 then
         || (request.context.ForTransaction? && request.context.transaction !in w.index)
         || (exists id :: AsksFor(w, request, id, blob) && blob !in w.sessions[id].blobs)
         || (exists path :: LeadsTo(w, config, request, path) && path !in w.files && Passes(w, config, request))
       else request.reference.storage == 1 && config.datastorePath(blob) !in w.files
  }

  /**
   Which answer a request gets, in every state whose index is sound: bytes exactly when it leads to a file that
   is there with a tag that passes, a denial exactly when only the tag is wrong, an internal error exactly when
   it names a session that is not there and nothing else is wrong before, and so on for each status there is.
   */
  lemma StatusExactlyWhen(w: World, config: Config, request: GetRequest)
    requires IndexSound(w)
    ensures var status := Get(w, config, request).0;
            var r := request.reference;
            && (status == NotFound <==> Missing(w, config, request))
            && status in {Ok, PermissionDenied, Internal, Unavailable, InvalidArgument, NotFound}
            && (status == Ok <==> (exists path :: LeadsTo(w, config, request, path) && path in w.files && Passes(w, config, request)))
            && (status == PermissionDenied <==> (exists path :: LeadsTo(w, config, request, path) && !Passes(w, config, request)))
            && (status == Internal <==>
                  && request.apiVersion <= 1 && request.context.ForSession? && request.context.session !in w.sessions
                  && (r.storage == 0 || (r.storage == 1 && config.datastorePath(r.blob) in w.files)))
            && (status == Unavailable <==> request.apiVersion > 1)
            && (status == InvalidArgument <==> request.apiVersion <= 1 && (request.context.NoContext? || r.storage > 1))
            && (status != Ok ==> Get(w, config, request).1 == [])
  {
    var blob := request.reference.blob;
    match Locate(w, config, request)
    case Failure(_) =>
      forall path ensures !(LeadsTo(w, config, request, path) && request.apiVersion <= API_VERSION) {
      }
    case Success(found) =>
      if request.apiVersion <= API_VERSION && ExpectedTag(w, config, request.context, blob).Success? {
        if request.reference.storage == SESSION_STORAGE {
          var id := if request.context.ForSession? then request.context.session else w.index[request.context.transaction];
          assert AsksFor(w, request, id, blob) && Find(w, id, blob) == Some(found);
        }
        assert LeadsTo(w, config, request, found);
      }
  }

  /** Whichever file a request leads to, in the store or in the data store, its bytes are what is sent. */
  lemma LedToIsDelivered(w: World, config: Config, request: GetRequest, path: string)
    requires IndexSound(w) && config.chunkSize > 0
    requires LeadsTo(w, config, request, path) && path in w.files && Passes(w, config, request)
    ensures Delivers(Get(w, config, request), w.files[path], config.chunkSize)
  {
    hide Chunks;
    var data := w.files[path];
    assert Locate(w, config, request) == Success(path);
    ChunksAreExact(data, config.chunkSize);
    assert ([BlobSize(|data|)] + Chunks(data, config.chunkSize))[1..] == Chunks(data, config.chunkSize);
  }

  /** The replies to a successful download: the exact length, then the bytes well cut. */
  ghost predicate Delivers(replies: (Status, seq<Response>), data: seq<byte>, size: nat) {
    && replies.0 == Ok
    && replies.1 != [] && replies.1[0] == BlobSize(|data|)
    && Sent(replies.1[1..]) == data
    && WellCut(replies.1[1..], size)
    && IsCeiling(|replies.1| - 1, |data|, size)
  }

  lemma HeldBlobIsDelivered(w: World, config: Config, request: GetRequest, id: nat, blob: nat)
    requires config.chunkSize > 0
    requires AsksFor(w, request, id, blob) && TagPasses(config, WantedTag(w, config, id, blob), request.reference.tag)
    requires blob in w.sessions[id].blobs && w.sessions[id].blobs[blob].path in w.files
    ensures Delivers(Get(w, config, request), w.files[w.sessions[id].blobs[blob].path], config.chunkSize)
  {
    var data := w.files[w.sessions[id].blobs[blob].path];
    GetOutcome(w, config, request, id, blob);
    ChunksAreExact(data, config.chunkSize);
    assert ([BlobSize(|data|)] + Chunks(data, config.chunkSize))[1..] == Chunks(data, config.chunkSize);
  }

  /** Put then Get: what was sent in comes back, whatever the chunk sizes on either side. */
  lemma RoundTrip(w: World, config: Config, id: nat, messages: seq<Message>, request: GetRequest)
    requires Ready(w, id) && NoWrap(w.quota, messages) && StartsUpload(messages, id) && config.chunkSize > 0
    requires Put(w, config, true, messages).1.status == Ok
    requires var (after, reply) := Put(w, config, true, messages);
             AsksFor(after, request, id, reply.reference.value.blob)
             && TagPasses(config, WantedTag(after, config, id, reply.reference.value.blob), request.reference.tag)
    ensures AllChunks(messages[1..])
    ensures Delivers(Get(Put(w, config, true, messages).0, config, request), Payload(messages[1..]), config.chunkSize)
  {
    PutOutcome(w, config, true, id, messages);
    var after := Put(w, config, true, messages).0;
    HeldBlobIsDelivered(after, config, request, id, w.lastBlob + 1);
  }

  /**
   `add`: the id it returns is that of the entry it made, under the canonical path, and of no entry before; no other
   entry changes. If the file is missing only an id is spent.
   */
  lemma AddOutcome(w: World, id: nat, path: string, canonical: string)
    requires id in w.sessions && Unborn(w, w.lastBlob + 1)
    ensures var (after, added) := Add(w, id, path, canonical);
            && (added.Some? <==> path in w.files)
            && (added.None? ==> after == w.(lastBlob := w.lastBlob + 1))
            && (added.Some? ==>
                  && Unborn(w, added.value) && Find(after, id, added.value) == Some(canonical)
                  && (forall s: nat, b: nat | Live(w, s, b) || (s, b) != (id, added.value) :: Find(after, s, b) == Find(w, s, b))
                  && after == w.(lastBlob := w.lastBlob + 1, sessions := after.sessions)
                  && after.sessions[id].blobs[added.value].charge == 0)
  {
    assert !Live(w, id, w.lastBlob + 1);
    assert w.sessions[id := w.sessions[id]] == w.sessions;
  }

  /** And a download by that id sends the file. */
  lemma AddedIsDelivered(w: World, config: Config, id: nat, path: string, canonical: string, request: GetRequest)
    requires id in w.sessions && Unborn(w, w.lastBlob + 1) && path in w.files && canonical in w.files && config.chunkSize > 0
    requires var (after, added) := Add(w, id, path, canonical);
             AsksFor(after, request, id, added.value) && TagPasses(config, WantedTag(after, config, id, added.value), request.reference.tag)
    ensures Delivers(Get(Add(w, id, path, canonical).0, config, request), w.files[canonical], config.chunkSize)
  {
    hide Add, Find, AsksFor, TagPasses, WantedTag, Get;
    AddOutcome(w, id, path, canonical);
    var (after, added) := Add(w, id, path, canonical);
    FoundIsLive(after, id, added.value, canonical);
    HeldBlobIsDelivered(after, config, request, id, added.value);
  }

  lemma FoundIsLive(w: World, id: nat, blob: nat, path: string)
    requires Find(w, id, blob) == Some(path)
    ensures id in w.sessions && blob in w.sessions[id].blobs && w.sessions[id].blobs[blob].path == path
  {
  }

  /** The reference Put returns opens the blob if and only if its tag happens to pass as the tag Get computes. */
  lemma OwnReferenceOpensExactlyWhen(w: World, config: Config, id: nat, messages: seq<Message>)
    requires Ready(w, id) && NoWrap(w.quota, messages) && StartsUpload(messages, id)
    requires Put(w, config, true, messages).1.status == Ok
    ensures var (after, reply) := Put(w, config, true, messages);
            Get(after, config, GetRequest(API_VERSION, ForSession(id), reply.reference.value)).0 == Ok
            <==> TagPasses(config, WantedTag(after, config, id, w.lastBlob + 1), config.referenceTag(w.lastBlob + 1, id))
  {
    PutOutcome(w, config, true, id, messages);
    var (after, reply) := Put(w, config, true, messages);
    GetOutcome(after, config, GetRequest(API_VERSION, ForSession(id), reply.reference.value), id, w.lastBlob + 1);
  }
}
