/** What a client can rely on between its uploads and its downloads. */
module Delivery {
  import opened Wrappers
  import opened Words
  import opened Naming
  import opened BlobSessions
  import opened Removal
  import opened Streaming
  import opened Uploads
  import opened Downloads
  import opened Runs

  // ----- An uploaded blob stays what it is -----

  /** Session `s` of the given transaction holds `data` as upload `b`. */
  ghost predicate Holds(w: World, s: nat, b: nat, transaction: Option<nat>, data: seq<byte>) {
    && Live(w, s, b) && w.sessions[s].transaction == transaction
    && w.sessions[s].blobs[b].path == UploadPath(w.directory, b)
    && UploadPath(w.directory, b) in w.files && w.files[UploadPath(w.directory, b)] == data
  }

  /** The operation neither removes the blob nor disposes its session nor moves its file away. */
  ghost predicate Spares(w: World, op: Operation, s: nat, b: nat) {
    match op
    case DisposeSession(id) => id != s
    case RemoveBlobs(id, blobs) => id != s || b !in blobs
    case MoveAway(path) => path != UploadPath(w.directory, b)
    case _ => true
  }

  ghost predicate SparesAlong(w: World, config: Config, ops: seq<Operation>, s: nat, b: nat)
    decreases |ops|
  {
    ops != [] ==> Spares(w, ops[0], s, b) && SparesAlong(Apply(w, config, ops[0]), config, ops[1..], s, b)
  }

  lemma DeletingOthersSpares(w: World, id: nat, blob: nat, s: nat, b: nat, transaction: Option<nat>, data: seq<byte>)
    requires Inv(w) && id in w.sessions && Holds(w, s, b, transaction, data) && (id != s || blob != b)
    ensures Holds(DeleteBlobFile(w, id, blob), s, b, transaction, data)
  {
    hide Accounted, FilesOwned, IndexSound;
    if blob in w.sessions[id].blobs {
      assert Live(w, id, blob);
      PathsAreDistinct(w.directory, UPLOAD, b, UPLOAD, blob);
    }
  }

  lemma {:induction false} RemovingOthersSpares(w: World, id: nat, blobs: seq<nat>, s: nat, b: nat, transaction: Option<nat>, data: seq<byte>)
    requires Inv(w) && id in w.sessions && Holds(w, s, b, transaction, data) && (id != s || b !in blobs)
    ensures Holds(RemoveAll(w, id, blobs), s, b, transaction, data)
    decreases |blobs|
  {
    hide Inv, Holds;
    if blobs == [] {
    } else {
      DeletingOthersSpares(w, id, blobs[0], s, b, transaction, data);
      DeleteKeepsInv(w, id, blobs[0]);
      RemovingOthersSpares(DeleteBlobFile(w, id, blobs[0]), id, blobs[1..], s, b, transaction, data);
    }
  }

  lemma UploadingSpares(w: World, config: Config, opens: bool, messages: seq<Message>, s: nat, b: nat, transaction: Option<nat>, data: seq<byte>)
    requires Inv(w) && NoWrap(w.quota, messages) && Holds(w, s, b, transaction, data)
    ensures Holds(Put(w, config, opens, messages).0, s, b, transaction, data)
  {
    hide Inv, Holds, WithUpload, UploadPath, NoWrap, SizeAgrees, AllChunks, Payload, Receive;
    if messages != [] && messages[0].Metadata? && messages[0].session in w.sessions && messages[0].apiVersion <= API_VERSION {
      var id := messages[0].session;
      HeldIsBounded(w, s, b, transaction, data);
      InvGivesReady(w, id);
      PutOutcome(w, config, opens, id, messages);
      UploadSpares(w, id, if opens then Payload(messages[1..]) else [], s, b, transaction, data);
    }
  }

  /** An upload of any size that fits, complete or withdrawn, and one that is refused. */
  lemma UploadSpares(w: World, id: nat, uploaded: seq<byte>, s: nat, b: nat, transaction: Option<nat>, data: seq<byte>)
    requires Ready(w, id) && Holds(w, s, b, transaction, data) && b <= w.lastBlob
    ensures Holds(NextBlobId(w), s, b, transaction, data)
    ensures Fits(w, |uploaded|) ==>
              var after := WithUpload(w, id, uploaded);
              && Holds(after, s, b, transaction, data)
              && Holds(Unlink(after, UploadPath(w.directory, w.lastBlob + 1)), s, b, transaction, data)
  {
    PathsAreDistinct(w.directory, UPLOAD, b, UPLOAD, w.lastBlob + 1);
    hide UploadPath;
  }

  /** Opening sessions, adding paths and files coming or going elsewhere leave the upload alone. */
  lemma SmallOperationSpares(w: World, config: Config, op: Operation, s: nat, b: nat, transaction: Option<nat>, data: seq<byte>)
    requires Inv(w) && Allowed(w, op) && Spares(w, op, s, b) && Holds(w, s, b, transaction, data)
    requires op.OpenSession? || op.AddPath? || op.MoveAway? || op.CreateOutside?
    ensures Holds(Apply(w, config, op), s, b, transaction, data)
  {
    hide Inv, UploadPath;
    HeldIsBounded(w, s, b, transaction, data);
  }

  lemma HeldIsBounded(w: World, s: nat, b: nat, transaction: Option<nat>, data: seq<byte>)
    requires Inv(w) && Holds(w, s, b, transaction, data)
    ensures s <= w.lastSession && b <= w.lastBlob && InStore(w.directory, UploadPath(w.directory, b))
  {
    PathsAreDistinct(w.directory, UPLOAD, b, UPLOAD, b);
  }

  lemma OperationSpares(w: World, config: Config, op: Operation, s: nat, b: nat, transaction: Option<nat>, data: seq<byte>)
    requires Inv(w) && Allowed(w, op) && Spares(w, op, s, b) && Holds(w, s, b, transaction, data)
    ensures Holds(Apply(w, config, op), s, b, transaction, data)
  {
    hide Inv, UploadPath, Put, NoWrap, RemoveAll, Ascending;
    match op
    case DisposeSession(id) =>
      if id in w.sessions {
        RemovingOthersSpares(w, id, Ascending(w.sessions[id].blobs.Keys), s, b, transaction, data);
      }
    case RemoveBlobs(id, blobs) =>
      if id in w.sessions { RemovingOthersSpares(w, id, blobs, s, b, transaction, data); }
    case Upload(opens, messages) => UploadingSpares(w, config, opens, messages, s, b, transaction, data);
    case _ => SmallOperationSpares(w, config, op, s, b, transaction, data);
  }

  lemma {:induction false} RunSpares(w: World, config: Config, ops: seq<Operation>, s: nat, b: nat, transaction: Option<nat>, data: seq<byte>)
    requires Inv(w) && AllowedRun(w, config, ops) && SparesAlong(w, config, ops, s, b) && Holds(w, s, b, transaction, data)
    ensures Holds(Run(w, config, ops), s, b, transaction, data)
    decreases |ops|
  {
    hide Inv, Holds, Apply, Allowed, Spares;
    if ops == [] {
    } else {
      OperationSpares(w, config, ops[0], s, b, transaction, data);
      OperationKeepsInv(w, config, ops[0]);
      RunSpares(Apply(w, config, ops[0]), config, ops[1..], s, b, transaction, data);
    }
  }

  lemma UploadIsHeld(w: World, config: Config, id: nat, messages: seq<Message>)
    requires Inv(w) && id in w.sessions && NoWrap(w.quota, messages) && StartsUpload(messages, id)
    requires Put(w, config, true, messages).1.status == Ok
    ensures var after := Put(w, config, true, messages).0;
            Inv(after) && Holds(after, id, w.lastBlob + 1, w.sessions[id].transaction, Payload(messages[1..]))
  {
    hide Put, Inv, UploadPath, NoWrap, SizeAgrees, AllChunks, Payload;
    InvGivesReady(w, id);
    PutKeepsInv(w, config, true, messages);
    PutOutcome(w, config, true, id, messages);
  }

  lemma HeldIsDelivered(w: World, config: Config, request: GetRequest, s: nat, b: nat, transaction: Option<nat>, data: seq<byte>)
    requires config.chunkSize > 0 && Holds(w, s, b, transaction, data)
    requires AsksFor(w, request, s, b) && TagPasses(config, WantedTag(w, config, s, b), request.reference.tag)
    ensures Delivers(Get(w, config, request), data, config.chunkSize)
  {
    HeldBlobIsDelivered(w, config, request, s, b);
  }

  /**
   Put, then anything else the server may be asked to do short of destroying the blob, then Get: the bytes come
   back exactly.
   */
  lemma RoundTripAcrossRuns(w: World, config: Config, id: nat, messages: seq<Message>, ops: seq<Operation>, request: GetRequest)
    requires Inv(w) && id in w.sessions && NoWrap(w.quota, messages) && StartsUpload(messages, id) && config.chunkSize > 0
    requires Put(w, config, true, messages).1.status == Ok
    requires var after := Put(w, config, true, messages).0;
             var last := Run(after, config, ops);
             && AllowedRun(after, config, ops) && SparesAlong(after, config, ops, id, w.lastBlob + 1)
             && AsksFor(last, request, id, w.lastBlob + 1)
             && TagPasses(config, WantedTag(last, config, id, w.lastBlob + 1), request.reference.tag)
    ensures Delivers(Get(Run(Put(w, config, true, messages).0, config, ops), config, request),
                     Payload(messages[1..]), config.chunkSize)
  {
    hide Inv, Holds, Put;
    var after := Put(w, config, true, messages).0;
    UploadIsHeld(w, config, id, messages);
    RunSpares(after, config, ops, id, w.lastBlob + 1, w.sessions[id].transaction, Payload(messages[1..]));
    HeldIsDelivered(Run(after, config, ops), config, request, id, w.lastBlob + 1, w.sessions[id].transaction, Payload(messages[1..]));
  }

  // ----- How many uploads of one size fit -----

  /** A complete upload of `size` bytes to some session in `live`, in whatever chunks. */
  ghost predicate SendsExactly(quota: word, messages: seq<Message>, live: set<nat>, size: nat) {
    && messages != [] && messages[0].Metadata? && messages[0].session in live
    && StartsUpload(messages, messages[0].session) && AllChunks(messages[1..]) && NoWrap(quota, messages)
    && |Payload(messages[1..])| == size && SizeAgrees(messages)
  }

  function PutAll(w: World, config: Config, streams: seq<seq<Message>>): (r: (World, seq<Status>))
    ensures |r.1| == |streams|
    decreases |streams|
  {
    if streams == [] then (w, [])
    else
      var (w1, reply) := Put(w, config, true, streams[0]);
      var (w2, statuses) := PutAll(w1, config, streams[1..]);
      (w2, [reply.status] + statuses)
  }

  lemma OneUpload(w: World, config: Config, size: nat, messages: seq<Message>)
    requires Inv(w) && w.quota != 0 && SendsExactly(w.quota, messages, w.sessions.Keys, size)
    ensures var (after, reply) := Put(w, config, true, messages);
            && Inv(after) && after.sessions.Keys == w.sessions.Keys && after.quota == w.quota
            && reply.status == (if Fits(w, size) then Ok else ResourceExhausted)
            && after.usage == (if Fits(w, size) then w.usage + size else w.usage)
  {
    hide Inv, Put;
    var id := messages[0].session;
    InvGivesReady(w, id);
    PutKeepsInv(w, config, true, messages);
    PutOutcome(w, config, true, id, messages);
  }

  function Times(count: nat, size: nat): nat {
    count * size
  }

  lemma TimesStep(count: nat, size: nat)
    ensures Times(count + 1, size) == Times(count, size) + size && Times(0, size) == 0
  {
  }

  /** `count` is how often `size` goes into `left`. */
  predicate IsRoom(count: nat, left: nat, size: nat) {
    Times(count, size) <= left < Times(count + 1, size)
  }

  lemma RoomStep(room: nat, left: nat, size: nat)
    requires IsRoom(room, left, size) && size > 0
    ensures room > 0 <==> size <= left
    ensures room > 0 ==> IsRoom(room - 1, left - size, size)
  {
    if room > 0 {
      TimesStep(room - 1, size);
      TimesStep(room, size);
    }
  }

  /** Of any number of uploads of one size, to any sessions, exactly the first ones that fit succeed and all others are refused. */
  lemma {:induction false} FirstOnesFit(w: World, config: Config, size: nat, streams: seq<seq<Message>>, room: nat)
    requires Inv(w) && w.quota != 0 && size > 0
    requires forall m | m in streams :: SendsExactly(w.quota, m, w.sessions.Keys, size)
    requires w.usage <= w.quota && IsRoom(room, w.quota - w.usage, size)
    ensures var (after, statuses) := PutAll(w, config, streams);
            && (forall i | 0 <= i < |streams| :: statuses[i] == if i < room then Ok else ResourceExhausted)
            && after.usage == w.usage + Times(if room < |streams| then room else |streams|, size)
    decreases |streams|
  {
    hide Inv, SendsExactly, Put, IsRoom, Times;
    TimesStep(if room < |streams| then room else |streams|, size);
    if streams == [] {
    } else {
      RoomStep(room, w.quota - w.usage, size);
      OneUpload(w, config, size, streams[0]);
      TimesStep((if room < |streams| then room else |streams|) - (if room > 0 then 1 else 0), size);
      var w1 := Put(w, config, true, streams[0]).0;
      FirstOnesFit(w1, config, size, streams[1..], if room > 0 then room - 1 else room);
    }
  }
}
