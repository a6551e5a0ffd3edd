/** The streaming service as an object: the loops of `Put` and `Get`, proved to compute what `Streaming` says. */
module StreamingObjects {
  import opened Wrappers
  import opened Words
  import opened BlobSessions
  import opened SessionObjects
  import opened Streaming
  import opened Lookups

  /** What one read of `got` bytes takes off the pieces still to be sent. */
  lemma NextChunk(data: seq<byte>, position: nat, size: nat, got: nat)
    requires position <= |data| && got == if size < |data| - position then size else |data| - position
    ensures Chunks(data[position..], size)
         == if got == 0 then [] else [Data(data[position..position + got])] + Chunks(data[position + got..], size)
  {
    assert data[position..][..got] == data[position..position + got];
    assert data[position..][got..] == data[position + got..];
  }

  class StreamingService {
    const manager: SessionManager
    const config: Config

    constructor (manager: SessionManager, config: Config)
      ensures this.manager == manager && this.config == config
    {
      this.manager, this.config := manager, config;
    }

    /** `messages` is what the reader yields before the client has no more. */
    method Put(opens: bool, messages: seq<Message>) returns (reply: PutReply)
      requires manager.Valid()
      modifies manager`lastBlob, manager.store`currentSize, manager.store.disk`files, manager.sessions.Values`blobs
      ensures manager.Valid()
      ensures (manager.View(), reply) == Streaming.Put(old(manager.View()), config, opens, messages)
    {
      if messages == [] || !messages[0].Metadata? {
        return PutReply(InvalidArgument, None);
      }
      var Metadata(version, id, announced) := messages[0];
      if version > API_VERSION {
        return PutReply(Unavailable, None);
      }
      var found := manager.GetSession(id);
      if found.None? {
        return PutReply(NotFound, None);
      }
      var session := found.value;
      var blob, path := session.CreateBlobFile();
      if !opens {
        return PutReply(FailedPrecondition, None);
      }
      OpenFile(path);
      var intake := TakeIn(session, blob, path, messages[1..]);
      reply := Answer(id, blob, path, announced, intake);
    }

    /** What follows the receive loop. */
    method Answer(id: nat, blob: nat, path: string, announced: Option<nat>, intake: Intake) returns (reply: PutReply)
      modifies manager.store.disk`files
      ensures (manager.View(), reply) == Conclude(old(manager.View()), config, id, blob, path, announced, intake)
    {
      match intake
      case NotAChunk => return PutReply(InvalidArgument, None);
      case Exhausted => return PutReply(ResourceExhausted, None);
      case Lost => return PutReply(NotFound, None);
      case Complete(total) =>
        if announced.Some? && announced.value != total {
          UnlinkFile(path);
          return PutReply(InvalidArgument, None);
        }
        return PutReply(Ok, Some(Reference(SESSION_STORAGE, blob, config.referenceTag(blob, id))));
    }

    method OpenFile(path: string)
      modifies manager.store.disk`files
      ensures manager.View() == Open(old(manager.View()), path)
    {
      manager.store.disk.files := manager.store.disk.files[path := []];
    }

    method UnlinkFile(path: string)
      modifies manager.store.disk`files
      ensures manager.View() == Unlink(old(manager.View()), path)
    {
      manager.store.disk.files := manager.store.disk.files - {path};
    }

    /** The receive loop: a chunk is reserved before it is written. */
    method TakeIn(session: BlobSession, blob: nat, path: string, messages: seq<Message>) returns (intake: Intake)
      requires session.Attached() && session.manager == manager
      modifies session`blobs, manager.store`currentSize, manager.store.disk`files
      ensures session.Attached()
      ensures (manager.View(), intake) == Receive(old(manager.View()), session.id, blob, path, messages, 0)
    {
      hide ReserveFor, BlobSessions.DeleteBlobFile, Append;
      var total: word := 0;
      for i := 0 to |messages|
        invariant session.Attached()
        invariant Receive(manager.View(), session.id, blob, path, messages[i..], total)
               == Receive(old(manager.View()), session.id, blob, path, messages, 0)
      {
        assert messages[i..][0] == messages[i] && messages[i..][1..] == messages[i + 1..];
        if !messages[i].Chunk? {
          return NotAChunk;
        }
        var data := messages[i].data;
        var reservation := session.ReserveSessionStore(blob, |data|);
        match reservation
        case Refused =>
          session.DeleteBlobFile(blob);
          return Exhausted;
        case Vanished =>
          return Lost;
        case Granted =>
          WriteFile(path, data);
          total := Add64(total, |data|);
      }
      intake := Complete(total);
    }

    method WriteFile(path: string, data: seq<byte>)
      modifies manager.store.disk`files
      ensures manager.View() == Append(old(manager.View()), path, data)
    {
      if path in manager.store.disk.files {
        manager.store.disk.files := manager.store.disk.files[path := manager.store.disk.files[path] + data];
      }
    }

    /**
     The lookup cascade: the file to send, or the status to finish with. Other threads change the manager between
     any two lookups; `indexed`, `admitted` and `found` are the manager as these three find it.
     */
    method Source(request: GetRequest, indexed: SessionManager, admitted: SessionManager, found: SessionManager)
      returns (source: Result<string, Status>)
      requires indexed.Valid() && admitted.Valid() && found.Valid()
      ensures forall tagged, present, measured, streamed ::
                source == PathOf(Sights(indexed.View(), admitted.View(), found.View(), tagged, present, measured, streamed), config, request)
      ensures source.Success? ==> !request.context.NoContext?
    {
      var blob := request.reference.blob;
      var session, raw := 0, false;
      if request.context.ForSession? {
        session := request.context.session;
      } else if request.context.ForTransaction? {
        var runner := indexed.GetSessionId(request.context.transaction);
        if runner.None? {
          raw := true;
        } else {
          session := runner.value;
        }
      } else {
        return Failure(InvalidArgument);
      }
      if request.context.ForTransaction? && !raw {
        var runs := admitted.GetSession(session);
        if runs.None? {
          return Failure(Internal);
        }
        if runs.value.transaction.None? || runs.value.transaction.value != request.context.transaction {
          return Failure(PermissionDenied);
        }
      }
      if request.reference.storage == SESSION_STORAGE {
        if raw {
          return Failure(NotFound);
        }
        var holder := found.GetSession(session);
        if holder.None? {
          return Failure(Internal);
        }
        var path := holder.value.Find(blob);
        return if path.None? then Failure(NotFound) else Success(path.value);
      }
      if request.reference.storage == LIMESTONE_STORE {
        var path := config.datastorePath(blob);
        return if path in found.store.disk.files then Success(path) else Failure(NotFound);
      }
      return Failure(InvalidArgument);
    }

    /** `at` is the manager as each of the seven lookups finds it, in the order of the call. */
    method Get(request: GetRequest, at: seq<SessionManager>) returns (status: Status, sent: seq<Response>)
      requires |at| == 7 && forall m | m in at :: m.Valid()
      ensures (status, sent)
           == GetAt(Sights(at[0].View(), at[1].View(), at[2].View(), at[3].View(), at[4].View(), at[5].View(), at[6].View()), config, request)
    {
      hide PathOf, ExpectedTag, Chunks, SessionManager.View, SessionManager.Valid;
      if request.apiVersion > API_VERSION {
        return Unavailable, [];
      }
      var source := Source(request, at[0], at[1], at[2]);
      if source.Failure? {
        return source.error, [];
      }
      var expected := TagOf(request, at[3]);
      if expected.Failure? {
        return expected.error, [];
      }
      if expected.value != request.reference.tag && (!config.acceptMockTag || request.reference.tag != MOCK_TAG) {
        return PermissionDenied, [];
      }
      status, sent := Send(source.value, at[4], at[5], at[6]);
    }

    /** The tag a request must carry; `tagged` is the manager as this lookup finds it. */
    method TagOf(request: GetRequest, tagged: SessionManager) returns (expected: Result<nat, Status>)
      requires tagged.Valid() && !request.context.NoContext?
      ensures expected == ExpectedTag(tagged.View(), config, request.context, request.reference.blob)
    {
      if request.context.ForTransaction? {
        return Success(config.datastoreTag(request.reference.blob, request.context.transaction));
      }
      var owner := tagged.GetSession(request.context.session);
      if owner.None? {
        return Failure(Internal);
      }
      return Success(config.datastoreTag(request.reference.blob, owner.value.transaction.GetOr(request.context.session)));
    }

    /** The test for the file, its size and its bytes, each as this lookup finds it. */
    method Send(path: string, present: SessionManager, measured: SessionManager, streamed: SessionManager)
      returns (status: Status, sent: seq<Response>)
      ensures (status, sent)
           == if path !in present.View().files then (NotFound, [])
              else if path !in measured.View().files then (Internal, [])
              else var files := streamed.View().files;
                   (Ok, [BlobSize(|measured.View().files[path]|)] + Chunks(if path in files then files[path] else [], config.chunkSize))
    {
      if path !in present.store.disk.files {
        return NotFound, [];
      }
      if path !in measured.store.disk.files {
        return Internal, [];
      }
      var size := |measured.store.disk.files[path]|;
      var data := if path in streamed.store.disk.files then streamed.store.disk.files[path] else [];
      var chunks := SendChunks(data);
      return Ok, [BlobSize(size)] + chunks;
    }

    /** The read loop, through one buffer of the configured size, until a read returns nothing. */
    method SendChunks(data: seq<byte>) returns (sent: seq<Response>)
      ensures sent == Chunks(data, config.chunkSize)
    {
      hide Chunks;
      sent := [];
      var position := 0;
      while true
        invariant position <= |data|
        invariant sent + Chunks(data[position..], config.chunkSize) == Chunks(data, config.chunkSize)
        decreases |data| - position
      {
        var rest := |data| - position;
        var got := if config.chunkSize < rest then config.chunkSize else rest;
        NextChunk(data, position, config.chunkSize, got);
        if got == 0 {
          return;
        }
        sent := sent + [Data(data[position..position + got])];
        position := position + got;
      }
    }
  }
}
