/** The streaming service: what `Put` does with a stream of messages and what `Get` sends back. */
module Streaming {
  import opened Wrappers
  import opened Words
  import opened BlobSessions

  const API_VERSION: nat := 1
  const SESSION_STORAGE: nat := 0
  const LIMESTONE_STORE: nat := 1
  const MOCK_TAG: nat := 0xffff_ffff_ffff_ffff

  /** `NoPayload` is a message whose payload is not set. */
  datatype Message =
    | Metadata(apiVersion: nat, session: nat, blobSize: Option<nat>)
    | Chunk(data: seq<byte>)
    | NoPayload

  datatype Status =
    | Ok | InvalidArgument | Unavailable | NotFound | FailedPrecondition
    | ResourceExhausted | PermissionDenied | Internal

  datatype Reference = Reference(storage: nat, blob: nat, tag: nat)

  datatype PutReply = PutReply(status: Status, reference: Option<Reference>)

  datatype Context = ForSession(session: nat) | ForTransaction(transaction: nat) | NoContext

  datatype GetRequest = GetRequest(apiVersion: nat, context: Context, reference: Reference)

  datatype Response = BlobSize(size: nat) | Data(data: seq<byte>)

  /** Tags and data store paths are whatever the surrounding data store computes. */
  datatype Config = Config(
    chunkSize: nat,
    referenceTag: (nat, nat) -> nat,    // of blob and session, issued by Put
    datastoreTag: (nat, nat) -> nat,    // of blob and transaction or session, expected by Get
    datastorePath: nat -> string,
    acceptMockTag: bool)

  // ----- Put -----

  datatype Intake = Complete(total: word) | NotAChunk | Exhausted | Lost

  /** The receive loop, from the state in which `total` bytes have been taken in. */
  function Receive(w: World, id: nat, blob: nat, path: string, messages: seq<Message>, total: word): (r: (World, Intake))
    requires id in w.sessions
    ensures r.0.sessions.Keys == w.sessions.Keys
    decreases |messages|
  {
    if messages == [] then (w, Complete(total))
    else if !messages[0].Chunk? then (w, NotAChunk)
    else
      var data := messages[0].data;
      var (w1, reservation) := ReserveFor(w, id, blob, |data|);
      match reservation
      case Refused => (DeleteBlobFile(w1, id, blob), Exhausted)
      case Vanished => (w1, Lost)
      case Granted => Receive(Append(w1, path, data), id, blob, path, messages[1..], Add64(total, |data|))
  }

  /** What follows the receive loop: the comparison with the announced size and the reply. */
  function Conclude(w: World, config: Config, id: nat, blob: nat, path: string, announced: Option<nat>, intake: Intake): (World, PutReply) {
    match intake
    case NotAChunk => (w, PutReply(InvalidArgument, None))
    case Exhausted => (w, PutReply(ResourceExhausted, None))
    case Lost => (w, PutReply(NotFound, None))
    case Complete(total) =>
      if announced.Some? && announced.value != total then (Unlink(w, path), PutReply(InvalidArgument, None))
      else (w, PutReply(Ok, Some(Reference(SESSION_STORAGE, blob, config.referenceTag(blob, id)))))
  }

  /** `opens` says whether the operating system lets the new file be opened. */
  function Put(w: World, config: Config, opens: bool, messages: seq<Message>): (r: (World, PutReply))
    ensures r.0.sessions.Keys == w.sessions.Keys
  {
    if messages == [] || !messages[0].Metadata? then (w, PutReply(InvalidArgument, None))
    else
      var Metadata(version, id, announced) := messages[0];
      if version > API_VERSION then (w, PutReply(Unavailable, None))
      else if id !in w.sessions then (w, PutReply(NotFound, None))
      else
        var (w1, blob, path) := CreateBlobFile(w, id);
        if !opens then (w1, PutReply(FailedPrecondition, None))
        else
          var (w2, intake) := Receive(Open(w1, path), id, blob, path, messages[1..], 0);
          Conclude(w2, config, id, blob, path, announced, intake)
  }

  // ----- Get -----

  /** The file to send, or the status that ends the call. `Internal` stands for the exceptions of missing sessions. */
  function Locate(w: World, config: Config, request: GetRequest): Result<string, Status> {
    var blob := request.reference.blob;
    var session := match request.context
      case ForSession(id) => Some(id)
      case ForTransaction(t) => SessionIdOf(w, t)
      case NoContext => None;
    if request.context.NoContext? then Failure(InvalidArgument)
    else
      var admission := if request.context.ForTransaction? && session.Some?
                       then Admit(w, session.value, request.context.transaction) else Ok;
      if admission != Ok then Failure(admission)
      else if request.reference.storage == SESSION_STORAGE then
        if session.None? then Failure(NotFound)
        else if session.value !in w.sessions then Failure(Internal)
        else
          match Find(w, session.value, blob)
          case None => Failure(NotFound)
          case Some(path) => Success(path)
      else if request.reference.storage == LIMESTONE_STORE then
        var path := config.datastorePath(blob);
        if path in w.files then Success(path) else Failure(NotFound)
      else Failure(InvalidArgument)
  }

  /** The check that the session found through the index really runs the transaction. */
  function Admit(w: World, id: nat, transaction: nat): Status {
    if id !in w.sessions then Internal
    else match w.sessions[id].transaction
      case None => PermissionDenied
      case Some(t) => if t != transaction then PermissionDenied else Ok
  }

  function ExpectedTag(w: World, config: Config, context: Context, blob: nat): Result<nat, Status> {
    match context
    case ForTransaction(t) => Success(config.datastoreTag(blob, t))
    case ForSession(id) =>
      if id !in w.sessions then Failure(Internal)
      else Success(config.datastoreTag(blob, w.sessions[id].transaction.GetOr(id)))
    case NoContext => Failure(InvalidArgument)
  }

  /** Reading into a buffer of `size` bytes until a read returns nothing. */
  function Chunks(data: seq<byte>, size: nat): seq<Response>
    decreases |data|
  {
    var got := if size < |data| then size else |data|;
    if got == 0 then [] else [Data(data[..got])] + Chunks(data[got..], size)
  }

  function Get(w: World, config: Config, request: GetRequest): (Status, seq<Response>) {
    if request.apiVersion > API_VERSION then (Unavailable, [])
    else match Locate(w, config, request)
      case Failure(status) => (status, [])
      case Success(path) =>
        match ExpectedTag(w, config, request.context, request.reference.blob)
        case Failure(status) => (status, [])
        case Success(tag) =>
          if tag != request.reference.tag && !(config.acceptMockTag && request.reference.tag == MOCK_TAG) then
            (PermissionDenied, [])
          else if path in w.files then
            (Ok, [BlobSize(|w.files[path]|)] + Chunks(w.files[path], config.chunkSize))
          else (NotFound, [])
  }

  // ----- Streams and their payload -----

  predicate AllChunks(messages: seq<Message>) {
    forall m | m in messages :: m.Chunk?
  }

  function Payload(messages: seq<Message>): seq<byte>
    decreases |messages|
  {
    if messages == [] || !messages[0].Chunk? then [] else messages[0].data + Payload(messages[1..])
  }

  function Sent(responses: seq<Response>): seq<byte>
    decreases |responses|
  {
    if responses == [] then []
    else (if responses[0].Data? then responses[0].data else []) + Sent(responses[1..])
  }
}
