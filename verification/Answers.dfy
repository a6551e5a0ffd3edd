/** Which answer `Get` gives when each of its lookups happens in a state of its own: every status, exactly when. */
module Answers {
  import opened Wrappers
  import opened Streaming
  import opened Downloads
  import opened Lookups

  /** The session the request names, or the one that ran its transaction when that was looked up. */
  predicate Names(at: Sights, request: GetRequest, id: nat) {
    match request.context
    case ForSession(s) => s == id
    case ForTransaction(t) => t in at.indexed.index && at.indexed.index[t] == id
    case NoContext => false
  }

  /** If the request is by a transaction, a session found for it is still there and runs it. */
  predicate Admits(at: Sights, request: GetRequest) {
    request.context.ForTransaction? && request.context.transaction in at.indexed.index ==>
      var id := at.indexed.index[request.context.transaction];
      id in at.admitted.sessions && at.admitted.sessions[id].transaction == Some(request.context.transaction)
  }

  /** The session found for the transaction runs none or another. */
  predicate Disowns(at: Sights, request: GetRequest) {
    && request.context.ForTransaction? && request.context.transaction in at.indexed.index
    && var id := at.indexed.index[request.context.transaction];
       id in at.admitted.sessions && at.admitted.sessions[id].transaction != Some(request.context.transaction)
  }

  /** The file to send: that of the session's entry, or the one the data store names. */
  ghost predicate Locates(at: Sights, config: Config, request: GetRequest, path: string) {
    var blob := request.reference.blob;
    && Admits(at, request)
    && if request.reference.storage == 0 then
         exists id :: Names(at, request, id) && id in at.found.sessions && blob in at.found.sessions[id].blobs
                      && at.found.sessions[id].blobs[blob].path == path
       else
         && request.reference.storage == 1 && !request.context.NoContext?
         && path == config.datastorePath(blob) && path in at.found.files
  }

  /** There is no file to send. */
  ghost predicate LocatesNothing(at: Sights, config: Config, request: GetRequest) {
    var blob := request.reference.blob;
    && Admits(at, request)
    && if request.reference.storage == 0 then
         || (request.context.ForTransaction? && request.context.transaction !in at.indexed.index)
         || (exists id :: Names(at, request, id) && id in at.found.sessions && blob !in at.found.sessions[id].blobs)
       else
         request.reference.storage == 1 && !request.context.NoContext? && config.datastorePath(blob) !in at.found.files
  }

  /** Nobody can say which tag is right: the session named has gone. */
  predicate TagUnknown(at: Sights, request: GetRequest) {
    request.context.ForSession? && request.context.session !in at.tagged.sessions
  }

  predicate TagRight(at: Sights, config: Config, request: GetRequest) {
    match request.context
    case ForSession(id) =>
      && id in at.tagged.sessions
      && TagPasses(config, config.datastoreTag(request.reference.blob, at.tagged.sessions[id].transaction.GetOr(id)), request.reference.tag)
    case ForTransaction(t) => TagPasses(config, config.datastoreTag(request.reference.blob, t), request.reference.tag)
    case NoContext => false
  }

  lemma LocatesExactlyWhen(at: Sights, config: Config, request: GetRequest, path: string)
    ensures Locates(at, config, request, path) <==> PathOf(at, config, request) == Success(path)
  {
    var blob := request.reference.blob;
    if request.reference.storage == 0 && PathOf(at, config, request) == Success(path) {
      assert Names(at, request, SessionOf(at, request).value);
    }
  }

  lemma LocatesNothingExactlyWhen(at: Sights, config: Config, request: GetRequest)
    ensures LocatesNothing(at, config, request) <==> PathOf(at, config, request) == Failure(NotFound)
  {
    if request.reference.storage == 0 && SessionOf(at, request).Some? {
      assert Names(at, request, SessionOf(at, request).value);
    }
  }

  lemma LookupFails(at: Sights, config: Config, request: GetRequest)
    ensures var path := PathOf(at, config, request);
            && (path == Failure(PermissionDenied) <==> Disowns(at, request))
            && (path == Failure(InvalidArgument) <==>
                  request.context.NoContext? || (Admits(at, request) && request.reference.storage > 1))
            && (path == Failure(Internal) <==>
                  || (!Admits(at, request) && !Disowns(at, request))
                  || (Admits(at, request) && request.reference.storage == 0 && exists id :: Names(at, request, id) && id !in at.found.sessions))
            && (path.Failure? ==> path.error in {PermissionDenied, InvalidArgument, Internal, NotFound})
  {
    if request.reference.storage == 0 && SessionOf(at, request).Some? {
      assert Names(at, request, SessionOf(at, request).value);
    }
  }

  lemma TagExactlyWhen(at: Sights, config: Config, request: GetRequest)
    requires !request.context.NoContext?
    ensures var tag := ExpectedTag(at.tagged, config, request.context, request.reference.blob);
            && (tag.Failure? <==> TagUnknown(at, request)) && (tag.Failure? ==> tag.error == Internal)
            && (tag.Success? && TagPasses(config, tag.value, request.reference.tag) <==> TagRight(at, config, request))
  {
  }

  /** A file was located, and this comes of it. */
  ghost predicate Sends(at: Sights, config: Config, request: GetRequest, path: string) {
    Locates(at, config, request, path) && TagRight(at, config, request) && path in at.present.files && path in at.measured.files
  }

  /**
   The answer to every request, whatever changes between its lookups. Nothing is sent unless it is OK; then the size
   measured is, and the bytes read.
   */
  lemma AnswerExactlyWhen(at: Sights, config: Config, request: GetRequest)
    ensures var (status, sent) := GetAt(at, config, request);
            && (status == Unavailable <==> request.apiVersion > 1)
            && (status == InvalidArgument <==>
                  request.apiVersion <= 1 && (request.context.NoContext? || (Admits(at, request) && request.reference.storage > 1)))
            && (status == NotFound <==>
                  && request.apiVersion <= 1
                  && (|| LocatesNothing(at, config, request)
                      || exists path :: Locates(at, config, request, path) && TagRight(at, config, request) && path !in at.present.files))
            && (status == PermissionDenied <==>
                  && request.apiVersion <= 1
                  && (|| Disowns(at, request)
                      || (!TagUnknown(at, request) && !TagRight(at, config, request) && exists path :: Locates(at, config, request, path))))
            && (status == Ok <==> request.apiVersion <= 1 && exists path :: Sends(at, config, request, path))
            && status in {Unavailable, InvalidArgument, NotFound, PermissionDenied, Ok, Internal}
            && (status != Ok ==> sent == [])
            && (forall path | Sends(at, config, request, path) && status == Ok ::
                  sent == [BlobSize(|at.measured.files[path]|)] + Chunks(Bytes(at, path), config.chunkSize))
  {
    hide Locates, LocatesNothing, Admits, Disowns, PathOf, ExpectedTag, TagPasses, TagRight, TagUnknown, Chunks;
    forall path ensures Locates(at, config, request, path) <==> PathOf(at, config, request) == Success(path) {
      LocatesExactlyWhen(at, config, request, path);
    }
    LocatesNothingExactlyWhen(at, config, request);
    LookupFails(at, config, request);
    if !request.context.NoContext? {
      TagExactlyWhen(at, config, request);
    }
    if PathOf(at, config, request).Success? {
      var path := PathOf(at, config, request).value;
      assert Locates(at, config, request, path);
      assert GetAt(at, config, request).0 == Ok ==> Sends(at, config, request, path);
    }
  }
}
