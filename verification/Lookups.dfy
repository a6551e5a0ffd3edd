/**
 `Get` as it looks things up: one after the other, each in the state of that moment, with anything going on in
 between.
 */
module Lookups {
  import opened Wrappers
  import opened Words
  import opened Naming
  import opened BlobSessions
  import opened Streaming
  import opened Downloads
  import opened Interleaving
  import opened Schedules
  import opened TransactionIndex
  import opened IndexRuns
  import opened Contents
  import Entries

  /** The states in which the lookups of one call happen, in the order of the call. */
  datatype Sights = Sights(
    indexed: World,       // the session of the transaction
    admitted: World,      // the transaction of that session
    found: World,         // the blob of the session, or the file of the data store
    tagged: World,        // the session that decides on the tag
    present: World,       // whether the file is there
    measured: World,      // its size
    streamed: World)      // its bytes

  function SessionOf(at: Sights, request: GetRequest): Option<nat> {
    match request.context
    case ForSession(id) => Some(id)
    case ForTransaction(t) => SessionIdOf(at.indexed, t)
    case NoContext => None
  }

  /** The lookups before anything is sent. */
  function PathOf(at: Sights, config: Config, request: GetRequest): Result<string, Status> {
    var session := SessionOf(at, request);
    if request.context.NoContext? then Failure(InvalidArgument)
    else
      var admission := if request.context.ForTransaction? && session.Some?
                       then Admit(at.admitted, session.value, request.context.transaction) else Ok;
      if admission != Ok then Failure(admission)
      else if request.reference.storage == SESSION_STORAGE then
        if session.None? then Failure(NotFound)
        else if session.value !in at.found.sessions then Failure(Internal)
        else
          match Find(at.found, session.value, request.reference.blob)
          case None => Failure(NotFound)
          case Some(path) => Success(path)
      else if request.reference.storage == LIMESTONE_STORE then
        var path := config.datastorePath(request.reference.blob);
        if path in at.found.files then Success(path) else Failure(NotFound)
      else Failure(InvalidArgument)
  }

  /**
   The whole call. A file that goes between the test for it and its measuring is an exception; one that goes
   before it is read reads as empty.
   */
  function GetAt(at: Sights, config: Config, request: GetRequest): (Status, seq<Response>) {
    if request.apiVersion > API_VERSION then (Unavailable, [])
    else match PathOf(at, config, request)
      case Failure(status) => (status, [])
      case Success(path) =>
        match ExpectedTag(at.tagged, config, request.context, request.reference.blob)
        case Failure(status) => (status, [])
        case Success(tag) =>
          if !TagPasses(config, tag, request.reference.tag) then (PermissionDenied, [])
          else if path !in at.present.files then (NotFound, [])
          else if path !in at.measured.files then (Internal, [])
          else
            (Ok, [BlobSize(|at.measured.files[path]|)] + Chunks(Bytes(at, path), config.chunkSize))
  }

  function Bytes(at: Sights, path: string): seq<byte> {
    if path in at.streamed.files then at.streamed.files[path] else []
  }

  /** Nothing going on in between, the call is the one of the sequential model. */
  lemma StillGet(w: World, config: Config, request: GetRequest)
    ensures GetAt(Sights(w, w, w, w, w, w, w), config, request) == Get(w, config, request)
  {
  }

  /**
   A reply that says OK announces a size and sends bytes. The two fit each other if and only if the file is as
   long when it is read as when it was measured.
   */
  lemma SizeFitsExactlyWhen(at: Sights, config: Config, request: GetRequest, path: string)
    requires config.chunkSize > 0 && PathOf(at, config, request) == Success(path) && GetAt(at, config, request).0 == Ok
    ensures path in at.measured.files
    ensures (exists data :: Delivers(GetAt(at, config, request), data, config.chunkSize)) <==> |at.measured.files[path]| == |Bytes(at, path)|
  {
    hide PathOf, TagPasses;
    var reply, pieces := GetAt(at, config, request), Chunks(Bytes(at, path), config.chunkSize);
    ChunksAreExact(Bytes(at, path), config.chunkSize);
    assert reply.1[1..] == pieces;
    if |at.measured.files[path]| == |Bytes(at, path)| {
      assert Delivers(reply, Bytes(at, path), config.chunkSize);
    }
  }

  /** A file that goes in between makes an OK reply that announces bytes and sends none. */
  lemma VanishedFileReadsEmpty(at: Sights, config: Config, request: GetRequest, path: string)
    requires PathOf(at, config, request) == Success(path) && GetAt(at, config, request).0 == Ok
    requires path !in at.streamed.files
    ensures path in at.measured.files && GetAt(at, config, request) == (Ok, [BlobSize(|at.measured.files[path]|)])
  {
    hide PathOf, TagPasses;
    var announced := BlobSize(|at.measured.files[path]|);
    assert [announced] + Chunks([], config.chunkSize) == [announced];
  }

  // ----- Lookups along a run -----

  /** The lookups happen in this order along the run, at these points of it. */
  ghost predicate Seen(s: System, schedule: seq<(nat, Action)>, at: Sights, points: seq<nat>)
    requires IsRun(s, schedule)
  {
    && |points| == 7 && (forall i, j | 0 <= i <= j < 7 :: points[i] <= points[j]) && points[6] <= |schedule|
    && (forall i | 0 <= i < 7 :: IsRun(s, schedule[..points[i]]))
    && at.indexed == After(s, schedule[..points[0]]).w && at.admitted == After(s, schedule[..points[1]]).w
    && at.found == After(s, schedule[..points[2]]).w && at.tagged == After(s, schedule[..points[3]]).w
    && at.present == After(s, schedule[..points[4]]).w && at.measured == After(s, schedule[..points[5]]).w
    && at.streamed == After(s, schedule[..points[6]]).w
  }

  /** A session that was there or could have been is later the same session or gone. */
  ghost predicate SessionsStay(w: World, after: World) {
    && w.lastSession <= after.lastSession
    && forall id | id in after.sessions && id <= w.lastSession :: id in w.sessions && after.sessions[id].transaction == w.sessions[id].transaction
  }

  lemma StepKeepsSessions(s: System, t: nat, a: Action)
    requires Enabled(s, t, a) && Runnable(s.w, s.threads[t])
    ensures SessionsStay(s.w, Step(s, t, a).w)
  {
    hide Step, Enabled, Runnable;
    StepIsEvent(s, t, a);
    var before, after := RegistryOf(s.w), RegistryOf(Step(s, t, a).w);
    forall id | id in Step(s, t, a).w.sessions && id <= s.w.lastSession
      ensures id in s.w.sessions && Step(s, t, a).w.sessions[id].transaction == s.w.sessions[id].transaction
    {
      assert id in after.live && id in before.live && after.live[id] == before.live[id];
    }
  }

  lemma {:induction false} SessionsStayAlong(s: System, schedule: seq<(nat, Action)>, k: nat)
    requires IsRun(s, schedule) && k <= |schedule|
    ensures IsRun(s, schedule[..k]) && SessionsStay(After(s, schedule[..k]).w, After(s, schedule).w)
    decreases |schedule|
  {
    hide Enabled, Runnable, Step;
    if k == |schedule| {
      assert schedule[..k] == schedule;
    } else {
      var front, last := schedule[..|schedule| - 1], schedule[|schedule| - 1];
      SessionsStayAlong(s, front, k);
      assert front[..k] == schedule[..k];
      StepKeepsSessions(After(s, front), last.0, last.1);
    }
  }

  /** In every interleaving, whatever happens between the lookups, access is denied for nothing but the tag. */
  lemma DeniedForTheTagOnly(s: System, schedule: seq<(nat, Action)>, at: Sights, points: seq<nat>, config: Config, request: GetRequest)
    requires Initial(s) && IsRun(s, schedule) && Seen(s, schedule, at, points)
    ensures PathOf(at, config, request) != Failure(PermissionDenied)
    ensures GetAt(at, config, request).0 == PermissionDenied ==>
              && PathOf(at, config, request).Success?
              && var tag := ExpectedTag(at.tagged, config, request.context, request.reference.blob);
                 tag.Success? && !TagPasses(config, tag.value, request.reference.tag)
  {
    hide Initial, IsRun, After, TagPasses;
    var early, later := schedule[..points[0]], schedule[..points[1]];
    assert later[..points[0]] == early;
    SessionsStayAlong(s, later, points[0]);
    IndexIsSoundAlong(s, early);
  }

  lemma IndexIsSoundAlong(s: System, schedule: seq<(nat, Action)>)
    requires Initial(s) && IsRun(s, schedule)
    ensures Structure(After(s, schedule).w)
  {
    hide Initial, IsRun, After;
    RunIsSound(s, schedule);
  }

  /** The step does something to the file of `b`. */
  predicate Touches(s: System, t: nat, a: Action, b: nat)
    requires t in s.threads
  {
    Entries.Opens(s, t, a, b) || Entries.Writes(s, t, a, b) || Entries.Withdraws(s, t, a, b) || Entries.Robs(s, t, a, b)
  }

  /** No step of the run from its `k`-th on does. */
  ghost predicate UntouchedSince(s: System, schedule: seq<(nat, Action)>, k: nat, b: nat)
    requires IsRun(s, schedule)
    decreases |schedule|
  {
    k < |schedule| ==>
      var front, last := schedule[..|schedule| - 1], schedule[|schedule| - 1];
      UntouchedSince(s, front, k, b) && !Touches(After(s, front), last.0, last.1, b)
  }

  lemma {:induction false} UntouchedFileStays(s: System, schedule: seq<(nat, Action)>, k: nat, b: nat)
    requires Initial(s) && IsRun(s, schedule) && k <= |schedule| && UntouchedSince(s, schedule, k, b)
    ensures IsRun(s, schedule[..k])
    ensures Entries.SameFile(After(s, schedule[..k]).w, After(s, schedule).w, UploadPath(s.w.directory, b))
    decreases |schedule|
  {
    hide Initial, Enabled, Runnable, Step, Touches, UploadPath;
    if k == |schedule| {
      assert schedule[..k] == schedule;
    } else {
      var front, last := schedule[..|schedule| - 1], schedule[|schedule| - 1];
      assert front[..k] == schedule[..k];
      UntouchedFileStays(s, front, k, b);
      IndexIsSoundAlong(s, front);
      DirectoryStays(s, front);
      UntouchedByStep(After(s, front), last.0, last.1, b);
    }
  }

  lemma UntouchedByStep(s: System, t: nat, a: Action, b: nat)
    requires Enabled(s, t, a) && Runnable(s.w, s.threads[t]) && PathsSound(s.w) && !Touches(s, t, a, b)
    ensures Entries.SameFile(s.w, Step(s, t, a).w, UploadPath(s.w.directory, b))
  {
    hide Enabled, Runnable, Step, PathsSound, UploadPath;
    Entries.StepFile(s, t, a, b);
  }

  /**
   In every interleaving, a reply that says OK for the file of an upload delivers what it announced, as long as no
   step between measuring and reading opens that file, writes to it, withdraws it or takes it away.
   */
  lemma SizeFitsUnlessTouched(s: System, schedule: seq<(nat, Action)>, at: Sights, points: seq<nat>, config: Config, request: GetRequest, b: nat)
    requires Initial(s) && IsRun(s, schedule) && Seen(s, schedule, at, points) && config.chunkSize > 0
    requires PathOf(at, config, request) == Success(UploadPath(s.w.directory, b)) && GetAt(at, config, request).0 == Ok
    requires UntouchedSince(s, schedule[..points[6]], points[5], b)
    ensures var path := UploadPath(s.w.directory, b);
            path in at.measured.files && Delivers(GetAt(at, config, request), at.measured.files[path], config.chunkSize)
  {
    hide Initial, IsRun, After, UntouchedSince, PathOf, TagPasses, UploadPath, Chunks;
    var path := UploadPath(s.w.directory, b);
    assert schedule[..points[6]][..points[5]] == schedule[..points[5]];
    UntouchedFileStays(s, schedule[..points[6]], points[5], b);
    ChunksAreExact(Bytes(at, path), config.chunkSize);
    assert GetAt(at, config, request).1[1..] == Chunks(Bytes(at, path), config.chunkSize);
  }

  /** Once an upload has ended, nothing more is taken in for it. */
  lemma {:induction false} TakenIsFinal(s: System, schedule: seq<(nat, Action)>, b: nat, k: nat)
    requires Initial(s) && IsRun(s, schedule) && k <= |schedule| && IsRun(s, schedule[..k])
    requires Spared(s, schedule, b) && Finished(s, schedule[..k], b)
    ensures Finished(s, schedule, b) && Spared(s, schedule[..k], b) && Taken(s, schedule, b) == Taken(s, schedule[..k], b)
    decreases |schedule|
  {
    hide Initial, Locked, UsedByOther, Runnable, Step, Takes, Ends, Entries.Robs;
    if k == |schedule| {
      assert schedule[..k] == schedule;
    } else {
      var front, last := schedule[..|schedule| - 1], schedule[|schedule| - 1];
      assert front[..k] == schedule[..k];
      TakenIsFinal(s, front, b, k);
      NothingIsTaken(s, front, last.0, last.1, b);
    }
  }

  lemma NothingIsTaken(s: System, schedule: seq<(nat, Action)>, t: nat, a: Action, b: nat)
    requires Initial(s) && IsRun(s, schedule) && Spared(s, schedule, b) && Finished(s, schedule, b) && t in After(s, schedule).threads
    ensures !Takes(After(s, schedule), t, a, b)
  {
    hide Initial, IsRun, After, Spared, FileIs, PathIsOwn;
    RunFollows(s, schedule, b);
    assert After(s, schedule).threads[t].InHand() != Some(b);
  }

  /**
   In every interleaving, if the upload of a blob had ended by the time it was found, and nobody removes it or
   moves its file away before it is read, then a call that has found it and passes the tag delivers exactly the
   uploaded bytes, whatever else happens between its lookups.
   */
  lemma FoundBlobIsDelivered(s: System, schedule: seq<(nat, Action)>, at: Sights, points: seq<nat>, config: Config, request: GetRequest)
    requires Initial(s) && IsRun(s, schedule) && Seen(s, schedule, at, points) && config.chunkSize > 0
    requires request.apiVersion <= API_VERSION && request.reference.storage == SESSION_STORAGE && PathOf(at, config, request).Success?
    requires Finished(s, schedule[..points[2]], request.reference.blob) && Spared(s, schedule[..points[6]], request.reference.blob)
    requires var tag := ExpectedTag(at.tagged, config, request.context, request.reference.blob);
             tag.Success? && TagPasses(config, tag.value, request.reference.tag)
    ensures Delivers(GetAt(at, config, request), Taken(s, schedule[..points[2]], request.reference.blob), config.chunkSize)
  {
    var b := request.reference.blob;
    hide Initial, IsRun, After, Spared, Finished, Taken, TagPasses, ExpectedTag, Admit, UploadPath, Chunks;
    var taken := Taken(s, schedule[..points[2]], b);
    forall i | 2 <= i < 7 ensures HoldsAt(s, schedule, points[i], b, taken) {
      FinishedAt(s, schedule, points[2], points[i], points[6], b);
    }
    assert HoldsAt(s, schedule, points[2], b, taken) && HoldsAt(s, schedule, points[4], b, taken);
    assert HoldsAt(s, schedule, points[5], b, taken) && HoldsAt(s, schedule, points[6], b, taken);
    var path := UploadPath(s.w.directory, b);
    assert PathOf(at, config, request) == Success(path) by {
      assert Live(at.found, SessionOf(at, request).value, b);
    }
    ChunksAreExact(taken, config.chunkSize);
    assert ([BlobSize(|taken|)] + Chunks(taken, config.chunkSize))[1..] == Chunks(taken, config.chunkSize);
  }

  /** At this point of the run the file of `b` holds the data and every entry of `b` names it. */
  ghost predicate HoldsAt(s: System, schedule: seq<(nat, Action)>, point: nat, b: nat, data: seq<byte>) {
    && point <= |schedule| && IsRun(s, schedule[..point])
    && var w := After(s, schedule[..point]).w;
       w.directory == s.w.directory && FileIs(w, b, data) && PathIsOwn(w, b)
  }

  lemma FinishedAt(s: System, schedule: seq<(nat, Action)>, first: nat, point: nat, last: nat, b: nat)
    requires Initial(s) && IsRun(s, schedule) && first <= point <= last <= |schedule|
    requires IsRun(s, schedule[..first]) && IsRun(s, schedule[..last])
    requires Finished(s, schedule[..first], b) && Spared(s, schedule[..last], b)
    ensures HoldsAt(s, schedule, point, b, Taken(s, schedule[..first], b))
  {
    hide Initial, IsRun, After, Spared, Finished, Taken, FileIs, PathIsOwn;
    assert schedule[..last][..point] == schedule[..point] && schedule[..point][..first] == schedule[..first];
    SparedBefore(s, schedule[..last], b, point);
    TakenIsFinal(s, schedule[..point], b, first);
    FinishedUploadStays(s, schedule[..point], b);
    DirectoryStays(s, schedule[..point]);
  }

  lemma {:induction false} SparedBefore(s: System, schedule: seq<(nat, Action)>, b: nat, k: nat)
    requires IsRun(s, schedule) && Spared(s, schedule, b) && k <= |schedule|
    ensures IsRun(s, schedule[..k]) && Spared(s, schedule[..k], b)
    decreases |schedule|
  {
    hide Enabled, Runnable, Step, Entries.Robs;
    if k == |schedule| {
      assert schedule[..k] == schedule;
    } else {
      var front := schedule[..|schedule| - 1];
      SparedBefore(s, front, b, k);
      assert front[..k] == schedule[..k];
    }
  }

  lemma {:induction false} DirectoryStays(s: System, schedule: seq<(nat, Action)>)
    requires Initial(s) && IsRun(s, schedule)
    ensures After(s, schedule).w.directory == s.w.directory
    decreases |schedule|
  {
    hide Initial, Enabled, Runnable, Step;
    if schedule == [] {
    } else {
      var front, last := schedule[..|schedule| - 1], schedule[|schedule| - 1];
      DirectoryStays(s, front);
      IndexIsSoundAlong(s, front);
      Entries.StepAddsOnly(After(s, front), last.0, last.1);
    }
  }
}
