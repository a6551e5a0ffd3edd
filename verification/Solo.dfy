/**
 The sequential operations are runs of the interleaved server: when every other thread is between calls, the
 steps of one call add up to exactly what the sequential model says it does.
 */
module Solo {
  import opened Wrappers
  import opened Words
  import opened Naming
  import opened BlobSessions
  import opened Interleaving
  import opened Schedules
  import opened Uploads
  import Loop = ReserveLoop
  import Streaming

  /** Thread `t` is at `pc` and nobody else is inside a call. */
  ghost predicate Alone(s: System, t: nat, pc: Pc) {
    t in s.threads && s.threads[t] == pc && forall u | u in s.threads && u != t :: s.threads[u].Idle?
  }

  /** The reply that is settled when a step settles how an upload ends. */
  function ReplyOf(c: Streaming.Config, s: System, t: nat, a: Action): Option<Streaming.PutReply>
    requires t in s.threads
  {
    var pc := s.threads[t];
    if a.FailToOpen? then Some(Streaming.PutReply(Streaming.FailedPrecondition, None))
    else if a.RejectMessage? then Some(Streaming.PutReply(Streaming.InvalidArgument, None))
    else if a.EndStream? && pc.Receiving? then
      Some(if a.agrees then Streaming.PutReply(Streaming.Ok, Some(Streaming.Reference(Streaming.SESSION_STORAGE, pc.blob, c.referenceTag(pc.blob, pc.session))))
           else Streaming.PutReply(Streaming.InvalidArgument, None))
    else if a.Proceed? && pc.Reserving? && pc.phase.Refused? then Some(Streaming.PutReply(Streaming.ResourceExhausted, None))
    else if a.Proceed? && pc.Reserving? && pc.phase.Granted? && pc.blob !in BlobsOf(s.w, pc.session) then
      Some(Streaming.PutReply(Streaming.NotFound, None))
    else None
  }

  function AndThen(said: seq<Streaming.PutReply>, reply: Option<Streaming.PutReply>): seq<Streaming.PutReply> {
    if reply.Some? then said + [reply.value] else said
  }

  /** The replies of all uploads that end along the run. */
  ghost function Replies(c: Streaming.Config, s: System, schedule: seq<(nat, Action)>): seq<Streaming.PutReply>
    requires IsRun(s, schedule)
    decreases |schedule|
  {
    if schedule == [] then []
    else
      var front, last := schedule[..|schedule| - 1], schedule[|schedule| - 1];
      AndThen(Replies(c, s, front), ReplyOf(c, After(s, front), last.0, last.1))
  }

  /** Some run leads from the one state to the other and gives these replies. */
  ghost predicate Arrives(c: Streaming.Config, s: System, r: System, said: seq<Streaming.PutReply>) {
    exists schedule :: IsRun(s, schedule) && After(s, schedule) == r && Replies(c, s, schedule) == said
  }

  lemma ArriveStart(c: Streaming.Config, s: System)
    ensures Arrives(c, s, s, [])
  {
    assert IsRun(s, []) && After(s, []) == s && Replies(c, s, []) == [];
  }

  lemma ArriveNext(c: Streaming.Config, s: System, said: seq<Streaming.PutReply>, r: System, t: nat, a: Action)
    requires Enabled(r, t, a) && Arrives(c, s, r, said) && Inv(s)
    ensures Inv(r) && Runnable(r.w, r.threads[t]) && Arrives(c, s, Step(r, t, a), AndThen(said, ReplyOf(c, r, t, a)))
  {
    hide Inv, Locked, UsedByOther, Step, Runnable, ReplyOf;
    var schedule :| IsRun(s, schedule) && After(s, schedule) == r && Replies(c, s, schedule) == said;
    var longer := schedule + [(t, a)];
    assert longer[..|longer| - 1] == schedule;
    RunKeepsInv(s, schedule);
    StepKeepsInv(r, t, a);
    assert IsRun(s, longer) && After(s, longer) == Step(r, t, a) && Replies(c, s, longer) == AndThen(said, ReplyOf(c, r, t, a));
  }

  /** The whole reserve loop is one `Reserve`. */
  lemma SoloReserve(c: Streaming.Config, s: System, said: seq<Streaming.PutReply>, r: System, t: nat, id: nat, b: nat, data: seq<byte>) returns (q: System)
    requires Inv(s) && Arrives(c, s, r, said) && Alone(r, t, Waiting(id, b, data))
    ensures Arrives(c, s, q, said)
    ensures var (w, granted) := Reserve(r.w, |data|);
            q.w == w && Alone(q, t, Reserving(id, b, data, if granted then Loop.Granted else Loop.Refused))
  {
    hide Inv, Arrives, UploadPath, InStore, Ascending, Delete, Other, Begin, Append;
    ArriveNext(c, s, said, r, t, Proceed);
    q := Step(r, t, Proceed);
    assert q.w == r.w && Alone(q, t, Reserving(id, b, data, Loop.Entered));
    ArriveNext(c, s, said, q, t, Proceed);
    q := Step(q, t, Proceed);
    assert q.w == r.w;
    if r.w.quota != 0 {
      assert Alone(q, t, Reserving(id, b, data, Loop.Seen(r.w.usage)));
      q := SoloDecide(c, s, said, q, t, id, b, data);
    }
  }

  /** The counter has been read and nobody else changes it. */
  lemma SoloDecide(c: Streaming.Config, s: System, said: seq<Streaming.PutReply>, r: System, t: nat, id: nat, b: nat, data: seq<byte>) returns (q: System)
    requires Inv(s) && Arrives(c, s, r, said) && r.w.quota != 0 && Alone(r, t, Reserving(id, b, data, Loop.Seen(r.w.usage)))
    ensures Arrives(c, s, q, said)
    ensures var (w, granted) := Reserve(r.w, |data|);
            q.w == w && Alone(q, t, Reserving(id, b, data, if granted then Loop.Granted else Loop.Refused))
  {
    hide Inv, Arrives, UploadPath, InStore, Ascending, Delete, Other, Begin, Append, Locked, UsedByOther;
    ArriveNext(c, s, said, r, t, Proceed);
    q := Step(r, t, Proceed);
    assert q.w == r.w;
    if Add64(r.w.usage, |data|) <= r.w.quota {
      assert Alone(q, t, Reserving(id, b, data, Loop.Fitting(r.w.usage)));
      ArriveNext(c, s, said, q, t, Proceed);
      q := Step(q, t, Proceed);
    }
  }

  /** Deleting the first blob on the list. */
  lemma SoloDelete(c: Streaming.Config, s: System, said: seq<Streaming.PutReply>, r: System, t: nat, id: nat, blobs: seq<nat>, disposing: bool) returns (q: System)
    requires Inv(s) && Arrives(c, s, r, said) && blobs != [] && Alone(r, t, Removing(id, blobs, disposing)) && id in r.w.sessions
    ensures Arrives(c, s, q, said) && Alone(q, t, Removing(id, blobs[1..], disposing))
    ensures q.w == DeleteBlobFile(r.w, id, blobs[0]) && id in q.w.sessions
  {
    hide Inv, Arrives, UploadPath, InStore, Ascending, Upload, Other, Begin;
    ArriveNext(c, s, said, r, t, Proceed);
    q := Step(r, t, Proceed);
    if blobs[0] in r.w.sessions[id].blobs {
      q := SoloDeleteFound(c, s, said, q, t, id, blobs, disposing);
    }
  }

  /** The entry is there: release, unlink, erase. */
  lemma SoloDeleteFound(c: Streaming.Config, s: System, said: seq<Streaming.PutReply>, r: System, t: nat, id: nat, blobs: seq<nat>, disposing: bool) returns (q: System)
    requires Inv(s) && Arrives(c, s, r, said) && blobs != [] && Alone(r, t, Releasing(id, blobs, disposing))
    requires id in r.w.sessions && blobs[0] in r.w.sessions[id].blobs
    ensures Arrives(c, s, q, said) && Alone(q, t, Removing(id, blobs[1..], disposing))
    ensures q.w == DeleteBlobFile(r.w, id, blobs[0])
  {
    hide Inv, Arrives, UploadPath, InStore, Ascending, Upload, Other, Begin, Locked, UsedByOther;
    ArriveNext(c, s, said, r, t, Proceed);
    q := Step(r, t, Proceed);
    var released := q.threads[t].released;
    assert Alone(q, t, Unlinking(id, blobs, disposing, released));
    ArriveNext(c, s, said, q, t, Proceed);
    q := Step(q, t, Proceed);
    assert Alone(q, t, Erasing(id, blobs, disposing, released));
    q := SoloErase(c, s, said, q, t, id, blobs, disposing, released);
  }

  lemma SoloErase(c: Streaming.Config, s: System, said: seq<Streaming.PutReply>, r: System, t: nat, id: nat, blobs: seq<nat>, disposing: bool, released: nat) returns (q: System)
    requires Inv(s) && Arrives(c, s, r, said) && blobs != [] && Alone(r, t, Erasing(id, blobs, disposing, released))
    requires id in r.w.sessions && blobs[0] in r.w.sessions[id].blobs
    ensures Arrives(c, s, q, said) && Alone(q, t, Removing(id, blobs[1..], disposing))
    ensures q.w == EraseEntry(r.w, id, blobs[0])
  {
    hide Inv, Arrives, UploadPath, InStore, Ascending, Upload, Other, Begin, Locked, UsedByOther, EraseEntry;
    ArriveNext(c, s, said, r, t, Proceed);
    q := Step(r, t, Proceed);
  }

  lemma {:induction false} SoloRemoveAll(c: Streaming.Config, s: System, said: seq<Streaming.PutReply>, r: System, t: nat, id: nat, blobs: seq<nat>, disposing: bool) returns (q: System)
    requires Inv(s) && Arrives(c, s, r, said) && Alone(r, t, Removing(id, blobs, disposing)) && id in r.w.sessions
    ensures Arrives(c, s, q, said) && Alone(q, t, Removing(id, [], disposing)) && id in q.w.sessions
    ensures q.w == RemoveAll(r.w, id, blobs)
    decreases |blobs|
  {
    hide Inv, Arrives, Alone, DeleteBlobFile;
    q := r;
    if blobs == [] {
    } else {
      q := SoloDelete(c, s, said, r, t, id, blobs, disposing);
      q := SoloRemoveAll(c, s, said, q, t, id, blobs[1..], disposing);
    }
  }

  /** `remove`, from call to return. */
  lemma SoloRemove(c: Streaming.Config, s: System, t: nat, id: nat, blobs: seq<nat>) returns (q: System)
    requires Inv(s) && Alone(s, t, Idle) && id in s.w.sessions
    ensures Arrives(c, s, q, []) && Alone(q, t, Idle) && q.w == RemoveAll(s.w, id, blobs)
  {
    hide Inv, Arrives, Ascending, UploadPath, InStore, RemoveAll, Upload, Other;
    ArriveStart(c, s);
    ArriveNext(c, s, [], s, t, BeginRemove(id, blobs));
    q := SoloRemoveAll(c, s, [], Step(s, t, BeginRemove(id, blobs)), t, id, blobs, false);
    ArriveNext(c, s, [], q, t, Proceed);
    q := Step(q, t, Proceed);
  }

  /** `dispose`, from call to return. */
  lemma SoloDispose(c: Streaming.Config, s: System, t: nat, id: nat) returns (q: System)
    requires Inv(s) && Alone(s, t, Idle) && id in s.w.sessions
    ensures Arrives(c, s, q, []) && Alone(q, t, Idle) && q.w == Dispose(s.w, id)
  {
    hide Inv, Arrives, Ascending, UploadPath, InStore, RemoveAll, Upload, Other, Delete, EraseSession;
    ArriveStart(c, s);
    ArriveNext(c, s, [], s, t, BeginDispose(id));
    q := SoloRemoveAll(c, s, [], Step(s, t, BeginDispose(id)), t, id, Ascending(s.w.sessions[id].blobs.Keys), true);
    q := SoloDestroy(c, s, q, t, id);
  }

  /** Nobody else is in a call, so nobody uses the session. */
  lemma SoloDestroy(c: Streaming.Config, s: System, r: System, t: nat, id: nat) returns (q: System)
    requires Inv(s) && Arrives(c, s, r, []) && Alone(r, t, Removing(id, [], true)) && id in r.w.sessions
    ensures Arrives(c, s, q, []) && Alone(q, t, Idle) && q.w == EraseSession(r.w, id)
  {
    hide Inv, Arrives, UploadPath, InStore, Begin, Upload, Other, EraseSession, Remains;
    ArriveNext(c, s, [], r, t, Proceed);
    q := Step(r, t, Proceed);
  }

  // ----- Put -----

  /** From the call to the moment the entry is there and the file is to be opened. */
  lemma SoloCreate(c: Streaming.Config, s: System, t: nat, id: nat) returns (q: System)
    requires Inv(s) && Alone(s, t, Idle) && id in s.w.sessions
    ensures Arrives(c, s, q, [])
    ensures var (w, blob, path) := CreateBlobFile(s.w, id);
            q.w == w && Alone(q, t, Opening(id, blob))
  {
    hide Inv, Arrives, Alone, InsertEntry, UploadPath;
    q := SoloBegin(c, s, t, BeginPut(id), Creating(id));
    q := SoloDraw(c, s, q, t, id);
    q := SoloInsert(c, s, q, t, id, s.w.lastBlob + 1);
  }

  /** The first step of a call that takes a mutex after it. */
  lemma SoloBegin(c: Streaming.Config, s: System, t: nat, a: Action, pc: Pc) returns (q: System)
    requires Inv(s) && Alone(s, t, Idle) && (a.BeginPut? || a.BeginAdd?) && a.session in s.w.sessions
    requires pc == if a.BeginPut? then Creating(a.session) else Adding(a.session, a.path, a.canonical)
    requires a.BeginAdd? ==> !InStore(s.w.directory, a.canonical)
    ensures Arrives(c, s, q, []) && q.w == s.w && Alone(q, t, pc)
  {
    hide Inv, Arrives, Runnable, Ascending, UploadPath, InStore, Upload, Delete, Other, Locked, UsedByOther;
    ArriveStart(c, s);
    ArriveNext(c, s, [], s, t, a);
    q := Step(s, t, a);
  }

  lemma SoloDraw(c: Streaming.Config, s: System, r: System, t: nat, id: nat) returns (q: System)
    requires Inv(s) && Arrives(c, s, r, []) && Alone(r, t, Creating(id))
    ensures Arrives(c, s, q, []) && q.w == NextBlobId(r.w) && Alone(q, t, Inserting(id, r.w.lastBlob + 1))
  {
    hide Inv, Arrives, UploadPath, InStore, Begin, Delete, Other;
    ArriveNext(c, s, [], r, t, Proceed);
    q := Step(r, t, Proceed);
  }

  lemma SoloInsert(c: Streaming.Config, s: System, r: System, t: nat, id: nat, b: nat) returns (q: System)
    requires Inv(s) && Arrives(c, s, r, []) && Alone(r, t, Inserting(id, b)) && id in r.w.sessions
    ensures Arrives(c, s, q, []) && q.w == InsertEntry(r.w, id, b, UploadPath(r.w.directory, b)) && Alone(q, t, Opening(id, b))
  {
    hide Inv, Arrives, UploadPath, InStore, InsertEntry, Begin, Delete, Other, Locked, UsedByOther;
    ArriveNext(c, s, [], r, t, Proceed);
    q := Step(r, t, Proceed);
  }

  lemma SoloOpen(c: Streaming.Config, s: System, said: seq<Streaming.PutReply>, r: System, t: nat, id: nat, b: nat, opens: bool) returns (q: System)
    requires Inv(s) && Arrives(c, s, r, said) && Alone(r, t, Opening(id, b))
    ensures Arrives(c, s, q, if opens then said else said + [Streaming.PutReply(Streaming.FailedPrecondition, None)])
    ensures Alone(q, t, if opens then Receiving(id, b) else Idle)
    ensures q.w == if opens then Open(r.w, UploadPath(r.w.directory, b)) else r.w
  {
    hide Inv, Arrives, Ascending, UploadPath, InStore, Delete, Other;
    var a := if opens then Proceed else FailToOpen;
    ArriveNext(c, s, said, r, t, a);
    q := Step(r, t, a);
  }

  /** The reply of an upload that ends before its stream does. */
  function Early(intake: Streaming.Intake): Option<Streaming.PutReply> {
    match intake
    case Complete(_) => None
    case NotAChunk => Some(Streaming.PutReply(Streaming.InvalidArgument, None))
    case Exhausted => Some(Streaming.PutReply(Streaming.ResourceExhausted, None))
    case Lost => Some(Streaming.PutReply(Streaming.NotFound, None))
  }

  /** One chunk, up to the answer to its reservation. */
  lemma SoloChunk(c: Streaming.Config, s: System, said: seq<Streaming.PutReply>, r: System, t: nat, id: nat, b: nat, data: seq<byte>) returns (q: System)
    requires Inv(s) && Arrives(c, s, r, said) && Alone(r, t, Receiving(id, b)) && id in r.w.sessions
    requires r.w.quota == 0 || r.w.quota + |data| < WORD_LIMIT
    ensures var (w, answer) := ReserveFor(r.w, id, b, |data|);
            && Arrives(c, s, q, AndThen(said, Early(match answer case Granted => Streaming.Complete(0) case Refused => Streaming.Exhausted case Vanished => Streaming.Lost)))
            && q.w == w
            && Alone(q, t, match answer case Granted => Writing(id, b, data) case Refused => Removing(id, [b], false) case Vanished => Idle)
  {
    hide Inv, Arrives, Alone, Charge;
    q := SoloTake(c, s, said, r, t, id, b, data);
    q := SoloReserve(c, s, said, q, t, id, b, data);
    q := SoloSettle(c, s, said, q, t, id, b, data, Reserve(r.w, |data|).1);
  }

  lemma SoloTake(c: Streaming.Config, s: System, said: seq<Streaming.PutReply>, r: System, t: nat, id: nat, b: nat, data: seq<byte>) returns (q: System)
    requires Inv(s) && Arrives(c, s, r, said) && Alone(r, t, Receiving(id, b))
    requires r.w.quota == 0 || r.w.quota + |data| < WORD_LIMIT
    ensures Arrives(c, s, q, said) && q.w == r.w && Alone(q, t, Waiting(id, b, data))
  {
    hide Inv, Arrives, Ascending, UploadPath, InStore, Upload, Delete, Other;
    ArriveNext(c, s, said, r, t, TakeChunk(data));
    q := Step(r, t, TakeChunk(data));
  }

  /** The answer is there: the entry is charged, or the upload is over. */
  lemma SoloSettle(c: Streaming.Config, s: System, said: seq<Streaming.PutReply>, r: System, t: nat, id: nat, b: nat, data: seq<byte>, granted: bool) returns (q: System)
    requires Inv(s) && Arrives(c, s, r, said) && id in r.w.sessions
    requires Alone(r, t, Reserving(id, b, data, if granted then Loop.Granted else Loop.Refused))
    ensures var answer := if !granted then Refused else if b in r.w.sessions[id].blobs then Granted else Vanished;
            && Arrives(c, s, q, AndThen(said, Early(match answer case Granted => Streaming.Complete(0) case Refused => Streaming.Exhausted case Vanished => Streaming.Lost)))
            && q.w == (if answer.Granted? then Charge(r.w, id, b, |data|) else r.w)
            && Alone(q, t, match answer case Granted => Writing(id, b, data) case Refused => Removing(id, [b], false) case Vanished => Idle)
  {
    hide Inv, Arrives, UploadPath, InStore, Begin, Delete, Other, Append, Open, Locked, UsedByOther, Charge;
    ArriveNext(c, s, said, r, t, Proceed);
    q := Step(r, t, Proceed);
  }

  /** A refused chunk: the blob is deleted and the call is over. */
  lemma SoloCleanUp(c: Streaming.Config, s: System, said: seq<Streaming.PutReply>, r: System, t: nat, id: nat, b: nat) returns (q: System)
    requires Inv(s) && Arrives(c, s, r, said) && Alone(r, t, Removing(id, [b], false)) && id in r.w.sessions
    ensures Arrives(c, s, q, said) && Alone(q, t, Idle) && q.w == DeleteBlobFile(r.w, id, b) && q.w.directory == r.w.directory
  {
    hide Inv, Arrives, Ascending, UploadPath, InStore, Upload, Other;
    q := SoloDelete(c, s, said, r, t, id, [b], false);
    ArriveNext(c, s, said, q, t, Proceed);
    q := Step(q, t, Proceed);
  }

  lemma SoloWrite(c: Streaming.Config, s: System, said: seq<Streaming.PutReply>, r: System, t: nat, id: nat, b: nat, data: seq<byte>) returns (q: System)
    requires Inv(s) && Arrives(c, s, r, said) && Alone(r, t, Writing(id, b, data))
    ensures Arrives(c, s, q, said) && Alone(q, t, Receiving(id, b)) && q.w == Append(r.w, UploadPath(r.w.directory, b), data)
  {
    hide Inv, Arrives, Ascending, UploadPath, InStore, Append, Delete, Other;
    ArriveNext(c, s, said, r, t, Proceed);
    q := Step(r, t, Proceed);
  }

  lemma SoloReject(c: Streaming.Config, s: System, said: seq<Streaming.PutReply>, r: System, t: nat, id: nat, b: nat) returns (q: System)
    requires Inv(s) && Arrives(c, s, r, said) && Alone(r, t, Receiving(id, b))
    ensures Arrives(c, s, q, said + [Streaming.PutReply(Streaming.InvalidArgument, None)]) && Alone(q, t, Idle) && q.w == r.w
  {
    hide Inv, Arrives, Ascending, UploadPath, InStore, Upload, Delete, Other;
    ArriveNext(c, s, said, r, t, RejectMessage);
    q := Step(r, t, RejectMessage);
  }

  lemma SoloEnd(c: Streaming.Config, s: System, said: seq<Streaming.PutReply>, r: System, t: nat, id: nat, b: nat, agrees: bool) returns (q: System)
    requires Inv(s) && Arrives(c, s, r, said) && Alone(r, t, Receiving(id, b))
    ensures Alone(q, t, Idle) && q.w == if agrees then r.w else Unlink(r.w, UploadPath(r.w.directory, b))
    ensures Arrives(c, s, q, said + [if agrees then Streaming.PutReply(Streaming.Ok, Some(Streaming.Reference(Streaming.SESSION_STORAGE, b, c.referenceTag(b, id))))
                                     else Streaming.PutReply(Streaming.InvalidArgument, None)])
  {
    hide Inv, Arrives, Ascending, UploadPath, InStore, Upload, Delete, Other, Unlink;
    ArriveNext(c, s, said, r, t, EndStream(agrees));
    q := Step(r, t, EndStream(agrees));
  }

  /** The receive loop; after the last chunk the thread is still waiting for the stream to end. */
  lemma {:induction false} SoloReceive(c: Streaming.Config, s: System, said: seq<Streaming.PutReply>, r: System, t: nat, id: nat, b: nat, messages: seq<Streaming.Message>, total: word) returns (q: System)
    requires Inv(s) && Arrives(c, s, r, said) && Alone(r, t, Receiving(id, b)) && id in r.w.sessions && NoWrap(r.w.quota, messages)
    ensures var (w, intake) := Streaming.Receive(r.w, id, b, UploadPath(r.w.directory, b), messages, total);
            Arrives(c, s, q, AndThen(said, Early(intake))) && q.w == w && Alone(q, t, if intake.Complete? then Receiving(id, b) else Idle)
    ensures q.w.directory == r.w.directory
    decreases |messages|
  {
    hide Inv, Arrives, Alone, UploadPath, Append, DeleteBlobFile, ReserveFor;
    q := r;
    if messages == [] {
    } else if !messages[0].Chunk? {
      q := SoloReject(c, s, said, r, t, id, b);
    } else {
      assert messages[0] in messages;
      var data := messages[0].data;
      q := SoloChunk(c, s, said, r, t, id, b, data);
      var answer := ReserveFor(r.w, id, b, |data|).1;
      ReserveForKeeps(r.w, id, b, |data|);
      if answer.Refused? {
        q := SoloCleanUp(c, s, AndThen(said, Early(Streaming.Exhausted)), q, t, id, b);
      } else if answer.Granted? {
        q := SoloWrite(c, s, said, q, t, id, b, data);
        AppendKeeps(ReserveFor(r.w, id, b, |data|).0, id, UploadPath(r.w.directory, b), data);
        q := SoloReceive(c, s, said, q, t, id, b, messages[1..], Add64(total, |data|));
      }
    }
  }

  lemma ReserveForKeeps(w: World, id: nat, b: nat, size: nat)
    requires id in w.sessions
    ensures var w1 := ReserveFor(w, id, b, size).0;
            w1.directory == w.directory && w1.quota == w.quota && id in w1.sessions
  {
  }

  lemma AppendKeeps(w: World, id: nat, path: string, data: seq<byte>)
    requires id in w.sessions
    ensures var w1 := Append(w, path, data);
            w1.directory == w.directory && w1.quota == w.quota && id in w1.sessions
  {
  }

  /** An upload from call to return, whatever way it ends: the same state and the same reply. */
  lemma SoloUpload(c: Streaming.Config, s: System, t: nat, opens: bool, id: nat, messages: seq<Streaming.Message>) returns (q: System)
    requires Inv(s) && Alone(s, t, Idle) && id in s.w.sessions && NoWrap(s.w.quota, messages) && StartsUpload(messages, id)
    ensures Alone(q, t, Idle)
    ensures var (w, reply) := Streaming.Put(s.w, c, opens, messages); q.w == w && Arrives(c, s, q, [reply])
  {
    hide Inv, Arrives, UploadPath, Append, DeleteBlobFile, ReserveFor, Streaming.Receive;
    var (w, b, path) := CreateBlobFile(s.w, id);
    q := SoloCreate(c, s, t, id);
    q := SoloOpen(c, s, [], q, t, id, b, opens);
    if opens {
      q := SoloReceive(c, s, [], q, t, id, b, messages[1..], 0);
      var intake := Streaming.Receive(Open(w, path), id, b, path, messages[1..], 0).1;
      if intake.Complete? {
        var announced := messages[0].blobSize;
        q := SoloEnd(c, s, [], q, t, id, b, announced.Some? ==> announced.value == intake.total);
      }
    }
    var reply := Streaming.Put(s.w, c, opens, messages).1;
    assert [] + [reply] == [reply];
  }

  /**
   Any call of `Put`. One whose stream gets as far as a live session ends with the reply of the sequential model;
   any other is answered without a step on what the threads share, and changes nothing there either.
   */
  lemma SoloPut(c: Streaming.Config, s: System, t: nat, opens: bool, messages: seq<Streaming.Message>) returns (q: System)
    requires Inv(s) && Alone(s, t, Idle) && NoWrap(s.w.quota, messages)
    ensures Alone(q, t, Idle)
    ensures var (w, reply) := Streaming.Put(s.w, c, opens, messages);
            && q.w == w && Arrives(c, s, q, if ReachesSession(s.w, messages) then [reply] else [])
            && (!ReachesSession(s.w, messages) ==> reply.reference.None? && reply.status in {Streaming.InvalidArgument, Streaming.Unavailable, Streaming.NotFound})
  {
    hide Inv, Arrives, NoWrap, Alone;
    if ReachesSession(s.w, messages) {
      q := SoloUpload(c, s, t, opens, messages[0].session, messages);
    } else {
      ArriveStart(c, s);
      q := s;
    }
  }

  // ----- add -----

  lemma SoloAdd(c: Streaming.Config, s: System, t: nat, id: nat, path: string, canonical: string) returns (q: System)
    requires Inv(s) && Alone(s, t, Idle) && id in s.w.sessions && !InStore(s.w.directory, canonical)
    ensures Arrives(c, s, q, []) && Alone(q, t, Idle) && q.w == Add(s.w, id, path, canonical).0
  {
    hide Inv, Arrives, Alone, InStore, InsertEntry;
    q := SoloBegin(c, s, t, BeginAdd(id, path, canonical), Adding(id, path, canonical));
    q := SoloDrawToAdd(c, s, q, t, id, path, canonical);
    q := SoloRegister(c, s, q, t, id, s.w.lastBlob + 1, path, canonical);
  }

  lemma SoloDrawToAdd(c: Streaming.Config, s: System, r: System, t: nat, id: nat, path: string, canonical: string) returns (q: System)
    requires Inv(s) && Arrives(c, s, r, []) && Alone(r, t, Adding(id, path, canonical))
    ensures Arrives(c, s, q, []) && q.w == NextBlobId(r.w) && Alone(q, t, Registering(id, r.w.lastBlob + 1, path, canonical))
  {
    hide Inv, Arrives, UploadPath, InStore, Begin, Upload, Delete, Streaming.Admit;
    ArriveNext(c, s, [], r, t, Proceed);
    q := Step(r, t, Proceed);
  }

  lemma SoloRegister(c: Streaming.Config, s: System, r: System, t: nat, id: nat, b: nat, path: string, canonical: string) returns (q: System)
    requires Inv(s) && Arrives(c, s, r, []) && Alone(r, t, Registering(id, b, path, canonical)) && id in r.w.sessions
    ensures Arrives(c, s, q, []) && Alone(q, t, Idle)
    ensures q.w == if path in r.w.files then InsertEntry(r.w, id, b, canonical) else r.w
  {
    hide Inv, Arrives, UploadPath, InStore, Begin, Upload, Delete, Locked, UsedByOther, Streaming.Admit, InsertEntry;
    ArriveNext(c, s, [], r, t, Proceed);
    q := Step(r, t, Proceed);
  }
}
