/**
 The server as it really runs: any number of threads, each inside one call, taking one step at a time. A step
 is one access to memory that other threads see: the counter, a session's map under its mutex, the manager's
 maps under theirs, the id counters, a file.
 */
module Interleaving {
  import opened Wrappers
  import opened Words
  import opened Naming
  import opened BlobSessions
  import Loop = ReserveLoop
  import opened Streaming

  /** Where a thread stands in its call. */
  datatype Pc =
    | Idle
      // Put
    | Creating(session: nat)                                              // wants the session's mutex
    | Inserting(session: nat, blob: nat)                                  // holds it, the id is drawn
    | Opening(session: nat, blob: nat)
    | Receiving(session: nat, blob: nat)
    | Waiting(session: nat, blob: nat, data: seq<byte>)                   // wants the mutex to reserve
    | Reserving(session: nat, blob: nat, data: seq<byte>, phase: Loop.Phase)   // holds it
    | Writing(session: nat, blob: nat, data: seq<byte>)
      // remove, dispose, and the clean-up of a refused Put: blobs still to delete, in order
    | Removing(session: nat, blobs: seq<nat>, disposing: bool)            // wants the mutex for the first
    | Releasing(session: nat, blobs: seq<nat>, disposing: bool)           // holds it, the entry is found
    | Unlinking(session: nat, blobs: seq<nat>, disposing: bool, released: nat)
    | Erasing(session: nat, blobs: seq<nat>, disposing: bool, released: nat)
      // add
    | Adding(session: nat, path: string, canonical: string)
    | Registering(session: nat, blob: nat, path: string, canonical: string)
      // Get with a transaction context
    | Looked(transaction: nat, found: nat)                                // between the two lookups
    | Admitted
    | Denied
  {
    /** The session whose object the thread refers to. */
    function Uses(): Option<nat> {
      if Idle? || Looked? || Admitted? || Denied? then None else Some(session)
    }

    /** The session whose mutex the thread holds. */
    function Lock(): Option<nat> {
      if Inserting? || Reserving? || Releasing? || Unlinking? || Erasing? || Registering? then Some(session) else None
    }

    predicate Uploads() {
      Inserting? || Opening? || Receiving? || Waiting? || Reserving? || Writing?
    }

    /** The blob id the thread drew in its call. */
    function InHand(): Option<nat> {
      if Uploads() || Registering? then Some(blob) else None
    }

    predicate Deletes() {
      Releasing? || Unlinking? || Erasing?
    }

    /** Bytes the store has granted but no entry is charged with yet. */
    function Grant(): nat {
      if Reserving? && phase.Granted? then |data| else 0
    }

    /** Bytes given back to the store whose entry is still there. */
    function Released(): nat {
      if Unlinking? || Erasing? then released else 0
    }
  }

  /**
   `leaked` counts bytes granted to ids that were gone when the grant was to be charged; `orphans` are the
   charges of entries destroyed together with their session.
   */
  datatype System = System(w: World, threads: map<nat, Pc>, leaked: nat, orphans: map<(nat, nat), nat>)

  datatype Action =
    | BeginPut(session: nat)
    | BeginRemove(session: nat, blobs: seq<nat>)
    | BeginDispose(session: nat)
    | BeginAdd(session: nat, path: string, canonical: string)
    | BeginGet(sought: nat)
    | OpenSession(transaction: Option<nat>)
    | TakeChunk(data: seq<byte>)       // the next message is a chunk
    | RejectMessage                    // it is not
    | EndStream(agrees: bool)          // there is none; the announced size agrees or not
    | FailToOpen
    | Proceed                          // the only step the thread can take
    | MoveAway(path: string)           // the outside world
    | CreateOutside(path: string, data: seq<byte>)

  predicate Locked(s: System, id: nat) {
    exists u | u in s.threads :: s.threads[u].Lock() == Some(id)
  }

  predicate UsedByOther(s: System, t: nat, id: nat) {
    exists u | u in s.threads :: u != t && s.threads[u].Uses() == Some(id)
  }

  predicate Enabled(s: System, t: nat, a: Action) {
    t in s.threads &&
    var pc := s.threads[t];
    match a
    case BeginPut(id) => pc.Idle? && id in s.w.sessions
    case BeginRemove(id, _) => pc.Idle? && id in s.w.sessions
    case BeginDispose(id) => pc.Idle? && id in s.w.sessions && !Locked(s, id)
    case BeginAdd(id, _, canonical) => pc.Idle? && id in s.w.sessions && !InStore(s.w.directory, canonical)
    case BeginGet(_) => pc.Idle?
    case OpenSession(_) => pc.Idle?
    case TakeChunk(data) => pc.Receiving? && (s.w.quota == 0 || s.w.quota + |data| < WORD_LIMIT)
    case RejectMessage => pc.Receiving?
    case EndStream(_) => pc.Receiving?
    case FailToOpen => pc.Opening?
    case Proceed =>
      (match pc
       case Idle => false
       case Receiving(_, _) => false
       case Creating(id) => !Locked(s, id)
       case Waiting(id, _, _) => !Locked(s, id)
       case Adding(id, _, _) => !Locked(s, id)
       case Removing(id, blobs, disposing) =>
         // a session in use by another call is not destroyed
         if blobs != [] then !Locked(s, id) else disposing ==> !UsedByOther(s, t, id)
       case _ => true)
    case MoveAway(_) => true
    case CreateOutside(path, _) => !InStore(s.w.directory, path)
  }

  function Goto(s: System, t: nat, pc: Pc): System {
    s.(threads := s.threads[t := pc])
  }

  /** The state is well-formed enough for the thread's next step to make sense. */
  predicate Runnable(w: World, pc: Pc) {
    && (pc.Uses().Some? ==> pc.Uses().value in w.sessions)
    && (pc.Deletes() ==> pc.blobs != [] && pc.blobs[0] in w.sessions[pc.session].blobs)
  }

  ghost function Begin(s: System, t: nat, a: Action): System
    requires Enabled(s, t, a)
  {
    match a
    case BeginPut(id) => Goto(s, t, Creating(id))
    case BeginRemove(id, blobs) => Goto(s, t, Removing(id, blobs, false))
    case BeginDispose(id) => Goto(s, t, Removing(id, Ascending(s.w.sessions[id].blobs.Keys), true))
    case BeginAdd(id, path, canonical) => Goto(s, t, Adding(id, path, canonical))
    case BeginGet(transaction) =>
      (match SessionIdOf(s.w, transaction)
       case None => s
       case Some(id) => Goto(s, t, Looked(transaction, id)))
    case OpenSession(transaction) => s.(w := CreateSession(s.w, transaction))
    case TakeChunk(data) => Goto(s, t, Waiting(s.threads[t].session, s.threads[t].blob, data))
    case RejectMessage => Goto(s, t, Idle)
    case EndStream(agrees) =>
      var w := if agrees then s.w else Unlink(s.w, UploadPath(s.w.directory, s.threads[t].blob));
      Goto(s, t, Idle).(w := w)
    case FailToOpen => Goto(s, t, Idle)
    case MoveAway(path) => s.(w := Unlink(s.w, path))
    case CreateOutside(path, data) => s.(w := s.w.(files := s.w.files[path := data]))
    case Proceed => s
  }

  /** One step inside `Put`. */
  function Upload(s: System, t: nat, pc: Pc): System
    requires pc.Creating? || pc.Uploads()
    requires Runnable(s.w, pc)
  {
    var w, id := s.w, pc.session;
    match pc
    case Creating(_) => Goto(s, t, Inserting(id, w.lastBlob + 1)).(w := NextBlobId(w))
    case Inserting(_, b) => Goto(s, t, Opening(id, b)).(w := InsertEntry(w, id, b, UploadPath(w.directory, b)))
    case Opening(_, b) => Goto(s, t, Receiving(id, b)).(w := Open(w, UploadPath(w.directory, b)))
    case Waiting(_, b, data) => Goto(s, t, Reserving(id, b, data, Loop.Entered))
    case Reserving(_, b, data, Granted) =>
      if b in w.sessions[id].blobs then Goto(s, t, Writing(id, b, data)).(w := Charge(w, id, b, |data|))
      else Goto(s, t, Idle).(leaked := if w.quota == 0 then 0 else s.leaked + |data|)
    case Reserving(_, b, data, Refused) => Goto(s, t, Removing(id, [b], false))
    case Reserving(_, b, data, phase) =>
      var (usage, next) := Loop.Advance(w.quota, w.usage, |data|, phase);
      Goto(s, t, Reserving(id, b, data, next)).(w := w.(usage := usage))
    case Writing(_, b, data) => Goto(s, t, Receiving(id, b)).(w := Append(w, UploadPath(w.directory, b), data))
    case _ => s
  }

  ghost function Remains(w: World, id: nat): map<(nat, nat), nat> {
    map b | b in BlobsOf(w, id) :: (id, b) := BlobsOf(w, id)[b].charge
  }

  /** One step of deleting blobs, and the end of `dispose`. */
  ghost function Delete(s: System, t: nat, pc: Pc): System
    requires pc.Removing? || pc.Deletes()
    requires Runnable(s.w, pc)
  {
    var w, id := s.w, pc.session;
    match pc
    case Removing(_, blobs, disposing) =>
      if blobs == [] then
        if disposing then Goto(s, t, Idle).(w := EraseSession(w, id), orphans := s.orphans + Remains(w, id))
        else Goto(s, t, Idle)
      else if blobs[0] in w.sessions[id].blobs then Goto(s, t, Releasing(id, blobs, disposing))
      else Goto(s, t, Removing(id, blobs[1..], disposing))
    case Releasing(_, blobs, disposing) =>
      var charge := w.sessions[id].blobs[blobs[0]].charge;
      Goto(s, t, Unlinking(id, blobs, disposing, if w.quota == 0 then 0 else charge)).(w := Release(w, charge))
    case Unlinking(_, blobs, disposing, released) =>
      Goto(s, t, Erasing(id, blobs, disposing, released)).(w := Unlink(w, w.sessions[id].blobs[blobs[0]].path))
    case Erasing(_, blobs, disposing, _) =>
      Goto(s, t, Removing(id, blobs[1..], disposing)).(w := EraseEntry(w, id, blobs[0]))
  }

  /** One step of `add`, or of admitting a transaction's Get. */
  function Other(s: System, t: nat, pc: Pc): System
    requires !pc.Creating? && !pc.Uploads() && !pc.Removing? && !pc.Deletes()
    requires Runnable(s.w, pc)
  {
    var w := s.w;
    match pc
    case Adding(id, path, canonical) => Goto(s, t, Registering(id, w.lastBlob + 1, path, canonical)).(w := NextBlobId(w))
    case Registering(id, b, path, canonical) => Goto(s, t, Idle).(w := if path in w.files then InsertEntry(w, id, b, canonical) else w)
    case Looked(transaction, id) =>
      (match Admit(w, id, transaction)
       case Ok => Goto(s, t, Admitted)
       case PermissionDenied => Goto(s, t, Denied)
       case _ => Goto(s, t, Idle))
    case _ => Goto(s, t, Idle)
  }

  ghost function Step(s: System, t: nat, a: Action): System
    requires Enabled(s, t, a) && Runnable(s.w, s.threads[t])
  {
    var pc := s.threads[t];
    if !a.Proceed? then Begin(s, t, a)
    else if pc.Creating? || pc.Uploads() then Upload(s, t, pc)
    else if pc.Removing? || pc.Deletes() then Delete(s, t, pc)
    else Other(s, t, pc)
  }
}
