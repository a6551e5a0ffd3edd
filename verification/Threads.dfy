/** What every interleaving keeps about the threads: mutual exclusion, fresh ids, and what each may rely on. */
module Threads {
  import opened Wrappers
  import opened Words
  import opened Naming
  import opened BlobSessions
  import Loop = ReserveLoop
  import opened Interleaving

  predicate PhaseOk(quota: word, size: nat, phase: Loop.Phase) {
    match phase
    case Seen(current) => quota != 0 && current <= quota
    case Fitting(current) => quota != 0 && current + size <= quota
    case Refused => quota != 0
    case _ => true
  }

  /** What a thread at this point may rely on, whatever the others do. */
  ghost predicate PcOk(w: World, pc: Pc) {
    && Runnable(w, pc)
    && (pc.InHand().Some? ==> 1 <= pc.blob <= w.lastBlob)
    && (pc.Inserting? || pc.Registering? ==> Unborn(w, pc.blob))
    && (pc.Uploads() ==> var blobs := w.sessions[pc.session].blobs;
                         pc.blob in blobs ==> blobs[pc.blob].path == UploadPath(w.directory, pc.blob))
    && (pc.Waiting? || pc.Reserving? ==> w.quota == 0 || w.quota + |pc.data| < WORD_LIMIT)
    && (pc.Reserving? ==> PhaseOk(w.quota, |pc.data|, pc.phase))
    && (pc.Unlinking? || pc.Erasing? ==>
          pc.released == if w.quota == 0 then 0 else w.sessions[pc.session].blobs[pc.blobs[0]].charge)
    && (pc.Adding? || pc.Registering? ==> !InStore(w.directory, pc.canonical))
    && (pc.Looked? ==> pc.found <= w.lastSession)
    && (pc.Looked? && pc.found in w.sessions ==> w.sessions[pc.found].transaction == Some(pc.transaction))
    && !pc.Denied?
  }

  /** At most one thread holds a session's mutex. */
  ghost predicate Exclusive(threads: map<nat, Pc>) {
    forall t, u | t in threads && u in threads && t != u && threads[t].Lock().Some? :: threads[u].Lock() != threads[t].Lock()
  }

  /** No id is drawn twice. */
  ghost predicate DrawnOnce(threads: map<nat, Pc>) {
    forall t, u | t in threads && u in threads && t != u && threads[t].InHand().Some? :: threads[u].InHand() != threads[t].InHand()
  }

  ghost predicate ThreadsOk(w: World, threads: map<nat, Pc>) {
    && Structure(w)
    && (forall t | t in threads :: PcOk(w, threads[t]))
    && Exclusive(threads)
    && DrawnOnce(threads)
  }

  /** The change of the shared state is none of this thread's business. */
  ghost predicate Undisturbed(w: World, after: World, pc: Pc) {
    && after.directory == w.directory && after.quota == w.quota
    && w.lastBlob <= after.lastBlob && w.lastSession <= after.lastSession
    && (pc.Uses().Some? ==> pc.session in after.sessions)
    && (pc.Lock().Some? ==> BlobsOf(after, pc.session) == BlobsOf(w, pc.session))
    && (pc.InHand().Some? ==>
          && (Unborn(w, pc.blob) ==> Unborn(after, pc.blob))
          && (pc.blob in BlobsOf(after, pc.session) ==>
                pc.blob in BlobsOf(w, pc.session) && BlobsOf(after, pc.session)[pc.blob].path == BlobsOf(w, pc.session)[pc.blob].path))
    && (pc.Looked? && pc.found in after.sessions && pc.found <= w.lastSession ==>
          pc.found in w.sessions && after.sessions[pc.found].transaction == w.sessions[pc.found].transaction)
  }

  lemma UndisturbedStaysOk(w: World, after: World, pc: Pc)
    requires PcOk(w, pc) && Undisturbed(w, after, pc)
    ensures PcOk(after, pc)
  {
    hide InStore, UploadPath, Unborn;
  }

  lemma MovesExclusively(threads: map<nat, Pc>, t: nat, pc: Pc)
    requires Exclusive(threads) && t in threads
    requires pc.Lock().None? || pc.Lock() == threads[t].Lock() || forall u | u in threads :: threads[u].Lock() != pc.Lock()
    ensures Exclusive(threads[t := pc])
  {
  }

  lemma MovesDrawnOnce(threads: map<nat, Pc>, t: nat, pc: Pc, last: nat)
    requires DrawnOnce(threads) && t in threads
    requires forall u | u in threads && threads[u].InHand().Some? :: threads[u].InHand().value <= last
    requires pc.InHand().None? || pc.InHand() == threads[t].InHand() || pc.InHand().value > last
    ensures DrawnOnce(threads[t := pc])
  {
  }

  /** One thread moves to `pc` and changes the shared state in a way that leaves the others undisturbed. */
  lemma ThreadMoves(w: World, threads: map<nat, Pc>, t: nat, after: World, pc: Pc)
    requires ThreadsOk(w, threads) && t in threads
    requires Structure(after) && PcOk(after, pc)
    requires forall u | u in threads && u != t :: Undisturbed(w, after, threads[u])
    requires pc.Lock().None? || pc.Lock() == threads[t].Lock() || forall u | u in threads :: threads[u].Lock() != pc.Lock()
    requires pc.InHand().None? || pc.InHand() == threads[t].InHand() || pc.blob > w.lastBlob
    ensures ThreadsOk(after, threads[t := pc])
  {
    hide Structure, Undisturbed;
    forall u | u in threads && u != t ensures PcOk(after, threads[u]) {
      UndisturbedStaysOk(w, after, threads[u]);
    }
    forall u | u in threads && threads[u].InHand().Some? ensures threads[u].InHand().value <= w.lastBlob {
      assert PcOk(w, threads[u]);
    }
    hide PcOk, Exclusive, DrawnOnce;
    MovesExclusively(threads, t, pc);
    MovesDrawnOnce(threads, t, pc, w.lastBlob);
  }

  // ----- Changes that disturb nobody else -----

  lemma FilesAndUsageDisturbNobody(w: World, files: map<string, seq<byte>>, usage: word, pc: Pc)
    requires PcOk(w, pc)
    ensures Undisturbed(w, w.(files := files, usage := usage), pc)
  {
    hide InStore, UploadPath;
    var after := w.(files := files, usage := usage);
    assert forall s: nat, b: nat :: Live(after, s, b) <==> Live(w, s, b);
  }

  lemma NextBlobIdDisturbsNobody(w: World, pc: Pc)
    requires PcOk(w, pc) && Structure(w)
    ensures Undisturbed(w, NextBlobId(w), pc)
  {
    NextBlobIdKeepsStructure(w);
    hide InStore, UploadPath, Structure;
  }

  lemma CreateSessionDisturbsNobody(w: World, transaction: Option<nat>, pc: Pc)
    requires PcOk(w, pc) && Structure(w)
    ensures Undisturbed(w, CreateSession(w, transaction), pc)
  {
    hide Structure, CreateSession, InStore, UploadPath;
    CreateSessionKeepsStructure(w, transaction);
    NewSessionIsNew(w, transaction);
  }

  lemma NewSessionIsNew(w: World, transaction: Option<nat>)
    requires Structure(w)
    ensures var after := CreateSession(w, transaction);
            && after.directory == w.directory && after.quota == w.quota
            && after.lastBlob == w.lastBlob && after.lastSession == w.lastSession + 1 && after.lastSession !in w.sessions
            && after.sessions.Keys == w.sessions.Keys + {after.lastSession}
            && forall id | id in w.sessions :: after.sessions[id] == w.sessions[id]
  {
    hide InStore, UploadPath, IndexSound, PathsSound;
  }

  /** A session's map changes only under its mutex, and no id drawn by another thread is put in. */
  lemma MapChangeDisturbsNobody(w: World, id: nat, blobs: map<nat, Entry>, pc: Pc)
    requires PcOk(w, pc) && id in w.sessions
    requires pc.Lock() != Some(id)
    requires forall b | b in blobs && pc.InHand() == Some(b) :: b in w.sessions[id].blobs && w.sessions[id].blobs[b].path == blobs[b].path
    ensures Undisturbed(w, WithBlobs(w, id, blobs), pc)
  {
    hide InStore, UploadPath;
    var after := WithBlobs(w, id, blobs);
    if pc.InHand().Some? {
      forall s: nat | Live(after, s, pc.blob) ensures Live(w, s, pc.blob) {
      }
    }
  }

  lemma EraseSessionDisturbsNobody(w: World, id: nat, pc: Pc)
    requires PcOk(w, pc) && pc.Uses() != Some(id)
    ensures Undisturbed(w, EraseSession(w, id), pc)
  {
    hide InStore, UploadPath;
    var after := EraseSession(w, id);
    if pc.InHand().Some? {
      forall s: nat | Live(after, s, pc.blob) ensures Live(w, s, pc.blob) {
      }
    }
  }

  // ----- Steps of the threads -----

  ghost predicate Sound(s: System) {
    ThreadsOk(s.w, s.threads)
  }

  predicate WithinQuota(w: World) {
    w.quota != 0 ==> w.usage <= w.quota
  }

  /** Only files or the counter change. */
  lemma MoveWithFilesAndUsage(s: System, t: nat, files: map<string, seq<byte>>, usage: word, pc: Pc)
    requires Sound(s) && t in s.threads
    requires PcOk(s.w.(files := files, usage := usage), pc)
    requires pc.Lock().None? || pc.Lock() == s.threads[t].Lock() || !Locked(s, pc.Lock().value)
    requires pc.InHand().None? || pc.InHand() == s.threads[t].InHand()
    ensures ThreadsOk(s.w.(files := files, usage := usage), s.threads[t := pc])
  {
    hide PcOk, Structure, Undisturbed, Exclusive, DrawnOnce;
    StructureIgnoresFilesAndUsage(s.w, files, usage);
    forall u | u in s.threads && u != t ensures Undisturbed(s.w, s.w.(files := files, usage := usage), s.threads[u]) {
      FilesAndUsageDisturbNobody(s.w, files, usage, s.threads[u]);
    }
    ThreadMoves(s.w, s.threads, t, s.w.(files := files, usage := usage), pc);
  }

  /** The thread draws the next blob id as it takes the mutex. */
  lemma MoveWithNextBlobId(s: System, t: nat, pc: Pc)
    requires Sound(s) && t in s.threads
    requires PcOk(NextBlobId(s.w), pc) && pc.InHand() == Some(s.w.lastBlob + 1)
    requires pc.Lock().Some? && !Locked(s, pc.Lock().value)
    ensures ThreadsOk(NextBlobId(s.w), s.threads[t := pc])
  {
    hide PcOk, Structure, Undisturbed, Exclusive, DrawnOnce;
    NextBlobIdKeepsStructure(s.w);
    forall u | u in s.threads && u != t ensures Undisturbed(s.w, NextBlobId(s.w), s.threads[u]) {
      NextBlobIdDisturbsNobody(s.w, s.threads[u]);
    }
    ThreadMoves(s.w, s.threads, t, NextBlobId(s.w), pc);
  }

  /** The thread holds the mutex of session `id`, rewrites its map, and lets go. */
  lemma MoveWithMap(s: System, t: nat, id: nat, blobs: map<nat, Entry>, pc: Pc)
    requires Sound(s) && t in s.threads && s.threads[t].Lock() == Some(id) && id in s.w.sessions
    requires var w := WithBlobs(s.w, id, blobs); Structure(w) && PcOk(w, pc)
    requires pc.Lock().None? && (pc.InHand().None? || pc.InHand() == s.threads[t].InHand())
    requires forall b | b in blobs && s.threads[t].InHand() != Some(b) ::
               b in s.w.sessions[id].blobs && s.w.sessions[id].blobs[b].path == blobs[b].path
    ensures ThreadsOk(WithBlobs(s.w, id, blobs), s.threads[t := pc])
  {
    hide PcOk, Structure, Undisturbed;
    var w := WithBlobs(s.w, id, blobs);
    forall u | u in s.threads && u != t ensures Undisturbed(s.w, w, s.threads[u]) {
      MapChangeDisturbsNobody(s.w, id, blobs, s.threads[u]);
    }
    ThreadMoves(s.w, s.threads, t, w, pc);
  }

  lemma UnbornNext(w: World)
    requires Structure(w)
    ensures Unborn(NextBlobId(w), w.lastBlob + 1)
  {
    NextBlobIdKeepsStructure(w);
  }

  lemma CreationKeepsThreads(s: System, t: nat)
    requires Sound(s) && Enabled(s, t, Proceed) && (s.threads[t].Creating? || s.threads[t].Inserting?)
    ensures Sound(Upload(s, t, s.threads[t]))
  {
    hide InStore, UploadPath, Exclusive, DrawnOnce, Structure, Undisturbed;
    var w, pc := s.w, s.threads[t];
    var id := pc.session;
    assert PcOk(w, pc);
    if pc.Creating? {
      UnbornNext(w);
      assert !Live(NextBlobId(w), id, w.lastBlob + 1);
      MoveWithNextBlobId(s, t, Inserting(id, w.lastBlob + 1));
    } else {
      assert !Live(w, id, pc.blob);
      var e := Entry(UploadPath(w.directory, pc.blob), 0);
      NewEntryKeepsStructure(w, id, pc.blob, e);
      MoveWithMap(s, t, id, w.sessions[id].blobs[pc.blob := e], Opening(id, pc.blob));
    }
  }

  lemma StreamingKeepsThreads(s: System, t: nat)
    requires Sound(s) && Enabled(s, t, Proceed) && (s.threads[t].Opening? || s.threads[t].Waiting? || s.threads[t].Writing?)
    ensures Sound(Upload(s, t, s.threads[t]))
  {
    hide InStore, UploadPath, Exclusive, DrawnOnce, Structure, Undisturbed;
    var w, pc := s.w, s.threads[t];
    assert PcOk(w, pc);
    MoveWithFilesAndUsage(s, t, Upload(s, t, pc).w.files, w.usage, Upload(s, t, pc).threads[t]);
  }

  lemma ReservingKeepsThreads(s: System, t: nat)
    requires Sound(s) && WithinQuota(s.w) && Enabled(s, t, Proceed) && s.threads[t].Reserving?
    ensures Sound(Upload(s, t, s.threads[t]))
  {
    hide Sound, Upload, WithinQuota, Locked, UsedByOther;
    var pc := s.threads[t];
    ThreadIsOk(s, t);
    if pc.phase.Granted? && pc.blob in s.w.sessions[pc.session].blobs {
      ChargingKeepsThreads(s, t);
    } else {
      ExchangingKeepsThreads(s, t);
    }
  }

  lemma ThreadIsOk(s: System, t: nat)
    requires t in s.threads && Sound(s)
    ensures PcOk(s.w, s.threads[t]) && Runnable(s.w, s.threads[t])
  {
    hide Structure, Exclusive, DrawnOnce;
    assert PcOk(s.w, s.threads[t]);
  }

  lemma ChargingKeepsThreads(s: System, t: nat)
    requires t in s.threads && Runnable(s.w, s.threads[t]) && Sound(s)
    requires var pc := s.threads[t]; pc.Reserving? && pc.phase.Granted? && pc.blob in s.w.sessions[pc.session].blobs
    ensures Sound(Upload(s, t, s.threads[t]))
  {
    hide InStore, UploadPath, Exclusive, DrawnOnce, Structure, Undisturbed, Loop.Advance;
    var w, pc := s.w, s.threads[t];
    var id, b := pc.session, pc.blob;
    assert PcOk(w, pc);
    assert Live(w, id, b);
    ChargeKeepsStructure(w, id, b, |pc.data|);
    MoveWithMap(s, t, id, Charge(w, id, b, |pc.data|).sessions[id].blobs, Writing(id, b, pc.data));
  }

  lemma ExchangingKeepsThreads(s: System, t: nat)
    requires t in s.threads && Runnable(s.w, s.threads[t]) && Sound(s) && WithinQuota(s.w)
    requires var pc := s.threads[t]; pc.Reserving? && !(pc.phase.Granted? && pc.blob in s.w.sessions[pc.session].blobs)
    ensures Sound(Upload(s, t, s.threads[t]))
  {
    hide ThreadsOk, PcOk, Loop.Advance, UploadPath, InsertEntry, Charge, Append, Open;
    var w, pc := s.w, s.threads[t];
    var after := Upload(s, t, pc);
    ThreadIsOk(s, t);
    if pc.phase.Granted? {
      IdleIsOk(w);
    } else if pc.phase.Refused? {
      CallerIsOk(w, after.threads[t]);
    } else {
      ExchangedIsOk(w, pc);
    }
    MoveWithFilesAndUsage(s, t, w.files, after.w.usage, after.threads[t]);
  }

  lemma ExchangedIsOk(w: World, pc: Pc)
    requires PcOk(w, pc) && WithinQuota(w) && pc.Reserving? && !pc.phase.Granted? && !pc.phase.Refused?
    ensures var (usage, next) := Loop.Advance(w.quota, w.usage, |pc.data|, pc.phase);
            PcOk(w.(usage := usage), Reserving(pc.session, pc.blob, pc.data, next))
  {
    hide InStore, UploadPath, Unborn;
  }

  /** A thread that has drawn no id and holds no mutex relies on nothing but its session. */
  lemma CallerIsOk(w: World, pc: Pc)
    requires pc.Creating? || pc.Removing? || (pc.Adding? && !InStore(w.directory, pc.canonical))
    requires pc.session in w.sessions
    ensures PcOk(w, pc)
  {
    hide InStore;
  }

  lemma ErasingSessionKeepsThreads(s: System, t: nat, id: nat)
    requires Sound(s) && t in s.threads && !UsedByOther(s, t, id)
    ensures ThreadsOk(EraseSession(s.w, id), s.threads[t := Idle])
  {
    hide PcOk, Structure, Undisturbed, Exclusive, DrawnOnce;
    EraseSessionKeepsStructure(s.w, id);
    forall u | u in s.threads && u != t ensures Undisturbed(s.w, EraseSession(s.w, id), s.threads[u]) {
      EraseSessionDisturbsNobody(s.w, id, s.threads[u]);
    }
    assert PcOk(EraseSession(s.w, id), Idle) by { IdleIsOk(EraseSession(s.w, id)); }
    ThreadMoves(s.w, s.threads, t, EraseSession(s.w, id), Idle);
  }

  lemma IdleIsOk(w: World)
    ensures PcOk(w, Idle)
  {
  }

  lemma RemovingKeepsThreads(s: System, t: nat)
    requires Sound(s) && Enabled(s, t, Proceed) && s.threads[t].Removing?
    ensures Sound(Delete(s, t, s.threads[t]))
  {
    hide Sound, Locked, Remains, EraseSession;
    var pc := s.threads[t];
    ThreadIsOk(s, t);
    if pc.blobs == [] && pc.disposing {
      DisposingKeepsThreads(s, t);
    } else {
      hide UsedByOther;
      SkippingKeepsThreads(s, t);
    }
  }

  lemma DisposingKeepsThreads(s: System, t: nat)
    requires Enabled(s, t, Proceed) && s.threads[t].Removing? && Sound(s)
    requires s.threads[t].blobs == [] && s.threads[t].disposing && s.threads[t].session in s.w.sessions
    ensures Sound(Delete(s, t, s.threads[t]))
  {
    hide ThreadsOk, UsedByOther, EraseSession, Locked;
    assert !UsedByOther(s, t, s.threads[t].session);
    ErasingSessionKeepsThreads(s, t, s.threads[t].session);
  }

  lemma SkippingKeepsThreads(s: System, t: nat)
    requires Enabled(s, t, Proceed) && s.threads[t].Removing? && Sound(s)
    requires s.threads[t].blobs != [] || !s.threads[t].disposing
    ensures Sound(Delete(s, t, s.threads[t]))
  {
    hide ThreadsOk, PcOk, UsedByOther, Remains, EraseSession;
    var w, pc := s.w, s.threads[t];
    ThreadIsOk(s, t);
    var next := Delete(s, t, pc).threads[t];
    if pc.blobs == [] {
      IdleIsOk(w);
    } else if next.Removing? {
      CallerIsOk(w, next);
    } else {
      ReleaserIsOk(w, next);
    }
    MoveWithFilesAndUsage(s, t, w.files, w.usage, next);
  }

  lemma ReleaserIsOk(w: World, pc: Pc)
    requires pc.Releasing? && Runnable(w, pc)
    ensures PcOk(w, pc)
  {
  }

  lemma DeleteKeepsThreads(s: System, t: nat)
    requires Sound(s) && Enabled(s, t, Proceed) && s.threads[t].Deletes()
    ensures Sound(Delete(s, t, s.threads[t]))
  {
    hide Sound, Delete, Runnable, Locked, UsedByOther;
    if s.threads[t].Erasing? {
      ErasingKeepsThreads(s, t);
    } else {
      ReleasingKeepsThreads(s, t);
    }
  }

  lemma ErasingKeepsThreads(s: System, t: nat)
    requires t in s.threads && s.threads[t].Erasing? && Sound(s)
    ensures Sound(Delete(s, t, s.threads[t]))
  {
    hide InStore, UploadPath, Exclusive, DrawnOnce, Structure, Undisturbed, Remains;
    var w, pc := s.w, s.threads[t];
    var id, blobs := pc.session, pc.blobs;
    assert PcOk(w, pc);
    EraseEntryKeepsStructure(w, id, blobs[0]);
    MoveWithMap(s, t, id, w.sessions[id].blobs - {blobs[0]}, Removing(id, blobs[1..], pc.disposing));
  }

  lemma ReleasingKeepsThreads(s: System, t: nat)
    requires t in s.threads && (s.threads[t].Releasing? || s.threads[t].Unlinking?) && Sound(s)
    ensures Sound(Delete(s, t, s.threads[t]))
  {
    hide InStore, UploadPath, Exclusive, DrawnOnce, Structure, Undisturbed, Remains;
    var w, pc := s.w, s.threads[t];
    assert PcOk(w, pc);
    var after := Delete(s, t, pc);
    MoveWithFilesAndUsage(s, t, after.w.files, after.w.usage, after.threads[t]);
  }

  lemma OtherKeepsThreads(s: System, t: nat)
    requires Sound(s) && Enabled(s, t, Proceed)
    requires !s.threads[t].Creating? && !s.threads[t].Uploads() && !s.threads[t].Removing? && !s.threads[t].Deletes()
    ensures Sound(Other(s, t, s.threads[t]))
  {
    hide Sound, Locked, UsedByOther, Other, Runnable;
    var pc := s.threads[t];
    if pc.Adding? {
      AddingKeepsThreads(s, t);
    } else if pc.Registering? {
      RegisteringKeepsThreads(s, t);
    } else {
      LookingKeepsThreads(s, t);
    }
  }

  lemma AddingKeepsThreads(s: System, t: nat)
    requires Enabled(s, t, Proceed) && s.threads[t].Adding? && Sound(s)
    ensures Sound(Other(s, t, s.threads[t]))
  {
    hide InStore, UploadPath, Exclusive, DrawnOnce, Undisturbed, Structure, UsedByOther;
    var w, pc := s.w, s.threads[t];
    assert PcOk(w, pc);
    UnbornNext(w);
    MoveWithNextBlobId(s, t, Registering(pc.session, w.lastBlob + 1, pc.path, pc.canonical));
  }

  lemma RegisteringKeepsThreads(s: System, t: nat)
    requires t in s.threads && s.threads[t].Registering? && Sound(s)
    ensures Sound(Other(s, t, s.threads[t]))
  {
    hide InStore, UploadPath, Exclusive, DrawnOnce, Undisturbed, Structure;
    var w, pc := s.w, s.threads[t];
    assert PcOk(w, pc);
    if pc.path in w.files {
      var e := Entry(pc.canonical, 0);
      assert !Live(w, pc.session, pc.blob);
      NewEntryKeepsStructure(w, pc.session, pc.blob, e);
      hide WithBlobs;
      MoveWithMap(s, t, pc.session, w.sessions[pc.session].blobs[pc.blob := e], Idle);
    } else {
      MoveWithFilesAndUsage(s, t, w.files, w.usage, Idle);
    }
  }

  lemma LookingKeepsThreads(s: System, t: nat)
    requires t in s.threads && Sound(s)
    requires var pc := s.threads[t]; pc.Idle? || pc.Looked? || pc.Admitted? || pc.Denied?
    ensures Sound(Other(s, t, s.threads[t]))
  {
    hide InStore, UploadPath, Exclusive, DrawnOnce, Undisturbed, Structure;
    var w, pc := s.w, s.threads[t];
    assert PcOk(w, pc);
    MoveWithFilesAndUsage(s, t, w.files, w.usage, Other(s, t, pc).threads[t]);
  }

  lemma OpenSessionKeepsThreads(s: System, t: nat, transaction: Option<nat>)
    requires Sound(s) && t in s.threads
    ensures Sound(s.(w := CreateSession(s.w, transaction)))
  {
    hide PcOk, Structure, Undisturbed, Exclusive, DrawnOnce;
    CreateSessionKeepsStructure(s.w, transaction);
    forall u | u in s.threads ensures Undisturbed(s.w, CreateSession(s.w, transaction), s.threads[u]) {
      CreateSessionDisturbsNobody(s.w, transaction, s.threads[u]);
    }
    UndisturbedStaysOk(s.w, CreateSession(s.w, transaction), s.threads[t]);
    ThreadMoves(s.w, s.threads, t, CreateSession(s.w, transaction), s.threads[t]);
    assert s.threads[t := s.threads[t]] == s.threads;
  }

  lemma BeginKeepsThreads(s: System, t: nat, a: Action)
    requires Sound(s) && Enabled(s, t, a) && !a.Proceed?
    ensures Sound(Begin(s, t, a))
  {
    hide Sound, Structure, InStore, UploadPath, Ascending, Locked, UsedByOther;
    assert s.threads[t := s.threads[t]] == s.threads;
    if a.OpenSession? {
      OpenSessionKeepsThreads(s, t, a.transaction);
    } else if a.MoveAway? || a.CreateOutside? {
      OutsideKeepsThreads(s, t, Begin(s, t, a).w.files);
    } else if a.BeginGet? {
      LookupKeepsThreads(s, t, a.sought);
    } else {
      CallKeepsThreads(s, t, a);
    }
  }

  lemma OutsideKeepsThreads(s: System, t: nat, files: map<string, seq<byte>>)
    requires Sound(s) && t in s.threads
    ensures Sound(s.(w := s.w.(files := files)))
  {
    hide InStore, UploadPath, Exclusive, DrawnOnce, Undisturbed, Structure;
    var w, pc := s.w, s.threads[t];
    FilesAndUsageDisturbNobody(w, files, w.usage, pc);
    UndisturbedStaysOk(w, w.(files := files), pc);
    MoveWithFilesAndUsage(s, t, files, w.usage, pc);
    assert s.threads[t := pc] == s.threads;
  }

  lemma LookupKeepsThreads(s: System, t: nat, transaction: nat)
    requires Enabled(s, t, BeginGet(transaction)) && Sound(s)
    ensures Sound(Begin(s, t, BeginGet(transaction)))
  {
    hide InStore, UploadPath, Exclusive, DrawnOnce, Undisturbed, PathsSound, Locked, UsedByOther;
    if transaction in s.w.index {
      MoveWithFilesAndUsage(s, t, s.w.files, s.w.usage, Looked(transaction, s.w.index[transaction]));
    }
  }

  /** A call begins, or the stream brings the next message or its end. */
  lemma CallKeepsThreads(s: System, t: nat, a: Action)
    requires Enabled(s, t, a) && !a.Proceed? && !a.OpenSession? && !a.MoveAway? && !a.CreateOutside? && !a.BeginGet?
    requires Sound(s)
    ensures Sound(Begin(s, t, a))
  {
    hide ThreadsOk, PcOk, Ascending, Locked, UsedByOther;
    var w, pc, after := s.w, s.threads[t], Begin(s, t, a);
    CalledIsOk(s, t, a);
    MoveWithFilesAndUsage(s, t, after.w.files, w.usage, after.threads[t]);
  }

  lemma CalledIsOk(s: System, t: nat, a: Action)
    requires Enabled(s, t, a) && !a.Proceed? && !a.OpenSession? && !a.MoveAway? && !a.CreateOutside? && !a.BeginGet?
    requires Sound(s)
    ensures var after := Begin(s, t, a); t in after.threads && PcOk(s.w.(files := after.w.files), after.threads[t])
  {
    hide ThreadsOk, PcOk, InStore, UploadPath, Unlink, Ascending, Locked, UsedByOther;
    var pc, after := s.threads[t], Begin(s, t, a);
    if pc.Idle? {
      CallerIsOk(s.w, after.threads[t]);
    } else if a.TakeChunk? {
      ThreadIsOk(s, t);
      ChunkIsOk(s.w, pc, a.data);
    } else {
      IdleIsOk(s.w.(files := after.w.files));
    }
  }

  lemma ChunkIsOk(w: World, pc: Pc, data: seq<byte>)
    requires PcOk(w, pc) && pc.Receiving? && (w.quota == 0 || w.quota + |data| < WORD_LIMIT)
    ensures PcOk(w, Waiting(pc.session, pc.blob, data))
  {
    hide UploadPath;
  }

  /** Every step of every thread keeps the thread invariant. */
  lemma StepKeepsThreads(s: System, t: nat, a: Action)
    requires Sound(s) && WithinQuota(s.w) && Enabled(s, t, a)
    ensures Runnable(s.w, s.threads[t])
    ensures Sound(Step(s, t, a))
  {
    assert PcOk(s.w, s.threads[t]);
    hide Sound, PcOk;
    var pc := s.threads[t];
    if !a.Proceed? {
      BeginKeepsThreads(s, t, a);
    } else if pc.Creating? || pc.Inserting? {
      CreationKeepsThreads(s, t);
    } else if pc.Reserving? {
      ReservingKeepsThreads(s, t);
    } else if pc.Uploads() {
      StreamingKeepsThreads(s, t);
    } else if pc.Removing? {
      RemovingKeepsThreads(s, t);
    } else if pc.Deletes() {
      DeleteKeepsThreads(s, t);
    } else {
      OtherKeepsThreads(s, t);
    }
  }
}
