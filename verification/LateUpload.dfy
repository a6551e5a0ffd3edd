/**
 An upload in the shadow of a disposal: it starts after `dispose` has listed the session's blobs and ends before
 the session is destroyed. Its charge and its file then stay with nobody to give them back.
 */
module LateUpload {
  import opened Wrappers
  import opened Words
  import opened Naming
  import opened BlobSessions
  import opened Interleaving
  import opened Schedules
  import opened Losses
  import opened LeftBehind
  import opened Overtaking
  import Loop = ReserveLoop
  import Streaming
  import opened Books

  const BYTE: seq<byte> := [0]

  /**
   A quota of one byte and one session with at most blob 1 in it, charged and on disk as said; thread 0 uploads
   and thread 1 disposes.
   */
  ghost predicate Stands(s: System, usage: nat, last: nat, charge: Option<nat>, onDisk: Option<seq<byte>>, uploader: Pc, disposer: Pc) {
    && s.threads.Keys == {0, 1} && s.threads[0] == uploader && s.threads[1] == disposer && s.leaked == 0
    && s.w.directory == "store" && s.w.quota == 1 && s.w.usage == usage && s.w.lastBlob == last && s.w.sessions.Keys == {1}
    && (forall b | b in s.w.sessions[1].blobs ::
          charge.Some? && b == 1 && s.w.sessions[1].blobs[b].path == UploadPath("store", 1) && s.w.sessions[1].blobs[b].charge == charge.value)
    && (charge.Some? ==> 1 in s.w.sessions[1].blobs)
    && (if UploadPath("store", 1) in s.w.files then onDisk == Some(s.w.files[UploadPath("store", 1)]) else onDisk == None)
  }

  const LISTED: Pc := Removing(1, [], true)

  /** Thread 1 has listed the blobs of a session that has none. */
  lemma DisposalLists() returns (r: System)
    ensures Inv(START) && Reaches(START, r) && Stands(r, 0, 0, None, None, Idle, LISTED)
  {
    hide Inv, Reaches, UploadPath, InStore, Remains, Loop.Advance, Streaming.Admit, Other, Delete, Upload;
    StartReaches();
    r := START;
    ReachNext(START, r, 0, OpenSession(None));
    r := Step(r, 0, OpenSession(None));
    assert Stands(r, 0, 0, None, None, Idle, Idle);
    assert r.w.sessions[1].blobs.Keys == {};
    ReachNext(START, r, 1, BeginDispose(1));
    r := Step(r, 1, BeginDispose(1));
  }

  /** Only now does thread 0 begin its upload. */
  lemma UploadBegins() returns (r: System)
    ensures Inv(START) && Reaches(START, r) && Stands(r, 0, 1, None, None, Inserting(1, 1), LISTED)
  {
    hide Inv, Reaches, BlobPath, InStore, Ascending, Remains, Loop.Advance, Streaming.Admit, Other, Delete;
    r := DisposalLists();
    ReachNext(START, r, 0, BeginPut(1));
    r := Step(r, 0, BeginPut(1));
    assert Stands(r, 0, 0, None, None, Creating(1), LISTED);
    ReachNext(START, r, 0, Proceed);
    r := Step(r, 0, Proceed);
  }

  /** Its entry is put in. */
  lemma UploadEnters() returns (r: System)
    ensures Inv(START) && Reaches(START, r) && Stands(r, 0, 1, Some(0), None, Opening(1, 1), LISTED)
  {
    hide Inv, Reaches, BlobPath, InStore, Ascending, Remains, Loop.Advance, Streaming.Admit, Other, Delete, Begin;
    r := UploadBegins();
    ReachNext(START, r, 0, Proceed);
    r := Step(r, 0, Proceed);
  }

  /** Its file is opened. */
  lemma UploadOpens() returns (r: System)
    ensures Inv(START) && Reaches(START, r) && Stands(r, 0, 1, Some(0), Some([]), Receiving(1, 1), LISTED)
  {
    hide Inv, Reaches, BlobPath, InStore, Ascending, Remains, Loop.Advance, Streaming.Admit, Other, Delete, Begin;
    r := UploadEnters();
    ReachNext(START, r, 0, Proceed);
    r := Step(r, 0, Proceed);
  }

  /** It asks for its one byte. */
  lemma ByteIsSought() returns (r: System)
    ensures Inv(START) && Reaches(START, r) && Stands(r, 0, 1, Some(0), Some([]), Reserving(1, 1, BYTE, Loop.Entered), LISTED)
  {
    hide Inv, Reaches, BlobPath, InStore, Ascending, Remains, Loop.Advance, Streaming.Admit, Other, Delete;
    r := UploadOpens();
    ReachNext(START, r, 0, TakeChunk(BYTE));
    r := Step(r, 0, TakeChunk(BYTE));
    assert Stands(r, 0, 1, Some(0), Some([]), Waiting(1, 1, BYTE), LISTED);
    ReachNext(START, r, 0, Proceed);
    r := Step(r, 0, Proceed);
  }

  /** It is granted. */
  lemma ByteIsGranted() returns (r: System)
    ensures Inv(START) && Reaches(START, r) && Stands(r, 1, 1, Some(0), Some([]), Reserving(1, 1, BYTE, Loop.Granted), LISTED)
  {
    hide Inv, Reaches, BlobPath, InStore, Ascending, Remains, Streaming.Admit, Other, Delete;
    r := ByteIsSought();
    ReachNext(START, r, 0, Proceed);
    r := Step(r, 0, Proceed);
    assert Stands(r, 0, 1, Some(0), Some([]), Reserving(1, 1, BYTE, Loop.Seen(0)), LISTED);
    ReachNext(START, r, 0, Proceed);
    r := Step(r, 0, Proceed);
    assert Stands(r, 0, 1, Some(0), Some([]), Reserving(1, 1, BYTE, Loop.Fitting(0)), LISTED);
    ReachNext(START, r, 0, Proceed);
    r := Step(r, 0, Proceed);
  }

  /** It is charged. */
  lemma ByteIsCharged() returns (r: System)
    ensures Inv(START) && Reaches(START, r) && Stands(r, 1, 1, Some(1), Some([]), Writing(1, 1, BYTE), LISTED)
  {
    hide Inv, Reaches, BlobPath, InStore, Ascending, Remains, Loop.Advance, Streaming.Admit, Other, Delete, Begin;
    r := ByteIsGranted();
    ReachNext(START, r, 0, Proceed);
    r := Step(r, 0, Proceed);
  }

  /** It is written, and the upload ends well. */
  lemma UploadEnds() returns (r: System)
    ensures Inv(START) && Reaches(START, r) && Stands(r, 1, 1, Some(1), Some(BYTE), Idle, LISTED)
  {
    hide Inv, Reaches, BlobPath, InStore, Ascending, Remains, Loop.Advance, Streaming.Admit, Other, Delete;
    r := ByteIsCharged();
    ReachNext(START, r, 0, Proceed);
    r := Step(r, 0, Proceed);
    assert [] + BYTE == BYTE;
    assert Stands(r, 1, 1, Some(1), Some(BYTE), Receiving(1, 1), LISTED);
    ReachNext(START, r, 0, EndStream(true));
    r := Step(r, 0, EndStream(true));
  }

  /** The disposal ends, without having deleted the blob. */
  lemma SessionGoes() returns (r: System)
    ensures Inv(START) && Reaches(START, r)
    ensures (forall t | t in r.threads :: r.threads[t].Idle?) && r.w.sessions == map[] && r.w.usage == r.w.quota == 1 && r.leaked == 0
    ensures r.w.directory == "store" && UploadPath("store", 1) in r.w.files && r.w.files[UploadPath("store", 1)] == BYTE
  {
    hide Inv, Reaches, BlobPath, InStore, Ascending, Remains, Loop.Advance, Streaming.Admit, Other, Upload;
    r := UploadEnds();
    ReachNext(START, r, 1, Proceed);
    r := Step(r, 1, Proceed);
  }

  /** No session, no call under way, one byte counted and one on disk. */
  ghost predicate AllGoneButOneByte(r: System) {
    && (forall t | t in r.threads :: r.threads[t].Idle?) && r.w.sessions == map[] && r.w.usage == r.w.quota == 1
    && (exists p :: p in r.w.files && InStore(r.w.directory, p) && r.w.files[p] == BYTE)
  }

  lemma LateRun() returns (schedule: seq<(nat, Action)>)
    ensures Initial(START) && IsRun(START, schedule)
    ensures AllGoneButOneByte(After(START, schedule)) && After(START, schedule).leaked == 0
  {
    hide Inv, Initial, IsRun, After, UploadPath, InStore;
    StartIsSound();
    var r := SessionGoes();
    schedule :| IsRun(START, schedule) && After(START, schedule) == r;
    NamesLieInStore("store", 1);
  }

  /** What such an end means for the run. */
  lemma OneByteSank(s: System, schedule: seq<(nat, Action)>)
    requires Initial(s) && s.w.quota != 0 && IsRun(s, schedule)
    requires AllGoneButOneByte(After(s, schedule)) && After(s, schedule).leaked == 0
    ensures LostAlong(s, schedule) == 0 && SunkAlong(s, schedule) == 1 && Strays(s, schedule) != iset{}
  {
    hide Initial, IsRun, After, LostAlong, SunkAlong, Strays, Ledger, Grants, Releases, InStore;
    NoSessionsNoCharges(After(s, schedule).w.sessions);
    CounterIsAccountedFor(s, schedule);
    LossesAreTold(s, schedule);
    IdleReleasesNothing(After(s, schedule).threads);
    StoreIsEmptyExactlyWhen(s, schedule);
  }

  /**
   So charges can go down with a session and a file can stay: here is a run after which no session is left and
   every thread is between calls, yet the counter stands at the quota, one byte having sunk, and the uploaded
   byte is still in the store.
   */
  lemma DisposalCanLeaveAll()
    ensures exists schedule ::
              && Initial(START) && IsRun(START, schedule) && AllGoneButOneByte(After(START, schedule))
              && LostAlong(START, schedule) == 0 && SunkAlong(START, schedule) == 1 && Strays(START, schedule) != iset{}
  {
    hide Initial, IsRun, After, LostAlong, SunkAlong, Strays, AllGoneButOneByte;
    var schedule := LateRun();
    OneByteSank(START, schedule);
  }

  lemma NamesLieInStore(directory: string, b: nat)
    ensures InStore(directory, UploadPath(directory, b))
  {
    PathsAreDistinct(directory, UPLOAD, b, UPLOAD, b);
  }
}
