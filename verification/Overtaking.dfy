/** A removal that overtakes an upload of the same blob: the run in which a granted byte is lost for good. */
module Overtaking {
  import opened Wrappers
  import opened Naming
  import opened BlobSessions
  import opened Interleaving
  import opened Schedules
  import Loop = ReserveLoop
  import Streaming

  const START: System := System(World("store", 1, 0, 0, 0, map[], map[], map[]), map[0 := Idle, 1 := Idle], 0, map[])

  lemma StartIsSound()
    ensures Initial(START) && Inv(START)
  {
    hide Inv;
    InitialIsSound(START);
  }

  lemma StartReaches()
    ensures Inv(START) && Reaches(START, START)
  {
    hide Initial, Inv, Step;
    StartIsSound();
    assert IsRun(START, []) && After(START, []) == START;
  }

  /** A quota of one byte, one session with at most blob 1 in it, an uploading thread 0 and a removing thread 1. */
  ghost predicate Looks(s: System, usage: nat, last: nat, held: bool, uploader: Pc, remover: Pc) {
    && s.threads.Keys == {0, 1} && s.threads[0] == uploader && s.threads[1] == remover
    && s.w.quota == 1 && s.w.usage == usage && s.w.lastBlob == last && s.w.sessions.Keys == {1}
    && (forall b | b in s.w.sessions[1].blobs :: held && b == 1 && s.w.sessions[1].blobs[b].charge == 0)
    && (held ==> 1 in s.w.sessions[1].blobs)
  }

  /** Thread 0 opens the session and begins an upload. */
  lemma SessionOpens() returns (r: System)
    ensures Inv(START) && Reaches(START, r) && Looks(r, 0, 1, false, Inserting(1, 1), Idle)
  {
    hide Inv, Reaches, UploadPath, InStore, Ascending, Remains, Loop.Advance, Streaming.Admit, Other, Delete;
    StartReaches();
    r := START;
    ReachNext(START, r, 0, OpenSession(None));
    r := Step(r, 0, OpenSession(None));
    assert Looks(r, 0, 0, false, Idle, Idle);
    ReachNext(START, r, 0, BeginPut(1));
    r := Step(r, 0, BeginPut(1));
    assert Looks(r, 0, 0, false, Creating(1), Idle);
    ReachNext(START, r, 0, Proceed);
    r := Step(r, 0, Proceed);
  }

  /** It is about to reserve its only byte. */
  lemma UploadBegins() returns (r: System)
    ensures Inv(START) && Reaches(START, r) && Looks(r, 0, 1, true, Waiting(1, 1, [0]), Idle)
  {
    hide Inv, Reaches, UploadPath, InStore, Ascending, Remains, Loop.Advance, Streaming.Admit, Other, Delete;
    r := SessionOpens();
    ReachNext(START, r, 0, Proceed);
    r := Step(r, 0, Proceed);
    assert Looks(r, 0, 1, true, Opening(1, 1), Idle);
    ReachNext(START, r, 0, Proceed);
    r := Step(r, 0, Proceed);
    assert Looks(r, 0, 1, true, Receiving(1, 1), Idle);
    ReachNext(START, r, 0, TakeChunk([0]));
    r := Step(r, 0, TakeChunk([0]));
  }

  /** Thread 1 begins to remove the blob while thread 0 waits for the session's mutex. */
  lemma RemovalBegins() returns (r: System)
    ensures Inv(START) && Reaches(START, r) && Looks(r, 0, 1, true, Waiting(1, 1, [0]), Releasing(1, [1], false))
  {
    hide Inv, Reaches, UploadPath, InStore, Ascending, Remains, Loop.Advance, Streaming.Admit, Other, Upload;
    r := UploadBegins();
    ReachNext(START, r, 1, BeginRemove(1, [1]));
    r := Step(r, 1, BeginRemove(1, [1]));
    assert Looks(r, 0, 1, true, Waiting(1, 1, [0]), Removing(1, [1], false));
    ReachNext(START, r, 1, Proceed);
    r := Step(r, 1, Proceed);
  }

  /** Nothing has been charged yet, so nothing is given back. */
  lemma NothingIsReleased() returns (r: System)
    ensures Inv(START) && Reaches(START, r) && Looks(r, 0, 1, true, Waiting(1, 1, [0]), Unlinking(1, [1], false, 0))
  {
    hide Inv, Reaches, UploadPath, InStore, Ascending, Remains, Loop.Advance, Streaming.Admit, Other, Upload;
    r := RemovalBegins();
    ReachNext(START, r, 1, Proceed);
    r := Step(r, 1, Proceed);
  }

  /** The file goes. */
  lemma FileIsUnlinked() returns (r: System)
    ensures Inv(START) && Reaches(START, r) && Looks(r, 0, 1, true, Waiting(1, 1, [0]), Erasing(1, [1], false, 0))
  {
    hide Inv, Reaches, UploadPath, InStore, Ascending, Remains, Loop.Advance, Streaming.Admit, Other, Upload;
    r := NothingIsReleased();
    ReachNext(START, r, 1, Proceed);
    r := Step(r, 1, Proceed);
  }

  /** The removal overtakes the upload. */
  lemma RemovalOvertakes() returns (r: System)
    ensures Inv(START) && Reaches(START, r) && Looks(r, 0, 1, false, Waiting(1, 1, [0]), Idle)
  {
    hide Inv, Reaches, UploadPath, InStore, Ascending, Remains, Loop.Advance, Streaming.Admit, Other, Upload;
    r := FileIsUnlinked();
    ReachNext(START, r, 1, Proceed);
    r := Step(r, 1, Proceed);
    assert Looks(r, 0, 1, false, Waiting(1, 1, [0]), Removing(1, [], false));
    ReachNext(START, r, 1, Proceed);
    r := Step(r, 1, Proceed);
  }

  /** Thread 0 goes on and reads the counter. */
  lemma CounterIsRead() returns (r: System)
    ensures Inv(START) && Reaches(START, r) && Looks(r, 0, 1, false, Reserving(1, 1, [0], Loop.Seen(0)), Idle)
  {
    hide Inv, Reaches, UploadPath, InStore, Ascending, Remains, Streaming.Admit, Other, Delete;
    r := RemovalOvertakes();
    ReachNext(START, r, 0, Proceed);
    r := Step(r, 0, Proceed);
    assert Looks(r, 0, 1, false, Reserving(1, 1, [0], Loop.Entered), Idle);
    ReachNext(START, r, 0, Proceed);
    r := Step(r, 0, Proceed);
  }

  /** It is granted the byte and finds its entry gone. */
  lemma GrantIsLost() returns (r: System)
    ensures Inv(START) && Reaches(START, r) && Looks(r, 1, 1, false, Idle, Idle)
  {
    hide Inv, Reaches, UploadPath, InStore, Ascending, Remains, Streaming.Admit, Other, Delete;
    r := CounterIsRead();
    ReachNext(START, r, 0, Proceed);
    r := Step(r, 0, Proceed);
    assert Looks(r, 0, 1, false, Reserving(1, 1, [0], Loop.Fitting(0)), Idle);
    ReachNext(START, r, 0, Proceed);
    r := Step(r, 0, Proceed);
    assert Looks(r, 1, 1, false, Reserving(1, 1, [0], Loop.Granted), Idle);
    ReachNext(START, r, 0, Proceed);
    r := Step(r, 0, Proceed);
  }

  /**
   So the counter does not always equal the charges: here is a run of a server with a quota of one byte after
   which every thread is between calls and nothing is stored, yet the counter stands at the quota.
   */
  lemma CounterCanStayTooHigh()
    ensures exists schedule ::
              && Initial(START) && IsRun(START, schedule)
              && var r := After(START, schedule);
                 && (forall t | t in r.threads :: r.threads[t].Idle?) && Ledger(r.w.sessions) == map[]
                 && r.w.usage == r.w.quota == 1
  {
    hide Inv;
    StartIsSound();
    hide Initial;
    var r := GrantIsLost();
    var schedule :| IsRun(START, schedule) && After(START, schedule) == r;
    assert r.w.sessions[1].blobs == map[];
    assert Ledger(r.w.sessions) == map[];
  }
}
