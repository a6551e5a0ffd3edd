/**
 A removal and an upload that cross: the upload opens its file after the removal has deleted it and ends before the
 entry is erased. Neither overtakes the other, every session is disposed considerately, and the file stays.
 */
module Crossing {
  import opened Wrappers
  import opened Naming
  import opened BlobSessions
  import opened Interleaving
  import opened Schedules
  import opened LeftBehind
  import opened Discipline
  import opened Overtaking
  import opened LateUpload
  import opened EmptyStore
  import Loop = ReserveLoop
  import Streaming

  /** Some run without overtaking, and considerate throughout, leads from the one state to the other. */
  ghost predicate Leads(s: System, r: System) {
    exists schedule :: IsRun(s, schedule) && After(s, schedule) == r && NoOvertaking(s, schedule) && AllConsiderate(s, schedule)
  }

  lemma LeadStart()
    ensures Inv(START) && Leads(START, START)
  {
    hide Initial, Inv;
    StartIsSound();
    assert IsRun(START, []) && After(START, []) == START && NoOvertaking(START, []) && AllConsiderate(START, []);
  }

  lemma LeadNext(s: System, r: System, t: nat, a: Action)
    requires Enabled(r, t, a) && Leads(s, r) && Inv(s) && !Overtakes(r, t, a) && Considerate(r, t, a)
    ensures Inv(r) && Runnable(r.w, r.threads[t]) && Leads(s, Step(r, t, a))
  {
    hide Inv, Enabled, Step, Runnable, Overtakes, Considerate;
    var schedule :| IsRun(s, schedule) && After(s, schedule) == r && NoOvertaking(s, schedule) && AllConsiderate(s, schedule);
    var longer := schedule + [(t, a)];
    assert longer[..|longer| - 1] == schedule;
    RunKeepsInv(s, schedule);
    StepKeepsInv(r, t, a);
    assert IsRun(s, longer) && After(s, longer) == Step(r, t, a) && NoOvertaking(s, longer) && AllConsiderate(s, longer);
  }

  /** Thread 0 opens a session and begins an upload. */
  lemma PutIsCalled() returns (r: System)
    ensures Inv(START) && Leads(START, r) && Stands(r, 0, 0, None, None, Creating(1), Idle)
  {
    hide Inv, Leads, BlobPath, InStore, Ascending, Remains, Loop.Advance, Streaming.Admit, Other, Delete, Upload;
    LeadStart();
    r := START;
    LeadNext(START, r, 0, OpenSession(None));
    r := Step(r, 0, OpenSession(None));
    assert Stands(r, 0, 0, None, None, Idle, Idle);
    LeadNext(START, r, 0, BeginPut(1));
    r := Step(r, 0, BeginPut(1));
  }

  /** Its entry is there, its file is not. */
  lemma BlobIsEntered() returns (r: System)
    ensures Inv(START) && Leads(START, r) && Stands(r, 0, 1, Some(0), None, Opening(1, 1), Idle)
  {
    hide Inv, Leads, BlobPath, InStore, Ascending, Remains, Loop.Advance, Streaming.Admit, Other, Delete, Begin;
    r := PutIsCalled();
    LeadNext(START, r, 0, Proceed);
    r := Step(r, 0, Proceed);
    assert Stands(r, 0, 1, None, None, Inserting(1, 1), Idle);
    LeadNext(START, r, 0, Proceed);
    r := Step(r, 0, Proceed);
  }

  /** Thread 1 begins to remove the blob. */
  lemma RemovalIsCalled() returns (r: System)
    ensures Inv(START) && Leads(START, r) && Stands(r, 0, 1, Some(0), None, Opening(1, 1), Releasing(1, [1], false))
  {
    hide Inv, Leads, BlobPath, InStore, Ascending, Remains, Loop.Advance, Streaming.Admit, Other, Upload;
    r := BlobIsEntered();
    LeadNext(START, r, 1, BeginRemove(1, [1]));
    r := Step(r, 1, BeginRemove(1, [1]));
    assert Stands(r, 0, 1, Some(0), None, Opening(1, 1), Removing(1, [1], false));
    LeadNext(START, r, 1, Proceed);
    r := Step(r, 1, Proceed);
  }

  /** Nothing is released, and there is no file to delete. */
  lemma NothingIsUnlinked() returns (r: System)
    ensures Inv(START) && Leads(START, r) && Stands(r, 0, 1, Some(0), None, Opening(1, 1), Erasing(1, [1], false, 0))
  {
    hide Inv, Leads, BlobPath, InStore, Ascending, Remains, Loop.Advance, Streaming.Admit, Other, Upload, Begin;
    r := RemovalIsCalled();
    LeadNext(START, r, 1, Proceed);
    r := Step(r, 1, Proceed);
    assert Stands(r, 0, 1, Some(0), None, Opening(1, 1), Unlinking(1, [1], false, 0));
    LeadNext(START, r, 1, Proceed);
    r := Step(r, 1, Proceed);
  }

  /** Now the upload opens its file, and ends well without a chunk. */
  lemma EmptyUploadEnds() returns (r: System)
    ensures Inv(START) && Leads(START, r) && Stands(r, 0, 1, Some(0), Some([]), Idle, Erasing(1, [1], false, 0))
  {
    hide Inv, Leads, BlobPath, InStore, Ascending, Remains, Loop.Advance, Streaming.Admit, Other, Delete;
    r := NothingIsUnlinked();
    LeadNext(START, r, 0, Proceed);
    r := Step(r, 0, Proceed);
    assert Stands(r, 0, 1, Some(0), Some([]), Receiving(1, 1), Erasing(1, [1], false, 0));
    LeadNext(START, r, 0, EndStream(true));
    r := Step(r, 0, EndStream(true));
  }

  /** Nobody uploads any more when the entry is erased. */
  lemma EntryIsErased() returns (r: System)
    ensures Inv(START) && Leads(START, r) && Stands(r, 0, 1, None, Some([]), Idle, Idle)
  {
    hide Inv, Leads, BlobPath, InStore, Ascending, Remains, Loop.Advance, Streaming.Admit, Other, Upload, Begin;
    r := EmptyUploadEnds();
    LeadNext(START, r, 1, Proceed);
    r := Step(r, 1, Proceed);
    assert Stands(r, 0, 1, None, Some([]), Idle, Removing(1, [], false));
    LeadNext(START, r, 1, Proceed);
    r := Step(r, 1, Proceed);
  }

  /** The session is to be disposed; no call is using it. */
  lemma DisposalIsCalled() returns (r: System)
    ensures Inv(START) && Leads(START, r) && Stands(r, 0, 1, None, Some([]), Idle, LISTED)
  {
    hide Inv, Leads, BlobPath, InStore, Remains, Loop.Advance, Streaming.Admit, Other, Upload, Delete;
    r := EntryIsErased();
    assert r.w.sessions[1].blobs.Keys == {};
    LeadNext(START, r, 1, BeginDispose(1));
    r := Step(r, 1, BeginDispose(1));
  }

  /** And it is. */
  lemma SessionIsDisposed() returns (r: System)
    ensures Inv(START) && Leads(START, r) && OnlyAFileStays(r)
  {
    hide Inv, Leads, BlobPath, InStore, Ascending, Remains, Loop.Advance, Streaming.Admit, Other, Upload, Begin;
    r := DisposalIsCalled();
    LeadNext(START, r, 1, Proceed);
    r := Step(r, 1, Proceed);
    NamesLieInStore("store", 1);
  }

  ghost predicate OnlyAFileStays(r: System) {
    && (forall t | t in r.threads :: r.threads[t].Idle?) && r.w.sessions == map[] && r.w.usage == 0
    && exists p :: p in r.w.files && InStore(r.w.directory, p)
  }

  /**
   So to let no removal overtake an upload, and to dispose considerately, is not enough for the files: here is such
   a run that leaves one behind. It is an intrusion that does it.
   */
  lemma CrossingLeavesAFile()
    ensures exists schedule ::
              && Initial(START) && IsRun(START, schedule) && NoOvertaking(START, schedule) && AllConsiderate(START, schedule)
              && OnlyAFileStays(After(START, schedule)) && Strays(START, schedule) != iset{} && !NoIntrusion(START, schedule)
  {
    hide Initial, Inv, IsRun, After, NoOvertaking, AllConsiderate, NoIntrusion, Strays, InStore;
    StartIsSound();
    var r := SessionIsDisposed();
    var schedule :| IsRun(START, schedule) && After(START, schedule) == r && NoOvertaking(START, schedule) && AllConsiderate(START, schedule);
    StoreIsEmptyExactlyWhen(START, schedule);
    if NoIntrusion(START, schedule) {
      NothingStays(START, schedule);
      assert false;
    }
  }
}
