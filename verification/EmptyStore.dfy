/**
 When nothing stays in the store: no blob is deleted while it is being uploaded, and sessions are disposed
 considerately.
 */
module EmptyStore {
  import opened Naming
  import opened Sums
  import opened BlobSessions
  import opened Interleaving
  import opened Threads
  import opened Books
  import opened DiskUse
  import opened Schedules
  import opened Entries
  import opened LeftBehind
  import opened Discipline
  import Loop = ReserveLoop
  import Streaming

  /** The step begins to delete a blob that another thread is still uploading, its file open or not. */
  predicate Intrudes(s: System, t: nat, a: Action) {
    && a.Proceed? && t in s.threads && s.threads[t].Removing? && s.threads[t].blobs != []
    && s.threads[t].blobs[0] in BlobsOf(s.w, s.threads[t].session)
    && exists u | u in s.threads :: u != t && Uploading(s.threads[u], s.threads[t].session, s.threads[t].blobs[0])
  }

  ghost predicate NoIntrusion(s: System, schedule: seq<(nat, Action)>)
    requires IsRun(s, schedule)
    decreases |schedule|
  {
    schedule != [] ==>
      var front, last := schedule[..|schedule| - 1], schedule[|schedule| - 1];
      NoIntrusion(s, front) && !Intrudes(After(s, front), last.0, last.1)
  }

  // ----- Deleting and uploading stay apart -----

  predicate DeletingOf(pc: Pc, other: Pc) {
    pc.Deletes() && pc.blobs != [] && Uploading(other, pc.session, pc.blobs[0])
  }

  /** No blob is being deleted and uploaded at once. */
  ghost predicate Apart(s: System) {
    forall x, y | x in s.threads && y in s.threads :: !DeletingOf(s.threads[x], s.threads[y])
  }

  /** How a thread that deletes a blob came to do so. */
  predicate KeepsDeleting(w: World, pc: Pc, a: Action, next: Pc) {
    && (next.Deletes() ==>
          || (pc.Deletes() && next.session == pc.session && next.blobs == pc.blobs)
          || (a.Proceed? && pc.Removing? && pc.blobs != [] && next == Releasing(pc.session, pc.blobs, pc.disposing)
              && pc.blobs[0] in BlobsOf(w, pc.session)))
    && (next.Erasing? ==> next == pc || (a.Proceed? && pc.Unlinking?))
  }

  lemma StepKeepsDeleting(s: System, t: nat, a: Action)
    requires Enabled(s, t, a) && Runnable(s.w, s.threads[t])
    ensures t in s.threads && t in Step(s, t, a).threads && KeepsDeleting(s.w, s.threads[t], a, Step(s, t, a).threads[t])
  {
    hide UploadPath, InStore, Locked, UsedByOther, Ascending, Remains, EraseSession, Loop.Advance, Streaming.Admit;
  }

  lemma StepKeepsApart(s: System, t: nat, a: Action)
    requires Enabled(s, t, a) && Runnable(s.w, s.threads[t]) && Sound(s) && Apart(s) && !Intrudes(s, t, a)
    ensures Apart(Step(s, t, a))
  {
    hide Step, Enabled, Runnable, Structure, PcOk, DrawnOnce;
    StepMovesOne(s, t, a);
    StepKeepsDeleting(s, t, a);
    var next := Step(s, t, a).threads[t];
    forall u | u in s.threads ensures !DeletingOf(s.threads[u], next) || u == t {
      assert !DeletingOf(s.threads[u], s.threads[t]);
    }
    forall u | u in s.threads ensures !DeletingOf(next, s.threads[u]) || u == t {
      assert !DeletingOf(s.threads[t], s.threads[u]);
    }
  }

  // ----- Files without an upload -----

  /** An entry added under a path from outside has no file under its id. */
  ghost predicate Plain(w: World) {
    forall id: nat, b: nat | Live(w, id, b) && w.sessions[id].blobs[b].path != UploadPath(w.directory, b) ::
      UploadPath(w.directory, b) !in w.files
  }

  /** The file of an entry about to be erased is gone and does not come back. */
  ghost predicate Cleared(s: System) {
    forall x | x in s.threads && s.threads[x].Erasing? && s.threads[x].blobs != [] ::
      UploadPath(s.w.directory, s.threads[x].blobs[0]) !in s.w.files
  }

  /** A file of the store that is there after a step was there before or is the one just opened. */
  lemma FileAppears(s: System, t: nat, a: Action, b: nat)
    requires Enabled(s, t, a) && Runnable(s.w, s.threads[t]) && UploadPath(s.w.directory, b) in Step(s, t, a).w.files
    ensures UploadPath(s.w.directory, b) in s.w.files || (a.Proceed? && s.threads[t].Opening? && s.threads[t].blob == b)
  {
    hide Step, Locked, UsedByOther, Runnable, BlobPath, InStore;
    PathsAreDistinct(s.w.directory, UPLOAD, b, UPLOAD, b);
    if UploadPath(s.w.directory, b) !in s.w.files {
      StoreGrowsByOpening(s, t, a, UploadPath(s.w.directory, b));
      PathsAreDistinct(s.w.directory, UPLOAD, b, UPLOAD, s.threads[t].blob);
    }
  }

  /** An upload enters its blob under its own name. */
  lemma EntersOwnName(s: System, t: nat)
    requires t in s.threads && s.threads[t].Inserting? && Sound(s)
    requires Runnable(s.w, s.threads[t])
    ensures var pc := s.threads[t];
            var after := Upload(s, t, pc).w;
            Live(after, pc.session, pc.blob) && after.sessions[pc.session].blobs[pc.blob].path == UploadPath(s.w.directory, pc.blob)
  {
    hide UploadPath, Structure;
    assert PcOk(s.w, s.threads[t]);
    assert !Live(s.w, s.threads[t].session, s.threads[t].blob);
  }

  /** An id that is drawn and not entered has no file, as none was left behind. */
  lemma DrawnHasNoFile(s: System, t: nat)
    requires t in s.threads && s.threads[t].Registering? && Sound(s) && Settled(s, iset{})
    ensures UploadPath(s.w.directory, s.threads[t].blob) !in s.w.files
  {
    hide BlobPath, InStore, Structure, Exclusive, DrawnOnce;
    var b := s.threads[t].blob;
    var p := UploadPath(s.w.directory, b);
    PathsAreDistinct(s.w.directory, UPLOAD, b, UPLOAD, b);
    assert PcOk(s.w, s.threads[t]);
    if p in s.w.files {
      var c: nat :| Explained(s.w, iset{}, p, c);
      PathsAreDistinct(s.w.directory, UPLOAD, b, UPLOAD, c);
      assert false;
    }
  }

  lemma StepKeepsPlain(s: System, t: nat, a: Action)
    requires Enabled(s, t, a) && Runnable(s.w, s.threads[t]) && Sound(s) && AtHome(s) && Settled(s, iset{}) && Plain(s.w)
    ensures Plain(Step(s, t, a).w)
  {
    hide Step, Enabled, UploadPath, InStore, Settled, AtHome, Exclusive, DrawnOnce, PcOk;
    StepAddsOnly(s, t, a);
    StepKeepsPaths(s, t, a);
    var after := Step(s, t, a).w;
    forall id: nat, b: nat | Live(after, id, b) && after.sessions[id].blobs[b].path != UploadPath(after.directory, b)
      ensures UploadPath(after.directory, b) !in after.files
    {
      if UploadPath(after.directory, b) in after.files {
        FileAppears(s, t, a, b);
        if Live(s.w, id, b) {
          OpenedHasOwnName(s, t, id);
        } else {
          NewEntryIsPlain(s, t, a, id, b);
        }
        assert false;
      }
    }
  }

  lemma OpenedHasOwnName(s: System, t: nat, id: nat)
    requires t in s.threads && Sound(s) && AtHome(s)
    ensures var pc := s.threads[t];
            pc.Opening? && Live(s.w, id, pc.blob) ==> id == pc.session && s.w.sessions[id].blobs[pc.blob].path == UploadPath(s.w.directory, pc.blob)
  {
    hide UploadPath, Structure, Exclusive, DrawnOnce;
    assert PcOk(s.w, s.threads[t]);
  }

  lemma NewEntryIsPlain(s: System, t: nat, a: Action, id: nat, b: nat)
    requires Enabled(s, t, a) && Runnable(s.w, s.threads[t]) && Sound(s) && Settled(s, iset{})
    requires a.Proceed? && PutsIn(s.threads[t], id, b) && Live(Step(s, t, a).w, id, b)
    requires Step(s, t, a).w.sessions[id].blobs[b].path != UploadPath(s.w.directory, b)
    ensures UploadPath(s.w.directory, b) !in Step(s, t, a).w.files
  {
    hide Locked, UsedByOther, Runnable, Upload, Other, UploadPath, Sound, Settled;
    var pc := s.threads[t];
    if pc.Inserting? {
      EntersOwnName(s, t);
    } else {
      DrawnHasNoFile(s, t);
      if UploadPath(s.w.directory, b) in Step(s, t, a).w.files {
        FileAppears(s, t, a, b);
      }
    }
  }

  /** The file of the entry goes, whichever name the entry has. */
  lemma UnlinkingClears(s: System, t: nat)
    requires t in s.threads && s.threads[t].Unlinking? && Runnable(s.w, s.threads[t]) && Plain(s.w)
    ensures UploadPath(s.w.directory, s.threads[t].blobs[0]) !in Delete(s, t, s.threads[t]).w.files
  {
    hide UploadPath;
    assert Live(s.w, s.threads[t].session, s.threads[t].blobs[0]);
  }

  /** And nobody opens it again. */
  lemma ClearedStays(s: System, t: nat, a: Action, x: nat)
    requires Enabled(s, t, a) && Runnable(s.w, s.threads[t]) && Sound(s) && AtHome(s) && Apart(s) && Cleared(s)
    requires x in s.threads && s.threads[x].Erasing?
    ensures s.threads[x].blobs != [] && UploadPath(s.w.directory, s.threads[x].blobs[0]) !in Step(s, t, a).w.files
  {
    hide Locked, UsedByOther, Step, UploadPath, Structure, Exclusive, DrawnOnce;
    var pc := s.threads[x];
    assert PcOk(s.w, pc);
    hide PcOk;
    assert Live(s.w, pc.session, pc.blobs[0]) && !DeletingOf(pc, s.threads[t]);
    if UploadPath(s.w.directory, pc.blobs[0]) in Step(s, t, a).w.files {
      FileAppears(s, t, a, pc.blobs[0]);
    }
  }

  lemma StepKeepsCleared(s: System, t: nat, a: Action)
    requires Enabled(s, t, a) && Runnable(s.w, s.threads[t]) && Sound(s) && AtHome(s) && Apart(s) && Plain(s.w) && Cleared(s)
    ensures Cleared(Step(s, t, a))
  {
    hide Enabled, Runnable, Begin, Upload, Delete, Other, UploadPath, Sound, AtHome, Apart, Cleared, KeepsBlob;
    StepMovesOne(s, t, a);
    StepKeepsDeleting(s, t, a);
    StepKeepsDirectory(s, t, a);
    var after := Step(s, t, a);
    forall x | x in after.threads && after.threads[x].Erasing? && after.threads[x].blobs != []
      ensures UploadPath(after.w.directory, after.threads[x].blobs[0]) !in after.w.files
    {
      if s.threads[x].Erasing? {
        ClearedStays(s, t, a, x);
      } else {
        UnlinkingClears(s, t);
      }
    }
    ClearedWhen(after);
  }

  lemma ClearedWhen(s: System)
    requires forall x | x in s.threads && s.threads[x].Erasing? && s.threads[x].blobs != [] ::
               UploadPath(s.w.directory, s.threads[x].blobs[0]) !in s.w.files
    ensures Cleared(s)
  {
  }

  lemma StepKeepsDirectory(s: System, t: nat, a: Action)
    requires Enabled(s, t, a) && Runnable(s.w, s.threads[t]) && Sound(s)
    ensures t in s.threads && Step(s, t, a).w.directory == s.w.directory
  {
    hide Step, Enabled, Runnable;
    StepAddsOnly(s, t, a);
  }

  // ----- No step leaves a file behind -----

  /** What the discipline keeps, as long as nothing has been left behind. */
  ghost predicate Tidy(s: System) {
    Apart(s) && Plain(s.w) && Cleared(s)
  }

  lemma StepKeepsTidy(s: System, t: nat, a: Action)
    requires Enabled(s, t, a) && Runnable(s.w, s.threads[t]) && Sound(s) && AtHome(s) && Settled(s, iset{})
    requires Tidy(s) && !Intrudes(s, t, a)
    ensures Tidy(Step(s, t, a))
  {
    hide Enabled, Runnable, Step, Sound, AtHome, Settled, Apart, Plain, Cleared, Intrudes;
    StepKeepsApart(s, t, a);
    StepKeepsPlain(s, t, a);
    StepKeepsCleared(s, t, a);
  }

  lemma ApartMeansNoOvertaking(s: System, t: nat, a: Action)
    requires Apart(s)
    ensures !Overtakes(s, t, a)
  {
    if t in s.threads && s.threads[t].Erasing? && s.threads[t].blobs != [] {
      forall u | u in s.threads ensures !Uploading(s.threads[u], s.threads[t].session, s.threads[t].blobs[0]) {
        assert !DeletingOf(s.threads[t], s.threads[u]);
      }
    }
  }

  lemma TidyAbandonsNothing(s: System, t: nat, a: Action, b: nat)
    requires t in s.threads && Tidy(s) && UploadsLive(s) && DisposalsCover(s)
    ensures !Abandons(s, t, a, b)
  {
    hide Apart, Plain, UploadPath;
    assert DisposalCovers(s.w, s.threads, t);
  }

  lemma {:induction false} RunIsTidy(s: System, schedule: seq<(nat, Action)>)
    requires Initial(s) && IsRun(s, schedule) && NoIntrusion(s, schedule) && AllConsiderate(s, schedule)
    ensures Tidy(After(s, schedule)) && NoOvertaking(s, schedule) && Strays(s, schedule) == iset{}
    decreases |schedule|
  {
    hide Enabled, Runnable, Step, Intrudes, Considerate, Abandons, Overtakes, BooksOk, DiskOk, UploadPath;
    if schedule == [] {
    } else {
      var front, last := schedule[..|schedule| - 1], schedule[|schedule| - 1];
      var before := After(s, front);
      RunIsTidy(s, front);
      RunIsSound(s, front);
      RunKeepsSettled(s, front);
      NothingLeaks(s, front);
      NothingIsOrphaned(s, front);
      hide Initial, Sound, AtHome, Settled, UploadsLive, DisposalsCover, Apart, Plain, Cleared;
      StepKeepsTidy(before, last.0, last.1);
      assert last.0 in before.threads by { StepKeepsDirectory(before, last.0, last.1); }
      ApartMeansNoOvertaking(before, last.0, last.1);
      forall b: nat ensures !Abandons(before, last.0, last.1, b) {
        TidyAbandonsNothing(before, last.0, last.1, b);
      }
    }
  }

  // ----- What it comes to -----

  /**
   If no blob is deleted while another thread uploads it, and sessions are disposed considerately, no file is ever
   left behind and no grant is ever lost.
   */
  lemma NothingStays(s: System, schedule: seq<(nat, Action)>)
    requires Initial(s) && IsRun(s, schedule) && NoIntrusion(s, schedule) && AllConsiderate(s, schedule)
    ensures Strays(s, schedule) == iset{} && After(s, schedule).leaked == 0 && After(s, schedule).orphans == map[]
  {
    hide Initial, IsRun, After, NoIntrusion, AllConsiderate, Strays, Tidy;
    RunIsTidy(s, schedule);
    NothingLeaks(s, schedule);
    NothingIsOrphaned(s, schedule);
  }

  /** A thread without a session has nothing granted and nothing to give back. */
  lemma WithoutSessionsNothingMoves(s: System)
    requires Sound(s) && s.w.sessions == map[]
    ensures Sum(Grants(s.threads)) == 0 && Sum(Releases(s.threads)) == 0 && Sum(Ledger(s.w.sessions)) == 0
  {
    forall t | t in s.threads ensures s.threads[t].Grant() == 0 && s.threads[t].Released() == 0 {
      assert PcOk(s.w, s.threads[t]);
    }
    hide Sound, PcOk;
    SumOfZeros(Grants(s.threads));
    SumOfZeros(Releases(s.threads));
    NoSessionsNoCharges(s.w.sessions);
  }

  /** So when the last session has been disposed of, the store is empty and the counter is back at zero. */
  lemma AllIsGivenBack(s: System, schedule: seq<(nat, Action)>)
    requires Initial(s) && IsRun(s, schedule) && NoIntrusion(s, schedule) && AllConsiderate(s, schedule)
    requires After(s, schedule).w.sessions == map[]
    ensures After(s, schedule).w.usage == 0
    ensures forall p | p in After(s, schedule).w.files :: !InStore(After(s, schedule).w.directory, p)
  {
    hide Initial, IsRun, After, NoIntrusion, AllConsiderate, Strays, InStore, Sound, BooksOk, DiskOk, Ledger, Grants, Releases;
    NothingStays(s, schedule);
    StoreIsEmptyExactlyWhen(s, schedule);
    RunIsSound(s, schedule);
    WithoutSessionsNothingMoves(After(s, schedule));
    CounterIsExact(s, schedule);
    SumOfZeros(After(s, schedule).orphans);
  }
}
