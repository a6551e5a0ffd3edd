/** When nothing is lost: removals that do not overtake uploads, and sessions disposed alone. */
module Discipline {
  import opened Wrappers
  import Naming
  import Sums
  import Loop = ReserveLoop
  import opened BlobSessions
  import opened Interleaving
  import opened Books
  import opened DiskUse
  import opened Schedules
  import Entries

  // ----- Removal and upload of the same blob -----

  /** The thread uploads this blob of this session and its entry has been inserted. */
  predicate Uploading(pc: Pc, id: nat, b: nat) {
    pc.Uploads() && !pc.Inserting? && pc.session == id && pc.blob == b
  }

  /** The step erases an entry that another thread is still uploading to. */
  predicate Overtakes(s: System, t: nat, a: Action) {
    && a.Proceed? && t in s.threads && s.threads[t].Erasing? && s.threads[t].blobs != []
    && exists u | u in s.threads :: u != t && Uploading(s.threads[u], s.threads[t].session, s.threads[t].blobs[0])
  }

  ghost predicate NoOvertaking(s: System, schedule: seq<(nat, Action)>)
    requires IsRun(s, schedule)
    decreases |schedule|
  {
    schedule != [] ==>
      var front, last := schedule[..|schedule| - 1], schedule[|schedule| - 1];
      NoOvertaking(s, front) && !Overtakes(After(s, front), last.0, last.1)
  }

  /** Whatever is being uploaded still has its entry. */
  ghost predicate UploadsLive(s: System) {
    forall u | u in s.threads && s.threads[u].Uploads() && !s.threads[u].Inserting? ::
      s.threads[u].blob in BlobsOf(s.w, s.threads[u].session)
  }

  /** Every thread but `t` finds its entry as before. */
  lemma OthersStayLive(s: System, t: nat, after: System)
    requires UploadsLive(s) && t in s.threads && after.threads.Keys == s.threads.Keys
    requires forall u | u in s.threads && u != t :: after.threads[u] == s.threads[u]
    requires forall u | u in s.threads && u != t && s.threads[u].Uploads() && !s.threads[u].Inserting? ::
               s.threads[u].blob in BlobsOf(s.w, s.threads[u].session) ==> s.threads[u].blob in BlobsOf(after.w, s.threads[u].session)
    requires after.threads[t].Uploads() && !after.threads[t].Inserting? ==> after.threads[t].blob in BlobsOf(after.w, after.threads[t].session)
    ensures UploadsLive(after)
  {
  }

  lemma UploadKeepsUploadsLive(s: System, t: nat, pc: Pc)
    requires t in s.threads && pc == s.threads[t] && Runnable(s.w, pc) && (pc.Creating? || pc.Uploads())
    requires UploadsLive(s) && s.leaked == 0
    ensures UploadsLive(Upload(s, t, pc)) && Upload(s, t, pc).leaked == 0
  {
    hide Naming.UploadPath, Loop.Advance;
    OthersStayLive(s, t, Upload(s, t, pc));
  }

  lemma DeleteKeepsUploadsLive(s: System, t: nat, pc: Pc)
    requires Enabled(s, t, Proceed) && pc == s.threads[t] && Runnable(s.w, pc) && (pc.Removing? || pc.Deletes())
    requires UploadsLive(s) && s.leaked == 0 && !Overtakes(s, t, Proceed)
    ensures UploadsLive(Delete(s, t, pc)) && Delete(s, t, pc).leaked == 0
  {
    hide UploadsLive, Delete, Remains, Locked;
    var after := Delete(s, t, pc);
    Entries.DeleteDropsExactly(s, t, pc);
    DeleteMoves(s, t, pc);
    forall u | u in s.threads && u != t && s.threads[u].Uploads() && !s.threads[u].Inserting?
      ensures s.threads[u].blob in BlobsOf(s.w, s.threads[u].session) ==> s.threads[u].blob in BlobsOf(after.w, s.threads[u].session)
    {
      assert pc.Erasing? ==> !Uploading(s.threads[u], pc.session, pc.blobs[0]);
      assert Live(s.w, s.threads[u].session, s.threads[u].blob) ==> !Entries.Drops(pc, s.threads[u].session, s.threads[u].blob);
    }
    OthersStayLive(s, t, after);
  }

  /** A deletion goes on or ends, and loses no grant. */
  lemma DeleteMoves(s: System, t: nat, pc: Pc)
    requires t in s.threads && pc == s.threads[t] && Runnable(s.w, pc) && (pc.Removing? || pc.Deletes())
    ensures var after := Delete(s, t, pc);
            && t in after.threads && after.threads == s.threads[t := after.threads[t]] && after.leaked == s.leaked
            && !after.threads[t].Uploads()
  {
    hide Remains, EraseSession, EraseEntry;
  }

  lemma OtherKeepsUploadsLive(s: System, t: nat, pc: Pc)
    requires t in s.threads && pc == s.threads[t] && Runnable(s.w, pc)
    requires !pc.Creating? && !pc.Uploads() && !pc.Removing? && !pc.Deletes()
    requires UploadsLive(s) && s.leaked == 0
    ensures UploadsLive(Other(s, t, pc)) && Other(s, t, pc).leaked == 0
  {
    OthersStayLive(s, t, Other(s, t, pc));
  }

  lemma BeginKeepsUploadsLive(s: System, t: nat, a: Action)
    requires Enabled(s, t, a) && !a.Proceed?
    requires s.w.lastSession + 1 !in s.w.sessions
    requires UploadsLive(s) && s.leaked == 0
    ensures UploadsLive(Begin(s, t, a)) && Begin(s, t, a).leaked == 0
  {
    hide Naming.UploadPath, Naming.InStore, Ascending;
    OthersStayLive(s, t, Begin(s, t, a));
  }

  lemma StepKeepsUploadsLive(s: System, t: nat, a: Action)
    requires Inv(s) && Enabled(s, t, a) && Runnable(s.w, s.threads[t])
    requires UploadsLive(s) && s.leaked == 0 && !Overtakes(s, t, a)
    ensures UploadsLive(Step(s, t, a)) && Step(s, t, a).leaked == 0
  {
    assert Structure(s.w) && s.w.lastSession + 1 !in s.w.sessions by { hide BooksOk, DiskOk; }
    hide Inv, Overtakes, UploadsLive;
    var pc := s.threads[t];
    if !a.Proceed? {
      BeginKeepsUploadsLive(s, t, a);
    } else if pc.Creating? || pc.Uploads() {
      UploadKeepsUploadsLive(s, t, pc);
    } else if pc.Removing? || pc.Deletes() {
      DeleteKeepsUploadsLive(s, t, pc);
    } else {
      OtherKeepsUploadsLive(s, t, pc);
    }
  }

  /** If no removal overtakes an upload of the same blob, no grant is ever lost. */
  lemma {:induction false} NothingLeaks(s: System, schedule: seq<(nat, Action)>)
    requires Initial(s) && IsRun(s, schedule) && NoOvertaking(s, schedule)
    ensures UploadsLive(After(s, schedule)) && After(s, schedule).leaked == 0
    decreases |schedule|
  {
    hide Inv, Enabled, Step, Runnable, Overtakes;
    if schedule == [] {
    } else {
      var front, last := schedule[..|schedule| - 1], schedule[|schedule| - 1];
      NothingLeaks(s, front);
      RunIsSound(s, front);
      StepKeepsUploadsLive(After(s, front), last.0, last.1);
    }
  }

  // ----- Disposal and other calls on the same session -----

  predicate Disposes(pc: Pc) {
    (pc.Removing? || pc.Deletes()) && pc.disposing
  }

  predicate Disposing(pc: Pc, id: nat) {
    Disposes(pc) && pc.session == id
  }

  /** A session is disposed only when no call is using it, and until it is gone only removals may call upon it. */
  predicate Considerate(s: System, t: nat, a: Action) {
    match a
    case BeginDispose(id) => !UsedByOther(s, t, id)
    case BeginPut(id) => forall u | u in s.threads :: !Disposing(s.threads[u], id)
    case BeginAdd(id, _, _) => forall u | u in s.threads :: !Disposing(s.threads[u], id)
    case _ => true
  }

  ghost predicate AllConsiderate(s: System, schedule: seq<(nat, Action)>)
    requires IsRun(s, schedule)
    decreases |schedule|
  {
    schedule != [] ==>
      var front, last := schedule[..|schedule| - 1], schedule[|schedule| - 1];
      AllConsiderate(s, front) && Considerate(After(s, front), last.0, last.1)
  }

  /** What is left of a session under disposal is still on the disposer's list, and nobody adds to it. */
  ghost predicate DisposalCovers(w: World, threads: map<nat, Pc>, u: nat)
    requires u in threads
  {
    Disposes(threads[u]) ==>
      && (forall b | b in BlobsOf(w, threads[u].session) :: b in threads[u].blobs)
      && (forall v | v in threads && v != u && threads[v].Uses() == Some(threads[u].session) :: threads[v].Removing? || threads[v].Deletes())
  }

  ghost predicate DisposalsCover(s: System) {
    forall u | u in s.threads :: DisposalCovers(s.w, s.threads, u)
  }

  /** The thread moves to `pc` without adding to a session under disposal by another. */
  lemma CoversStay(s: System, t: nat, after: System, pc: Pc)
    requires DisposalsCover(s) && t in s.threads && after.threads == s.threads[t := pc]
    requires forall u | u in s.threads && u != t && Disposes(s.threads[u]) ::
               && (forall b | b in BlobsOf(after.w, s.threads[u].session) :: b in BlobsOf(s.w, s.threads[u].session))
               && (pc.Uses() == Some(s.threads[u].session) ==> pc.Removing? || pc.Deletes())
    requires DisposalCovers(after.w, after.threads, t)
    ensures DisposalsCover(after)
  {
    forall u | u in after.threads && u != t ensures DisposalCovers(after.w, after.threads, u) {
      assert DisposalCovers(s.w, s.threads, u);
    }
  }

  lemma UploadKeepsCover(s: System, t: nat, pc: Pc)
    requires t in s.threads && pc == s.threads[t] && Runnable(s.w, pc) && (pc.Creating? || pc.Uploads())
    requires DisposalsCover(s)
    ensures DisposalsCover(Upload(s, t, pc)) && Upload(s, t, pc).orphans == s.orphans
  {
    hide Upload, BlobsOf;
    UploadStaysInside(s, t, pc);
    UploadTouchesOwn(s, t, pc);
    forall u | u in s.threads && u != t && Disposes(s.threads[u]) ensures pc.session != s.threads[u].session {
      assert DisposalCovers(s.w, s.threads, u);
    }
    CoversStay(s, t, Upload(s, t, pc), Upload(s, t, pc).threads[t]);
  }

  /** An upload uses no session but its own, and does not dispose. */
  lemma UploadStaysInside(s: System, t: nat, pc: Pc)
    requires t in s.threads && pc == s.threads[t] && Runnable(s.w, pc) && (pc.Creating? || pc.Uploads())
    ensures var after := Upload(s, t, pc);
            && t in after.threads && after.threads == s.threads[t := after.threads[t]] && after.orphans == s.orphans
            && (after.threads[t].Uses().None? || after.threads[t].Uses() == Some(pc.session)) && !Disposes(after.threads[t])
  {
    hide Naming.UploadPath, Loop.Advance, InsertEntry, Charge, Open, Append;
    assert s.threads[t := pc] == s.threads;
  }

  lemma UploadTouchesOwn(s: System, t: nat, pc: Pc)
    requires Runnable(s.w, pc) && (pc.Creating? || pc.Uploads())
    ensures forall id | id != pc.session :: BlobsOf(Upload(s, t, pc).w, id) == BlobsOf(s.w, id)
  {
    hide Naming.UploadPath, Loop.Advance;
  }

  lemma DeleteKeepsCover(s: System, t: nat, pc: Pc)
    requires Enabled(s, t, Proceed) && pc == s.threads[t] && Runnable(s.w, pc) && (pc.Removing? || pc.Deletes())
    requires DisposalsCover(s) && s.orphans == map[]
    ensures DisposalsCover(Delete(s, t, pc)) && Delete(s, t, pc).orphans == map[]
  {
    var after := Delete(s, t, pc);
    assert DisposalCovers(s.w, s.threads, t);
    if pc.Removing? && pc.blobs == [] && pc.disposing {
      assert Remains(s.w, pc.session) == map[];
    }
    forall b | pc.blobs != [] && b in pc.blobs && b != pc.blobs[0] ensures b in pc.blobs[1..] {
    }
    CoversStay(s, t, after, after.threads[t]);
  }

  lemma OtherKeepsCover(s: System, t: nat, pc: Pc)
    requires t in s.threads && pc == s.threads[t] && Runnable(s.w, pc)
    requires !pc.Creating? && !pc.Uploads() && !pc.Removing? && !pc.Deletes()
    requires DisposalsCover(s)
    ensures DisposalsCover(Other(s, t, pc)) && Other(s, t, pc).orphans == s.orphans
  {
    forall u | u in s.threads && u != t && Disposes(s.threads[u]) ensures pc.Uses() != Some(s.threads[u].session) {
      assert DisposalCovers(s.w, s.threads, u);
    }
    CoversStay(s, t, Other(s, t, pc), Other(s, t, pc).threads[t]);
  }

  lemma BeginKeepsCover(s: System, t: nat, a: Action)
    requires Enabled(s, t, a) && !a.Proceed? && Considerate(s, t, a) && s.w.lastSession + 1 !in s.w.sessions
    requires DisposalsCover(s)
    ensures DisposalsCover(Begin(s, t, a)) && Begin(s, t, a).orphans == s.orphans
  {
    hide Naming.UploadPath, Naming.InStore, Ascending, Locked;
    if a.BeginDispose? {
      DisposalBeginsCovered(s, t, a.session);
    } else {
      CallBeginsOutside(s, t, a);
    }
  }

  /** What the disposer lists is all there is, and nobody else uses the session. */
  lemma DisposalBeginsCovered(s: System, t: nat, id: nat)
    requires Enabled(s, t, BeginDispose(id)) && !UsedByOther(s, t, id) && DisposalsCover(s)
    ensures DisposalsCover(Begin(s, t, BeginDispose(id)))
  {
    hide Ascending, Locked;
    var after := Begin(s, t, BeginDispose(id));
    AscendingLists(s.w.sessions[id].blobs.Keys);
    CoversStay(s, t, after, after.threads[t]);
  }

  lemma CallBeginsOutside(s: System, t: nat, a: Action)
    requires Enabled(s, t, a) && !a.Proceed? && !a.BeginDispose? && Considerate(s, t, a) && s.w.lastSession + 1 !in s.w.sessions
    requires DisposalsCover(s)
    ensures DisposalsCover(Begin(s, t, a))
  {
    hide Naming.UploadPath, Naming.InStore, Ascending, Locked, UsedByOther;
    var pc, after := s.threads[t], Begin(s, t, a);
    assert DisposalCovers(s.w, s.threads, t);
    forall u | u in s.threads && u != t && Disposes(s.threads[u])
      ensures pc.Uses() == Some(s.threads[u].session) ==> pc.Removing? || pc.Deletes()
    {
      assert DisposalCovers(s.w, s.threads, u);
    }
    assert s.threads[t := pc] == s.threads;
    CoversStay(s, t, after, after.threads[t]);
  }

  lemma StepKeepsCover(s: System, t: nat, a: Action)
    requires Inv(s) && Enabled(s, t, a) && Runnable(s.w, s.threads[t])
    requires DisposalsCover(s) && s.orphans == map[] && Considerate(s, t, a)
    ensures DisposalsCover(Step(s, t, a)) && Step(s, t, a).orphans == map[]
  {
    assert Structure(s.w) && s.w.lastSession + 1 !in s.w.sessions by { hide BooksOk, DiskOk; }
    hide Inv, Considerate, DisposalsCover;
    var pc := s.threads[t];
    if !a.Proceed? {
      BeginKeepsCover(s, t, a);
    } else if pc.Creating? || pc.Uploads() {
      UploadKeepsCover(s, t, pc);
    } else if pc.Removing? || pc.Deletes() {
      DeleteKeepsCover(s, t, pc);
    } else {
      OtherKeepsCover(s, t, pc);
    }
  }

  /** If sessions are disposed considerately, no entry ever goes down with its session. */
  lemma {:induction false} NothingIsOrphaned(s: System, schedule: seq<(nat, Action)>)
    requires Initial(s) && IsRun(s, schedule) && AllConsiderate(s, schedule)
    ensures DisposalsCover(After(s, schedule)) && After(s, schedule).orphans == map[]
    decreases |schedule|
  {
    hide Inv, Enabled, Step, Runnable, Considerate;
    if schedule == [] {
    } else {
      var front, last := schedule[..|schedule| - 1], schedule[|schedule| - 1];
      NothingIsOrphaned(s, front);
      RunIsSound(s, front);
      StepKeepsCover(After(s, front), last.0, last.1);
    }
  }

  /** Under both disciplines the counter is the charges, plus grants under way, minus releases under way. */
  lemma CounterIsChargesExactly(s: System, schedule: seq<(nat, Action)>)
    requires Initial(s) && s.w.quota != 0 && IsRun(s, schedule)
    requires NoOvertaking(s, schedule) && AllConsiderate(s, schedule)
    ensures var r := After(s, schedule);
            r.w.usage == Sums.Sum(Ledger(r.w.sessions)) + Sums.Sum(Grants(r.threads)) - Sums.Sum(Releases(r.threads))
  {
    hide Initial, IsRun, After, Ledger, Grants, Releases, NoOvertaking, AllConsiderate;
    RunIsSound(s, schedule);
    NothingLeaks(s, schedule);
    NothingIsOrphaned(s, schedule);
    CounterIsExact(s, schedule);
  }
}
