/**
 Files that stay in the store with no entry to them: which steps leave one behind, and that nothing else is ever
 in the store but the files of live entries.
 */
module LeftBehind {
  import opened Naming
  import opened BlobSessions
  import opened Interleaving
  import opened Threads
  import opened Schedules
  import opened Books
  import opened DiskUse
  import opened Entries

  /**
   The step leaves the file of `b` behind: an upload opens it after its entry is gone, an entry is erased while
   the file is there again, or an entry goes down with its session.
   */
  ghost predicate Abandons(s: System, t: nat, a: Action, b: nat)
    requires t in s.threads
  {
    var pc := s.threads[t];
    var there := UploadPath(s.w.directory, b) in s.w.files;
    && a.Proceed?
    && (|| (pc.Opening? && pc.blob == b && b !in BlobsOf(s.w, pc.session))
        || (there && pc.Erasing? && pc.blobs != [] && pc.blobs[0] == b)
        || (there && pc.Removing? && pc.blobs == [] && pc.disposing && b in BlobsOf(s.w, pc.session)))
  }

  /** The step takes a file away that was left behind: its own upload withdraws it, or the outside world moves it. */
  ghost predicate TakesBack(s: System, t: nat, a: Action, b: nat)
    requires t in s.threads
  {
    Withdraws(s, t, a, b) || (a.MoveAway? && a.path == UploadPath(s.w.directory, b))
  }

  /** The ids whose files the run has left behind. */
  ghost function Strays(s: System, schedule: seq<(nat, Action)>): iset<nat>
    requires IsRun(s, schedule)
    decreases |schedule|
  {
    if schedule == [] then iset{}
    else
      var front, last := schedule[..|schedule| - 1], schedule[|schedule| - 1];
      Leaving(After(s, front), last.0, last.1, Strays(s, front))
  }

  ghost function Leaving(s: System, t: nat, a: Action, left: iset<nat>): iset<nat>
    requires t in s.threads
  {
    iset b: nat | Abandons(s, t, a, b) || (b in left && !TakesBack(s, t, a, b))
  }

  // ----- Every store file has an entry or has been left behind -----

  ghost predicate Explained(w: World, left: iset<nat>, p: string, b: nat) {
    p == UploadPath(w.directory, b) && (b in left || !Unborn(w, b))
  }

  /** The file is there, its id has no entry and never will. */
  ghost predicate Stray(s: System, b: nat) {
    && UploadPath(s.w.directory, b) in s.w.files && 1 <= b <= s.w.lastBlob && Unborn(s.w, b)
    && forall u | u in s.threads && (s.threads[u].Inserting? || s.threads[u].Registering?) :: s.threads[u].blob != b
  }

  ghost predicate Settled(s: System, left: iset<nat>) {
    && (forall p | p in s.w.files && InStore(s.w.directory, p) :: exists b: nat :: Explained(s.w, left, p, b))
    && (forall b | b in left :: Stray(s, b))
  }

  lemma StrayStays(s: System, t: nat, a: Action, b: nat)
    requires Enabled(s, t, a) && Runnable(s.w, s.threads[t]) && Sound(s) && Stray(s, b) && !TakesBack(s, t, a, b)
    ensures Stray(Step(s, t, a), b)
  {
    hide Step, Enabled, Runnable, UploadPath, InStore, Robs, TakesBack;
    StepAddsOnly(s, t, a);
    StepMovesOne(s, t, a);
    StepFile(s, t, a, b);
    StrayIsSpared(s, t, a, b);
  }

  /** No thread can remove what has no entry. */
  lemma StrayIsSpared(s: System, t: nat, a: Action, b: nat)
    requires Enabled(s, t, a) && Runnable(s.w, s.threads[t]) && Stray(s, b) && !TakesBack(s, t, a, b)
    ensures !Robs(s, t, a, b) && !Withdraws(s, t, a, b)
  {
    hide UploadPath;
    assert s.threads[t].Unlinking? ==> Live(s.w, s.threads[t].session, s.threads[t].blobs[0]);
  }

  lemma AbandonedIsStray(s: System, t: nat, a: Action, b: nat)
    requires Enabled(s, t, a) && Runnable(s.w, s.threads[t]) && Sound(s) && AtHome(s) && Abandons(s, t, a, b)
    ensures Stray(Step(s, t, a), b)
  {
    StepAddsOnly(s, t, a);
    StepDropsExactly(s, t, a);
    StepMovesOne(s, t, a);
    StepFile(s, t, a, b);
    hide Step, Enabled, UploadPath, InStore;
    var pc, after := s.threads[t], Step(s, t, a);
    assert PcOk(s.w, pc);
    assert !pc.Opening? ==> Live(s.w, pc.session, b);
    forall id: nat ensures !Live(after.w, id, b) {
    }
    forall u | u in after.threads && (after.threads[u].Inserting? || after.threads[u].Registering?) ensures after.threads[u].blob != b {
      assert u != t ==> PcOk(s.w, s.threads[u]);
    }
  }

  /** A file that was there before the step. */
  lemma StaysExplained(s: System, t: nat, a: Action, left: iset<nat>, p: string, b: nat)
    requires Enabled(s, t, a) && Runnable(s.w, s.threads[t]) && Sound(s)
    requires p in s.w.files && p in Step(s, t, a).w.files && Explained(s.w, left, p, b)
    ensures Explained(Step(s, t, a).w, Leaving(s, t, a, left), p, b)
  {
    hide Step, UploadPath, InStore, Locked, UsedByOther;
    StepAddsOnly(s, t, a);
    StepDropsExactly(s, t, a);
    StepFile(s, t, a, b);
    var after := Step(s, t, a);
    if b !in left {
      var id: nat :| Live(s.w, id, b);
      assert Live(after.w, id, b) || Abandons(s, t, a, b);
    } else {
      assert b in Leaving(s, t, a, left);
    }
  }

  /** A file that an upload has just opened. */
  lemma OpenedIsExplained(s: System, t: nat, a: Action, left: iset<nat>, p: string)
    requires Enabled(s, t, a) && Runnable(s.w, s.threads[t]) && Sound(s)
    requires p in Step(s, t, a).w.files && p !in s.w.files && InStore(s.w.directory, p)
    ensures Explained(Step(s, t, a).w, Leaving(s, t, a, left), p, s.threads[t].blob)
  {
    hide Step, UploadPath, InStore, Locked, UsedByOther;
    StepAddsOnly(s, t, a);
    StepDropsExactly(s, t, a);
    StoreGrowsByOpening(s, t, a, p);
    var pc, after := s.threads[t], Step(s, t, a);
    if pc.blob in BlobsOf(s.w, pc.session) {
      assert Live(s.w, pc.session, pc.blob) && Live(after.w, pc.session, pc.blob);
    } else {
      assert Abandons(s, t, a, pc.blob);
    }
  }

  lemma StepKeepsSettled(s: System, t: nat, a: Action, left: iset<nat>)
    requires Enabled(s, t, a) && Runnable(s.w, s.threads[t]) && Sound(s) && AtHome(s) && Settled(s, left)
    ensures Settled(Step(s, t, a), Leaving(s, t, a, left))
  {
    StepAddsOnly(s, t, a);
    hide Step, Enabled, Sound, Stray, AtHome, Explained;
    var after, next := Step(s, t, a), Leaving(s, t, a, left);
    forall p | p in after.w.files && InStore(after.w.directory, p) ensures exists b: nat :: Explained(after.w, next, p, b) {
      if p in s.w.files {
        var b: nat :| Explained(s.w, left, p, b);
        StaysExplained(s, t, a, left, p, b);
      } else {
        OpenedIsExplained(s, t, a, left, p);
      }
    }
    forall b | b in next ensures Stray(after, b) {
      if Abandons(s, t, a, b) {
        AbandonedIsStray(s, t, a, b);
      } else {
        StrayStays(s, t, a, b);
      }
    }
  }

  lemma {:induction false} RunKeepsSettled(s: System, schedule: seq<(nat, Action)>)
    requires Initial(s) && IsRun(s, schedule)
    ensures AtHome(After(s, schedule)) && Settled(After(s, schedule), Strays(s, schedule))
    decreases |schedule|
  {
    hide Enabled, Runnable, Step, Leaving, BooksOk, DiskOk;
    if schedule == [] {
    } else {
      var front, last := schedule[..|schedule| - 1], schedule[|schedule| - 1];
      RunKeepsSettled(s, front);
      RunIsSound(s, front);
      hide Settled, AtHome, Sound;
      StepKeepsAtHome(After(s, front), last.0, last.1);
      StepKeepsSettled(After(s, front), last.0, last.1, Strays(s, front));
    }
  }

  /**
   In every state of every interleaving, each file of the store belongs to a live entry or has been left
   behind, and what has been left behind is there and belongs to no entry.
   */
  lemma StoreFilesAreExplained(s: System, schedule: seq<(nat, Action)>)
    requires Initial(s) && IsRun(s, schedule)
    ensures var r, left := After(s, schedule), Strays(s, schedule);
            && (forall p | p in r.w.files && InStore(r.w.directory, p) ::
                  exists b: nat :: p == UploadPath(r.w.directory, b) && (b in left <==> Unborn(r.w, b)))
            && (forall b | b in left :: UploadPath(r.w.directory, b) in r.w.files && Unborn(r.w, b))
  {
    hide Initial, IsRun, After, Strays, UploadPath, InStore;
    RunKeepsSettled(s, schedule);
    var r, left := After(s, schedule), Strays(s, schedule);
    forall p | p in r.w.files && InStore(r.w.directory, p)
      ensures exists b: nat :: p == UploadPath(r.w.directory, b) && (b in left <==> Unborn(r.w, b))
    {
      var b: nat :| Explained(r.w, left, p, b);
      assert b in left ==> Stray(r, b);
    }
  }

  /** Once every session has been disposed, no file is left in the store if and only if the run left none behind. */
  lemma StoreIsEmptyExactlyWhen(s: System, schedule: seq<(nat, Action)>)
    requires Initial(s) && IsRun(s, schedule) && After(s, schedule).w.sessions == map[]
    ensures var r := After(s, schedule);
            (forall p | p in r.w.files :: !InStore(r.w.directory, p)) <==> Strays(s, schedule) == iset{}
  {
    hide Initial, IsRun, After, Strays;
    StoreFilesAreExplained(s, schedule);
    var r, left := After(s, schedule), Strays(s, schedule);
    if b: nat :| b in left {
      PathsAreDistinct(r.w.directory, UPLOAD, b, UPLOAD, b);
      assert left != iset{};
    } else {
      assert forall b: nat :: Unborn(r.w, b);
      assert left == iset{};
    }
  }
}
