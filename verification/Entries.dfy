/** What a step of the interleaved server can do to entries, to threads and to the file of one blob. */
module Entries {
  import opened Naming
  import opened BlobSessions
  import opened Interleaving
  import opened Threads
  import Loop = ReserveLoop
  import Streaming

  // ----- Entries and sessions -----

  /** The entry the thread is about to put in. */
  predicate PutsIn(pc: Pc, id: nat, b: nat) {
    (pc.Inserting? || pc.Registering?) && pc.session == id && pc.blob == b
  }

  /** Nothing but the entry in the thread's hand can be new. */
  ghost predicate AddsOnly(w: World, after: World, pc: Pc) {
    && after.directory == w.directory && w.lastBlob <= after.lastBlob
    && forall id: nat, b: nat | Live(after, id, b) :: Live(w, id, b) || PutsIn(pc, id, b)
  }

  lemma BeginAddsNothing(s: System, t: nat, a: Action)
    requires Enabled(s, t, a) && !a.Proceed? && FreshIds(s.w)
    ensures AddsOnly(s.w, Begin(s, t, a).w, Idle)
  {
    hide UploadPath, InStore, Locked, UsedByOther, Ascending;
    var after := Begin(s, t, a).w;
    assert s.w.lastSession + 1 !in s.w.sessions;
    forall id: nat, b: nat | Live(after, id, b) ensures Live(s.w, id, b) {
    }
  }

  lemma UploadAddsOnly(s: System, t: nat, pc: Pc)
    requires Runnable(s.w, pc) && (pc.Creating? || pc.Uploads())
    ensures AddsOnly(s.w, Upload(s, t, pc).w, pc)
  {
    hide UploadPath, Loop.Advance;
    var after := Upload(s, t, pc).w;
    forall id: nat, b: nat | Live(after, id, b) ensures Live(s.w, id, b) || PutsIn(pc, id, b) {
    }
  }

  lemma DeleteAddsNothing(s: System, t: nat, pc: Pc)
    requires Runnable(s.w, pc) && (pc.Removing? || pc.Deletes())
    ensures AddsOnly(s.w, Delete(s, t, pc).w, pc)
  {
    hide Remains;
    var after := Delete(s, t, pc).w;
    forall id: nat, b: nat | Live(after, id, b) ensures Live(s.w, id, b) {
    }
  }

  lemma OtherAddsOnly(s: System, t: nat, pc: Pc)
    requires Runnable(s.w, pc) && !pc.Creating? && !pc.Uploads() && !pc.Removing? && !pc.Deletes()
    ensures AddsOnly(s.w, Other(s, t, pc).w, pc)
  {
    hide Streaming.Admit;
    var after := Other(s, t, pc).w;
    forall id: nat, b: nat | Live(after, id, b) ensures Live(s.w, id, b) || PutsIn(pc, id, b) {
    }
  }

  lemma StepAddsOnly(s: System, t: nat, a: Action)
    requires Enabled(s, t, a) && Runnable(s.w, s.threads[t]) && FreshIds(s.w)
    ensures t in s.threads && AddsOnly(s.w, Step(s, t, a).w, if a.Proceed? then s.threads[t] else Idle)
  {
    hide AddsOnly, Begin, Upload, Delete, Other, Locked, UsedByOther;
    var pc := s.threads[t];
    if !a.Proceed? {
      BeginAddsNothing(s, t, a);
    } else if pc.Creating? || pc.Uploads() {
      UploadAddsOnly(s, t, pc);
    } else if pc.Removing? || pc.Deletes() {
      DeleteAddsNothing(s, t, pc);
    } else {
      OtherAddsOnly(s, t, pc);
    }
  }

  /** The step takes this entry out, alone or with its session. */
  predicate Drops(pc: Pc, id: nat, b: nat) {
    || (pc.Erasing? && pc.session == id && pc.blobs != [] && pc.blobs[0] == b)
    || (pc.Removing? && pc.session == id && pc.blobs == [] && pc.disposing)
  }

  ghost predicate DropsExactly(w: World, after: World, pc: Pc) {
    forall id: nat, b: nat | Live(w, id, b) :: Live(after, id, b) <==> !Drops(pc, id, b)
  }

  lemma BeginDropsNothing(s: System, t: nat, a: Action)
    requires Enabled(s, t, a) && !a.Proceed? && FreshIds(s.w)
    ensures DropsExactly(s.w, Begin(s, t, a).w, Idle)
  {
    hide UploadPath, InStore, Locked, UsedByOther, Ascending;
    assert s.w.lastSession + 1 !in s.w.sessions;
  }

  lemma UploadDropsNothing(s: System, t: nat, pc: Pc)
    requires Runnable(s.w, pc) && (pc.Creating? || pc.Uploads())
    ensures DropsExactly(s.w, Upload(s, t, pc).w, pc)
  {
    hide UploadPath, Loop.Advance;
  }

  lemma DeleteDropsExactly(s: System, t: nat, pc: Pc)
    requires Runnable(s.w, pc) && (pc.Removing? || pc.Deletes())
    ensures DropsExactly(s.w, Delete(s, t, pc).w, pc)
  {
    hide Remains;
  }

  lemma OtherDropsNothing(s: System, t: nat, pc: Pc)
    requires Runnable(s.w, pc) && !pc.Creating? && !pc.Uploads() && !pc.Removing? && !pc.Deletes()
    ensures DropsExactly(s.w, Other(s, t, pc).w, pc)
  {
    hide Streaming.Admit;
  }

  lemma StepDropsExactly(s: System, t: nat, a: Action)
    requires Enabled(s, t, a) && Runnable(s.w, s.threads[t]) && FreshIds(s.w)
    ensures t in s.threads && DropsExactly(s.w, Step(s, t, a).w, if a.Proceed? then s.threads[t] else Idle)
  {
    hide DropsExactly, Begin, Upload, Delete, Other, Locked, UsedByOther;
    var pc := s.threads[t];
    if !a.Proceed? {
      BeginDropsNothing(s, t, a);
    } else if pc.Creating? || pc.Uploads() {
      UploadDropsNothing(s, t, pc);
    } else if pc.Removing? || pc.Deletes() {
      DeleteDropsExactly(s, t, pc);
    } else {
      OtherDropsNothing(s, t, pc);
    }
  }

  /** Entries that stay keep their paths. */
  ghost predicate KeepsPaths(w: World, after: World) {
    forall id: nat, b: nat | Live(w, id, b) && Live(after, id, b) :: after.sessions[id].blobs[b].path == w.sessions[id].blobs[b].path
  }

  lemma BeginKeepsPaths(s: System, t: nat, a: Action)
    requires Enabled(s, t, a) && !a.Proceed? && FreshIds(s.w)
    ensures KeepsPaths(s.w, Begin(s, t, a).w)
  {
    hide UploadPath, InStore, Locked, UsedByOther, Ascending;
    assert s.w.lastSession + 1 !in s.w.sessions;
  }

  lemma UploadKeepsPaths(s: System, t: nat, pc: Pc)
    requires Runnable(s.w, pc) && (pc.Creating? || pc.Uploads())
    ensures KeepsPaths(s.w, Upload(s, t, pc).w)
  {
    hide UploadPath, Loop.Advance;
  }

  lemma DeleteKeepsPaths(s: System, t: nat, pc: Pc)
    requires Runnable(s.w, pc) && (pc.Removing? || pc.Deletes())
    ensures KeepsPaths(s.w, Delete(s, t, pc).w)
  {
    hide Remains;
  }

  lemma OtherKeepsPaths(s: System, t: nat, pc: Pc)
    requires Runnable(s.w, pc) && !pc.Creating? && !pc.Uploads() && !pc.Removing? && !pc.Deletes()
    ensures KeepsPaths(s.w, Other(s, t, pc).w)
  {
    hide Streaming.Admit;
  }

  lemma StepKeepsPaths(s: System, t: nat, a: Action)
    requires Enabled(s, t, a) && Runnable(s.w, s.threads[t]) && FreshIds(s.w)
    ensures KeepsPaths(s.w, Step(s, t, a).w)
  {
    hide KeepsPaths, Begin, Upload, Delete, Other, Locked, UsedByOther;
    var pc := s.threads[t];
    if !a.Proceed? {
      BeginKeepsPaths(s, t, a);
    } else if pc.Creating? || pc.Uploads() {
      UploadKeepsPaths(s, t, pc);
    } else if pc.Removing? || pc.Deletes() {
      DeleteKeepsPaths(s, t, pc);
    } else {
      OtherKeepsPaths(s, t, pc);
    }
  }

  // ----- Threads -----

  /** How a thread that has drawn an id goes on: with the same blob, or with one just drawn. */
  predicate KeepsBlob(w: World, pc: Pc, next: Pc) {
    && (next.Uploads() ==>
          || (next.Inserting? && next.blob == w.lastBlob + 1)
          || (pc.Uploads() && next.blob == pc.blob && next.session == pc.session && (next.Inserting? ==> next == pc)))
    && (next.Registering? ==> next.blob == w.lastBlob + 1 || next == pc)
  }

  lemma StepMovesOne(s: System, t: nat, a: Action)
    requires Enabled(s, t, a) && Runnable(s.w, s.threads[t])
    ensures t in s.threads && t in Step(s, t, a).threads
    ensures Step(s, t, a).threads == s.threads[t := Step(s, t, a).threads[t]]
    ensures KeepsBlob(s.w, s.threads[t], Step(s, t, a).threads[t])
  {
    hide MovesOne, KeepsBlob, Begin, Upload, Delete, Other, Locked, UsedByOther;
    var pc := s.threads[t];
    if !a.Proceed? {
      BeginMovesOne(s, t, a);
    } else if pc.Creating? || pc.Uploads() {
      UploadMovesOne(s, t, pc);
    } else if pc.Removing? || pc.Deletes() {
      DeleteMovesOne(s, t, pc);
    } else {
      OtherMovesOne(s, t, pc);
    }
    assert MovesOne(s, t, Step(s, t, a));
    MovedOne(s, t, Step(s, t, a));
  }

  lemma MovedOne(s: System, t: nat, after: System)
    requires t in s.threads && MovesOne(s, t, after)
    ensures t in after.threads && after.threads == s.threads[t := after.threads[t]]
    ensures KeepsBlob(s.w, s.threads[t], after.threads[t])
  {
    hide KeepsBlob;
  }

  predicate MovesOne(s: System, t: nat, after: System)
    requires t in s.threads
  {
    t in after.threads && after.threads == s.threads[t := after.threads[t]] && KeepsBlob(s.w, s.threads[t], after.threads[t])
  }

  lemma BeginMovesOne(s: System, t: nat, a: Action)
    requires Enabled(s, t, a) && !a.Proceed?
    ensures MovesOne(s, t, Begin(s, t, a))
  {
    hide UploadPath, InStore, Locked, UsedByOther, Ascending;
    assert s.threads[t := s.threads[t]] == s.threads;
  }

  lemma UploadMovesOne(s: System, t: nat, pc: Pc)
    requires t in s.threads && pc == s.threads[t] && Runnable(s.w, pc) && (pc.Creating? || pc.Uploads())
    ensures MovesOne(s, t, Upload(s, t, pc))
  {
    hide UploadPath, Loop.Advance;
    assert s.threads[t := pc] == s.threads;
  }

  lemma DeleteMovesOne(s: System, t: nat, pc: Pc)
    requires t in s.threads && pc == s.threads[t] && Runnable(s.w, pc) && (pc.Removing? || pc.Deletes())
    ensures MovesOne(s, t, Delete(s, t, pc))
  {
    hide Remains;
  }

  lemma OtherMovesOne(s: System, t: nat, pc: Pc)
    requires t in s.threads && pc == s.threads[t]
    requires Runnable(s.w, pc) && !pc.Creating? && !pc.Uploads() && !pc.Removing? && !pc.Deletes()
    ensures MovesOne(s, t, Other(s, t, pc))
  {
    hide Streaming.Admit;
  }

  // ----- An upload's blob is in its own session only -----

  ghost predicate AtHome(s: System) {
    forall u, id: nat | u in s.threads && s.threads[u].Uploads() && !s.threads[u].Inserting? && Live(s.w, id, s.threads[u].blob) ::
      id == s.threads[u].session
  }

  lemma StepKeepsAtHome(s: System, t: nat, a: Action)
    requires Enabled(s, t, a) && Runnable(s.w, s.threads[t]) && Sound(s) && AtHome(s)
    ensures AtHome(Step(s, t, a))
  {
    StepAddsOnly(s, t, a);
    StepMovesOne(s, t, a);
    hide Step, Enabled, Runnable, UploadPath, InStore;
    var after := Step(s, t, a);
    forall u, id: nat | u in after.threads && after.threads[u].Uploads() && !after.threads[u].Inserting? && Live(after.w, id, after.threads[u].blob)
      ensures id == after.threads[u].session
    {
      var b := after.threads[u].blob;
      assert PcOk(s.w, s.threads[u]) && PcOk(s.w, s.threads[t]);
      if !Live(s.w, id, b) {
        assert PutsIn(s.threads[t], id, b);
        assert u == t;
      }
    }
  }

  // ----- The file of one blob -----

  predicate Opens(s: System, t: nat, a: Action, b: nat)
    requires t in s.threads
  {
    a.Proceed? && s.threads[t].Opening? && s.threads[t].blob == b
  }

  predicate Writes(s: System, t: nat, a: Action, b: nat)
    requires t in s.threads
  {
    a.Proceed? && s.threads[t].Writing? && s.threads[t].blob == b
  }

  /** The upload of `b` ends with a size that does not agree. */
  predicate Withdraws(s: System, t: nat, a: Action, b: nat)
    requires t in s.threads
  {
    a.EndStream? && !a.agrees && s.threads[t].Receiving? && s.threads[t].blob == b
  }

  /** The step removes blob `b`, or the outside world moves its file away. */
  predicate Robs(s: System, t: nat, a: Action, b: nat)
    requires t in s.threads
  {
    var pc := s.threads[t];
    || (a.MoveAway? && a.path == UploadPath(s.w.directory, b))
    || (a.Proceed? && pc.Unlinking? && pc.blobs != [] && pc.blobs[0] == b)
  }

  predicate SameFile(w: World, after: World, p: string) {
    (p in after.files <==> p in w.files) && (p in w.files ==> after.files[p] == w.files[p])
  }

  /** What the step does to the file of `b`. */
  ghost predicate FileFollows(s: System, t: nat, a: Action, b: nat, after: World)
    requires t in s.threads
  {
    var p := UploadPath(s.w.directory, b);
    && (Opens(s, t, a, b) ==> p in after.files && after.files[p] == [])
    && (Writes(s, t, a, b) ==>
          && (p in after.files <==> p in s.w.files)
          && (p in s.w.files ==> after.files[p] == s.w.files[p] + s.threads[t].data))
    && (Withdraws(s, t, a, b) ==> p !in after.files)
    && (a.MoveAway? && a.path == p ==> p !in after.files)
    && (!Opens(s, t, a, b) && !Writes(s, t, a, b) && !Withdraws(s, t, a, b) && !Robs(s, t, a, b) ==> SameFile(s.w, after, p))
  }

  lemma BeginFile(s: System, t: nat, a: Action, b: nat)
    requires Enabled(s, t, a) && !a.Proceed?
    ensures FileFollows(s, t, a, b, Begin(s, t, a).w)
  {
    PathsAreDistinct(s.w.directory, UPLOAD, b, UPLOAD, b);
    if a.EndStream? {
      PathsAreDistinct(s.w.directory, UPLOAD, b, UPLOAD, s.threads[t].blob);
    }
    hide BlobPath, InStore, Locked, UsedByOther, Ascending;
  }

  lemma UploadFile(s: System, t: nat, pc: Pc, b: nat)
    requires t in s.threads && pc == s.threads[t] && Runnable(s.w, pc) && (pc.Creating? || pc.Uploads())
    ensures FileFollows(s, t, Proceed, b, Upload(s, t, pc).w)
  {
    if pc.Opening? || pc.Writing? {
      PathsAreDistinct(s.w.directory, UPLOAD, b, UPLOAD, pc.blob);
    }
    hide BlobPath, InStore, Loop.Advance;
  }

  lemma DeleteFile(s: System, t: nat, pc: Pc, b: nat)
    requires t in s.threads && pc == s.threads[t] && Runnable(s.w, pc) && (pc.Removing? || pc.Deletes()) && PathsSound(s.w)
    ensures FileFollows(s, t, Proceed, b, Delete(s, t, pc).w)
  {
    PathsAreDistinct(s.w.directory, UPLOAD, b, UPLOAD, b);
    if pc.Unlinking? {
      assert Live(s.w, pc.session, pc.blobs[0]);
      PathsAreDistinct(s.w.directory, UPLOAD, b, UPLOAD, pc.blobs[0]);
    }
    hide BlobPath, InStore, Remains;
  }

  lemma OtherFile(s: System, t: nat, pc: Pc, b: nat)
    requires t in s.threads && pc == s.threads[t]
    requires Runnable(s.w, pc) && !pc.Creating? && !pc.Uploads() && !pc.Removing? && !pc.Deletes()
    ensures FileFollows(s, t, Proceed, b, Other(s, t, pc).w)
  {
    hide BlobPath, InStore, Streaming.Admit;
  }

  lemma StepFile(s: System, t: nat, a: Action, b: nat)
    requires Enabled(s, t, a) && Runnable(s.w, s.threads[t]) && PathsSound(s.w)
    ensures t in s.threads && FileFollows(s, t, a, b, Step(s, t, a).w)
  {
    hide FileFollows, PathsSound, Begin, Upload, Delete, Other, Locked, UsedByOther;
    var pc := s.threads[t];
    if !a.Proceed? {
      BeginFile(s, t, a, b);
    } else if pc.Creating? || pc.Uploads() {
      UploadFile(s, t, pc, b);
    } else if pc.Removing? || pc.Deletes() {
      DeleteFile(s, t, pc, b);
    } else {
      OtherFile(s, t, pc, b);
    }
  }

  lemma BeginOpensNothing(s: System, t: nat, a: Action, p: string)
    requires Enabled(s, t, a) && !a.Proceed? && InStore(s.w.directory, p)
    ensures p in Begin(s, t, a).w.files ==> p in s.w.files
  {
    hide BlobPath, InStore, Locked, UsedByOther, Ascending;
  }

  lemma UploadOpensOwn(s: System, t: nat, pc: Pc, p: string)
    requires Runnable(s.w, pc) && (pc.Creating? || pc.Uploads())
    ensures p in Upload(s, t, pc).w.files ==> p in s.w.files || (pc.Opening? && p == UploadPath(s.w.directory, pc.blob))
  {
    hide BlobPath, Loop.Advance;
  }

  lemma DeleteOpensNothing(s: System, t: nat, pc: Pc, p: string)
    requires Runnable(s.w, pc) && (pc.Removing? || pc.Deletes())
    ensures p in Delete(s, t, pc).w.files ==> p in s.w.files
  {
    hide Remains;
  }

  lemma OtherOpensNothing(s: System, t: nat, pc: Pc, p: string)
    requires Runnable(s.w, pc) && !pc.Creating? && !pc.Uploads() && !pc.Removing? && !pc.Deletes()
    ensures p in Other(s, t, pc).w.files ==> p in s.w.files
  {
    hide Streaming.Admit;
  }

  /** A file appears in the store only when an upload opens it. */
  lemma StoreGrowsByOpening(s: System, t: nat, a: Action, p: string)
    requires Enabled(s, t, a) && Runnable(s.w, s.threads[t])
    requires InStore(s.w.directory, p) && p in Step(s, t, a).w.files && p !in s.w.files
    ensures a.Proceed? && s.threads[t].Opening? && p == UploadPath(s.w.directory, s.threads[t].blob)
  {
    hide BlobPath, InStore, Begin, Upload, Delete, Other, Locked, UsedByOther;
    var pc := s.threads[t];
    if !a.Proceed? {
      BeginOpensNothing(s, t, a, p);
    } else if pc.Creating? || pc.Uploads() {
      UploadOpensOwn(s, t, pc, p);
    } else if pc.Removing? || pc.Deletes() {
      DeleteOpensNothing(s, t, pc, p);
    } else {
      OtherOpensNothing(s, t, pc, p);
    }
  }
}
