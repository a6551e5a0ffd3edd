/**
 What the file of an upload holds while everything else goes on: the bytes its call has taken in, in every
 interleaving, for as long as nobody removes the blob or moves its file away.
 */
module Contents {
  import opened Wrappers
  import opened Words
  import opened Naming
  import opened BlobSessions
  import opened Interleaving
  import opened Threads
  import opened Books
  import opened DiskUse
  import opened Schedules
  import opened Entries
  import opened Streaming
  import Loop = ReserveLoop
  import opened Downloads

  // ----- What a run has done to one blob -----

  /** The step takes a chunk of the upload of `b` from the stream. */
  predicate Takes(s: System, t: nat, a: Action, b: nat)
    requires t in s.threads
  {
    a.TakeChunk? && s.threads[t].Receiving? && s.threads[t].blob == b
  }

  /** The upload of `b` ends well. */
  predicate Ends(s: System, t: nat, a: Action, b: nat)
    requires t in s.threads
  {
    a.EndStream? && a.agrees && s.threads[t].Receiving? && s.threads[t].blob == b
  }

  /** All bytes taken from the stream of the upload of `b`. */
  ghost function Taken(s: System, schedule: seq<(nat, Action)>, b: nat): seq<byte>
    requires IsRun(s, schedule)
    decreases |schedule|
  {
    if schedule == [] then []
    else
      var front, last := schedule[..|schedule| - 1], schedule[|schedule| - 1];
      Taken(s, front, b) + if Takes(After(s, front), last.0, last.1, b) then last.1.data else []
  }

  ghost predicate Finished(s: System, schedule: seq<(nat, Action)>, b: nat)
    requires IsRun(s, schedule)
    decreases |schedule|
  {
    schedule != [] &&
      var front, last := schedule[..|schedule| - 1], schedule[|schedule| - 1];
      Finished(s, front, b) || Ends(After(s, front), last.0, last.1, b)
  }

  /** No step removes `b`, and nobody moves its file away. */
  ghost predicate Spared(s: System, schedule: seq<(nat, Action)>, b: nat)
    requires IsRun(s, schedule)
    decreases |schedule|
  {
    schedule != [] ==>
      var front, last := schedule[..|schedule| - 1], schedule[|schedule| - 1];
      Spared(s, front, b) && !Robs(After(s, front), last.0, last.1, b)
  }

  // ----- The invariant for one blob -----

  predicate FileIs(w: World, b: nat, data: seq<byte>) {
    UploadPath(w.directory, b) in w.files && w.files[UploadPath(w.directory, b)] == data
  }

  /** What was taken is on disk already, all of it but the chunk in hand. */
  predicate OnDisk(w: World, pc: Pc, taken: seq<byte>)
    requires pc.Uploads()
  {
    if pc.Inserting? || pc.Opening? then taken == []
    else if pc.Receiving? then FileIs(w, pc.blob, taken)
    else
      var written := |taken| - |pc.data|;
      0 <= written && taken[written..] == pc.data && FileIs(w, pc.blob, taken[..written])
  }

  ghost predicate PathIsOwn(w: World, b: nat) {
    forall id: nat | Live(w, id, b) :: w.sessions[id].blobs[b].path == UploadPath(w.directory, b)
  }

  ghost predicate Follows(s: System, b: nat, taken: seq<byte>, finished: bool) {
    && (forall u | u in s.threads && s.threads[u].Uploads() && s.threads[u].blob == b :: OnDisk(s.w, s.threads[u], taken))
    && (b > s.w.lastBlob ==> taken == [])
    && (finished ==> b <= s.w.lastBlob && FileIs(s.w, b, taken) && PathIsOwn(s.w, b)
                     && forall u | u in s.threads :: s.threads[u].InHand() != Some(b))
  }

  /** The step of the thread that uploads `b`. */
  lemma OwnStepFollows(s: System, t: nat, a: Action, b: nat, taken: seq<byte>)
    requires Enabled(s, t, a) && Runnable(s.w, s.threads[t]) && PathsSound(s.w)
    requires s.threads[t].Uploads() && s.threads[t].blob == b && OnDisk(s.w, s.threads[t], taken) && !Robs(s, t, a, b)
    ensures var after := Step(s, t, a);
            var now := taken + if Takes(s, t, a, b) then a.data else [];
            && t in after.threads
            && (after.threads[t].Uploads() ==> OnDisk(after.w, after.threads[t], now))
            && (Ends(s, t, a, b) ==> FileIs(after.w, b, now) && !after.threads[t].Uploads() && !after.threads[t].Registering?)
  {
    hide Begin, Upload, OnDisk, FileIs, Robs, Locked, UsedByOther;
    if a.Proceed? {
      assert taken + [] == taken;
      OwnUploadFollows(s, t, b, taken);
    } else {
      OwnBeginFollows(s, t, a, b, taken);
    }
  }

  lemma OwnUploadFollows(s: System, t: nat, b: nat, taken: seq<byte>)
    requires t in s.threads && Runnable(s.w, s.threads[t])
    requires s.threads[t].Uploads() && s.threads[t].blob == b && OnDisk(s.w, s.threads[t], taken)
    ensures var after := Upload(s, t, s.threads[t]);
            t in after.threads && (after.threads[t].Uploads() ==> OnDisk(after.w, after.threads[t], taken))
  {
    hide UploadPath, Loop.Advance;
    var pc := s.threads[t];
    UploadFile(s, t, pc, b);
    if pc.Writing? {
      assert taken[..|taken| - |pc.data|] + pc.data == taken;
    }
  }

  lemma OwnBeginFollows(s: System, t: nat, a: Action, b: nat, taken: seq<byte>)
    requires Enabled(s, t, a) && !a.Proceed?
    requires s.threads[t].Uploads() && s.threads[t].blob == b && OnDisk(s.w, s.threads[t], taken) && !Robs(s, t, a, b)
    ensures var after := Begin(s, t, a);
            var now := taken + if Takes(s, t, a, b) then a.data else [];
            && t in after.threads
            && (after.threads[t].Uploads() ==> OnDisk(after.w, after.threads[t], now))
            && (Ends(s, t, a, b) ==> FileIs(after.w, b, now) && !after.threads[t].Uploads() && !after.threads[t].Registering?)
  {
    hide UploadPath, InStore, Locked, UsedByOther, Ascending;
    if a.TakeChunk? {
      assert (taken + a.data)[|taken|..] == a.data && (taken + a.data)[..|taken|] == taken;
    } else {
      assert taken + [] == taken;
      BeginFile(s, t, a, b);
    }
  }

  /** A step of a thread that does not upload `b` leaves the file alone. */
  lemma OtherStepIsSilent(s: System, t: nat, a: Action, b: nat)
    requires Enabled(s, t, a) && Runnable(s.w, s.threads[t]) && PathsSound(s.w)
    requires !(s.threads[t].Uploads() && s.threads[t].blob == b) && !Robs(s, t, a, b)
    ensures SameFile(s.w, Step(s, t, a).w, UploadPath(s.w.directory, b))
    ensures !Takes(s, t, a, b) && !Ends(s, t, a, b)
  {
    hide Step, Enabled, PathsSound;
    StepFile(s, t, a, b);
  }

  lemma StepKeepsUploads(s: System, t: nat, a: Action, b: nat, taken: seq<byte>, finished: bool)
    requires Enabled(s, t, a) && Runnable(s.w, s.threads[t]) && Sound(s) && Follows(s, b, taken, finished) && !Robs(s, t, a, b)
    ensures var after := Step(s, t, a);
            var now := taken + if Takes(s, t, a, b) then a.data else [];
            && (forall u | u in after.threads && after.threads[u].Uploads() && after.threads[u].blob == b :: OnDisk(after.w, after.threads[u], now))
            && (b > after.w.lastBlob ==> now == [])
  {
    StepAddsOnly(s, t, a);
    StepMovesOne(s, t, a);
    hide Step, Enabled, UploadPath, InStore;
    var after := Step(s, t, a);
    assert after.w.directory == s.w.directory && s.w.lastBlob <= after.w.lastBlob;
    assert s.threads[t].InHand().Some? ==> s.threads[t].blob <= s.w.lastBlob by {
      assert PcOk(s.w, s.threads[t]);
    }
    hide PcOk, Structure, AddsOnly, Exclusive, Robs, Takes, OnDisk, FileIs;
    if s.threads[t].Uploads() && s.threads[t].blob == b {
      OwnStepFollows(s, t, a, b, taken);
    } else {
      OtherStepIsSilent(s, t, a, b);
      assert taken + [] == taken;
      forall u | u in s.threads && s.threads[u].Uploads() && OnDisk(s.w, s.threads[u], taken) && s.threads[u].blob == b
        ensures OnDisk(after.w, s.threads[u], taken)
      {
        SameFileSameContents(s.w, after.w, s.threads[u], taken);
      }
      NothingTakenYet(after.w, after.threads[t], taken);
    }
  }

  lemma SameFileSameContents(w: World, after: World, pc: Pc, taken: seq<byte>)
    requires pc.Uploads() && OnDisk(w, pc, taken) && after.directory == w.directory && SameFile(w, after, UploadPath(w.directory, pc.blob))
    ensures OnDisk(after, pc, taken)
  {
  }

  lemma NothingTakenYet(w: World, pc: Pc, taken: seq<byte>)
    ensures pc.Inserting? && taken == [] ==> OnDisk(w, pc, taken)
  {
  }

  lemma StepKeepsFinished(s: System, t: nat, a: Action, b: nat, taken: seq<byte>)
    requires Enabled(s, t, a) && Runnable(s.w, s.threads[t]) && Sound(s) && Follows(s, b, taken, true) && !Robs(s, t, a, b)
    ensures Follows(Step(s, t, a), b, taken, true) && !Takes(s, t, a, b)
  {
    StepAddsOnly(s, t, a);
    StepKeepsPaths(s, t, a);
    StepMovesOne(s, t, a);
    OtherStepIsSilent(s, t, a, b);
    StepKeepsUploads(s, t, a, b, taken, true);
    hide Step, Enabled, UploadPath, InStore;
    assert taken + [] == taken;
    var after := Step(s, t, a);
    forall id: nat | Live(after.w, id, b) ensures after.w.sessions[id].blobs[b].path == UploadPath(after.w.directory, b) {
      assert Live(s.w, id, b);
    }
  }

  lemma StepFinishes(s: System, t: nat, a: Action, b: nat, taken: seq<byte>)
    requires Enabled(s, t, a) && Runnable(s.w, s.threads[t]) && Sound(s) && AtHome(s)
    requires Follows(s, b, taken, false) && !Robs(s, t, a, b) && Ends(s, t, a, b)
    ensures Follows(Step(s, t, a), b, taken, true)
  {
    StepAddsOnly(s, t, a);
    StepKeepsPaths(s, t, a);
    StepMovesOne(s, t, a);
    OwnStepFollows(s, t, a, b, taken);
    StepKeepsUploads(s, t, a, b, taken, false);
    hide Step, Enabled, UploadPath, InStore;
    assert taken + [] == taken;
    var after := Step(s, t, a);
    assert PcOk(s.w, s.threads[t]);
    forall id: nat | Live(after.w, id, b) ensures after.w.sessions[id].blobs[b].path == UploadPath(after.w.directory, b) {
      assert Live(s.w, id, b);
    }
  }

  lemma StepFollows(s: System, t: nat, a: Action, b: nat, taken: seq<byte>, finished: bool)
    requires Enabled(s, t, a) && Runnable(s.w, s.threads[t]) && Sound(s) && AtHome(s) && Follows(s, b, taken, finished) && !Robs(s, t, a, b)
    ensures t in s.threads
    ensures Follows(Step(s, t, a), b, taken + if Takes(s, t, a, b) then a.data else [], finished || Ends(s, t, a, b))
  {
    hide Step, Locked, UsedByOther, Sound, AtHome, OnDisk, PathIsOwn;
    assert taken + [] == taken;
    if finished {
      StepKeepsFinished(s, t, a, b, taken);
    } else if Ends(s, t, a, b) {
      StepFinishes(s, t, a, b, taken);
    } else {
      StepKeepsUploads(s, t, a, b, taken, false);
    }
  }

  lemma {:induction false} RunFollows(s: System, schedule: seq<(nat, Action)>, b: nat)
    requires Initial(s) && IsRun(s, schedule) && Spared(s, schedule, b)
    ensures AtHome(After(s, schedule)) && Follows(After(s, schedule), b, Taken(s, schedule, b), Finished(s, schedule, b))
    decreases |schedule|
  {
    hide Enabled, Runnable, Step, Robs, Takes, Ends, BooksOk, DiskOk;
    if schedule == [] {
    } else {
      var front, last := schedule[..|schedule| - 1], schedule[|schedule| - 1];
      RunFollows(s, front, b);
      RunIsSound(s, front);
      hide Follows, AtHome, Sound;
      StepKeepsAtHome(After(s, front), last.0, last.1);
      StepFollows(After(s, front), last.0, last.1, b, Taken(s, front, b), Finished(s, front, b));
    }
  }

  // ----- What a client may rely on -----

  /**
   In every interleaving: as long as nobody removes blob `b` or moves its file away, the file holds, whenever its
   upload asks for the next message or ends, exactly the bytes of the chunks taken so far, in order.
   */
  lemma StreamIsOnDisk(s: System, schedule: seq<(nat, Action)>, t: nat)
    requires Initial(s) && IsRun(s, schedule) && t in After(s, schedule).threads && After(s, schedule).threads[t].Receiving?
    requires Spared(s, schedule, After(s, schedule).threads[t].blob)
    ensures var b := After(s, schedule).threads[t].blob;
            FileIs(After(s, schedule).w, b, Taken(s, schedule, b))
  {
    hide Initial, IsRun, After, Spared, FileIs;
    RunFollows(s, schedule, After(s, schedule).threads[t].blob);
  }

  /** Once the upload has ended well the file stays what it is, and an entry of that id names it. */
  lemma FinishedUploadStays(s: System, schedule: seq<(nat, Action)>, b: nat)
    requires Initial(s) && IsRun(s, schedule) && Spared(s, schedule, b) && Finished(s, schedule, b)
    ensures FileIs(After(s, schedule).w, b, Taken(s, schedule, b)) && PathIsOwn(After(s, schedule).w, b)
  {
    hide Initial, IsRun, After, Spared, FileIs, PathIsOwn;
    RunFollows(s, schedule, b);
  }

  /** And whoever asks for it then gets exactly those bytes. */
  lemma FinishedUploadIsDelivered(s: System, schedule: seq<(nat, Action)>, b: nat, config: Config, request: GetRequest, id: nat)
    requires Initial(s) && IsRun(s, schedule) && Spared(s, schedule, b) && Finished(s, schedule, b) && config.chunkSize > 0
    requires var w := After(s, schedule).w;
             Live(w, id, b) && AsksFor(w, request, id, b) && TagPasses(config, WantedTag(w, config, id, b), request.reference.tag)
    ensures Delivers(Get(After(s, schedule).w, config, request), Taken(s, schedule, b), config.chunkSize)
  {
    hide Initial, IsRun, After, Spared, UploadPath, AsksFor, TagPasses, WantedTag, Get;
    FinishedUploadStays(s, schedule, b);
    HeldBlobIsDelivered(After(s, schedule).w, config, request, id, b);
  }
}
