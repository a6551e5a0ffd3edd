/**
 What the entry of an upload is charged with while everything else goes on: exactly the bytes its call has taken
 in, in every interleaving, for as long as there is an entry.
 */
module Charges {
  import opened Wrappers
  import opened Words
  import opened Naming
  import opened BlobSessions
  import opened Interleaving
  import opened Threads
  import opened Books
  import opened DiskUse
  import opened Schedules
  import opened Entries
  import opened Contents
  import Loop = ReserveLoop
  import Streaming

  // ----- What a step does to charges -----

  /** What the thread's next step adds to the charge of this entry. */
  function Added(pc: Pc, id: nat, b: nat): nat {
    if pc.Reserving? && pc.phase.Granted? && pc.session == id && pc.blob == b then |pc.data| else 0
  }

  function ChargeAt(w: World, id: nat, b: nat): word {
    if id in w.sessions && b in w.sessions[id].blobs then w.sessions[id].blobs[b].charge else 0
  }

  ghost predicate ChargesMove(w: World, after: World, pc: Pc) {
    forall id: nat, b: nat | Live(after, id, b) :: ChargeAt(after, id, b) == Add64(ChargeAt(w, id, b), Added(pc, id, b))
  }

  lemma BeginMovesCharges(s: System, t: nat, a: Action)
    requires Enabled(s, t, a) && !a.Proceed? && FreshIds(s.w)
    ensures ChargesMove(s.w, Begin(s, t, a).w, Idle)
  {
    hide UploadPath, InStore, Locked, UsedByOther, Ascending;
    assert s.w.lastSession + 1 !in s.w.sessions;
  }

  lemma UploadMovesCharges(s: System, t: nat, pc: Pc)
    requires Runnable(s.w, pc) && (pc.Creating? || pc.Uploads())
    ensures ChargesMove(s.w, Upload(s, t, pc).w, pc)
  {
    hide UploadPath, Loop.Advance;
  }

  lemma DeleteMovesCharges(s: System, t: nat, pc: Pc)
    requires Runnable(s.w, pc) && (pc.Removing? || pc.Deletes())
    ensures ChargesMove(s.w, Delete(s, t, pc).w, pc)
  {
    hide Remains;
  }

  lemma OtherMovesCharges(s: System, t: nat, pc: Pc)
    requires Runnable(s.w, pc) && !pc.Creating? && !pc.Uploads() && !pc.Removing? && !pc.Deletes()
    ensures ChargesMove(s.w, Other(s, t, pc).w, pc)
  {
    hide Streaming.Admit;
  }

  /** Only the upload that has been granted bytes adds to a charge, and only to that of its own entry. */
  lemma StepMovesCharges(s: System, t: nat, a: Action)
    requires Enabled(s, t, a) && Runnable(s.w, s.threads[t]) && FreshIds(s.w)
    ensures t in s.threads && ChargesMove(s.w, Step(s, t, a).w, if a.Proceed? then s.threads[t] else Idle)
  {
    hide ChargesMove, Begin, Upload, Delete, Other, Locked, UsedByOther;
    var pc := s.threads[t];
    if !a.Proceed? {
      BeginMovesCharges(s, t, a);
    } else if pc.Creating? || pc.Uploads() {
      UploadMovesCharges(s, t, pc);
    } else if pc.Removing? || pc.Deletes() {
      DeleteMovesCharges(s, t, pc);
    } else {
      OtherMovesCharges(s, t, pc);
    }
  }

  // ----- The invariant for one blob -----

  /** The charge for `size` bytes: counted in 64 bits, which under a quota never wraps. */
  function ChargeFor(quota: word, size: nat): nat {
    if quota == 0 then size % WORD_LIMIT else size
  }

  /** Bytes taken from the stream that no entry is charged with yet. */
  function InFlight(pc: Pc): nat {
    if pc.Waiting? || pc.Reserving? then |pc.data| else 0
  }

  ghost predicate Charged(w: World, b: nat, size: nat) {
    forall id: nat | Live(w, id, b) :: ChargeAt(w, id, b) == ChargeFor(w.quota, size)
  }

  /** The entry is charged with what was taken, but for the chunk in hand. */
  ghost predicate Due(w: World, pc: Pc, size: nat)
    requires pc.Uploads()
  {
    && InFlight(pc) <= size && (pc.Inserting? || pc.Opening? ==> size == 0)
    && (!pc.Inserting? ==> Charged(w, pc.blob, size - InFlight(pc)))
  }

  ghost predicate Keeps(s: System, b: nat, size: nat, finished: bool) {
    && (forall u | u in s.threads && s.threads[u].Uploads() && s.threads[u].blob == b :: Due(s.w, s.threads[u], size))
    && (b > s.w.lastBlob ==> size == 0)
    && (finished ==> b <= s.w.lastBlob && Charged(s.w, b, size) && forall u | u in s.threads :: s.threads[u].InHand() != Some(b))
  }

  /** How many bytes the step takes from the stream of the upload of `b`. */
  function TakenBy(s: System, t: nat, a: Action, b: nat): nat
    requires t in s.threads
  {
    if Takes(s, t, a, b) then |a.data| else 0
  }

  /** The upload's next state and the bytes it has taken by then. */
  ghost predicate Advances(s: System, t: nat, a: Action, next: Pc)
    requires t in s.threads && s.threads[t].Uploads()
  {
    var pc := s.threads[t];
    next.Uploads() ==>
      && next.blob == pc.blob && next.session == pc.session
      && InFlight(next) + (if a.Proceed? then Added(pc, pc.session, pc.blob) else 0) == InFlight(pc) + TakenBy(s, t, a, pc.blob)
      && (next.Inserting? ==> pc.Inserting?) && (next.Opening? ==> pc.Opening? || pc.Inserting?)
      && (pc.Inserting? || pc.Opening? ==> InFlight(next) == 0)
  }

  lemma UploadAdvances(s: System, t: nat)
    requires t in s.threads && Runnable(s.w, s.threads[t]) && s.threads[t].Uploads()
    ensures var after := Upload(s, t, s.threads[t]);
            t in after.threads && Advances(s, t, Proceed, after.threads[t])
  {
    hide UploadPath, Loop.Advance;
  }

  lemma BeginAdvances(s: System, t: nat, a: Action)
    requires Enabled(s, t, a) && !a.Proceed? && s.threads[t].Uploads()
    ensures var after := Begin(s, t, a);
            t in after.threads && Advances(s, t, a, after.threads[t])
    ensures Ends(s, t, a, s.threads[t].blob) ==> Begin(s, t, a).threads[t].Idle?
  {
    hide UploadPath, InStore, Locked, UsedByOther, Ascending;
  }

  lemma OwnStepAdvances(s: System, t: nat, a: Action)
    requires Enabled(s, t, a) && Runnable(s.w, s.threads[t]) && s.threads[t].Uploads()
    ensures t in s.threads && t in Step(s, t, a).threads && Advances(s, t, a, Step(s, t, a).threads[t])
    ensures Ends(s, t, a, s.threads[t].blob) ==> Step(s, t, a).threads[t].Idle?
  {
    hide Advances, Begin, Upload, Locked, UsedByOther;
    if a.Proceed? {
      UploadAdvances(s, t);
    } else {
      BeginAdvances(s, t, a);
    }
  }

  lemma ChargesAdd(quota: word, size: nat, more: nat)
    requires quota != 0 ==> size + more < WORD_LIMIT
    ensures Add64(ChargeFor(quota, size), more) == ChargeFor(quota, size + more)
  {
  }

  /** Under a quota the sum of charge and grant does not wrap. */
  lemma ChargeGrows(s: System, t: nat, size: nat)
    requires Inv(s) && t in s.threads && s.threads[t].Reserving? && s.threads[t].phase.Granted?
    requires Live(s.w, s.threads[t].session, s.threads[t].blob)
    requires ChargeAt(s.w, s.threads[t].session, s.threads[t].blob) == ChargeFor(s.w.quota, size)
    ensures var pc := s.threads[t];
            Add64(ChargeAt(s.w, pc.session, pc.blob), |pc.data|) == ChargeFor(s.w.quota, size + |pc.data|)
  {
    hide Sound, BooksOk, DiskOk, Add64, ChargeFor;
    if s.w.quota != 0 {
      ChargeFits(s, t, s.threads[t].session, s.threads[t].blob);
      assert ChargeFor(s.w.quota, size) == size by { UnderQuota(s.w.quota, size); }
    }
    ChargesAdd(s.w.quota, size, |s.threads[t].data|);
  }

  lemma UnderQuota(quota: word, size: nat)
    ensures quota != 0 ==> ChargeFor(quota, size) == size
  {
  }

  /** A blob that the step adds nothing to keeps its charge. */
  lemma StepKeepsCharged(s: System, t: nat, a: Action, b: nat, size: nat)
    requires Enabled(s, t, a) && Runnable(s.w, s.threads[t]) && Inv(s) && Charged(s.w, b, size)
    requires s.threads[t].InHand() != Some(b)
    ensures Charged(Step(s, t, a).w, b, size)
  {
    hide Step, Locked, UsedByOther, Runnable, BooksOk, DiskOk, PathsSound, PcOk, Exclusive, DrawnOnce;
    StepAddsOnly(s, t, a);
    StepMovesCharges(s, t, a);
    StepKeepsInv(s, t, a);
    forall id: nat | Live(Step(s, t, a).w, id, b) ensures Live(s.w, id, b) && ChargeAt(Step(s, t, a).w, id, b) == ChargeAt(s.w, id, b) {
    }
  }

  /** The step of the thread that uploads `b`. */
  lemma OwnStepKeepsDue(s: System, t: nat, a: Action, size: nat)
    requires Enabled(s, t, a) && Runnable(s.w, s.threads[t]) && Inv(s) && AtHome(s)
    requires s.threads[t].Uploads() && Due(s.w, s.threads[t], size)
    ensures var after, b := Step(s, t, a), s.threads[t].blob;
            && t in after.threads
            && (after.threads[t].Uploads() ==> after.threads[t].blob == b && Due(after.w, after.threads[t], size + TakenBy(s, t, a, b)))
            && (Ends(s, t, a, b) ==> Charged(after.w, b, size + TakenBy(s, t, a, b)) && after.threads[t].Idle?)
  {
    hide Step, Locked, UsedByOther, Runnable, Inv, AtHome, ChargeFor, ChargeAt;
    var pc := s.threads[t];
    OwnStepAdvances(s, t, a);
    OwnStepKeepsCharged(s, t, a, size);
  }

  /** What has been charged until now, and what the step adds. */
  lemma OwnStepKeepsCharged(s: System, t: nat, a: Action, size: nat)
    requires Enabled(s, t, a) && Runnable(s.w, s.threads[t]) && Inv(s) && AtHome(s)
    requires s.threads[t].Uploads() && Due(s.w, s.threads[t], size)
    ensures var pc := s.threads[t];
            t in s.threads && Charged(Step(s, t, a).w, pc.blob, size - InFlight(pc) + if a.Proceed? then Added(pc, pc.session, pc.blob) else 0)
  {
    hide Step, Locked, UsedByOther, Runnable, BooksOk, DiskOk, PathsSound, Exclusive, DrawnOnce, ChargeFor, ChargeAt;
    var pc, after := s.threads[t], Step(s, t, a);
    StepAddsOnly(s, t, a);
    StepMovesCharges(s, t, a);
    StepKeepsInv(s, t, a);
    forall id: nat | Live(after.w, id, pc.blob)
      ensures ChargeAt(after.w, id, pc.blob) == ChargeFor(after.w.quota, size - InFlight(pc) + if a.Proceed? then Added(pc, pc.session, pc.blob) else 0)
    {
      OwnCharge(s, t, size, id);
      if !pc.Inserting? && a.Proceed? && pc.Reserving? && pc.phase.Granted? {
        ChargeGrows(s, t, size - InFlight(pc));
      }
    }
  }

  lemma OwnCharge(s: System, t: nat, size: nat, id: nat)
    requires t in s.threads && Sound(s) && AtHome(s) && s.threads[t].Uploads() && Due(s.w, s.threads[t], size)
    ensures var pc := s.threads[t];
            && (Live(s.w, id, pc.blob) ==> !pc.Inserting? && id == pc.session)
            && (Live(s.w, id, pc.blob) || pc.Inserting? ==> ChargeAt(s.w, id, pc.blob) == ChargeFor(s.w.quota, size - InFlight(pc)))
  {
    hide Structure, Exclusive, DrawnOnce;
    assert PcOk(s.w, s.threads[t]);
  }

  lemma StepKeeps(s: System, t: nat, a: Action, b: nat, size: nat, finished: bool)
    requires Enabled(s, t, a) && Runnable(s.w, s.threads[t]) && Inv(s) && AtHome(s) && Keeps(s, b, size, finished)
    ensures t in s.threads && Keeps(Step(s, t, a), b, size + TakenBy(s, t, a, b), finished || Ends(s, t, a, b))
  {
    hide Step, Locked, UsedByOther, Runnable, BooksOk, DiskOk, IndexSound, PathsSound, Exclusive, Charged, Due;
    var pc, after := s.threads[t], Step(s, t, a);
    assert pc.InHand().Some? ==> pc.blob <= s.w.lastBlob by {
      assert PcOk(s.w, pc);
    }
    hide PcOk;
    StepAddsOnly(s, t, a);
    StepMovesOne(s, t, a);
    if pc.Uploads() && pc.blob == b {
      OwnStepKeepsDue(s, t, a, size);
    } else {
      OtherStepKeeps(s, t, a, b, size, finished);
    }
  }

  lemma OtherStepKeeps(s: System, t: nat, a: Action, b: nat, size: nat, finished: bool)
    requires Enabled(s, t, a) && Runnable(s.w, s.threads[t]) && Inv(s) && Keeps(s, b, size, finished)
    requires !(s.threads[t].Uploads() && s.threads[t].blob == b)
    ensures TakenBy(s, t, a, b) == 0 && !Ends(s, t, a, b)
    ensures Keeps(Step(s, t, a), b, size, finished)
  {
    hide Step, Locked, UsedByOther, Runnable, BooksOk, DiskOk, IndexSound, PathsSound, Exclusive, Charged;
    var pc, after := s.threads[t], Step(s, t, a);
    StepAddsOnly(s, t, a);
    StepMovesOne(s, t, a);
    forall u | u in s.threads && u != t && s.threads[u].Uploads() && s.threads[u].blob == b
      ensures Due(after.w, s.threads[u], size)
    {
      if !s.threads[u].Inserting? {
        StepKeepsCharged(s, t, a, b, size - InFlight(s.threads[u]));
      }
    }
    if finished {
      StepKeepsCharged(s, t, a, b, size);
    }
  }

  lemma {:induction false} RunKeeps(s: System, schedule: seq<(nat, Action)>, b: nat)
    requires Initial(s) && IsRun(s, schedule)
    ensures AtHome(After(s, schedule)) && Keeps(After(s, schedule), b, |Taken(s, schedule, b)|, Finished(s, schedule, b))
    decreases |schedule|
  {
    hide Inv, Enabled, Runnable, Step, Takes, Ends;
    if schedule == [] {
    } else {
      var front, last := schedule[..|schedule| - 1], schedule[|schedule| - 1];
      RunKeeps(s, front, b);
      RunIsSound(s, front);
      hide Keeps, AtHome;
      assert Sound(After(s, front)) by { InvIsSound(After(s, front)); }
      StepKeepsAtHome(After(s, front), last.0, last.1);
      StepKeeps(After(s, front), last.0, last.1, b, |Taken(s, front, b)|, Finished(s, front, b));
    }
  }

  lemma InvIsSound(s: System)
    requires Inv(s)
    ensures Sound(s)
  {
  }

  // ----- What a client may rely on -----

  /**
   In every interleaving, whenever an upload asks for its next message, and once it has ended well, the entry of
   its blob, if there is one, is charged with exactly the bytes taken from the stream: counted in 64 bits without
   a quota, and in full under one.
   */
  lemma ChargeIsWhatWasTaken(s: System, schedule: seq<(nat, Action)>, b: nat, id: nat)
    requires Initial(s) && IsRun(s, schedule) && Live(After(s, schedule).w, id, b)
    requires Finished(s, schedule, b)
             || exists t :: t in After(s, schedule).threads && After(s, schedule).threads[t].Receiving? && After(s, schedule).threads[t].blob == b
    ensures var charge, size := After(s, schedule).w.sessions[id].blobs[b].charge, |Taken(s, schedule, b)|;
            && charge == size % WORD_LIMIT
            && (s.w.quota != 0 ==> charge == size)
  {
    hide Initial, Inv, IsRun, After, Taken, Finished, AtHome, Keeps, ChargeFor;
    RunKeeps(s, schedule, b);
    RunIsSound(s, schedule);
    KeptCharge(After(s, schedule), b, |Taken(s, schedule, b)|, Finished(s, schedule, b), id);
    ChargeIsWord(s.w.quota, |Taken(s, schedule, b)|, After(s, schedule).w.sessions[id].blobs[b].charge);
  }

  lemma KeptCharge(s: System, b: nat, size: nat, finished: bool, id: nat)
    requires Keeps(s, b, size, finished) && Live(s.w, id, b)
    requires finished || exists t :: t in s.threads && s.threads[t].Receiving? && s.threads[t].blob == b
    ensures s.w.sessions[id].blobs[b].charge == ChargeFor(s.w.quota, size)
  {
    hide ChargeFor;
  }

  lemma ChargeIsWord(quota: word, size: nat, charge: word)
    requires charge == ChargeFor(quota, size)
    ensures charge == size % WORD_LIMIT && (quota != 0 ==> charge == size)
  {
  }
}
