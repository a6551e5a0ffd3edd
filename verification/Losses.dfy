/**
 What the counter loses track of, told by the run itself: bytes granted to an id whose entry is gone, and
 charges of entries that go down with their session. Nothing else is ever lost.
 */
module Losses {
  import opened Naming
  import opened Sums
  import opened BlobSessions
  import opened Interleaving
  import opened Threads
  import opened Books
  import opened DiskUse
  import opened Schedules
  import Loop = ReserveLoop
  import Streaming

  /** The bytes this step loses: a grant is about to be charged and the entry is not there. */
  function Lost(s: System, t: nat, a: Action): nat
    requires t in s.threads
  {
    var pc := s.threads[t];
    if a.Proceed? && pc.Reserving? && pc.phase.Granted? && pc.blob !in BlobsOf(s.w, pc.session) then |pc.data| else 0
  }

  /** The charges this step loses: a session is destroyed with entries in it. */
  ghost function Sunk(s: System, t: nat, a: Action): nat
    requires t in s.threads
  {
    var pc := s.threads[t];
    if a.Proceed? && pc.Removing? && pc.blobs == [] && pc.disposing then Sum(Remains(s.w, pc.session)) else 0
  }

  ghost function LostAlong(s: System, schedule: seq<(nat, Action)>): nat
    requires IsRun(s, schedule)
    decreases |schedule|
  {
    if schedule == [] then 0
    else
      var front, last := schedule[..|schedule| - 1], schedule[|schedule| - 1];
      LostAlong(s, front) + Lost(After(s, front), last.0, last.1)
  }

  ghost function SunkAlong(s: System, schedule: seq<(nat, Action)>): nat
    requires IsRun(s, schedule)
    decreases |schedule|
  {
    if schedule == [] then 0
    else
      var front, last := schedule[..|schedule| - 1], schedule[|schedule| - 1];
      SunkAlong(s, front) + Sunk(After(s, front), last.0, last.1)
  }

  lemma StepLoses(s: System, t: nat, a: Action)
    requires Enabled(s, t, a) && Runnable(s.w, s.threads[t]) && s.w.quota != 0
    ensures t in s.threads && Step(s, t, a).leaked == s.leaked + Lost(s, t, a)
  {
    hide Locked, UsedByOther, Ascending, UploadPath, InStore, Remains, Streaming.Admit, Loop.Advance;
  }

  /** Only a disposal changes the orphans. */
  lemma StepOrphans(s: System, t: nat, a: Action)
    requires Enabled(s, t, a) && Runnable(s.w, s.threads[t])
    ensures t in s.threads
    ensures var pc := s.threads[t];
            Step(s, t, a).orphans
            == if a.Proceed? && pc.Removing? && pc.blobs == [] && pc.disposing then s.orphans + Remains(s.w, pc.session) else s.orphans
  {
    hide Locked, UsedByOther, Ascending, UploadPath, InStore, Remains, Streaming.Admit, Loop.Advance;
  }

  lemma StepSinks(s: System, t: nat, a: Action)
    requires Enabled(s, t, a) && Runnable(s.w, s.threads[t]) && OrphansDead(s)
    ensures t in s.threads && Sum(Step(s, t, a).orphans) == Sum(s.orphans) + Sunk(s, t, a)
  {
    hide Enabled, Step, OrphansDead;
    StepOrphans(s, t, a);
    var pc := s.threads[t];
    if a.Proceed? && pc.Removing? && pc.blobs == [] && pc.disposing {
      RemainsAreNew(s, pc.session);
      SumUnion(s.orphans, Remains(s.w, pc.session));
    }
  }

  lemma RemainsAreNew(s: System, id: nat)
    requires OrphansDead(s) && id in s.w.sessions
    ensures s.orphans.Keys !! Remains(s.w, id).Keys
  {
  }

  lemma {:induction false} LossesAreTold(s: System, schedule: seq<(nat, Action)>)
    requires Initial(s) && s.w.quota != 0 && IsRun(s, schedule)
    ensures After(s, schedule).leaked == LostAlong(s, schedule)
    ensures Sum(After(s, schedule).orphans) == SunkAlong(s, schedule)
    decreases |schedule|
  {
    hide Enabled, Step, Runnable, Sound, Balanced, DiskOk, Lost, Sunk;
    if schedule == [] {
    } else {
      var front, last := schedule[..|schedule| - 1], schedule[|schedule| - 1];
      var before := After(s, front);
      LossesAreTold(s, front);
      RunIsSound(s, front);
      StepLoses(before, last.0, last.1);
      StepSinks(before, last.0, last.1);
    }
  }

  /**
   The whole account of the counter, with nothing in it but what can be seen in the state and in the run: all
   charges, plus grants not yet charged, minus releases not yet erased, plus exactly the bytes granted to ids
   that were already erased and the charges destroyed with their sessions.
   */
  lemma CounterIsAccountedFor(s: System, schedule: seq<(nat, Action)>)
    requires Initial(s) && s.w.quota != 0 && IsRun(s, schedule)
    ensures var r := After(s, schedule);
            r.w.usage == Sum(Ledger(r.w.sessions)) + Sum(Grants(r.threads)) - Sum(Releases(r.threads))
                       + LostAlong(s, schedule) + SunkAlong(s, schedule)
  {
    hide Initial, Inv, IsRun, After;
    RunIsSound(s, schedule);
    CounterIsExact(s, schedule);
    LossesAreTold(s, schedule);
  }

  /**
   Between calls, the counter is the sum of the charges if and only if the run lost nothing; otherwise it is
   too high by what was lost, and nothing brings it down again.
   */
  lemma QuietCounterIsChargesExactlyWhen(s: System, schedule: seq<(nat, Action)>)
    requires Initial(s) && s.w.quota != 0 && IsRun(s, schedule)
    requires forall t | t in After(s, schedule).threads :: After(s, schedule).threads[t].Idle?
    ensures var r := After(s, schedule);
            r.w.usage == Sum(Ledger(r.w.sessions)) <==> LostAlong(s, schedule) == 0 && SunkAlong(s, schedule) == 0
  {
    hide Initial, Inv, IsRun, LostAlong, SunkAlong, Ledger;
    CounterIsAccountedFor(s, schedule);
    IdleReleasesNothing(After(s, schedule).threads);
  }
}
