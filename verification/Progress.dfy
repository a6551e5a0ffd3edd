/**
 Who waits for whom: a call that cannot go on waits for a mutex whose holder can, or it is a disposal waiting for
 other users of its session. Only disposals can block each other.
 */
module Progress {
  import opened Wrappers
  import opened Naming
  import opened BlobSessions
  import opened Interleaving
  import opened Schedules
  import opened Entries
  import opened Discipline
  import opened Overtaking
  import Loop = ReserveLoop
  import Streaming

  /** The thread's call can take its next step, or could if the client sent something. */
  predicate CanMove(s: System, t: nat)
    requires t in s.threads
  {
    if s.threads[t].Receiving? then Enabled(s, t, RejectMessage) else Enabled(s, t, Proceed)
  }

  predicate Busy(s: System, t: nat) {
    t in s.threads && !s.threads[t].Idle?
  }

  /** The call is a disposal with nothing left to do but to destroy the session, and another call uses it. */
  predicate Blocked(s: System, t: nat) {
    && t in s.threads && s.threads[t].Removing? && s.threads[t].blobs == [] && s.threads[t].disposing
    && UsedByOther(s, t, s.threads[t].session)
  }

  /** Some calls are under way and none of them can go on. */
  ghost predicate Stuck(s: System) {
    (exists t :: Busy(s, t)) && forall t | Busy(s, t) :: !CanMove(s, t)
  }

  lemma HolderMoves(s: System, id: nat)
    requires Locked(s, id)
    ensures exists t :: Busy(s, t) && CanMove(s, t)
  {
    var t :| t in s.threads && s.threads[t].Lock() == Some(id);
    assert Busy(s, t) && CanMove(s, t);
  }

  /** Otherwise it is a disposal that others keep from finishing. */
  lemma WhoCannotMove(s: System, t: nat)
    requires Busy(s, t) && !CanMove(s, t)
    ensures (exists u :: Busy(s, u) && CanMove(s, u)) || Blocked(s, t)
  {
    var pc := s.threads[t];
    hide UsedByOther, Locked;
    if pc.Uses().Some? && Locked(s, pc.session) {
      HolderMoves(s, pc.session);
    }
  }

  /** The server is stuck if and only if every call under way is such a disposal. */
  lemma StuckExactlyWhen(s: System)
    ensures Stuck(s) <==>
              && (exists t :: Busy(s, t))
              && forall t | Busy(s, t) :: Blocked(s, t)
  {
    hide CanMove, Blocked;
    forall t | Busy(s, t) ensures CanMove(s, t) ==> !Blocked(s, t) {
      BlockedCannotMove(s, t);
    }
    if Stuck(s) {
      forall t | Busy(s, t) ensures Blocked(s, t) {
        WhoCannotMove(s, t);
      }
    }
  }

  lemma BlockedCannotMove(s: System, t: nat)
    requires t in s.threads
    ensures Blocked(s, t) ==> !CanMove(s, t)
  {
    hide UsedByOther;
  }

  // ----- Considerate disposal never blocks -----

  ghost predicate OneDisposer(s: System) {
    forall t, u | t in s.threads && u in s.threads && t != u && Disposes(s.threads[t]) && Disposes(s.threads[u]) ::
      s.threads[t].session != s.threads[u].session
  }

  /** How a thread comes to dispose a session. */
  predicate KeepsDisposing(pc: Pc, a: Action, next: Pc) {
    Disposes(next) ==> (Disposes(pc) && next.session == pc.session) || a == BeginDispose(next.session)
  }

  lemma StepKeepsDisposing(s: System, t: nat, a: Action)
    requires Enabled(s, t, a) && Runnable(s.w, s.threads[t])
    ensures t in s.threads && t in Step(s, t, a).threads && KeepsDisposing(s.threads[t], a, Step(s, t, a).threads[t])
  {
    hide UploadPath, InStore, Locked, UsedByOther, Ascending, Remains, EraseSession, Loop.Advance, Streaming.Admit;
  }

  lemma StepKeepsOneDisposer(s: System, t: nat, a: Action)
    requires Enabled(s, t, a) && Runnable(s.w, s.threads[t]) && OneDisposer(s) && Considerate(s, t, a)
    ensures OneDisposer(Step(s, t, a))
  {
    hide Step, Enabled, Runnable, UploadPath;
    StepMovesOne(s, t, a);
    StepKeepsDisposing(s, t, a);
  }

  lemma {:induction false} RunKeepsOneDisposer(s: System, schedule: seq<(nat, Action)>)
    requires Initial(s) && IsRun(s, schedule) && AllConsiderate(s, schedule)
    ensures OneDisposer(After(s, schedule))
    decreases |schedule|
  {
    hide Enabled, Runnable, Step, Considerate, Inv;
    if schedule == [] {
    } else {
      var front, last := schedule[..|schedule| - 1], schedule[|schedule| - 1];
      RunKeepsOneDisposer(s, front);
      hide OneDisposer;
      StepKeepsOneDisposer(After(s, front), last.0, last.1);
    }
  }

  /** If sessions are disposed considerately, some call can always go on, whatever else is going on. */
  lemma NeverStuck(s: System, schedule: seq<(nat, Action)>)
    requires Initial(s) && IsRun(s, schedule) && AllConsiderate(s, schedule)
    ensures !Stuck(After(s, schedule))
  {
    hide Initial, IsRun, After, AllConsiderate, Stuck;
    RunKeepsOneDisposer(s, schedule);
    StuckExactlyWhen(After(s, schedule));
    NotAllBlocked(After(s, schedule));
  }

  lemma NotAllBlocked(s: System)
    requires OneDisposer(s)
    ensures (forall t | Busy(s, t) :: Blocked(s, t)) ==> !exists t :: Busy(s, t)
  {
    if t :| Busy(s, t) && forall u | Busy(s, u) :: Blocked(s, u) {
      var u :| u in s.threads && u != t && s.threads[u].Uses() == Some(s.threads[t].session);
      assert Busy(s, u);
      assert false;
    }
  }

  // ----- And otherwise it can -----

  lemma SecondDisposalBegins() returns (r: System)
    ensures Inv(START) && Reaches(START, r) && r.threads.Keys == {0, 1}
    ensures r.threads[0] == Removing(1, [], true) && r.threads[1] == Removing(1, [], true)
  {
    hide Inv, Reaches, UploadPath, InStore, Remains, Loop.Advance, Streaming.Admit, Other, Delete, Upload;
    StartReaches();
    r := START;
    ReachNext(START, r, 0, OpenSession(None));
    r := Step(r, 0, OpenSession(None));
    assert r.w.sessions[1].blobs.Keys == {};
    ReachNext(START, r, 0, BeginDispose(1));
    r := Step(r, 0, BeginDispose(1));
    hide Ascending;
    assert r.threads[0] == Removing(1, [], true) && r.threads[1] == Idle;
    ReachNext(START, r, 1, BeginDispose(1));
    r := Step(r, 1, BeginDispose(1));
  }

  /** Two disposals of one session, each waiting until the other has let go of it. */
  lemma DisposalsCanBlock()
    ensures Initial(START) && exists r :: Reaches(START, r) && Stuck(r)
  {
    hide Inv, Initial, Reaches, Stuck;
    StartIsSound();
    var r := SecondDisposalBegins();
    StuckExactlyWhen(r);
    assert Busy(r, 0);
    assert Stuck(r);
  }
}
