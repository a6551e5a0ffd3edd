/** The transaction index in every interleaving: its history is the schedule's session openings and disposals. */
module IndexRuns {
  import opened Wrappers
  import opened BlobSessions
  import opened Interleaving
  import opened Schedules
  import opened TransactionIndex
  import Naming
  import Streaming
  import Loop = ReserveLoop

  /** What a step of the server is to the transaction index. */
  function EventOf(s: System, t: nat, a: Action): Option<Event>
    requires t in s.threads
  {
    var pc := s.threads[t];
    if a.OpenSession? then Some(Created(s.w.lastSession + 1, a.transaction))
    else if a.Proceed? && pc.Removing? && pc.blobs == [] && pc.disposing then Some(Disposed(pc.session))
    else None
  }

  ghost function History(s: System, schedule: seq<(nat, Action)>): seq<Event>
    requires IsRun(s, schedule)
    decreases |schedule|
  {
    if schedule == [] then []
    else
      var front, last := schedule[..|schedule| - 1], schedule[|schedule| - 1];
      match EventOf(After(s, front), last.0, last.1)
      case None => History(s, front)
      case Some(event) => History(s, front) + [event]
  }

  function Happens(r: Registry, event: Event): Registry {
    match event
    case Created(_, transaction) => Create(r, transaction)
    case Disposed(id) => Erase(r, id)
  }

  lemma SameRegistry(w: World, after: World)
    requires after.lastSession == w.lastSession && after.index == w.index && after.sessions.Keys == w.sessions.Keys
    requires forall s | s in w.sessions :: after.sessions[s].transaction == w.sessions[s].transaction
    ensures RegistryOf(after) == RegistryOf(w)
  {
  }

  lemma BeginIsEvent(s: System, t: nat, a: Action)
    requires Enabled(s, t, a) && !a.Proceed?
    ensures var after := RegistryOf(Begin(s, t, a).w);
            after == if a.OpenSession? then Create(RegistryOf(s.w), a.transaction) else RegistryOf(s.w)
  {
    hide RegistryOf, Locked, UsedByOther, Ascending, Naming.UploadPath, Naming.InStore;
    if a.OpenSession? {
      RegistryFollows(s.w, a.transaction, 0);
    } else {
      SameRegistry(s.w, Begin(s, t, a).w);
    }
  }

  lemma UploadIsNoEvent(s: System, t: nat, pc: Pc)
    requires Runnable(s.w, pc) && (pc.Creating? || pc.Uploads())
    ensures RegistryOf(Upload(s, t, pc).w) == RegistryOf(s.w)
  {
    hide RegistryOf, Naming.UploadPath, Loop.Advance;
    SameRegistry(s.w, Upload(s, t, pc).w);
  }

  lemma DeleteIsEvent(s: System, t: nat, pc: Pc)
    requires Runnable(s.w, pc) && (pc.Removing? || pc.Deletes())
    ensures var after := RegistryOf(Delete(s, t, pc).w);
            after == if pc.Removing? && pc.blobs == [] && pc.disposing then Erase(RegistryOf(s.w), pc.session) else RegistryOf(s.w)
  {
    hide RegistryOf, Remains;
    if pc.Removing? && pc.blobs == [] && pc.disposing {
      RegistryFollows(s.w, None, pc.session);
    } else {
      SameRegistry(s.w, Delete(s, t, pc).w);
    }
  }

  lemma OtherIsNoEvent(s: System, t: nat, pc: Pc)
    requires Runnable(s.w, pc) && !pc.Creating? && !pc.Uploads() && !pc.Removing? && !pc.Deletes()
    ensures RegistryOf(Other(s, t, pc).w) == RegistryOf(s.w)
  {
    hide RegistryOf, Streaming.Admit;
    SameRegistry(s.w, Other(s, t, pc).w);
  }

  lemma StepIsEvent(s: System, t: nat, a: Action)
    requires Enabled(s, t, a) && Runnable(s.w, s.threads[t])
    ensures t in s.threads
    ensures match EventOf(s, t, a)
            case None => RegistryOf(Step(s, t, a).w) == RegistryOf(s.w)
            case Some(event) => RegistryOf(Step(s, t, a).w) == Happens(RegistryOf(s.w), event)
  {
    hide RegistryOf, Begin, Upload, Delete, Other, Locked, UsedByOther;
    var pc := s.threads[t];
    if !a.Proceed? {
      BeginIsEvent(s, t, a);
    } else if pc.Creating? || pc.Uploads() {
      UploadIsNoEvent(s, t, pc);
    } else if pc.Removing? || pc.Deletes() {
      DeleteIsEvent(s, t, pc);
    } else {
      OtherIsNoEvent(s, t, pc);
    }
  }

  lemma {:induction false} HistoryIsReplayed(s: System, schedule: seq<(nat, Action)>)
    requires Initial(s) && IsRun(s, schedule)
    ensures Numbered(History(s, schedule)) && Replay(History(s, schedule)) == RegistryOf(After(s, schedule).w)
    decreases |schedule|
  {
    hide Step, Enabled, Runnable, EventOf;
    if schedule == [] {
      assert RegistryOf(s.w) == EMPTY;
    } else {
      var front, last := schedule[..|schedule| - 1], schedule[|schedule| - 1];
      var before := After(s, front);
      HistoryIsReplayed(s, front);
      StepIsEvent(before, last.0, last.1);
      if EventOf(before, last.0, last.1).Some? {
        var all := History(s, schedule);
        assert all[..|all| - 1] == History(s, front);
        EventIsNumbered(before, last.0, last.1);
      }
    }
  }

  lemma EventIsNumbered(s: System, t: nat, a: Action)
    requires t in s.threads && EventOf(s, t, a).Some?
    ensures EventOf(s, t, a).value.Created? ==> EventOf(s, t, a).value.session == RegistryOf(s.w).last + 1
  {
  }

  /**
   In every state of every interleaving, the session found for a transaction is the earliest one opened with it
   since the last disposal of any session carrying it, and none is found exactly when there is none.
   */
  lemma LookupInEverySchedule(s: System, schedule: seq<(nat, Action)>, transaction: nat)
    requires Initial(s) && IsRun(s, schedule)
    ensures var history := History(s, schedule);
            match SessionIdOf(After(s, schedule).w, transaction)
            case Some(id) => exists i: nat :: i < |history| && Earliest(history, i, transaction) && history[i].session == id
            case None => forall i: nat | i < |history| :: !Standing(history, i, transaction)
  {
    hide Initial, IsRun, After, History, Standing, Earliest;
    HistoryIsReplayed(s, schedule);
    IndexIsExplained(History(s, schedule), transaction);
  }
}
