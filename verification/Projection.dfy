/** The reserve calls of the whole server are runs of the reserve loop, and so of its atomic specification. */
module Projection {
  import opened Wrappers
  import opened BlobSessions
  import opened Interleaving
  import opened Threads
  import opened Books
  import opened DiskUse
  import opened Schedules
  import Loop = ReserveLoop
  import Streaming

  /** The store alone: its counter and the calls inside `reserve`. */
  ghost function StoreOf(s: System): Loop.State {
    Loop.State(s.w.quota, s.w.usage,
               map t | t in s.threads && s.threads[t].Reserving? :: Loop.Call(|s.threads[t].data|, s.threads[t].phase))
  }

  /** What a step of the server is to the store. */
  function StoreStep(s: System, t: nat, a: Action): Option<Loop.Step>
    requires Enabled(s, t, a)
  {
    var pc := s.threads[t];
    if !a.Proceed? then None
    else if pc.Waiting? then Some(Loop.Invoke(t, |pc.data|))
    else if pc.Reserving? then Some(if Loop.Finished(pc.phase) then Loop.Return(t) else Loop.Move(t))
    else if pc.Releasing? then Some(Loop.Subtract(AboutToRelease(s.w, pc)))
    else None
  }

  lemma StoreMoves(s: System, t: nat, after: System, pc: Pc)
    requires t in s.threads && after.threads == s.threads[t := pc] && after.w.quota == s.w.quota
    ensures StoreOf(after) == Loop.State(s.w.quota, after.w.usage,
              if pc.Reserving? then StoreOf(s).calls[t := Loop.Call(|pc.data|, pc.phase)] else StoreOf(s).calls - {t})
    ensures t in StoreOf(s).calls <==> s.threads[t].Reserving?
    ensures s.threads[t].Reserving? ==> StoreOf(s).calls[t] == Loop.Call(|s.threads[t].data|, s.threads[t].phase)
  {
  }

  lemma ReleaseFits(s: System, t: nat)
    requires Inv(s) && t in s.threads
    ensures s.w.quota != 0 ==> AboutToRelease(s.w, s.threads[t]) <= s.w.usage
  {
    hide Inv;
    if s.w.quota != 0 {
      ReleaseNeverUnderflows(s, t);
    }
  }

  lemma StoreStays(s: System, t: nat, after: System, pc: Pc)
    requires t in s.threads && after.threads == s.threads[t := pc] && after.w.quota == s.w.quota && after.w.usage == s.w.usage
    requires pc == s.threads[t] || (!pc.Reserving? && !s.threads[t].Reserving?)
    ensures StoreOf(after) == StoreOf(s)
  {
    hide StoreOf;
    StoreFields(s);
    StoreMoves(s, t, after, pc);
    if pc.Reserving? {
      assert StoreOf(s).calls[t := StoreOf(s).calls[t]] == StoreOf(s).calls;
    } else {
      assert StoreOf(s).calls - {t} == StoreOf(s).calls;
    }
  }

  /** Steps that are none of the store's business. */
  lemma SilentStep(s: System, t: nat, a: Action)
    requires Enabled(s, t, a) && Runnable(s.w, s.threads[t]) && StoreStep(s, t, a).None?
    ensures StoreOf(Step(s, t, a)) == StoreOf(s)
  {
    hide StoreOf, Remains, Ascending, Streaming.Admit;
    var pc, after := s.threads[t], Step(s, t, a);
    assert s.threads[t := pc] == s.threads;
    StoreStays(s, t, after, after.threads[t]);
  }

  lemma ReservingStep(s: System, t: nat, pc: Pc)
    requires t in s.threads && pc == s.threads[t] && Runnable(s.w, pc) && pc.Reserving?
    ensures var step := if Loop.Finished(pc.phase) then Loop.Return(t) else Loop.Move(t);
            Loop.Enabled(StoreOf(s), step) && Loop.Take(StoreOf(s), step) == StoreOf(Upload(s, t, pc))
  {
    hide StoreOf, Loop.Advance;
    StoreFields(s);
    var after := Upload(s, t, pc);
    StoreMoves(s, t, after, after.threads[t]);
  }

  lemma WaitingStep(s: System, t: nat, pc: Pc)
    requires t in s.threads && pc == s.threads[t] && Runnable(s.w, pc) && pc.Waiting? && PcOk(s.w, pc)
    ensures Loop.Enabled(StoreOf(s), Loop.Invoke(t, |pc.data|))
    ensures Loop.Take(StoreOf(s), Loop.Invoke(t, |pc.data|)) == StoreOf(Upload(s, t, pc))
  {
    hide StoreOf, Loop.Advance;
    StoreFields(s);
    StoreMoves(s, t, Upload(s, t, pc), Upload(s, t, pc).threads[t]);
  }

  lemma ReleasingStep(s: System, t: nat, pc: Pc)
    requires t in s.threads && pc == s.threads[t] && Runnable(s.w, pc) && pc.Releasing?
    requires s.w.quota != 0 ==> AboutToRelease(s.w, pc) <= s.w.usage
    ensures Loop.Enabled(StoreOf(s), Loop.Subtract(AboutToRelease(s.w, pc)))
    ensures Loop.Take(StoreOf(s), Loop.Subtract(AboutToRelease(s.w, pc))) == StoreOf(Delete(s, t, pc))
  {
    hide StoreOf;
    StoreFields(s);
    StoreMoves(s, t, Delete(s, t, pc), Delete(s, t, pc).threads[t]);
    assert StoreOf(s).calls - {t} == StoreOf(s).calls;
  }

  lemma StoreFields(s: System)
    ensures StoreOf(s).quota == s.w.quota && StoreOf(s).counter == s.w.usage
  {
  }

  lemma ThreadIsOk(s: System, t: nat)
    requires t in s.threads && Inv(s)
    ensures PcOk(s.w, s.threads[t])
  {
    hide BooksOk, DiskOk;
  }

  /** Every step of the server is an enabled step of the store, or none of its business. */
  lemma StepProjects(s: System, t: nat, a: Action)
    requires Inv(s) && Enabled(s, t, a) && Runnable(s.w, s.threads[t])
    ensures match StoreStep(s, t, a)
            case None => StoreOf(Step(s, t, a)) == StoreOf(s)
            case Some(step) => Loop.Enabled(StoreOf(s), step) && Loop.Take(StoreOf(s), step) == StoreOf(Step(s, t, a))
  {
    hide Inv, StoreOf, PcOk, Loop.Enabled, Loop.Take, Upload, Delete, Begin, Other, Locked, UsedByOther;
    var pc := s.threads[t];
    ThreadIsOk(s, t);
    if StoreStep(s, t, a).None? {
      SilentStep(s, t, a);
    } else if pc.Waiting? {
      WaitingStep(s, t, pc);
    } else if pc.Reserving? {
      ReservingStep(s, t, pc);
    } else {
      ReleaseFits(s, t);
      ReleasingStep(s, t, pc);
    }
  }

  // ----- Runs -----

  ghost function StoreSteps(s: System, schedule: seq<(nat, Action)>): seq<Loop.Step>
    requires IsRun(s, schedule)
    decreases |schedule|
  {
    if schedule == [] then []
    else
      var front, last := schedule[..|schedule| - 1], schedule[|schedule| - 1];
      match StoreStep(After(s, front), last.0, last.1)
      case None => StoreSteps(s, front)
      case Some(step) => StoreSteps(s, front) + [step]
  }

  lemma {:induction false} RunProjects(s: System, schedule: seq<(nat, Action)>)
    requires IsRun(s, schedule) && Inv(s)
    ensures Loop.IsRun(StoreOf(s), StoreSteps(s, schedule))
    ensures Loop.After(StoreOf(s), StoreSteps(s, schedule)) == StoreOf(After(s, schedule))
    decreases |schedule|
  {
    hide Inv, StoreOf, StoreStep, Step, Enabled, Runnable, Loop.Enabled, Loop.Take;
    if schedule == [] {
    } else {
      var front, last := schedule[..|schedule| - 1], schedule[|schedule| - 1];
      RunProjects(s, front);
      RunKeepsInv(s, front);
      StepProjects(After(s, front), last.0, last.1);
      var before, all := StoreSteps(s, front), StoreSteps(s, schedule);
      if all != before {
        assert all[..|all| - 1] == before;
      }
    }
  }

  lemma StoreIsBounded(s: System)
    requires Inv(s)
    ensures Loop.Bounded(StoreOf(s))
  {
    hide BooksOk, DiskOk;
    InvBounds(s);
    forall t | t in s.threads && s.threads[t].Reserving? ensures PcOk(s.w, s.threads[t]) {
    }
  }

  /**
   In every run of the whole server, uploads, removals, disposals and all, each reservation takes effect at one
   instant as the atomic "add if it fits, else refuse", over the very values the counter holds.
   */
  lemma ReservationsAreAtomic(s: System, schedule: seq<(nat, Action)>)
    requires IsRun(s, schedule) && Inv(s)
    ensures var steps := StoreSteps(s, schedule);
            var a := Loop.Abstraction(StoreOf(s));
            && Loop.IsRun(StoreOf(s), steps)
            && Loop.IsAtomicRun(a, Loop.Counterparts(StoreOf(s), steps))
            && Loop.AtomicAfter(a, Loop.Counterparts(StoreOf(s), steps)) == Loop.Abstraction(StoreOf(After(s, schedule)))
  {
    hide Inv, StoreOf, Loop.Bounded, Loop.Abstraction;
    StoreIsBounded(s);
    RunProjects(s, schedule);
    Loop.RunRefines(StoreOf(s), StoreSteps(s, schedule));
  }
}
