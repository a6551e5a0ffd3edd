/**
 The store's lock-free `reserve`: load the counter, compare, try to exchange it, start over from the value seen
 when the exchange fails. Any number of calls interleave one step at a time with each other and with `remove`.
 */
module ReserveLoop {
  import opened Words

  /** Where a call stands; `current` is its local copy of the counter. */
  datatype Phase =
    | Entered
    | Seen(current: word)      // about to compare with the quota
    | Fitting(current: word)   // about to exchange
    | Granted
    | Refused

  /** The next step of a call: the counter and the phase it leaves. */
  function Advance(quota: word, counter: word, size: nat, phase: Phase): (word, Phase) {
    match phase
    case Entered => (counter, if quota == 0 then Granted else Seen(counter))
    case Seen(current) => (counter, if Add64(current, size) > quota then Refused else Fitting(current))
    case Fitting(current) => if counter == current then (Add64(current, size), Granted) else (counter, Seen(counter))
    case _ => (counter, phase)
  }

  predicate Finished(phase: Phase) {
    phase.Granted? || phase.Refused?
  }

  datatype Call = Call(size: nat, phase: Phase)

  datatype State = State(quota: word, counter: word, calls: map<nat, Call>)

  datatype Step = Invoke(thread: nat, size: nat) | Move(thread: nat) | Return(thread: nat) | Subtract(amount: nat)

  /** Requests are small enough not to wrap, and `remove` takes away no more than there is. */
  predicate Enabled(s: State, step: Step) {
    match step
    case Invoke(t, size) => t !in s.calls && (s.quota == 0 || s.quota + size < WORD_LIMIT)
    case Move(t) => t in s.calls && !Finished(s.calls[t].phase)
    case Return(t) => t in s.calls && Finished(s.calls[t].phase)
    case Subtract(amount) => s.quota == 0 || amount <= s.counter
  }

  function Take(s: State, step: Step): State
    requires Enabled(s, step)
  {
    match step
    case Invoke(t, size) => s.(calls := s.calls[t := Call(size, Entered)])
    case Move(t) =>
      var (counter, phase) := Advance(s.quota, s.counter, s.calls[t].size, s.calls[t].phase);
      s.(counter := counter, calls := s.calls[t := s.calls[t].(phase := phase)])
    case Return(t) => s.(calls := s.calls - {t})
    case Subtract(amount) => if s.quota == 0 then s else s.(counter := Sub64(s.counter, amount))
  }

  predicate IsRun(s: State, steps: seq<Step>)
    decreases |steps|, 0
  {
    steps != [] ==> IsRun(s, steps[..|steps| - 1]) && Enabled(After(s, steps[..|steps| - 1]), steps[|steps| - 1])
  }

  function After(s: State, steps: seq<Step>): State
    requires IsRun(s, steps)
    decreases |steps|, 1
  {
    if steps == [] then s else Take(After(s, steps[..|steps| - 1]), steps[|steps| - 1])
  }

  /** The counter keeps to the quota, and no local comparison ever wrapped. */
  ghost predicate Bounded(s: State) {
    && (s.quota != 0 ==> s.counter <= s.quota)
    && forall t | t in s.calls ::
         && (s.quota == 0 || s.quota + s.calls[t].size < WORD_LIMIT)
         && match s.calls[t].phase
            case Seen(current) => s.quota != 0 && current <= s.quota
            case Fitting(current) => s.quota != 0 && current + s.calls[t].size <= s.quota
            case _ => true
  }

  // ----- The atomic specification -----

  datatype Outcome = Undecided | Yes | No

  datatype Pending = Pending(size: nat, outcome: Outcome)

  datatype Atomic = Atomic(quota: nat, counter: nat, calls: map<nat, Pending>)

  datatype AtomicStep =
    | Begin(thread: nat, size: nat)
    | AddIfFits(thread: nat)
    | RefuseIfFull(thread: nat)
    | End(thread: nat)
    | Lower(amount: nat)
    | Stutter

  /** Plain arithmetic, one indivisible decision between the beginning and the end of each call. */
  predicate AtomicEnabled(a: Atomic, step: AtomicStep) {
    match step
    case Begin(t, size) => t !in a.calls
    case AddIfFits(t) => t in a.calls && a.calls[t].outcome == Undecided && (a.quota == 0 || a.counter + a.calls[t].size <= a.quota)
    case RefuseIfFull(t) => t in a.calls && a.calls[t].outcome == Undecided && a.quota != 0 && a.counter + a.calls[t].size > a.quota
    case End(t) => t in a.calls && a.calls[t].outcome != Undecided
    case Lower(amount) => a.quota == 0 || amount <= a.counter
    case Stutter => true
  }

  function AtomicTake(a: Atomic, step: AtomicStep): Atomic
    requires AtomicEnabled(a, step)
  {
    match step
    case Begin(t, size) => a.(calls := a.calls[t := Pending(size, Undecided)])
    case AddIfFits(t) =>
      a.(counter := if a.quota == 0 then a.counter else a.counter + a.calls[t].size,
         calls := a.calls[t := a.calls[t].(outcome := Yes)])
    case RefuseIfFull(t) => a.(calls := a.calls[t := a.calls[t].(outcome := No)])
    case End(t) => a.(calls := a.calls - {t})
    case Lower(amount) => if a.quota == 0 then a else a.(counter := a.counter - amount)
    case Stutter => a
  }

  // ----- Refinement -----

  /** A call is decided once it has read a value that leaves no room, even before it compares. */
  function Decision(quota: word, call: Call): Outcome {
    match call.phase
    case Granted => Yes
    case Refused => No
    case Seen(current) => if Add64(current, call.size) > quota then No else Undecided
    case _ => Undecided
  }

  function Abstraction(s: State): Atomic {
    Atomic(s.quota, s.counter, map t | t in s.calls :: Pending(s.calls[t].size, Decision(s.quota, s.calls[t])))
  }

  /** The atomic step that a step of the loop performs. */
  function Counterpart(s: State, step: Step): AtomicStep
    requires Enabled(s, step)
  {
    match step
    case Invoke(t, size) => Begin(t, size)
    case Return(t) => End(t)
    case Subtract(amount) => Lower(amount)
    case Move(t) =>
      var call := s.calls[t];
      var rereads := call.phase.Entered? || (call.phase.Fitting? && call.phase.current != s.counter);
      if call.phase.Seen? then Stutter
      else if !rereads || s.quota == 0 then AddIfFits(t)
      else if Add64(s.counter, call.size) > s.quota then RefuseIfFull(t)
      else Stutter
  }

  lemma StepKeepsBounded(s: State, step: Step)
    requires Bounded(s) && Enabled(s, step)
    ensures Bounded(Take(s, step))
  {
  }

  lemma AbstractionOfUpdate(s: State, t: nat, call: Call, counter: word)
    ensures Abstraction(s.(counter := counter, calls := s.calls[t := call]))
         == Abstraction(s).(counter := counter, calls := Abstraction(s).calls[t := Pending(call.size, Decision(s.quota, call))])
  {
  }

  lemma AbstractionAt(s: State, t: nat)
    ensures t in Abstraction(s).calls <==> t in s.calls
    ensures t in s.calls ==> Abstraction(s).calls[t] == Pending(s.calls[t].size, Decision(s.quota, s.calls[t]))
    ensures Abstraction(s).quota == s.quota && Abstraction(s).counter == s.counter
  {
  }

  lemma MoveRefines(s: State, t: nat)
    requires Bounded(s) && Enabled(s, Move(t))
    ensures AtomicEnabled(Abstraction(s), Counterpart(s, Move(t)))
    ensures AtomicTake(Abstraction(s), Counterpart(s, Move(t))) == Abstraction(Take(s, Move(t)))
  {
    hide Abstraction;
    var (counter, phase) := Advance(s.quota, s.counter, s.calls[t].size, s.calls[t].phase);
    AbstractionOfUpdate(s, t, s.calls[t].(phase := phase), counter);
    AbstractionAt(s, t);
    assert Abstraction(s).calls[t := Abstraction(s).calls[t]] == Abstraction(s).calls;
  }

  /** Every step of the loop is an enabled step of the specification, or no step at all. */
  lemma StepRefines(s: State, step: Step)
    requires Bounded(s) && Enabled(s, step)
    ensures AtomicEnabled(Abstraction(s), Counterpart(s, step))
    ensures AtomicTake(Abstraction(s), Counterpart(s, step)) == Abstraction(Take(s, step))
  {
    match step
    case Invoke(t, size) => AbstractionOfUpdate(s, t, Call(size, Entered), s.counter);
    case Move(t) => MoveRefines(s, t);
    case Return(t) => assert AtomicTake(Abstraction(s), End(t)).calls == Abstraction(Take(s, step)).calls;
    case Subtract(_) =>
  }

  predicate IsAtomicRun(a: Atomic, steps: seq<AtomicStep>)
    decreases |steps|, 0
  {
    steps != [] ==>
      IsAtomicRun(a, steps[..|steps| - 1]) && AtomicEnabled(AtomicAfter(a, steps[..|steps| - 1]), steps[|steps| - 1])
  }

  function AtomicAfter(a: Atomic, steps: seq<AtomicStep>): Atomic
    requires IsAtomicRun(a, steps)
    decreases |steps|, 1
  {
    if steps == [] then a else AtomicTake(AtomicAfter(a, steps[..|steps| - 1]), steps[|steps| - 1])
  }

  function Counterparts(s: State, steps: seq<Step>): (r: seq<AtomicStep>)
    requires IsRun(s, steps)
    ensures |r| == |steps|
    decreases |steps|
  {
    if steps == [] then []
    else
      var front := steps[..|steps| - 1];
      Counterparts(s, front) + [Counterpart(After(s, front), steps[|steps| - 1])]
  }

  /** Every run of the loop is, step by step, a run of the specification over the same counter values and answers. */
  lemma {:induction false} RunRefines(s: State, steps: seq<Step>)
    requires Bounded(s) && IsRun(s, steps)
    ensures Bounded(After(s, steps))
    ensures IsAtomicRun(Abstraction(s), Counterparts(s, steps))
    ensures AtomicAfter(Abstraction(s), Counterparts(s, steps)) == Abstraction(After(s, steps))
    decreases |steps|
  {
    hide Bounded, Abstraction, Counterpart, AtomicEnabled, AtomicTake, Enabled, Take;
    if steps == [] {
    } else {
      var front, last := steps[..|steps| - 1], steps[|steps| - 1];
      RunRefines(s, front);
      StepKeepsBounded(After(s, front), last);
      StepRefines(After(s, front), last);
      var all := Counterparts(s, steps);
      assert all[..|all| - 1] == Counterparts(s, front);
    }
  }

  // ----- Refusals are justified -----

  /** Somewhere along the run the counter held `value`. */
  ghost predicate Held(s: State, steps: seq<Step>, value: nat)
    requires IsRun(s, steps)
    decreases |steps|
  {
    After(s, steps).counter == value || (steps != [] && Held(s, steps[..|steps| - 1], value))
  }

  /** The thread is inside one and the same call all along the run. */
  predicate OneCall(s: State, steps: seq<Step>, t: nat)
    requires IsRun(s, steps)
    decreases |steps|
  {
    && t in After(s, steps).calls
    && (steps != [] ==> steps[|steps| - 1] != Return(t) && OneCall(s, steps[..|steps| - 1], t))
  }

  /** A value from the run under which the request does not fit. */
  ghost predicate Justified(s: State, steps: seq<Step>, size: nat)
    requires IsRun(s, steps)
  {
    exists value: nat :: Held(s, steps, value) && value + size > s.quota
  }

  lemma HeldLater(s: State, steps: seq<Step>)
    requires IsRun(s, steps) && steps != []
    ensures forall value: nat | Held(s, steps[..|steps| - 1], value) :: Held(s, steps, value)
  {
  }

  lemma StaysBounded(s: State, steps: seq<Step>)
    requires Bounded(s) && IsRun(s, steps)
    ensures Bounded(After(s, steps))
  {
    RunRefines(s, steps);
  }

  /** Where the values of a call that goes on come from: from the counter as it is, or from before. */
  lemma StepReads(s: State, step: Step, t: nat)
    requires Bounded(s) && Enabled(s, step) && t in s.calls && step != Return(t)
    ensures var after := Take(s, step);
            && after.quota == s.quota && t in after.calls && after.calls[t].size == s.calls[t].size
            && match after.calls[t].phase
               case Seen(current) => after.calls[t].phase == s.calls[t].phase || current == after.counter
               case Fitting(current) => after.calls[t].phase == s.calls[t].phase || s.calls[t].phase == Seen(current)
               case Refused => s.calls[t].phase.Refused? || (s.calls[t].phase.Seen? && s.calls[t].phase.current + s.calls[t].size > s.quota)
               case _ => true
  {
  }

  /** What a call has in hand was read during the call, and a refusal rests on such a value. */
  lemma {:induction false} RefusalIsJustified(s: State, steps: seq<Step>, t: nat)
    requires Bounded(s) && IsRun(s, steps) && OneCall(s, steps, t) && t in s.calls && s.calls[t].phase == Entered
    ensures After(s, steps).quota == s.quota
    ensures match After(s, steps).calls[t].phase
            case Seen(current) => Held(s, steps, current)
            case Fitting(current) => Held(s, steps, current)
            case Refused => Justified(s, steps, After(s, steps).calls[t].size)
            case _ => true
    decreases |steps|
  {
    hide Take, Enabled, Bounded;
    if steps == [] {
    } else {
      var front, last := steps[..|steps| - 1], steps[|steps| - 1];
      RefusalIsJustified(s, front, t);
      StaysBounded(s, front);
      HeldLater(s, steps);
      StepReads(After(s, front), last, t);
      var before, after := After(s, front).calls[t], After(s, steps).calls[t];
      if after.phase.Refused? {
        if before.phase.Seen? {
          assert Held(s, steps, before.phase.current);
        } else {
          var value: nat :| Held(s, front, value) && value + after.size > s.quota;
          assert Held(s, steps, value);
        }
      }
    }
  }

  // ----- Lock-free progress -----

  /** The thread's exchange fails in this step. */
  predicate FailsExchange(s: State, step: Step, t: nat) {
    step == Move(t) && t in s.calls && s.calls[t].phase.Fitting? && s.calls[t].phase.current != s.counter
  }

  /** Somebody else changes the value of the counter in this step. */
  predicate ChangedByOther(s: State, step: Step, t: nat)
    requires Enabled(s, step)
  {
    step != Move(t) && Take(s, step).counter != s.counter
  }

  function Failures(s: State, steps: seq<Step>, t: nat): nat
    requires IsRun(s, steps)
    decreases |steps|
  {
    if steps == [] then 0
    else
      var front, last := steps[..|steps| - 1], steps[|steps| - 1];
      Failures(s, front, t) + if FailsExchange(After(s, front), last, t) then 1 else 0
  }

  function ChangesByOthers(s: State, steps: seq<Step>, t: nat): nat
    requires IsRun(s, steps)
    decreases |steps|
  {
    if steps == [] then 0
    else
      var front, last := steps[..|steps| - 1], steps[|steps| - 1];
      ChangesByOthers(s, front, t) + if ChangedByOther(After(s, front), last, t) then 1 else 0
  }

  /** The call is about to fail: its copy of the counter is out of date. */
  predicate Outdated(s: State, t: nat) {
    && t in s.calls
    && match s.calls[t].phase
       case Seen(current) => current != s.counter
       case Fitting(current) => current != s.counter
       case _ => false
  }

  /**
   Within one call, each failed exchange is paid for by a different change that another thread made to the
   counter during the call; a copy that is out of date has a change of its own to its credit.
   */
  lemma {:induction false} FailuresAreBounded(s: State, steps: seq<Step>, t: nat)
    requires IsRun(s, steps) && OneCall(s, steps, t) && t in s.calls && s.calls[t].phase == Entered
    ensures Failures(s, steps, t) + (if Outdated(After(s, steps), t) then 1 else 0) <= ChangesByOthers(s, steps, t)
    decreases |steps|
  {
    if steps == [] {
    } else {
      var front, last := steps[..|steps| - 1], steps[|steps| - 1];
      FailuresAreBounded(s, front, t);
      assert After(s, steps) == Take(After(s, front), last);
    }
  }
}
