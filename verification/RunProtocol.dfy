/** One conversation being run and stopped from several threads (qi_agent/agents/agent_manager.py,
    `run`; qi_agent/context/context.py, the control plane): managers that call `run`, the worker
    thread each starts, and callers of `stop`, interleaved at every shared access. */
module RunProtocol {
  import opened Basics

  datatype Status = IDLE | RUNNING | COMPLETED | FAILED | STOPPED

  /** What an agent's chat yields: an answer, an `Exception`, or anything else that is thrown, which
      no handler of `Exception` catches. */
  datatype Outcome = Value(text: string) | Error(text: string) | Thrown

  /** On which of its two paths a call of `run` gives its agent back. */
  datatype End = AsStopped | AsDone

  /** Where a call of `run` is. `Begin1`/`Begin2` are the two writes of `begin_chat`; `Acquire` waits
      for a slot, with which `Make` makes the agent; `ReadStop`/`ReadDone` are the two tests after
      the wait; `Grace` waits for the worker's own end; then the slot is released and the context
      persisted. A call is `Abandoned` when the grace period has elapsed, and `Unstarted` when the
      worker's thread could not be started. */
  datatype Manager =
    | Check | Clear | Begin1 | Begin2 | Acquire | Make | Spawn | Wait | ReadStop | ReadDone | Grace
    | Release(end: End)
    | Persist(end: End)
    | ReturnedStopped
    | Returned(text: string)
    | Raised
    | Abandoned
    | Unstarted

  /** Where its worker is: `begin_chat` again, behind which a listener to the start of the turn may
      raise, outside the handler that records a failure; the loop, the last stop test, the two writes
      of `complete_chat` or `fail_chat`, the result box, and the worker's own end signal. */
  datatype Worker =
    | NotStarted | WBegin1 | WBegin2 | WLoop
    | WTest(o: Outcome)
    | WStatus(o: Outcome)
    | WDone(o: Outcome)
    | WBox(o: Outcome)
    | WSignal
    | Ended

  /** A call of `stop`: the flag, the test of the status, the status, the done event. Between the flag
      and the test a listener may raise, and the rest is not done. */
  datatype Stopper = SFlag | STest | SStatus | SDone | SEnded | SDied

  datatype Waited = Unknown | Stop | Done | Timeout

  /** Why a signal may be missing: a begin_chat of this run wiped out the done signal of a stop; the
      chat died before it recorded its end; a stop died between its flag and its signal. Each only
      until the done event is set. */
  datatype Missing = Missing(lost: bool, chatDied: bool, stopDied: bool)

  const NOTHING := Missing(false, false, false)

  /** What is remembered of a run: what the worker produced, how the wait ended, whether a stop set
      the flag since this run cleared it, whether its own chat recorded its end, whether the run has
      had the context to itself, which signals are missing, and whether another thread set the done
      event since this run cleared the flag. */
  datatype Past = Past(
    produced: Option<Outcome>, waited: Waited, stopSince: bool, recorded: bool, alone: bool,
    missing: Missing, signalled: bool)

  datatype Run = Run(m: Manager, w: Worker, box: Option<Outcome>, past: Past)

  /** What all threads of one conversation share. */
  datatype Shared = Shared(status: Status, stopFlag: bool, done: bool)

  datatype State = State(shared: Shared, runs: seq<Run>, stops: seq<Stopper>)

  const INITIAL := State(Shared(IDLE, false, false), [], [])

  const NEW_RUN := Run(Check, NotStarted, None, Past(None, Unknown, false, false, false, NOTHING, false))

  /** `ok` decides what the environment may decide: whether making the agent and starting the thread
      succeed, whether the grace period goes on, whether persisting succeeds; and whether no listener
      to a stop raises. */
  datatype Step =
    | NewRun
    | NewStop
    | Managing(i: nat, ok: bool)
    | Working(i: nat, outcome: Outcome)
    | Stopping(k: nat, ok: bool)

  predicate Active(m: Manager) {
    m.Clear? || m.Begin1? || m.Begin2? || m.Acquire? || m.Make? || m.Spawn? || m.Wait?
    || m.ReadStop? || m.ReadDone? || m.Grace?
  }

  predicate Live(w: Worker) { !w.NotStarted? && !w.Ended? }

  predicate InFlight(p: Stopper) { p.STest? || p.SStatus? || p.SDone? }

  /** No other run of this context is under way, no other worker is left over, no stop is
      half done. */
  predicate Quiet(s: State, i: nat) {
    && (forall j :: 0 <= j < |s.runs| && j != i ==> !Active(s.runs[j].m) && !Live(s.runs[j].w))
    && forall k :: 0 <= k < |s.stops| ==> !InFlight(s.stops[k])
  }

  /** The first write of begin_chat; the signal of a stop may be wiped out by it. */
  function ClearDone(r: Run, sh: Shared): (Run, Shared) {
    var wiped := sh.done && sh.stopFlag && r.past.signalled;
    var missing := r.past.missing.(lost := r.past.missing.lost || wiped);
    (r.(past := r.past.(missing := missing)), sh.(done := false))
  }

  predicate Waiting(m: Manager) { m.Wait? || m.ReadStop? || m.ReadDone? || m.Grace? }

  /** One step of `run`. `quiet` is whether the run has the context to itself right now. */
  function Manage(r: Run, sh: Shared, quiet: bool, ok: bool): (Run, Shared) {
    if r.m.Check? || (Active(r.m) && !Waiting(r.m)) then Launch(r, sh, quiet, ok)
    else if Waiting(r.m) then Await(r, sh, ok)
    else (Leave(r, ok), sh)
  }

  /** From the gate to the worker's start. */
  function Launch(r: Run, sh: Shared, quiet: bool, ok: bool): (Run, Shared) {
    match r.m
    case Check => (r.(m := if sh.status == RUNNING then Raised else Clear), sh)
    case Clear =>
      (r.(m := Begin1, past := Past(r.past.produced, r.past.waited, false, false, quiet, NOTHING, false)),
       sh.(stopFlag := false))
    case Begin1 => var (r1, sh1) := ClearDone(r, sh); (r1.(m := Begin2), sh1)
    case Begin2 => (r.(m := Acquire), sh.(status := RUNNING))
    case Acquire => (r.(m := Make), sh)
    case Make => (r.(m := if ok then Spawn else Raised), sh)
    case Spawn => (if ok then r.(m := Wait, w := WBegin1) else r.(m := Unstarted), sh)
    case _ => (r, sh)
  }

  /** From the wait to the decision how to leave. */
  function Await(r: Run, sh: Shared, ok: bool): (Run, Shared) {
    match r.m
    case Wait => (if sh.done then r.(m := ReadStop) else r, sh)
    case ReadStop =>
      (if sh.stopFlag then r.(m := Release(AsStopped), past := r.past.(waited := Stop))
       else r.(m := ReadDone),
       sh)
    case ReadDone => (r.(m := Grace, past := r.past.(waited := if sh.done then Done else Timeout)), sh)
    case Grace =>
      (if r.w.Ended? then r.(m := Release(AsDone))
       else if ok then r
       else r.(m := Abandoned), sh)
    case _ => (r, sh)
  }

  /** From the release of the slot to the return. */
  function Leave(r: Run, ok: bool): Run {
    match r.m
    case Release(end) => r.(m := Persist(end))
    case Persist(AsStopped) => r.(m := if ok then ReturnedStopped else Raised)
    case Persist(AsDone) =>
      r.(m := if ok && r.box.Some? && r.box.value.Value? then Returned(r.box.value.text) else Raised)
    case _ => r
  }

  /** The chat ends without a record; unless someone has signalled, that signal is missing. */
  function Died(r: Run, w: Worker, done: bool, o: Outcome): Run {
    var missing := r.past.missing.(chatDied := r.past.missing.chatDied || !done);
    r.(w := w, past := r.past.(produced := Some(o), missing := missing))
  }

  /** One step of the worker; `outcome` is what its chat yields when it ends here. */
  function Work(r: Run, sh: Shared, outcome: Outcome): (Run, Shared) {
    match r.w
    case WBegin1 => var (r1, sh1) := ClearDone(r, sh); (r1.(w := WBegin2), sh1)
    case WBegin2 =>
      (match outcome
       case Value(_) => r.(w := WLoop)
       case Error(_) => Died(r, WBox(outcome), sh.done, outcome)
       case Thrown => Died(r, WSignal, sh.done, outcome),
       sh.(status := RUNNING))
    case WLoop =>
      (match outcome
       case Value(_) => r.(w := WTest(outcome), past := r.past.(produced := Some(outcome)))
       case Error(_) => r.(w := WStatus(outcome), past := r.past.(produced := Some(outcome)))
       case Thrown => Died(r, WSignal, sh.done, outcome),
       sh)
    case WTest(o) => (r.(w := if sh.stopFlag then WBox(o) else WStatus(o)), sh)
    case WStatus(o) =>
      (r.(w := WDone(o)), sh.(status := if o.Value? then COMPLETED else FAILED))
    case WDone(o) => (r.(w := WBox(o), past := r.past.(recorded := true, missing := NOTHING)), sh.(done := true))
    case WBox(o) => (r.(w := WSignal, box := Some(o)), sh)
    case WSignal => (r.(w := Ended), sh)
    case _ => (r, sh)
  }

  /** Another run passing the gate ends everyone else's exclusive use. */
  function Joined(runs: seq<Run>): seq<Run> { Map(runs, (r: Run) => r.(past := r.past.(alone := false))) }

  function Flagged(runs: seq<Run>): seq<Run> { Map(runs, (r: Run) => r.(past := r.past.(stopSince := true))) }

  /** The done event is set, by another thread: no earlier signal is missing any more. */
  function Signalled(runs: seq<Run>): seq<Run> {
    Map(runs, (r: Run) => r.(past := r.past.(missing := NOTHING, signalled := true)))
  }

  /** Whether this run still has to hear of a stop. A done event that it is about to clear may be
      that of an earlier chat. */
  predicate Unheard(r: Run, done: bool) { !done || (r.m.Begin1? && !r.past.signalled) }

  function WithDeadStop(r: Run, done: bool): Run {
    var died := r.past.missing.stopDied || Unheard(r, done);
    r.(past := r.past.(missing := r.past.missing.(stopDied := died)))
  }

  function DeadStop(runs: seq<Run>, done: bool): seq<Run> {
    Map(runs, (r: Run) => WithDeadStop(r, done))
  }

  function ManagerStep(s: State, i: nat, ok: bool): State
    requires i < |s.runs|
  {
    var (r, shared) := Manage(s.runs[i], s.shared, Quiet(s, i), ok);
    State(shared, (if s.runs[i].m.Check? && r.m.Clear? then Joined(s.runs) else s.runs)[i := r],
          s.stops)
  }

  function WorkerStep(s: State, i: nat, outcome: Outcome): State
    requires i < |s.runs|
  {
    var (r, shared) := Work(s.runs[i], s.shared, outcome);
    State(shared, (if s.runs[i].w.WDone? then Signalled(s.runs) else s.runs)[i := r], s.stops)
  }

  function StopperStep(s: State, k: nat, ok: bool): State
    requires k < |s.stops|
  {
    match s.stops[k]
    case SFlag =>
      State(s.shared.(stopFlag := true), Flagged(s.runs), s.stops[k := STest])
    case STest =>
      if !ok then State(s.shared, DeadStop(s.runs, s.shared.done), s.stops[k := SDied])
      else s.(stops := s.stops[k := if s.shared.status == RUNNING then SStatus else SDone])
    case SStatus => State(s.shared.(status := STOPPED), s.runs, s.stops[k := SDone])
    case SDone => State(s.shared.(done := true), Signalled(s.runs), s.stops[k := SEnded])
    case _ => s
  }

  function Next(s: State, step: Step): State {
    match step
    case NewRun => s.(runs := s.runs + [NEW_RUN])
    case NewStop => s.(stops := s.stops + [SFlag])
    case Managing(i, ok) => if i < |s.runs| then ManagerStep(s, i, ok) else s
    case Working(i, outcome) => if i < |s.runs| then WorkerStep(s, i, outcome) else s
    case Stopping(k, ok) => if k < |s.stops| then StopperStep(s, k, ok) else s
  }

  function RunAll(steps: seq<Step>): State {
    if steps == [] then INITIAL else Next(RunAll(steps[..|steps| - 1]), steps[|steps| - 1])
  }

  // ---- Safety in every interleaving ----------------------------------------------------------

  /** Past clearing the flag and not yet back. */
  predicate Cleared(m: Manager) { Active(m) && !m.Clear? }

  predicate Early(w: Worker) { w.NotStarted? || w.WBegin1? || w.WBegin2? || w.WLoop? }

  /** What a worker still carries is what its chat produced; before its manager has started
      it and before its chat has ended there is nothing. */
  ghost predicate Carries(r: Run) {
    && (r.w.WTest? || r.w.WStatus? || r.w.WDone? || r.w.WBox? ==> r.past.produced == Some(r.w.o))
    && (r.box.Some? ==> r.past.produced == r.box)
    && (Early(r.w) ==> r.box.None? && !r.past.recorded)
    && (r.m.Check? || (Active(r.m) && !Waiting(r.m)) ==> r.w.NotStarted?)
  }

  predicate LeavesAs(m: Manager, end: End) { m == Release(end) || m == Persist(end) }

  /** What a run may report, given the stop flag. */
  ghost predicate Reports(stopFlag: bool, r: Run) {
    && (Cleared(r.m) && stopFlag ==> r.past.stopSince)
    && (r.m.Returned? ==> r.w.Ended? && r.past.produced == Some(Value(r.m.text)))
    && (r.past.waited.Stop? ==> r.past.stopSince)
    && (r.m.ReturnedStopped? || LeavesAs(r.m, AsStopped) ==> r.past.waited.Stop?)
    && (LeavesAs(r.m, AsDone) ==> r.w.Ended?)
    && (r.m.Check? || (Active(r.m) && !r.m.Grace?) ==> r.past.waited.Unknown?)
  }

  ghost predicate RunSafe(stopFlag: bool, r: Run) { Carries(r) && Reports(stopFlag, r) }

  ghost predicate Safe(s: State) {
    forall i :: 0 <= i < |s.runs| ==> RunSafe(s.shared.stopFlag, s.runs[i])
  }

  lemma {:induction false} AwaitIsSafe(r: Run, sh: Shared, ok: bool)
    requires RunSafe(sh.stopFlag, r)
    ensures RunSafe(sh.stopFlag, Await(r, sh, ok).0) && Await(r, sh, ok).1 == sh
  {
    match r.m
    case Wait =>
    case ReadStop =>
    case ReadDone =>
    case Grace =>
    case _ =>
  }

  lemma {:induction false} ManageIsSafe(r: Run, sh: Shared, quiet: bool, ok: bool)
    requires RunSafe(sh.stopFlag, r)
    ensures var (r1, sh1) := Manage(r, sh, quiet, ok);
            RunSafe(sh1.stopFlag, r1) && (sh1.stopFlag ==> sh.stopFlag)
  {
    if r.m.Check? || (Active(r.m) && !Waiting(r.m)) {
    } else if Waiting(r.m) {
      AwaitIsSafe(r, sh, ok);
    }
  }

  lemma {:induction false} WorkCarries(r: Run, sh: Shared, outcome: Outcome)
    requires Carries(r)
    ensures Carries(Work(r, sh, outcome).0)
  {
  }

  lemma {:induction false} ManagingIsSafe(s: State, i: nat, ok: bool)
    requires Safe(s) && i < |s.runs|
    ensures Safe(ManagerStep(s, i, ok))
  {
    ManageIsSafe(s.runs[i], s.shared, Quiet(s, i), ok);
  }

  lemma {:induction false} WorkingIsSafe(s: State, i: nat, outcome: Outcome)
    requires Safe(s) && i < |s.runs|
    ensures Safe(WorkerStep(s, i, outcome))
  {
    WorkCarries(s.runs[i], s.shared, outcome);
  }

  lemma {:induction false} NextIsSafe(s: State, step: Step)
    requires Safe(s)
    ensures Safe(Next(s, step))
  {
    match step {
      case Managing(i, ok) =>
        if i < |s.runs| {
          ManagingIsSafe(s, i, ok);
        }
      case Working(i, outcome) =>
        if i < |s.runs| {
          WorkingIsSafe(s, i, outcome);
        }
      case Stopping(k, ok) =>
      case NewRun =>
        assert RunSafe(s.shared.stopFlag, NEW_RUN);
      case _ =>
    }
  }

  /** In every interleaving, whatever runs, leftover workers and stops there are: `run` returns
      normally only the text its own worker produced, and the stopped text only if a stop set
      the flag after this very run had cleared it. */
  lemma {:induction false} RunReturnsItsOwn(steps: seq<Step>)
    ensures Safe(RunAll(steps))
    ensures forall i :: 0 <= i < |RunAll(steps).runs| ==>
              var r := RunAll(steps).runs[i];
              && (r.m.Returned? ==> r.past.produced == Some(Value(r.m.text)))
              && (r.m.ReturnedStopped? ==> r.past.stopSince)
  {
    if steps != [] {
      RunReturnsItsOwn(steps[..|steps| - 1]);
      NextIsSafe(RunAll(steps[..|steps| - 1]), steps[|steps| - 1]);
    }
  }

  // ---- A run that has the context to itself ----------------------------------------------------

  predicate AnyInFlight(stops: seq<Stopper>) {
    exists k :: 0 <= k < |stops| && InFlight(stops[k])
  }

  /** While a run is alone: the flag is up whenever a stop is half done; the done event is
      explained by a stop's signal or by the run's own chat; what its chat recorded stays; a
      stop's signal is either there, still to come, or missing; and a chat that has ended left its
      record, its death, or the flag that it heeded. */
  ghost predicate AloneRun(r: Run, sh: Shared, inFlight: bool) {
    && (inFlight ==> sh.stopFlag)
    && (!r.m.Begin1? && sh.done ==> (sh.stopFlag && r.past.signalled) || r.past.recorded)
    && (r.m.ReadStop? ==> sh.stopFlag || r.past.recorded)
    && (r.m.ReadDone? || r.m.Grace? ==> r.past.recorded)
    && (r.past.recorded ==> sh.done)
    && (r.m.Grace? ==> r.past.waited.Done?)
    && Hears(r, sh, inFlight)
  }

  ghost predicate Hears(r: Run, sh: Shared, inFlight: bool) {
    && (r.past.missing.lost || r.past.missing.chatDied ==> !sh.done && !r.m.Begin1?)
    && (r.past.missing.stopDied ==> !sh.done || r.m.Begin1?)
    && (sh.stopFlag ==>
          (sh.done && (r.m.Begin1? ==> r.past.signalled))
          || r.past.missing.lost || r.past.missing.stopDied || inFlight)
    && (!Early(r.w) && !r.w.WTest? && !r.w.WStatus? && !r.w.WDone? ==>
          r.past.recorded || sh.stopFlag || r.past.missing.chatDied)
  }

  lemma {:induction false} AloneLaunch(r: Run, sh: Shared, inFlight: bool, quiet: bool, ok: bool)
    requires Carries(r) && (r.m.Check? || (Active(r.m) && !Waiting(r.m)))
    requires r.past.alone && Cleared(r.m) ==> AloneRun(r, sh, inFlight)
    requires r.m.Clear? && quiet ==> !inFlight
    ensures var (r1, sh1) := Launch(r, sh, quiet, ok);
            r1.past.alone && Cleared(r1.m) ==> AloneRun(r1, sh1, inFlight)
  {
  }

  lemma {:induction false} AloneAwait(r: Run, sh: Shared, inFlight: bool, ok: bool)
    requires r.past.alone && Cleared(r.m) ==> AloneRun(r, sh, inFlight)
    requires Waiting(r.m)
    ensures var r1 := Await(r, sh, ok).0;
            && (r1.past.alone && Cleared(r1.m) ==> AloneRun(r1, sh, inFlight))
            && r1.past.alone == r.past.alone && r1.past.recorded == r.past.recorded
            && (r.past.alone && r1.past.waited != r.past.waited ==>
                  !r1.past.waited.Timeout? && (r1.past.waited.Done? ==> r1.past.recorded))
  {
    match r.m
    case Wait =>
    case ReadStop =>
    case ReadDone =>
    case Grace =>
    case _ =>
  }

  lemma {:induction false} AloneWork(r: Run, sh: Shared, inFlight: bool, outcome: Outcome)
    requires Carries(r) && AloneRun(r, sh, inFlight) && Cleared(r.m)
    ensures var (r1, sh1) := Work(r, sh, outcome);
            AloneRun(r1, sh1, inFlight) && r1.m == r.m
  {
    match r.w
    case WBegin1 =>
    case WTest(o) =>
    case WStatus(o) =>
    case WDone(o) =>
    case _ =>
  }

  ghost predicate OthersAway(s: State, i: nat) {
    forall j :: 0 <= j < |s.runs| && j != i ==> !Active(s.runs[j].m) && !Live(s.runs[j].w)
  }

  ghost predicate Alone(s: State) {
    forall i :: 0 <= i < |s.runs| && s.runs[i].past.alone && Cleared(s.runs[i].m) ==>
      AloneRun(s.runs[i], s.shared, AnyInFlight(s.stops)) && OthersAway(s, i)
  }

  /** How a run that was alone ended its wait. */
  ghost predicate Outcomes(s: State) {
    forall i :: 0 <= i < |s.runs| ==> RunOutcome(s.runs[i])
  }

  lemma {:induction false} ManagerKeepsOwnRun(s: State, i: nat, ok: bool)
    requires Safe(s) && Alone(s) && i < |s.runs|
    requires var r := ManagerStep(s, i, ok).runs[i]; r.past.alone && Cleared(r.m)
    ensures var t := ManagerStep(s, i, ok);
            AloneRun(t.runs[i], t.shared, AnyInFlight(t.stops)) && OthersAway(t, i)
  {
    var r := s.runs[i];
    assert RunSafe(s.shared.stopFlag, r);
    if r.m.Check? || (Active(r.m) && !Waiting(r.m)) {
      AloneLaunch(r, s.shared, AnyInFlight(s.stops), Quiet(s, i), ok);
    } else if Waiting(r.m) {
      AloneAwait(r, s.shared, AnyInFlight(s.stops), ok);
    }
    assert OthersAway(s, i);
  }

  lemma {:induction false} ManagerKeepsAlone(s: State, i: nat, ok: bool)
    requires Safe(s) && Alone(s) && i < |s.runs|
    ensures Alone(ManagerStep(s, i, ok))
  {
    var t := ManagerStep(s, i, ok);
    var r := s.runs[i];
    assert RunSafe(s.shared.stopFlag, r);
    forall j | 0 <= j < |t.runs| && t.runs[j].past.alone && Cleared(t.runs[j].m)
      ensures AloneRun(t.runs[j], t.shared, AnyInFlight(t.stops)) && OthersAway(t, j)
    {
      if j == i {
        ManagerKeepsOwnRun(s, i, ok);
      } else {
        assert t.runs[j] == s.runs[j] && OthersAway(s, j);
        assert !Active(r.m);
        assert t.shared == s.shared;
      }
    }
  }

  lemma {:induction false} WorkerKeepsAlone(s: State, i: nat, outcome: Outcome)
    requires Safe(s) && Alone(s) && i < |s.runs|
    ensures Alone(WorkerStep(s, i, outcome))
  {
    var t := WorkerStep(s, i, outcome);
    assert RunSafe(s.shared.stopFlag, s.runs[i]);
    forall j | 0 <= j < |t.runs| && t.runs[j].past.alone && Cleared(t.runs[j].m)
      ensures AloneRun(t.runs[j], t.shared, AnyInFlight(t.stops)) && OthersAway(t, j)
    {
      assert s.runs[j].past.alone && Cleared(s.runs[j].m);
      assert OthersAway(s, j);
      if j == i {
        AloneWork(s.runs[i], s.shared, AnyInFlight(s.stops), outcome);
      } else {
        assert !Live(s.runs[i].w);
        assert t == s;
      }
    }
  }

  lemma {:induction false} StopperKeepsAlone(s: State, k: nat, ok: bool)
    requires Alone(s) && k < |s.stops|
    ensures Alone(StopperStep(s, k, ok))
  {
    var t := StopperStep(s, k, ok);
    var before, after := AnyInFlight(s.stops), AnyInFlight(t.stops);
    assert InFlight(t.stops[k]) ==> after;
    assert (s.stops[k].STest? && ok) || s.stops[k].SStatus? ==> InFlight(t.stops[k]);
    if after && !InFlight(t.stops[k]) {
      var l :| 0 <= l < |t.stops| && InFlight(t.stops[l]);
      assert InFlight(s.stops[l]);
    }
    forall j | 0 <= j < |t.runs| && t.runs[j].past.alone && Cleared(t.runs[j].m)
      ensures AloneRun(t.runs[j], t.shared, after) && OthersAway(t, j)
    {
      assert OthersAway(s, j);
    }
  }

  lemma {:induction false} NextKeepsAlone(s: State, step: Step)
    requires Safe(s) && Alone(s)
    ensures Alone(Next(s, step))
  {
    match step {
      case Managing(i, ok) =>
        if i < |s.runs| {
          ManagerKeepsAlone(s, i, ok);
        }
      case Working(i, outcome) =>
        if i < |s.runs| {
          WorkerKeepsAlone(s, i, outcome);
        }
      case Stopping(k, ok) =>
        if k < |s.stops| {
          StopperKeepsAlone(s, k, ok);
        }
      case NewRun =>
      case NewStop =>
        var t := Next(s, step);
        assert AnyInFlight(t.stops) == AnyInFlight(s.stops) by {
          assert forall k :: 0 <= k < |s.stops| ==> t.stops[k] == s.stops[k];
        }
    }
  }

  ghost predicate RunOutcome(r: Run) {
    r.past.alone ==> !r.past.waited.Timeout? && (r.past.waited.Done? ==> r.past.recorded)
  }

  lemma {:induction false} ManagerKeepsOutcome(s: State, i: nat, ok: bool)
    requires Safe(s) && Alone(s) && i < |s.runs| && RunOutcome(s.runs[i])
    ensures RunOutcome(ManagerStep(s, i, ok).runs[i])
  {
    var r := s.runs[i];
    assert RunSafe(s.shared.stopFlag, r);
    if Waiting(r.m) {
      AloneAwait(r, s.shared, AnyInFlight(s.stops), ok);
    }
  }

  lemma {:induction false} WorkerKeepsOutcome(s: State, i: nat, outcome: Outcome)
    requires Safe(s) && i < |s.runs| && RunOutcome(s.runs[i])
    ensures RunOutcome(WorkerStep(s, i, outcome).runs[i])
  {
    assert RunSafe(s.shared.stopFlag, s.runs[i]);
  }

  /** Other threads change nothing of how a run ended its wait. */
  lemma {:induction false} OutcomeIsOwn(s: State, step: Step, j: nat)
    requires j < |s.runs| && RunOutcome(s.runs[j])
    requires !(step.Managing? && step.i == j) && !(step.Working? && step.i == j)
    ensures j < |Next(s, step).runs| && RunOutcome(Next(s, step).runs[j])
  {
    match step
    case Managing(i, ok) =>
    case Working(i, outcome) =>
    case Stopping(k, ok) =>
    case _ =>
  }

  lemma {:induction false} NextKeepsOutcomes(s: State, step: Step)
    requires Safe(s) && Alone(s) && Outcomes(s)
    ensures Outcomes(Next(s, step))
  {
    var t := Next(s, step);
    forall j | 0 <= j < |t.runs|
      ensures RunOutcome(t.runs[j])
    {
      if j < |s.runs| {
        assert RunOutcome(s.runs[j]);
        if step.Managing? && step.i == j {
          ManagerKeepsOutcome(s, j, step.ok);
        } else if step.Working? && step.i == j {
          WorkerKeepsOutcome(s, j, step.outcome);
        } else {
          OutcomeIsOwn(s, step, j);
        }
      } else {
        assert t.runs[j] == NEW_RUN;
      }
    }
  }

  // ---- How the context is marked meanwhile --------------------------------------------------------

  predicate AnySignalling(stops: seq<Stopper>) {
    exists k :: 0 <= k < |stops| && stops[k].SDone?
  }

  /** While a run is alone the context is marked as running until an end is signalled. */
  ghost predicate RunMarked(r: Run, sh: Shared, signalling: bool) {
    !r.m.Begin1? && !r.m.Begin2? && !r.w.WBegin2? && sh.status != RUNNING ==>
      sh.done || signalling || r.w.WDone?
  }

  ghost predicate Marked(s: State) {
    forall i :: 0 <= i < |s.runs| && s.runs[i].past.alone && Cleared(s.runs[i].m) ==>
      RunMarked(s.runs[i], s.shared, AnySignalling(s.stops))
  }

  lemma {:induction false} StopperKeepsMarked(s: State, k: nat, ok: bool)
    requires Marked(s) && k < |s.stops|
    ensures Marked(StopperStep(s, k, ok))
  {
    var t := StopperStep(s, k, ok);
    assert s.stops[k].SStatus? ==> t.stops[k].SDone?;
    if AnySignalling(s.stops) && !s.stops[k].SDone? {
      var l :| 0 <= l < |s.stops| && s.stops[l].SDone?;
      assert t.stops[l] == s.stops[l];
    }
    forall j | 0 <= j < |t.runs| && t.runs[j].past.alone && Cleared(t.runs[j].m)
      ensures RunMarked(t.runs[j], t.shared, AnySignalling(t.stops))
    {
      assert RunMarked(s.runs[j], s.shared, AnySignalling(s.stops));
    }
  }

  lemma {:induction false} ManagerKeepsMarked(s: State, i: nat, ok: bool)
    requires Safe(s) && Alone(s) && Marked(s) && i < |s.runs|
    ensures Marked(ManagerStep(s, i, ok))
  {
    var t := ManagerStep(s, i, ok);
    assert RunSafe(s.shared.stopFlag, s.runs[i]);
    forall j | 0 <= j < |t.runs| && t.runs[j].past.alone && Cleared(t.runs[j].m)
      ensures RunMarked(t.runs[j], t.shared, AnySignalling(t.stops))
    {
      if j != i {
        assert OthersAway(s, j);
        assert t.shared == s.shared;
        assert RunMarked(s.runs[j], s.shared, AnySignalling(s.stops));
      }
    }
  }

  lemma {:induction false} NextKeepsMarked(s: State, step: Step)
    requires Safe(s) && Alone(s) && Marked(s)
    ensures Marked(Next(s, step))
  {
    match step {
      case Managing(i, ok) =>
        if i < |s.runs| {
          ManagerKeepsMarked(s, i, ok);
        }
      case Working(i, outcome) =>
      case Stopping(k, ok) =>
        if k < |s.stops| {
          StopperKeepsMarked(s, k, ok);
        }
      case NewRun =>
      case NewStop =>
        assert AnySignalling(Next(s, step).stops) == AnySignalling(s.stops) by {
          assert forall k :: 0 <= k < |s.stops| ==> Next(s, step).stops[k] == s.stops[k];
        }
    }
  }

  /** A run that waits for a signal that nobody is left to give: its worker has ended, every stop has
      ended or died, and no other thread of the context is under way. */
  ghost predicate Stuck(s: State, i: nat) {
    && i < |s.runs| && s.runs[i].m.Wait? && s.runs[i].w.Ended? && OthersAway(s, i)
    && StopsOver(s) && !s.shared.done && s.shared.status == RUNNING
  }

  /** A run that has the context to itself (no other run under way, no leftover worker and no
      half-done stop when it clears the flag, and no other run passing the gate later) never
      times out of its wait, and finding it done means that its own chat recorded its end.
      When its worker has ended and every stop has finished or died, it is stuck exactly if a
      signal is missing: a begin_chat of its own wiped out that of a stop, its chat died before it
      recorded its end, or a stop died behind its flag. */
  lemma {:induction false} AloneRunMeansDone(steps: seq<Step>)
    ensures Safe(RunAll(steps)) && Alone(RunAll(steps)) && Outcomes(RunAll(steps))
    ensures Marked(RunAll(steps))
    ensures forall i :: 0 <= i < |RunAll(steps).runs| ==>
              var s, r := RunAll(steps), RunAll(steps).runs[i];
              && (r.past.alone ==> !r.past.waited.Timeout? && (r.past.waited.Done? ==> r.past.recorded))
              && (r.past.alone && r.m.Wait? && r.w.Ended? && StopsOver(s) ==>
                    (Stuck(s, i) <==> r.past.missing != NOTHING) && (Stuck(s, i) <==> !s.shared.done))
  {
    RunReturnsItsOwn(steps);
    if steps != [] {
      AloneRunMeansDone(steps[..|steps| - 1]);
      NextKeepsAlone(RunAll(steps[..|steps| - 1]), steps[|steps| - 1]);
      NextKeepsOutcomes(RunAll(steps[..|steps| - 1]), steps[|steps| - 1]);
      NextKeepsMarked(RunAll(steps[..|steps| - 1]), steps[|steps| - 1]);
    }
    var s := RunAll(steps);
    forall i | 0 <= i < |s.runs|
      ensures RunOutcome(s.runs[i])
      ensures s.runs[i].past.alone && s.runs[i].m.Wait? && s.runs[i].w.Ended? && StopsOver(s) ==>
                && (Stuck(s, i) <==> s.runs[i].past.missing != NOTHING)
                && (Stuck(s, i) <==> !s.shared.done)
    {
      assert Outcomes(s) && RunSafe(s.shared.stopFlag, s.runs[i]);
      if s.runs[i].past.alone && s.runs[i].m.Wait? && s.runs[i].w.Ended? && StopsOver(s) {
        assert AloneRun(s.runs[i], s.shared, AnyInFlight(s.stops)) && OthersAway(s, i);
        assert RunMarked(s.runs[i], s.shared, AnySignalling(s.stops));
      }
    }
  }

  ghost predicate StopsOver(s: State) {
    forall k :: 0 <= k < |s.stops| ==> s.stops[k].SEnded? || s.stops[k].SDied?
  }

  lemma {:induction false} StuckStays(s: State, i: nat, step: Step)
    requires Stuck(s, i) && !step.NewStop?
    ensures Stuck(Next(s, step), i)
  {
    match step {
      case Managing(j, ok) =>
        if j < |s.runs| && j != i {
          assert !Active(s.runs[j].m) && !Live(s.runs[j].w);
        }
      case Working(j, _) =>
        if j < |s.runs| && j != i {
          assert !Live(s.runs[j].w);
        }
      case _ =>
    }
  }

  function RunOn(s: State, steps: seq<Step>): State
    decreases |steps|
  {
    if steps == [] then s else RunOn(Next(s, steps[0]), steps[1..])
  }

  /** It stays stuck, and further calls of `run` are refused, whatever happens but another stop. */
  lemma {:induction false} StuckForEver(s: State, i: nat, steps: seq<Step>)
    requires Stuck(s, i) && forall step :: step in steps ==> !step.NewStop?
    ensures Stuck(RunOn(s, steps), i)
    decreases |steps|
  {
    if steps != [] {
      StuckStays(s, i, steps[0]);
      StuckForEver(Next(s, steps[0]), i, steps[1..]);
    }
  }

  // ---- Where a done signal can come from, for every run -------------------------------------------

  /** A done event that a run can see was set by its own chat or, since it cleared the flag, by
      another thread. */
  ghost predicate RunExplained(r: Run, done: bool) {
    && (Cleared(r.m) && !r.m.Begin1? && done ==> r.past.recorded || r.past.signalled)
    && (r.past.waited.Done? ==> r.past.recorded || r.past.signalled)
  }

  ghost predicate Explained(s: State) {
    forall i :: 0 <= i < |s.runs| ==> RunExplained(s.runs[i], s.shared.done)
  }

  lemma {:induction false} ManageExplains(r: Run, sh: Shared, quiet: bool, ok: bool)
    requires RunSafe(sh.stopFlag, r) && RunExplained(r, sh.done)
    ensures var (r1, sh1) := Manage(r, sh, quiet, ok);
            RunExplained(r1, sh1.done) && (sh1.done ==> sh.done)
  {
    match r.m
    case Clear =>
    case Begin1 =>
    case ReadDone =>
    case _ =>
  }

  lemma {:induction false} WorkExplains(r: Run, sh: Shared, outcome: Outcome)
    requires RunExplained(r, sh.done)
    ensures var (r1, sh1) := Work(r, sh, outcome);
            RunExplained(r1, sh1.done) && (sh1.done ==> sh.done || r.w.WDone?)
  {
  }

  lemma {:induction false} NextKeepsExplained(s: State, step: Step)
    requires Safe(s) && Explained(s)
    ensures Explained(Next(s, step))
  {
    var t := Next(s, step);
    match step {
      case Managing(i, ok) =>
        if i < |s.runs| {
          ManageExplains(s.runs[i], s.shared, Quiet(s, i), ok);
        }
      case Working(i, outcome) =>
        if i < |s.runs| {
          WorkExplains(s.runs[i], s.shared, outcome);
        }
      case _ =>
    }
    forall j | 0 <= j < |t.runs|
      ensures RunExplained(t.runs[j], t.shared.done)
    {
      assert j < |s.runs| ==> RunExplained(s.runs[j], s.shared.done);
    }
  }

  /** In every interleaving a run that finds itself done has its own chat's record or was signalled
      by another thread after it cleared the flag: a stop, a leftover worker or another run's worker.
      The schedules below show that each of these happens without its own record. */
  lemma {:induction false} EveryDoneIsExplained(steps: seq<Step>)
    ensures Explained(RunAll(steps))
    ensures forall i :: 0 <= i < |RunAll(steps).runs| && RunAll(steps).runs[i].past.waited.Done? ==>
              RunAll(steps).runs[i].past.recorded || RunAll(steps).runs[i].past.signalled
  {
    if steps != [] {
      EveryDoneIsExplained(steps[..|steps| - 1]);
      RunReturnsItsOwn(steps[..|steps| - 1]);
      NextKeepsExplained(RunAll(steps[..|steps| - 1]), steps[|steps| - 1]);
    }
    forall i | 0 <= i < |RunAll(steps).runs|
      ensures RunExplained(RunAll(steps).runs[i], RunAll(steps).shared.done)
    {
    }
  }

  // ---- Schedules that explain the conditions -------------------------------------------------------

  lemma {:induction false} Reach(steps: seq<Step>, step: Step)
    ensures RunAll(steps + [step]) == Next(RunAll(steps), step)
  {
    assert (steps + [step])[..|steps|] == steps;
  }

  function Go(i: nat): Step { Managing(i, true) }

  /** A step of the only stop, at which no listener raises. */
  const HALT := Stopping(0, true)

  const LAUNCH: seq<Manager> := [Check, Clear, Begin1, Begin2, Acquire, Make, Spawn, Wait]

  const NEW_PAST := NEW_RUN.past

  /** A run that has got so far in launching its worker. */
  function Launching(n: nat, past: Past): Run
    requires n < 8
  {
    Run(LAUNCH[n], if n == 7 then WBegin1 else NotStarted, None, past)
  }

  /** A first run that has got so far, alone. */
  function FirstState(n: nat): State
    requires n < 8
  {
    State(Shared(if n >= 4 then RUNNING else IDLE, false, false),
          [Launching(n, NEW_PAST.(alone := n >= 2))], [])
  }

  lemma {:induction false} FirstLaunches(n: nat)
    requires n < 7
    ensures Next(FirstState(n), Go(0)) == FirstState(n + 1)
  {
    assert Quiet(FirstState(n), 0);
  }

  /** A first run has started its worker and waits. */
  lemma {:induction false} FirstRunWaits() returns (steps: seq<Step>)
    ensures RunAll(steps)
         == State(Shared(RUNNING, false, false), [Launching(7, NEW_PAST.(alone := true))], [])
  {
    assert RunAll([]) == INITIAL;
    Reach([], NewRun);
    steps := [] + [NewRun];
    assert RunAll(steps) == FirstState(0);
    for n := 0 to 7
      invariant RunAll(steps) == FirstState(n)
    {
      Reach(steps, Go(0));
      FirstLaunches(n);
      steps := steps + [Go(0)];
    }
  }

  /** What a run remembers of a stop that has done `n` of its four steps. */
  function StoppedPast(past: Past, n: nat): Past {
    past.(stopSince := past.stopSince || n >= 1, signalled := past.signalled || n >= 4)
  }

  function StopState(r: Run, n: nat): State
    requires n <= 4
  {
    State(Shared(if n >= 3 then STOPPED else RUNNING, n >= 1, n == 4),
          [r.(past := StoppedPast(r.past, n))], [[SFlag, STest, SStatus, SDone, SEnded][n]])
  }

  lemma {:induction false} StopStep(r: Run, n: nat)
    requires n < 4 && r.past.missing == NOTHING
    ensures Next(StopState(r, n), HALT) == StopState(r, n + 1)
  {
    match n
    case 0 =>
    case 1 =>
    case 2 =>
    case _ =>
  }

  /** A stop runs through while the run waits. */
  lemma {:induction false} StopRunsThrough(before: seq<Step>, r: Run) returns (steps: seq<Step>)
    requires RunAll(before) == State(Shared(RUNNING, false, false), [r], []) && r.past.missing == NOTHING
    ensures RunAll(steps)
         == State(Shared(STOPPED, true, true), [r.(past := StoppedPast(r.past, 4))], [SEnded])
  {
    Reach(before, NewStop);
    steps := before + [NewStop];
    assert StoppedPast(r.past, 0) == r.past && r.(past := r.past) == r;
    for n := 0 to 4
      invariant RunAll(steps) == StopState(r, n)
    {
      Reach(steps, HALT);
      StopStep(r, n);
      steps := steps + [HALT];
    }
  }

  /** A stop that completes between the two begin_chats is lost: everything has ended but the
      manager, alone with its context, waits for a signal that will not come. */
  lemma {:induction false} StopBetweenBeginsIsLost() returns (steps: seq<Step>)
    ensures var s := RunAll(steps);
            && |s.runs| == 1 && s.runs[0].past.alone && s.runs[0].m.Wait? && s.runs[0].w.Ended?
            && s.runs[0].past.missing == NOTHING.(lost := true) && s.stops == [SEnded] && Stuck(s, 0)
  {
    var first := FirstRunWaits();
    var r := RunAll(first).runs[0];
    steps := StopRunsThrough(first, r);
    var past, o := StoppedPast(r.past, 4), Value("");
    for n := 0 to 6
      invariant RunAll(steps) ==
        State(Shared(if n >= 2 then RUNNING else STOPPED, true, n == 0),
              [Run(Wait, [WBegin1, WBegin2, WLoop, WTest(o), WBox(o), WSignal, Ended][n],
                   if n >= 5 then Some(o) else None,
                   past.(missing := NOTHING.(lost := n >= 1), produced := if n >= 3 then Some(o) else None))], [SEnded])
    {
      Reach(steps, Working(0, o));
      steps := steps + [Working(0, o)];
    }
  }

  /** A listener to the start of the turn raises: the chat ends without a record, and no stop is
      needed. */
  lemma {:induction false} DeadChatIsStuck() returns (steps: seq<Step>)
    ensures var s := RunAll(steps);
            && |s.runs| == 1 && s.runs[0].past.alone && s.runs[0].m.Wait? && s.runs[0].w.Ended?
            && s.runs[0].past.missing == NOTHING.(chatDied := true) && s.stops == [] && Stuck(s, 0)
  {
    steps := FirstRunWaits();
    var o := Error("");
    var past := NEW_PAST.(alone := true);
    for n := 0 to 4
      invariant RunAll(steps) ==
        State(Shared(RUNNING, false, false),
              [Run(Wait, [WBegin1, WBegin2, WBox(o), WSignal, Ended][n],
                   if n >= 3 then Some(o) else None,
                   if n >= 2 then past.(produced := Some(o), missing := NOTHING.(chatDied := true))
                   else past)], [])
    {
      Reach(steps, Working(0, o));
      steps := steps + [Working(0, o)];
    }
  }

  /** A stop sets the flag and dies of a listener while the run waits. */
  lemma {:induction false} StopDies() returns (steps: seq<Step>)
    ensures RunAll(steps)
         == State(Shared(RUNNING, true, false),
                  [Launching(7, NEW_PAST.(alone := true, stopSince := true,
                                          missing := NOTHING.(stopDied := true)))], [SDied])
  {
    steps := FirstRunWaits();
    Reach(steps, NewStop);
    steps := steps + [NewStop];
    Reach(steps, HALT);
    steps := steps + [HALT];
    assert RunAll(steps) == State(Shared(RUNNING, true, false),
                                  [Launching(7, NEW_PAST.(alone := true, stopSince := true))], [STest]);
    Reach(steps, Stopping(0, false));
    steps := steps + [Stopping(0, false)];
  }

  /** The worker heeds the flag of the dead stop and records nothing. */
  lemma {:induction false} DeadStopIsStuck() returns (steps: seq<Step>)
    ensures var s := RunAll(steps);
            && |s.runs| == 1 && s.runs[0].past.alone && s.runs[0].m.Wait? && s.runs[0].w.Ended?
            && s.runs[0].past.missing == NOTHING.(stopDied := true) && s.stops == [SDied] && Stuck(s, 0)
  {
    steps := StopDies();
    var o := Value("");
    var past := NEW_PAST.(alone := true, stopSince := true, missing := NOTHING.(stopDied := true));
    for n := 0 to 6
      invariant RunAll(steps) ==
        State(Shared(RUNNING, true, false),
              [Run(Wait, [WBegin1, WBegin2, WLoop, WTest(o), WBox(o), WSignal, Ended][n],
                   if n >= 5 then Some(o) else None,
                   past.(produced := if n >= 3 then Some(o) else None))], [SDied])
    {
      Reach(steps, Working(0, o));
      steps := steps + [Working(0, o)];
    }
  }

  lemma {:induction false} StopSetsFlag() returns (steps: seq<Step>)
    ensures RunAll(steps) == State(Shared(IDLE, true, false), [], [SDone])
  {
    steps := [];
    Reach(steps, NewStop);
    steps := steps + [NewStop];
    Reach(steps, HALT);
    steps := steps + [HALT];
    Reach(steps, HALT);
    steps := steps + [HALT];
  }

  /** A run that has got so far, beside a stop that has set the flag only. */
  function MeanwhileState(n: nat): State
    requires n < 8
  {
    State(Shared(if n >= 4 then RUNNING else IDLE, n < 2, false), [Launching(n, NEW_PAST)], [SDone])
  }

  lemma {:induction false} MeanwhileLaunches(n: nat)
    requires n < 7
    ensures Next(MeanwhileState(n), Go(0)) == MeanwhileState(n + 1)
  {
    var s := MeanwhileState(n);
    assert InFlight(s.stops[0]) && !Quiet(s, 0);
  }

  lemma {:induction false} RunStartsMeanwhile() returns (steps: seq<Step>)
    ensures RunAll(steps)
         == State(Shared(RUNNING, false, false), [Launching(7, NEW_PAST)], [SDone])
  {
    steps := StopSetsFlag();
    Reach(steps, NewRun);
    steps := steps + [NewRun];
    for n := 0 to 7
      invariant RunAll(steps) == MeanwhileState(n)
    {
      Reach(steps, Go(0));
      MeanwhileLaunches(n);
      steps := steps + [Go(0)];
    }
  }

  /** A run finds itself done although its chat has recorded nothing. */
  ghost predicate FalselyDone(s: State, i: nat) {
    && i < |s.runs| && !s.runs[i].past.alone
    && s.runs[i].past.waited.Done? && !s.runs[i].past.recorded
  }

  /** A stop that had set the flag before the run cleared it can set the done event later: the
      run, not alone, then finds itself done although its chat has recorded nothing. */
  lemma {:induction false} HalfDoneStopFakesDone() returns (steps: seq<Step>)
    ensures |RunAll(steps).runs| == 1 && FalselyDone(RunAll(steps), 0)
  {
    steps := RunStartsMeanwhile();
    Reach(steps, HALT);
    steps := steps + [HALT];
    var past := NEW_PAST.(signalled := true);
    for n := 0 to 3
      invariant RunAll(steps) ==
        State(Shared(RUNNING, false, true),
              [Run([Wait, ReadStop, ReadDone, Grace][n], WBegin1, None,
                   past.(waited := if n == 3 then Done else Unknown))], [SEnded])
    {
      Reach(steps, Go(0));
      steps := steps + [Go(0)];
    }
  }

  /** The first run was stopped and has returned; its worker is still in the loop. */
  lemma {:induction false} WorkerIsLeftOver() returns (steps: seq<Step>, past: Past)
    ensures RunAll(steps)
         == State(Shared(STOPPED, true, true), [Run(ReturnedStopped, WLoop, None, past)], [SEnded])
    ensures past.missing == NOTHING && !past.recorded
  {
    var first := FirstRunWaits();
    for n := 0 to 2
      invariant RunAll(first) ==
        State(Shared(RUNNING, false, false),
              [Run(Wait, [WBegin1, WBegin2, WLoop][n], None, NEW_PAST.(alone := true))], [])
    {
      Reach(first, Working(0, Value("")));
      first := first + [Working(0, Value(""))];
    }
    var r := RunAll(first).runs[0];
    steps := StopRunsThrough(first, r);
    past := StoppedPast(r.past, 4);
    for n := 0 to 4
      invariant RunAll(steps) ==
        State(Shared(STOPPED, true, true),
              [Run([Wait, ReadStop, Release(AsStopped), Persist(AsStopped), ReturnedStopped][n],
                   WLoop, None, past.(waited := if n >= 2 then Stop else Unknown))], [SEnded])
    {
      Reach(steps, Go(0));
      steps := steps + [Go(0)];
    }
    past := past.(waited := Stop);
  }

  /** A second run that has got so far, beside a stopped one with a leftover worker. */
  function SecondState(before: Past, n: nat): State
    requires n < 8
  {
    State(Shared(if n >= 4 then RUNNING else STOPPED, n < 2, n < 3),
          [Run(ReturnedStopped, WLoop, None, if n >= 1 then before.(alone := false) else before),
           Launching(n, NEW_PAST)], [SEnded])
  }

  lemma {:induction false} SecondLaunches(before: Past, n: nat)
    requires n < 7
    ensures Next(SecondState(before, n), Go(1)) == SecondState(before, n + 1)
  {
    var s := SecondState(before, n);
    assert Live(s.runs[0].w) && !Quiet(s, 1);
    if n == 0 {
      assert Joined(s.runs) == [s.runs[0].(past := before.(alone := false)), s.runs[1]];
      assert Next(s, Go(1)) == SecondState(before, 1);
    }
  }

  /** A second run starts; it has cleared the stop flag that the leftover worker goes by. */
  lemma {:induction false} SecondRunAfterStop() returns (steps: seq<Step>, past: Past)
    ensures RunAll(steps)
         == State(Shared(RUNNING, false, false),
                  [Run(ReturnedStopped, WLoop, None, past), Launching(7, NEW_PAST)], [SEnded])
    ensures past.missing == NOTHING && !past.recorded
  {
    var before;
    steps, before := WorkerIsLeftOver();
    Reach(steps, NewRun);
    steps := steps + [NewRun];
    for n := 0 to 7
      invariant RunAll(steps) == SecondState(before, n)
    {
      Reach(steps, Go(1));
      SecondLaunches(before, n);
      steps := steps + [Go(1)];
    }
    past := before.(alone := false);
  }

  /** The leftover worker has got so far in ending its chat. */
  function LeftoverState(past: Past, o: Outcome, n: nat): State
    requires n <= 4
  {
    State(Shared(if n >= 3 then COMPLETED else RUNNING, false, n == 4),
          [Run(ReturnedStopped, [WLoop, WTest(o), WStatus(o), WDone(o), WBox(o)][n], None,
               past.(produced := if n >= 1 then Some(o) else past.produced, recorded := n == 4)),
           Launching(7, NEW_PAST.(signalled := n == 4))], [SEnded])
  }

  lemma {:induction false} LeftoverEnds(past: Past, o: Outcome, n: nat)
    requires n < 4 && o.Value? && past.missing == NOTHING
    ensures Next(LeftoverState(past, o, n), Working(0, o)) == LeftoverState(past, o, n + 1)
  {
  }

  /** A waiting run finds the done event set by someone else. */
  function DeceivedRun(n: nat): Run
    requires n <= 3
  {
    Run([Wait, ReadStop, ReadDone, Grace][n], WBegin1, None,
        NEW_PAST.(signalled := true, waited := if n == 3 then Done else Unknown))
  }

  lemma {:induction false} LeftoverSignals(o: Outcome) returns (steps: seq<Step>, past: Past)
    requires o.Value?
    ensures RunAll(steps) == LeftoverState(past, o, 4)
  {
    steps, past := SecondRunAfterStop();
    assert LeftoverState(past, o, 0).runs[0] == Run(ReturnedStopped, WLoop, None, past);
    for n := 0 to 4
      invariant RunAll(steps) == LeftoverState(past, o, n)
    {
      Reach(steps, Working(0, o));
      LeftoverEnds(past, o, n);
      steps := steps + [Working(0, o)];
    }
  }

  /** A worker left over from a stopped run ends its chat after a later run has cleared the stop
      flag: its done signal passes for that of the later run. */
  lemma {:induction false} LeftoverWorkerFakesDone() returns (steps: seq<Step>)
    ensures |RunAll(steps).runs| == 2 && FalselyDone(RunAll(steps), 1)
    ensures RunAll(steps).runs[0].m == ReturnedStopped
  {
    var past;
    steps, past := LeftoverSignals(Value(""));
    var left := RunAll(steps).runs[0];
    for n := 0 to 3
      invariant RunAll(steps)
             == State(Shared(COMPLETED, false, true), [left, DeceivedRun(n)], [SEnded])
    {
      Reach(steps, Go(1));
      steps := steps + [Go(1)];
    }
  }

  /** Two runs pass the gate before either has marked the context as running. */
  lemma {:induction false} TwoRunsPassTheGate() returns (steps: seq<Step>)
    ensures RunAll(steps)
         == State(Shared(IDLE, false, false), [Launching(1, NEW_PAST), Launching(1, NEW_PAST)], [])
  {
    steps := [];
    Reach(steps, NewRun);
    steps := steps + [NewRun];
    Reach(steps, NewRun);
    steps := steps + [NewRun];
    Reach(steps, Go(0));
    steps := steps + [Go(0)];
    Reach(steps, Go(1));
    steps := steps + [Go(1)];
  }

  /** Two runs past the gate that have got so far. */
  function TwoState(n: nat, k: nat): State
    requires 1 <= n < 8 && 1 <= k < 8 && (k == 1 || n == 7)
  {
    State(Shared(if n >= 4 then RUNNING else IDLE, false, false),
          [Launching(n, NEW_PAST), Launching(k, NEW_PAST)], [])
  }

  lemma {:induction false} TwoLaunch(n: nat, k: nat)
    requires 1 <= n < 8 && 1 <= k < 8 && (k == 1 || n == 7)
    ensures n < 7 ==> Next(TwoState(n, k), Go(0)) == TwoState(n + 1, k)
    ensures n == 7 && k < 7 ==> Next(TwoState(n, k), Go(1)) == TwoState(n, k + 1)
  {
    var s := TwoState(n, k);
    assert Active(s.runs[0].m) && !Quiet(s, 1);
    assert Active(s.runs[1].m) && !Quiet(s, 0);
  }

  lemma {:induction false} TwoRunsWait() returns (steps: seq<Step>)
    ensures RunAll(steps) == TwoState(7, 7)
  {
    steps := TwoRunsPassTheGate();
    for n := 1 to 7
      invariant RunAll(steps) == TwoState(n, 1)
    {
      Reach(steps, Go(0));
      TwoLaunch(n, 1);
      steps := steps + [Go(0)];
    }
    for k := 1 to 7
      invariant RunAll(steps) == TwoState(7, k)
    {
      Reach(steps, Go(1));
      TwoLaunch(7, k);
      steps := steps + [Go(1)];
    }
  }

  /** The second run's worker has got so far while the first run waits. */
  function OvertakingState(o: Outcome, n: nat): State
    requires n <= 6
  {
    State(Shared(if n >= 5 then COMPLETED else RUNNING, false, n == 6),
          [Launching(7, NEW_PAST.(signalled := n == 6)),
           Run(Wait, [WBegin1, WBegin2, WLoop, WTest(o), WStatus(o), WDone(o), WBox(o)][n], None,
               NEW_PAST.(produced := if n >= 3 then Some(o) else None, recorded := n == 6))], [])
  }

  lemma {:induction false} OvertakerEnds(o: Outcome, n: nat)
    requires n < 6 && o.Value?
    ensures Next(OvertakingState(o, n), Working(1, o)) == OvertakingState(o, n + 1)
  {
  }

  /** A second run that passed the gate too ends its chat first: the first run takes its signal for
      its own. */
  lemma {:induction false} SecondRunFakesDone() returns (steps: seq<Step>)
    ensures |RunAll(steps).runs| == 2 && FalselyDone(RunAll(steps), 0) && RunAll(steps).stops == []
  {
    steps := TwoRunsWait();
    var o := Value("");
    for n := 0 to 6
      invariant RunAll(steps) == OvertakingState(o, n)
    {
      Reach(steps, Working(1, o));
      OvertakerEnds(o, n);
      steps := steps + [Working(1, o)];
    }
    var other := RunAll(steps).runs[1];
    for n := 0 to 3
      invariant RunAll(steps)
             == State(Shared(COMPLETED, false, true), [DeceivedRun(n), other], [])
    {
      Reach(steps, Go(0));
      steps := steps + [Go(0)];
    }
  }

  // ---- The control plane as an object --------------------------------------------------------------

  function Begun(sh: Shared): Shared { sh.(done := false, status := RUNNING) }

  function Stopped(sh: Shared): Shared {
    Shared(if sh.status == RUNNING then STOPPED else sh.status, true, true)
  }

  function Concluded(sh: Shared, status: Status): Shared { sh.(status := status, done := true) }

  class AgentContext {
    var status: Status
    var error: Option<string>
    var stopFlag: bool
    var done: bool

    function View(): Shared
      reads this
    {
      Shared(status, stopFlag, done)
    }

    constructor ()
      ensures View() == INITIAL.shared && error == None
    {
      status, error, stopFlag, done := IDLE, None, false, false;
    }

    method BeginChat()
      modifies this`status, this`done
      ensures View() == Begun(old(View()))
    {
      done := false;
      status := RUNNING;
    }

    /** A listener that raises leaves the flag set and nothing else. */
    method Stop(raises: bool)
      modifies this
      ensures View() == if raises then old(View()).(stopFlag := true) else Stopped(old(View()))
      ensures error == if !raises && old(status) == RUNNING then Some("父代理强制终止") else old(error)
    {
      stopFlag := true;
      if raises {
        return;
      }
      if status == RUNNING {
        status := STOPPED;
        error := Some("父代理强制终止");
      }
      done := true;
    }

    method CompleteChat()
      modifies this`status, this`done
      ensures View() == Concluded(old(View()), COMPLETED)
    {
      status := COMPLETED;
      done := true;
    }

    method FailChat(reason: string)
      modifies this`status, this`done, this`error
      ensures View() == Concluded(old(View()), FAILED) && error == Some(reason)
    {
      error := Some(reason);
      status := FAILED;
      done := true;
    }

    /** The two tests after the wait: a stop takes precedence over done. */
    method WaitStopOrDone() returns (outcome: Waited)
      ensures outcome == if stopFlag then Waited.Stop else if done then Done else Timeout
    {
      if stopFlag {
        return Waited.Stop;
      }
      outcome := if done then Done else Timeout;
    }
  }

  function StopsInARow(s: State, k: nat, n: nat): State
    requires k < |s.stops|
    ensures |StopsInARow(s, k, n).stops| == |s.stops|
  {
    if n == 0 then s else StopperStep(StopsInARow(s, k, n - 1), k, true)
  }

  /** The methods are what a thread's steps amount to when nothing comes between them. */
  lemma {:induction false} MethodsAreUninterruptedSteps(s: State, k: nat, r: Run, o: Outcome)
    requires k < |s.stops| && s.stops[k].SFlag? && r.w.WBegin1?
    ensures StopsInARow(s, k, 4).shared == Stopped(s.shared)
    ensures var (r1, sh1) := Work(r, s.shared, o); Work(r1, sh1, o).1 == Begun(s.shared)
    ensures StopperStep(StopsInARow(s, k, 1), k, false).shared == s.shared.(stopFlag := true)
    ensures var (r1, sh1) := Work(r.(w := WStatus(o)), s.shared, o);
            Work(r1, sh1, o).1 == Concluded(s.shared, if o.Value? then COMPLETED else FAILED)
  {
    var s1 := StopperStep(s, k, true);
    var s2 := StopperStep(s1, k, true);
    var s3 := StopperStep(s2, k, true);
    assert StopsInARow(s, k, 0) == s;
    assert s1 == StopsInARow(s, k, 1);
    assert s2 == StopsInARow(s, k, 2);
    assert s3 == StopsInARow(s, k, 3);
    assert StopperStep(s3, k, true) == StopsInARow(s, k, 4);
  }
}
