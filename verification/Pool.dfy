/** The slots of the executor pool (qi_agent/agents/pool.py) under both of its callers: every call of
    `run` of every conversation, step by step as in RunProtocol, and the thread of every spawned
    subtask (qi_agent/agents/agent_manager.py, `_run`). */
module Pool {
  import opened Basics
  import P = RunProtocol

  /** Where the thread of a subtask is: asking for a slot, with which the factory runs; the body of
      the `try`; its handler; the `finally`, with or without an exception on the way. It is `Refused`
      when no slot came in time, and `Leaked` when the factory threw what is no `Exception`. */
  datatype Subtask =
    | Asking | Making | Body | Handler
    | Finally(raising: bool)
    | Refused | Finished | Raised | Leaked

  /** How a piece of a subtask ends: normally, by an `Exception`, or by anything else that is thrown,
      which a handler of `Exception` does not catch. */
  datatype Ending = Normally | Excepting | Thrown

  datatype Id = Run(talk: nat, run: nat) | Sub(number: nat)

  /** `took` and `gave` record who took a slot and who gave one back, how often. */
  datatype State = State(
    active: int, maxWorkers: int, talks: seq<P.State>, subtasks: seq<Subtask>,
    took: multiset<Id>, gave: multiset<Id>)

  datatype Step =
    | NewTalk
    | InTalk(talk: nat, step: P.Step)
    | NewSubtask
    | GiveUp(number: nat)
    | Proceed(number: nat, ending: Ending)

  function Initial(maxWorkers: int): State {
    State(0, maxWorkers, [], [], multiset{}, multiset{})
  }

  /** `release` clamps at zero. */
  function Released(active: int): int { Max(0, active - 1) }

  function Take(s: State, id: Id): State {
    s.(active := s.active + 1, took := s.took + multiset{id})
  }

  /** A failed factory returns its slot without the clamp. */
  function GiveBack(s: State, id: Id): State {
    s.(active := s.active - 1, gave := s.gave + multiset{id})
  }

  function Release(s: State, id: Id): State {
    s.(active := Released(s.active), gave := s.gave + multiset{id})
  }

  // ---- The steps of a call of run --------------------------------------------------------------

  /** What a step of the manager does to the pool. A manager that acquires waits while the pool is
      full. */
  function Slotted(s: State, talk: nat, run: nat, before: P.Manager, after: P.Manager): State {
    if before.Acquire? then Take(s, Run(talk, run))
    else if before.Make? && after.Raised? then GiveBack(s, Run(talk, run))
    else if before.Release? then Release(s, Run(talk, run))
    else s
  }

  function TalkStep(s: State, talk: nat, step: P.Step): State
    requires talk < |s.talks|
  {
    var t := P.Next(s.talks[talk], step);
    var moved := s.(talks := s.talks[talk := t]);
    if step.Managing? && step.i < |s.talks[talk].runs| then
      var before := s.talks[talk].runs[step.i].m;
      if before.Acquire? && s.active >= s.maxWorkers then s
      else Slotted(moved, talk, step.i, before, t.runs[step.i].m)
    else moved
  }

  // ---- The steps of a subtask --------------------------------------------------------------------

  function Moved(s: State, k: nat, to: Subtask): State
    requires k < |s.subtasks|
  {
    s.(subtasks := s.subtasks[k := to])
  }

  function SubtaskStep(s: State, k: nat, ending: Ending): State
    requires k < |s.subtasks|
  {
    match s.subtasks[k]
    case Asking => if s.active < s.maxWorkers then Take(Moved(s, k, Making), Sub(k)) else s
    case Making =>
      (match ending
       case Normally => Moved(s, k, Body)
       case Excepting => GiveBack(Moved(s, k, Raised), Sub(k))
       case Thrown => Moved(s, k, Leaked))
    case Body =>
      Moved(s, k, match ending
                  case Normally => Finally(false)
                  case Excepting => Handler
                  case Thrown => Finally(true))
    case Handler => Moved(s, k, Finally(!ending.Normally?))
    case Finally(raising) => Release(Moved(s, k, if raising then Raised else Finished), Sub(k))
    case _ => s
  }

  function Next(s: State, step: Step): State {
    match step
    case NewTalk => s.(talks := s.talks + [P.INITIAL])
    case InTalk(talk, inner) => if talk < |s.talks| then TalkStep(s, talk, inner) else s
    case NewSubtask => s.(subtasks := s.subtasks + [Asking])
    case GiveUp(k) =>
      if k < |s.subtasks| && s.subtasks[k].Asking? then Moved(s, k, Refused) else s
    case Proceed(k, ending) => if k < |s.subtasks| then SubtaskStep(s, k, ending) else s
  }

  function RunAll(maxWorkers: int, steps: seq<Step>): State {
    if steps == [] then Initial(maxWorkers)
    else Next(RunAll(maxWorkers, steps[..|steps| - 1]), steps[|steps| - 1])
  }

  // ---- Every exit gives back exactly what was taken -------------------------------------------

  predicate BeforeSlot(m: P.Manager) {
    m.Check? || m.Clear? || m.Begin1? || m.Begin2? || m.Acquire?
  }

  /** On the way to give back its slot. */
  predicate Underway(m: P.Manager) {
    m.Make? || m.Spawn? || m.Wait? || m.ReadStop? || m.ReadDone? || m.Grace? || m.Release?
  }

  /** Gone with its slot: an abandoned call, whose worker may still be using it, and one whose
      worker's thread could not be started. */
  predicate GoneWithSlot(m: P.Manager) { m.Abandoned? || m.Unstarted? }

  predicate WithSlot(m: P.Manager) { Underway(m) || GoneWithSlot(m) }

  /** How often a call has taken and given back a slot by the time it is there. An exception may
      strike before the slot, or after it was given back. */
  predicate Balanced(m: P.Manager, took: nat, gave: nat) {
    if BeforeSlot(m) then took == 0 && gave == 0
    else if WithSlot(m) then took == 1 && gave == 0
    else if m.Raised? then took == gave <= 1
    else took == 1 && gave == 1
  }

  predicate SubtaskBalanced(t: Subtask, took: nat, gave: nat) {
    match t
    case Asking => took == 0 && gave == 0
    case Refused => took == 0 && gave == 0
    case Making => took == 1 && gave == 0
    case Body => took == 1 && gave == 0
    case Handler => took == 1 && gave == 0
    case Finally(_) => took == 1 && gave == 0
    case Leaked => took == 1 && gave == 0
    case Finished => took == 1 && gave == 1
    case Raised => took == 1 && gave == 1
  }

  predicate Exists(s: State, id: Id) {
    match id
    case Run(talk, run) => talk < |s.talks| && run < |s.talks[talk].runs|
    case Sub(k) => k < |s.subtasks|
  }

  predicate IdBalanced(s: State, id: Id) {
    if !Exists(s, id) then s.took[id] == 0 && s.gave[id] == 0
    else
      match id
      case Run(talk, run) => Balanced(s.talks[talk].runs[run].m, s.took[id], s.gave[id])
      case Sub(k) => SubtaskBalanced(s.subtasks[k], s.took[id], s.gave[id])
  }

  ghost predicate Inv(s: State) {
    && (forall id :: IdBalanced(s, id))
    && s.active == |s.took| - |s.gave| <= Max(0, s.maxWorkers)
  }

  /** Only the manager of a step moves, and a new call begins at the gate. */
  lemma {:induction false} OnlyItsManagerMoves(s: P.State, step: P.Step)
    ensures var t := P.Next(s, step);
            && |t.runs| == |s.runs| + (if step.NewRun? then 1 else 0)
            && (step.NewRun? ==> t.runs[|s.runs|].m == P.Check)
            && forall i :: 0 <= i < |s.runs| && !(step.Managing? && step.i == i) ==>
                 t.runs[i].m == s.runs[i].m
  {
  }

  /** The slot of a manager from one step to the next. */
  lemma {:induction false} ManagerKeepsBalance(
    r: P.Run, sh: P.Shared, quiet: bool, ok: bool, took: nat, gave: nat)
    requires Balanced(r.m, took, gave)
    ensures var m := P.Manage(r, sh, quiet, ok).0.m;
            && (r.m.Acquire? ==> m.Make? && Balanced(m, took + 1, gave))
            && (r.m.Make? && m.Raised? ==> Balanced(m, took, gave + 1))
            && (r.m.Release? ==> Balanced(m, took, gave + 1))
            && (!r.m.Acquire? && !(r.m.Make? && m.Raised?) && !r.m.Release? ==>
                  Balanced(m, took, gave))
  {
    match r.m
    case Check =>
    case Grace =>
    case Persist(_) =>
    case _ =>
  }

  lemma {:induction false} GivenIsTaken(s: State)
    requires forall id :: IdBalanced(s, id)
    ensures s.gave <= s.took && |s.gave| <= |s.took|
    ensures forall id :: s.took[id] > s.gave[id] ==> |s.gave| < |s.took|
  {
    forall id
      ensures s.gave[id] <= s.took[id]
    {
      assert IdBalanced(s, id);
    }
    var left := s.took - s.gave;
    assert s.took == s.gave + left;
    forall id | s.took[id] > s.gave[id]
      ensures |s.gave| < |s.took|
    {
      assert left[id] > 0 && id in left;
    }
  }

  lemma {:induction false} TalkKeepsInv(s: State, talk: nat, step: P.Step)
    requires Inv(s) && talk < |s.talks|
    ensures Inv(TalkStep(s, talk, step))
  {
    var u := TalkStep(s, talk, step);
    OnlyItsManagerMoves(s.talks[talk], step);
    GivenIsTaken(s);
    if step.Managing? && step.i < |s.talks[talk].runs| {
      var own := Run(talk, step.i);
      assert IdBalanced(s, own);
      ManagerKeepsBalance(s.talks[talk].runs[step.i], s.talks[talk].shared,
                          P.Quiet(s.talks[talk], step.i), step.ok, s.took[own], s.gave[own]);
    }
    forall id
      ensures IdBalanced(u, id)
    {
      assert IdBalanced(s, id);
    }
  }

  lemma {:induction false} SubtaskKeepsInv(s: State, k: nat, ending: Ending)
    requires Inv(s) && k < |s.subtasks|
    ensures Inv(SubtaskStep(s, k, ending))
  {
    var u := SubtaskStep(s, k, ending);
    GivenIsTaken(s);
    assert IdBalanced(s, Sub(k));
    forall id
      ensures IdBalanced(u, id)
    {
      assert IdBalanced(s, id);
    }
  }

  lemma {:induction false} NextKeepsInv(s: State, step: Step)
    requires Inv(s)
    ensures Inv(Next(s, step))
  {
    var u := Next(s, step);
    match step {
      case InTalk(talk, inner) =>
        if talk < |s.talks| {
          TalkKeepsInv(s, talk, inner);
        }
      case Proceed(k, ending) =>
        if k < |s.subtasks| {
          SubtaskKeepsInv(s, k, ending);
        }
      case _ =>
        forall id
          ensures IdBalanced(u, id)
        {
          assert IdBalanced(s, id);
        }
    }
  }

  /** Over all interleavings of all conversations, their managers, workers and stops, and all
      subtasks: whoever has gone has given back exactly what it took, once, whichever way it went,
      except a call whose worker outlived the grace period or could not be started, and a subtask
      whose factory threw what is no `Exception`; the counter is the slots taken less those given
      back and stays within the limit; and the clamp in `release` never hides a mismatch. */
  lemma {:induction false} SlotsAreConserved(maxWorkers: int, steps: seq<Step>)
    ensures var s := RunAll(maxWorkers, steps);
            && (forall id :: IdBalanced(s, id))
            && s.active == |s.took| - |s.gave|
            && 0 <= s.active <= Max(0, maxWorkers) && s.maxWorkers == maxWorkers
            && forall id :: s.took[id] > s.gave[id] ==> Released(s.active) == s.active - 1
  {
    if steps != [] {
      SlotsAreConserved(maxWorkers, steps[..|steps| - 1]);
      NextKeepsInv(RunAll(maxWorkers, steps[..|steps| - 1]), steps[|steps| - 1]);
    }
    GivenIsTaken(RunAll(maxWorkers, steps));
  }

  predicate Gone(t: Subtask) { t.Asking? || t.Refused? || t.Finished? || t.Raised? }

  /** Nobody is on the way with a slot, and none was abandoned or leaked. */
  ghost predicate AllGone(s: State) {
    && (forall j, i :: 0 <= j < |s.talks| && 0 <= i < |s.talks[j].runs| ==>
          !WithSlot(s.talks[j].runs[i].m))
    && forall k :: 0 <= k < |s.subtasks| ==> Gone(s.subtasks[k])
  }

  /** Then every slot is free again. */
  lemma {:induction false} AllSlotsComeBack(maxWorkers: int, steps: seq<Step>)
    requires AllGone(RunAll(maxWorkers, steps))
    ensures RunAll(maxWorkers, steps).active == 0
  {
    SlotsAreConserved(maxWorkers, steps);
    var s := RunAll(maxWorkers, steps);
    forall id
      ensures s.took[id] == s.gave[id]
    {
      GoneIsEven(s, id);
    }
    assert s.took == s.gave;
  }

  lemma {:induction false} GoneIsEven(s: State, id: Id)
    requires AllGone(s) && IdBalanced(s, id)
    ensures s.took[id] == s.gave[id]
  {
  }

  /** Gone for good with a slot. */
  predicate Lost(s: State, id: Id) {
    Exists(s, id) && match id
                     case Run(talk, run) => GoneWithSlot(s.talks[talk].runs[run].m)
                     case Sub(k) => s.subtasks[k].Leaked?
  }

  /** Still on the way, a waiting call included. */
  predicate OnTheWay(s: State, id: Id) {
    Exists(s, id) && match id
                     case Run(talk, run) => Underway(s.talks[talk].runs[run].m)
                     case Sub(k) => s.subtasks[k].Making? || s.subtasks[k].Body?
                                    || s.subtasks[k].Handler? || s.subtasks[k].Finally?
  }

  /** Over all interleavings a caller owes a slot, one, exactly while it is on the way with it and when
      it is one of the lost ones. */
  lemma {:induction false} OwesExactlyWhen(maxWorkers: int, steps: seq<Step>, id: Id)
    ensures var s := RunAll(maxWorkers, steps);
            && s.gave[id] <= s.took[id] <= s.gave[id] + 1
            && (s.took[id] > s.gave[id] <==> OnTheWay(s, id) || Lost(s, id))
  {
    SlotsAreConserved(maxWorkers, steps);
    assert IdBalanced(RunAll(maxWorkers, steps), id);
  }

  lemma {:induction false} GoneStays(s: P.State, step: P.Step, run: nat)
    requires run < |s.runs| && GoneWithSlot(s.runs[run].m)
    ensures run < |P.Next(s, step).runs| && P.Next(s, step).runs[run].m == s.runs[run].m
  {
    OnlyItsManagerMoves(s, step);
  }

  lemma {:induction false} OneTalkMoves(s: State, talk: nat, step: P.Step)
    requires talk < |s.talks|
    ensures var talks := TalkStep(s, talk, step).talks;
            talks == s.talks || talks == s.talks[talk := P.Next(s.talks[talk], step)]
  {
  }

  lemma {:induction false} LostStaysLost(s: State, step: Step, id: Id)
    requires Lost(s, id)
    ensures Lost(Next(s, step), id)
  {
    match step
    case InTalk(talk, inner) =>
      if id.Run? && id.talk == talk {
        GoneStays(s.talks[talk], inner, id.run);
        OneTalkMoves(s, talk, inner);
      }
    case _ =>
  }

  /** A call that is stuck keeps its slot until another stop, whatever else happens anywhere. */
  lemma {:induction false} StuckKeepsItsSlot(s: State, steps: seq<Step>, talk: nat, run: nat)
    requires Inv(s) && talk < |s.talks| && P.Stuck(s.talks[talk], run)
    requires forall step :: step in steps && step.InTalk? && step.talk == talk ==> !step.step.NewStop?
    ensures var t := RunOn(s, steps);
            && Inv(t) && talk < |t.talks| && P.Stuck(t.talks[talk], run)
            && t.took[Run(talk, run)] == 1 && t.gave[Run(talk, run)] == 0
    decreases |steps|
  {
    if steps == [] {
      assert IdBalanced(s, Run(talk, run));
    } else {
      var step := steps[0];
      assert step in steps;
      NextKeepsInv(s, step);
      if step.InTalk? && step.talk < |s.talks| {
        OneTalkMoves(s, step.talk, step.step);
        if step.talk == talk {
          P.StuckStays(s.talks[talk], run, step.step);
        }
      }
      StuckKeepsItsSlot(Next(s, step), steps[1..], talk, run);
    }
  }

  function RunOn(s: State, steps: seq<Step>): State
    decreases |steps|
  {
    if steps == [] then s else RunOn(Next(s, steps[0]), steps[1..])
  }

  /** Lost calls and leaked subtasks cost their slots for good: the counter never falls below
      their number. */
  lemma {:induction false} LostSlotsStayLost(maxWorkers: int, steps: seq<Step>, ids: set<Id>)
    requires forall id :: id in ids ==> Lost(RunAll(maxWorkers, steps), id)
    ensures RunAll(maxWorkers, steps).active >= |ids|
  {
    SlotsAreConserved(maxWorkers, steps);
    var s := RunAll(maxWorkers, steps);
    GivenIsTaken(s);
    var left := s.took - s.gave;
    forall id | id in ids
      ensures left[id] >= 1
    {
      assert IdBalanced(s, id);
    }
    SetBelow(ids, left);
    assert s.took == s.gave + left;
  }

  lemma {:induction false} SetBelow(ids: set<Id>, m: multiset<Id>)
    requires forall id :: id in ids ==> m[id] >= 1
    ensures |ids| <= |m|
  {
    if ids != {} {
      var id :| id in ids;
      SetBelow(ids - {id}, m - multiset{id});
    }
  }

  // ---- The pool object -----------------------------------------------------------------------------

  class AgentPool {
    const maxWorkers: int
    var active: int

    constructor (maxWorkers: int)
      ensures this.maxWorkers == maxWorkers && active == 0
    {
      this.maxWorkers := maxWorkers;
      active := 0;
    }

    /** `acquire`: `others[n]` is the counter that other threads leave before the `n`-th try;
        after the last try the deadline has passed. A failed factory returns its slot. */
    method Acquire(others: seq<int>, factoryRaises: bool)
      returns (agent: Result<bool, string>, ghost tries: nat)
      modifies this
      ensures tries <= |others|
      ensures forall n :: 0 <= n < tries ==> others[n] >= maxWorkers
      ensures tries == |others| ==>
                agent == Ok(false) && active == if others == [] then old(active) else others[tries - 1]
      ensures tries < |others| ==>
                && others[tries] < maxWorkers
                && agent == (if factoryRaises then Err("factory") else Ok(true))
                && active == others[tries] + if factoryRaises then 0 else 1
    {
      var n := 0;
      tries := 0;
      while n < |others|
        invariant 0 <= n <= |others| && tries == n
        invariant forall k :: 0 <= k < n ==> others[k] >= maxWorkers
        invariant active == if n == 0 then old(active) else others[n - 1]
      {
        active := others[n];
        if active < maxWorkers {
          active := active + 1;
          if factoryRaises {
            active := active - 1;
            return Err("factory"), n;
          }
          return Ok(true), n;
        }
        n := n + 1;
        tries := n;
      }
      agent := Ok(false);
    }

    method Release()
      modifies this
      ensures active == Released(old(active))
    {
      active := Max(0, active - 1);
    }
  }
}
