/** The gateway's approval bridge (qi_agent/gateway/gateway.py): threads that wait for a user's
    choice, clients that respond, and the two tables they share. Ids are fresh numbers. */
module Approval {
  import opened Basics

  const MAX_RESOLVED := 200

  /** One pending approval: owner, offered choices, the wake-up event, the user's choice. */
  datatype Entry = Entry(session: string, choices: seq<string>, event: bool, choice: Option<string>)

  /** The resolved table keeps insertion order; its oldest entry is dropped beyond the limit. */
  datatype Tables = Tables(pending: map<nat, Entry>, resolved: seq<(nat, string)>)

  datatype Reply = Accepted | Duplicate | NotFound | WrongSession | BadChoice

  /** The new contract's choice, or the old contract's decision translated. */
  function ValueOf(choice: string, decision: string): string {
    if choice != "" then choice
    else if decision == "approve" then "once"
    else if decision == "deny" then "deny"
    else ""
  }

  predicate IsResolved(resolved: seq<(nat, string)>, id: nat) {
    exists i :: 0 <= i < |resolved| && resolved[i].0 == id
  }

  /** Assignment into an ordered table: an existing key keeps its position. */
  function Recorded(resolved: seq<(nat, string)>, id: nat, value: string): seq<(nat, string)> {
    if resolved == [] then [(id, value)]
    else if resolved[0].0 == id then [(id, value)] + resolved[1..]
    else [resolved[0]] + Recorded(resolved[1..], id, value)
  }

  function Capped(resolved: seq<(nat, string)>): seq<(nat, string)> {
    if |resolved| > MAX_RESOLVED then resolved[1..] else resolved
  }

  /** The part of `_respond_approval` under the lock. */
  function Responded(t: Tables, id: nat, session: string, value: string): (Tables, Reply) {
    if id !in t.pending then (t, if IsResolved(t.resolved, id) then Duplicate else NotFound)
    else if t.pending[id].session != session then (t, WrongSession)
    else if value !in t.pending[id].choices then (t, BadChoice)
    else
      (Tables(t.pending[id := t.pending[id].(choice := Some(value))],
              Capped(Recorded(t.resolved, id, value))), Accepted)
  }

  function Opened(t: Tables, id: nat, session: string, choices: seq<string>): Tables {
    t.(pending := t.pending[id := Entry(session, choices, false, None)])
  }

  function Closed(t: Tables, id: nat): Tables { t.(pending := t.pending - {id}) }

  function Woken(t: Tables, id: nat): Tables {
    if id in t.pending && t.pending[id].choice.Some?
    then t.(pending := t.pending[id := t.pending[id].(event := true)])
    else t
  }

  class Gateway {
    var approvals: map<nat, Entry>
    var results: seq<(nat, string)>

    function View(): Tables
      reads this
    {
      Tables(approvals, results)
    }

    constructor ()
      ensures View() == Tables(map[], [])
    {
      approvals, results := map[], [];
    }

    method Open(id: nat, session: string, choices: seq<string>)
      modifies this
      ensures View() == Opened(old(View()), id, session, choices)
    {
      approvals := approvals[id := Entry(session, choices, false, None)];
    }

    method Respond(id: nat, session: string, choice: string, decision: string)
      returns (reply: Reply)
      modifies this
      ensures (View(), reply) == Responded(old(View()), id, session, ValueOf(choice, decision))
    {
      if id !in approvals {
        if IsResolved(results, id) {
          return Duplicate;
        }
        return NotFound;
      }
      var entry := approvals[id];
      if entry.session != session {
        return WrongSession;
      }
      var value := ValueOf(choice, decision);
      if value !in entry.choices {
        return BadChoice;
      }
      approvals := approvals[id := entry.(choice := Some(value))];
      results := Recorded(results, id, value);
      if |results| > MAX_RESOLVED {
        results := results[1..];
      }
      reply := Accepted;
    }

    method Wake(id: nat)
      modifies this
      ensures View() == Woken(old(View()), id)
    {
      if id in approvals && approvals[id].choice.Some? {
        approvals := approvals[id := approvals[id].(event := true)];
      }
    }

    method Close(id: nat)
      modifies this
      ensures View() == Closed(old(View()), id)
    {
      approvals := approvals - {id};
    }
  }

  // ---- All interleavings -----------------------------------------------------------------------

  /** A request waits; has read its answer and is about to leave the table; has returned. */
  datatype Phase = Waiting | Leaving(answer: Option<string>) | Returned(answer: Option<string>)

  /** `readAt` is how many responses had been accepted when the answer was read. */
  datatype Request = Request(
    session: string, choices: seq<string>, phase: Phase, timedOut: bool, readAt: nat)

  /** A response, here to any id. */
  datatype Submission = Submission(id: nat, session: string, value: string)

  /** `accepted` are the responses accepted so far, in order. */
  datatype State = State(tables: Tables, requests: seq<Request>, accepted: seq<Submission>)

  datatype Step =
    | Ask(session: string, choices: seq<string>)
    | Answer(id: nat, session: string, value: string)
    | Signal(id: nat)
    | Read(id: nat, timedOut: bool)
    | Leave(id: nat)

  const INITIAL := State(Tables(map[], []), [], [])

  function Next(s: State, step: Step): State {
    match step
    case Ask(session, choices) =>
      s.(tables := Opened(s.tables, |s.requests|, session, choices),
         requests := s.requests + [Request(session, choices, Waiting, false, 0)])
    case Answer(id, session, value) =>
      var (tables, reply) := Responded(s.tables, id, session, value);
      s.(tables := tables,
         accepted := s.accepted + if reply.Accepted? then [Submission(id, session, value)] else [])
    case Signal(id) => s.(tables := Woken(s.tables, id))
    case Read(id, timedOut) =>
      if id < |s.requests| && s.requests[id].phase.Waiting? && id in s.tables.pending
         && (timedOut || s.tables.pending[id].event)
      then
        s.(requests := s.requests[id := s.requests[id].(
             phase := Leaving(s.tables.pending[id].choice), timedOut := timedOut,
             readAt := |s.accepted|)])
      else s
    case Leave(id) =>
      if id < |s.requests| && s.requests[id].phase.Leaving? then
        s.(tables := Closed(s.tables, id),
           requests := s.requests[id := s.requests[id].(
             phase := Returned(s.requests[id].phase.answer))])
      else s
  }

  function Run(steps: seq<Step>): State {
    if steps == [] then INITIAL else Next(Run(steps[..|steps| - 1]), steps[|steps| - 1])
  }

  /** The value of the last of these responses that is for this id. */
  function LastFor(accepted: seq<Submission>, id: nat): Option<string> {
    if accepted == [] then None
    else
      var last := accepted[|accepted| - 1];
      if last.id == id then Some(last.value) else LastFor(accepted[..|accepted| - 1], id)
  }

  /** Every response accepted for the id was an offered choice, submitted by its own session. */
  ghost predicate Legitimate(accepted: seq<Submission>, id: nat, r: Request) {
    forall a :: a in accepted && a.id == id ==> a.session == r.session && a.value in r.choices
  }

  ghost predicate RequestInv(s: State, id: nat)
    requires id < |s.requests|
  {
    var r := s.requests[id];
    && (id in s.tables.pending <==> !r.phase.Returned?)
    && Legitimate(s.accepted, id, r)
    && (id in s.tables.pending ==>
          var e := s.tables.pending[id];
          && e.session == r.session && e.choices == r.choices
          && e.choice == LastFor(s.accepted, id)
          && (e.event ==> e.choice.Some?))
    && (!r.phase.Waiting? ==>
          && r.readAt <= |s.accepted| && r.phase.answer == LastFor(s.accepted[..r.readAt], id)
          && (r.phase.answer.None? ==> r.timedOut))
  }

  ghost predicate Inv(s: State) {
    && (forall id :: id in s.tables.pending ==> id < |s.requests|)
    && (forall id :: 0 <= id < |s.requests| ==> RequestInv(s, id))
    && (forall a :: a in s.accepted ==> a.id < |s.requests|)
    && |s.tables.resolved| <= MAX_RESOLVED
  }

  lemma {:induction false} RecordedLength(resolved: seq<(nat, string)>, id: nat, value: string)
    ensures |Recorded(resolved, id, value)| <= |resolved| + 1
    ensures forall other :: other != id ==>
              (IsResolved(Recorded(resolved, id, value), other) <==> IsResolved(resolved, other))
  {
    if resolved != [] && resolved[0].0 != id {
      RecordedLength(resolved[1..], id, value);
      var tail, after := resolved[1..], Recorded(resolved[1..], id, value);
      assert resolved == [resolved[0]] + tail;
      forall other | other != id
        ensures IsResolved([resolved[0]] + after, other) <==> IsResolved(resolved, other)
      {
        ResolvedCons(resolved[0], after, other);
        ResolvedCons(resolved[0], tail, other);
      }
    } else if resolved != [] {
      forall other | other != id
        ensures IsResolved(Recorded(resolved, id, value), other) <==> IsResolved(resolved, other)
      {
        assert resolved == [resolved[0]] + resolved[1..];
        ResolvedCons(resolved[0], resolved[1..], other);
        ResolvedCons((id, value), resolved[1..], other);
      }
    }
  }

  lemma {:induction false} ResolvedCons(p: (nat, string), rest: seq<(nat, string)>, id: nat)
    ensures IsResolved([p] + rest, id) <==> p.0 == id || IsResolved(rest, id)
  {
    var all := [p] + rest;
    assert all[0] == p;
    assert forall i :: 0 <= i < |rest| ==> all[i + 1] == rest[i];
  }

  /** A response for one id, accepted or not, touches no other id's pending entry; when it is
      not accepted it touches nothing; and a response that comes after its request has left is
      never accepted. */
  lemma {:induction false} ResponseTouchesOnlyItsId(t: Tables, id: nat, session: string, value: string)
    ensures var (u, reply) := Responded(t, id, session, value);
            && (!reply.Accepted? ==> u == t)
            && (id !in t.pending ==> !reply.Accepted?)
            && u.pending.Keys == t.pending.Keys
            && (forall other :: other in t.pending && other != id ==>
                  u.pending[other] == t.pending[other])
            && (forall other :: other != id && |t.resolved| < MAX_RESOLVED ==>
                  (IsResolved(u.resolved, other) <==> IsResolved(t.resolved, other)))
  {
    RecordedLength(t.resolved, id, value);
  }

  lemma {:induction false} LastForNone(accepted: seq<Submission>, id: nat)
    requires forall a :: a in accepted ==> a.id != id
    ensures LastFor(accepted, id) == None
  {
    if accepted != [] {
      LastForNone(accepted[..|accepted| - 1], id);
    }
  }

  lemma {:induction false} LastForIsOne(accepted: seq<Submission>, id: nat)
    ensures LastFor(accepted, id).Some? ==>
              exists a :: a in accepted && a.id == id && a.value == LastFor(accepted, id).value
  {
    if accepted != [] && accepted[|accepted| - 1].id != id {
      LastForIsOne(accepted[..|accepted| - 1], id);
    } else if accepted != [] {
      assert accepted[|accepted| - 1] in accepted;
    }
  }

  lemma {:induction false} AskKeepsInv(s: State, session: string, choices: seq<string>)
    requires Inv(s)
    ensures Inv(Next(s, Ask(session, choices)))
  {
    var t := Next(s, Ask(session, choices));
    LastForNone(s.accepted, |s.requests|);
    forall id | 0 <= id < |t.requests|
      ensures RequestInv(t, id)
    {
      assert id < |s.requests| ==> RequestInv(s, id);
    }
  }

  lemma {:induction false} AnswerKeepsInv(s: State, id: nat, session: string, value: string)
    requires Inv(s)
    ensures Inv(Next(s, Answer(id, session, value)))
  {
    var t := Next(s, Answer(id, session, value));
    var a := Submission(id, session, value);
    ResponseTouchesOnlyItsId(s.tables, id, session, value);
    RecordedLength(s.tables.resolved, id, value);
    if Responded(s.tables, id, session, value).1.Accepted? {
      forall other | 0 <= other < |t.requests|
        ensures RequestInv(t, other)
      {
        assert RequestInv(s, other) && RequestInv(s, id);
        var readAt := s.requests[other].readAt;
        assert readAt <= |s.accepted| ==> t.accepted[..readAt] == s.accepted[..readAt];
      }
    } else {
      assert s.accepted + [] == s.accepted;
      assert t == s;
    }
  }

  lemma {:induction false} ReadKeepsInv(s: State, id: nat, timedOut: bool)
    requires Inv(s)
    ensures Inv(Next(s, Read(id, timedOut)))
  {
    var t := Next(s, Read(id, timedOut));
    assert s.accepted[..|s.accepted|] == s.accepted;
    forall other | 0 <= other < |t.requests|
      ensures RequestInv(t, other)
    {
      assert RequestInv(s, other);
    }
  }

  lemma {:induction false} NextKeepsInv(s: State, step: Step)
    requires Inv(s)
    ensures Inv(Next(s, step))
  {
    var t := Next(s, step);
    match step {
      case Ask(session, choices) => AskKeepsInv(s, session, choices);
      case Answer(id, session, value) => AnswerKeepsInv(s, id, session, value);
      case Read(id, timedOut) => ReadKeepsInv(s, id, timedOut);
      case _ =>
        forall id | 0 <= id < |t.requests|
          ensures RequestInv(t, id)
        {
          assert RequestInv(s, id);
        }
    }
  }

  /** What a request returned, and what may be said of it. */
  ghost predicate SafeRequest(s: State, id: nat)
    requires id < |s.requests|
  {
    var r := s.requests[id];
    && (id in s.tables.pending <==> !r.phase.Returned?)
    && (r.phase.Returned? ==>
          && r.readAt <= |s.accepted| && r.phase.answer == LastFor(s.accepted[..r.readAt], id)
          && (r.phase.answer.None? ==> r.timedOut)
          && (r.phase.answer.Some? ==>
                && r.phase.answer.value in r.choices
                && Submission(id, r.session, r.phase.answer.value) in s.accepted))
  }

  /** Over any number of concurrent requests and responses: what a request returns is the last
      response accepted for it before it read its answer, an offered choice submitted by its own
      session, or nothing, and then only after a timeout; an id is in the pending table exactly until
      its request has left; and the resolved table never exceeds its limit. */
  lemma {:induction false} ApprovalsAreSafe(steps: seq<Step>)
    ensures Inv(Run(steps))
    ensures forall id :: 0 <= id < |Run(steps).requests| ==> SafeRequest(Run(steps), id)
    ensures |Run(steps).tables.resolved| <= MAX_RESOLVED
  {
    if steps != [] {
      ApprovalsAreSafe(steps[..|steps| - 1]);
      NextKeepsInv(Run(steps[..|steps| - 1]), steps[|steps| - 1]);
    }
    var s := Run(steps);
    forall id | 0 <= id < |s.requests|
      ensures SafeRequest(s, id)
    {
      assert RequestInv(s, id);
      var r := s.requests[id];
      if r.phase.Returned? && r.phase.answer.Some? {
        LastForIsOne(s.accepted[..r.readAt], id);
        var a :| a in s.accepted[..r.readAt] && a.id == id && a.value == r.phase.answer.value;
        assert a in s.accepted && a == Submission(id, r.session, r.phase.answer.value);
      }
    }
  }

  // ---- Which of several responses stands -----------------------------------------------------------

  /** A response that an entry's owner may give. */
  predicate Acceptable(e: Entry, id: nat, a: Submission) {
    a.id == id && a.session == e.session && a.value in e.choices
  }

  function AcceptableTo(e: Entry, id: nat): Submission -> bool {
    (a: Submission) => Acceptable(e, id, a)
  }

  /** The tables after any list of responses, to whatever ids. */
  function RespondedAll(t: Tables, responses: seq<Submission>): Tables {
    if responses == [] then t
    else
      var a := responses[|responses| - 1];
      Responded(RespondedAll(t, responses[..|responses| - 1]), a.id, a.session, a.value).0
  }

  /** A pending entry ends up with the value of the last acceptable response to it; if there is
      none it is as before. */
  lemma {:induction false} LastAcceptableStands(t: Tables, id: nat, responses: seq<Submission>)
    requires id in t.pending
    ensures var e := t.pending[id];
            var given := Filter(responses, AcceptableTo(e, id));
            var u := RespondedAll(t, responses);
            && id in u.pending
            && u.pending[id]
               == if given == [] then e else e.(choice := Some(given[|given| - 1].value))
  {
    if responses != [] {
      var init, a := responses[..|responses| - 1], responses[|responses| - 1];
      var e := t.pending[id];
      LastAcceptableStands(t, id, init);
      ResponseTouchesOnlyItsId(RespondedAll(t, init), a.id, a.session, a.value);
      assert responses == init + [a];
      FilterConcat(init, [a], AcceptableTo(e, id));
      assert [a][1..] == [] && Filter([a][1..], AcceptableTo(e, id)) == [];
      assert Filter([a], AcceptableTo(e, id)) == if Acceptable(e, id, a) then [a] else [];
    }
  }

  /** So the first acceptable response stands exactly when the last one says the same; a second one
      with another value overwrites it. */
  lemma {:induction false} FirstStandsExactlyWhen(t: Tables, id: nat, responses: seq<Submission>)
    requires id in t.pending && Filter(responses, AcceptableTo(t.pending[id], id)) != []
    ensures var given := Filter(responses, AcceptableTo(t.pending[id], id));
            var u := RespondedAll(t, responses);
            id in u.pending
            && (u.pending[id].choice == Some(given[0].value)
                <==> given[|given| - 1].value == given[0].value)
  {
    LastAcceptableStands(t, id, responses);
  }

  /** The same in the step system: a request that returned an answer returned that of its first
      accepted response exactly when the last one accepted before its read carries the same value. */
  lemma {:induction false} ReturnsFirstExactlyWhen(steps: seq<Step>, id: nat)
    requires id < |Run(steps).requests| && Run(steps).requests[id].phase.Returned?
    requires Run(steps).requests[id].phase.answer.Some?
    ensures var s := Run(steps);
            var r := s.requests[id];
            r.readAt <= |s.accepted|
            && var given := Filter(s.accepted[..r.readAt], ForId(id));
               given != []
               && (r.phase.answer.value == given[0].value
                   <==> given[|given| - 1].value == given[0].value)
  {
    ApprovalsAreSafe(steps);
    var s := Run(steps);
    assert SafeRequest(s, id);
    LastForIsLast(s.accepted[..s.requests[id].readAt], id);
  }

  function ForId(id: nat): Submission -> bool { (a: Submission) => a.id == id }

  lemma {:induction false} LastForIsLast(accepted: seq<Submission>, id: nat)
    ensures var given := Filter(accepted, ForId(id));
            LastFor(accepted, id) == if given == [] then None else Some(given[|given| - 1].value)
  {
    if accepted != [] {
      var init, a := accepted[..|accepted| - 1], accepted[|accepted| - 1];
      LastForIsLast(init, id);
      assert accepted == init + [a];
      FilterConcat(init, [a], ForId(id));
      assert [a][1..] == [] && Filter([a][1..], ForId(id)) == [];
      assert Filter([a], ForId(id)) == if a.id == id then [a] else [];
    }
  }

  /** While a request is pending a second valid response overwrites the first. */
  lemma {:induction false} SecondResponseOverwrites(t: Tables, id: nat, first: string, second: string)
    requires id in t.pending && first in t.pending[id].choices && second in t.pending[id].choices
    ensures var session := t.pending[id].session;
            var u := RespondedAll(t, [Submission(id, session, first), Submission(id, session, second)]);
            && id in u.pending && u.pending[id].choice == Some(second)
            && (u.pending[id].choice == Some(first) <==> first == second)
  {
    var e := t.pending[id];
    var responses := [Submission(id, e.session, first), Submission(id, e.session, second)];
    FilterAll(responses, AcceptableTo(e, id));
    LastAcceptableStands(t, id, responses);
  }
}
