/** Filling in the tool_call_id that old stored messages lack
    (qi_agent/storage/sqlite_store.py, `_repair_tool_call_ids`). */
module Repair {
  import opened Basics
  import opened Transcript
  import ContextManager
  import SharedHistory

  function Decimal(n: nat): string {
    if n < 10 then ["0123456789"[n]] else Decimal(n / 10) + ["0123456789"[n % 10]]
  }

  function NonEmptyIds(calls: seq<ToolRequest>): seq<string> {
    if calls == [] then []
    else (if calls[0].id != "" then [calls[0].id] else []) + NonEmptyIds(calls[1..])
  }

  predicate Lacks(m: Message) { m.role == Tool && m.callId.None? }

  /** The ids still waiting for an answer after a message. */
  function Waiting(m: Message, pending: seq<string>): seq<string> {
    if m.role == Assistant then NonEmptyIds(m.calls)
    else if Lacks(m) && pending != [] then pending[1..]
    else pending
  }

  function Fixed(m: Message, pending: seq<string>, total: nat): Message {
    if !Lacks(m) then m
    else m.(callId := Some(if pending != [] then pending[0] else "call_repair_" + Decimal(total)))
  }

  function Repaired(ms: seq<Message>, pending: seq<string>, total: nat): (r: seq<Message>)
    ensures |r| == |ms|
  {
    if ms == [] then []
    else [Fixed(ms[0], pending, total)] + Repaired(ms[1..], Waiting(ms[0], pending), total)
  }

  function WaitingAfter(ms: seq<Message>, pending: seq<string>): seq<string> {
    if ms == [] then pending else WaitingAfter(ms[1..], Waiting(ms[0], pending))
  }

  lemma {:induction false} RepairedSnoc(
    ms: seq<Message>, m: Message, pending: seq<string>, total: nat)
    ensures Repaired(ms + [m], pending, total)
         == Repaired(ms, pending, total) + [Fixed(m, WaitingAfter(ms, pending), total)]
    ensures WaitingAfter(ms + [m], pending) == Waiting(m, WaitingAfter(ms, pending))
  {
    if ms == [] {
      assert [] + [m] == [m];
    } else {
      assert (ms + [m])[1..] == ms[1..] + [m] && (ms + [m])[0] == ms[0];
      RepairedSnoc(ms[1..], m, Waiting(ms[0], pending), total);
    }
  }

  /** The loop of `_repair_tool_call_ids`, which changes the messages in place. */
  method RepairToolCallIds(messages: array<Message>)
    modifies messages
    ensures messages[..] == Repaired(old(messages[..]), [], messages.Length)
  {
    var pending: seq<string> := [];
    ghost var was := messages[..];
    for i := 0 to messages.Length
      invariant forall j :: i <= j < messages.Length ==> messages[j] == was[j]
      invariant messages[..i] == Repaired(was[..i], [], messages.Length)
      invariant pending == WaitingAfter(was[..i], [])
    {
      assert was[..i + 1] == was[..i] + [was[i]];
      RepairedSnoc(was[..i], was[i], [], messages.Length);
      var m := messages[i];
      if m.role == Assistant {
        pending := NonEmptyIds(m.calls);
      } else if m.role == Tool && m.callId.None? {
        if pending != [] {
          messages[i] := m.(callId := Some(pending[0]));
          pending := pending[1..];
        } else {
          messages[i] := m.(callId := Some("call_repair_" + Decimal(messages.Length)));
        }
      }
      assert messages[..i + 1] == messages[..i] + [messages[i]];
    }
    assert was[..messages.Length] == was && messages[..messages.Length] == messages[..];
  }

  // ---- What repair leaves alone -------------------------------------------------------------

  /** On any input every tool message ends up with an id, and nothing else changes: not a
      message of another role, not an id that was there. */
  lemma {:induction false} RepairOnlyFillsIn(ms: seq<Message>, pending: seq<string>, total: nat)
    ensures var r := Repaired(ms, pending, total);
            forall i :: 0 <= i < |ms| ==>
              && !Lacks(r[i])
              && (!Lacks(ms[i]) ==> r[i] == ms[i])
              && r[i].(callId := None) == ms[i].(callId := None)
  {
    if ms != [] {
      RepairOnlyFillsIn(ms[1..], Waiting(ms[0], pending), total);
    }
  }

  lemma {:induction false} NothingToFill(ms: seq<Message>, pending: seq<string>, total: nat)
    requires forall m :: m in ms ==> !Lacks(m)
    ensures Repaired(ms, pending, total) == ms
  {
    if ms != [] {
      NothingToFill(ms[1..], Waiting(ms[0], pending), total);
    }
  }

  lemma {:induction false} RepairTwice(ms: seq<Message>)
    ensures Repaired(Repaired(ms, [], |ms|), [], |ms|) == Repaired(ms, [], |ms|)
  {
    RepairOnlyFillsIn(ms, [], |ms|);
    NothingToFill(Repaired(ms, [], |ms|), [], |ms|);
  }

  // ---- Repair undoes the loss of ids ----------------------------------------------------------

  function Stripped(ms: seq<Message>): seq<Message> {
    Map(ms, (m: Message) => if m.role == Tool then m.(callId := None) else m)
  }

  /** Every tool message answers the oldest unanswered call of the assistant message before it. */
  predicate InCallOrder(ms: seq<Message>, pending: seq<string>) {
    ms == [] ||
    if ms[0].role == Tool then
      pending != [] && ms[0].callId == Some(pending[0]) && InCallOrder(ms[1..], pending[1..])
    else
      InCallOrder(ms[1..], if ms[0].role == Assistant then NonEmptyIds(ms[0].calls) else pending)
  }

  lemma {:induction false} RepairInverts(ms: seq<Message>, pending: seq<string>, total: nat)
    requires InCallOrder(ms, pending)
    ensures Repaired(Stripped(ms), pending, total) == ms
  {
    if ms != [] {
      assert Stripped(ms)[1..] == Stripped(ms[1..]);
      var bare := Stripped(ms)[0];
      RepairInverts(ms[1..], Waiting(bare, pending), total);
    }
  }

  ghost predicate IdsNonEmpty(ms: seq<Message>) {
    forall m, c :: m in ms && c in m.calls ==> c.id != ""
  }

  function IdsOf(calls: seq<ToolRequest>): seq<string> { Map(calls, (c: ToolRequest) => c.id) }

  lemma {:induction false} AllIdsCount(calls: seq<ToolRequest>)
    requires forall c :: c in calls ==> c.id != ""
    ensures NonEmptyIds(calls) == IdsOf(calls)
  {
    if calls != [] {
      AllIdsCount(calls[1..]);
    }
  }

  lemma {:induction false} AnswersInOrder(
    tools: seq<Message>, ids: seq<string>, later: seq<Message>)
    requires |tools| == |ids|
    requires forall i :: 0 <= i < |ids| ==> tools[i].role == Tool && tools[i].callId == Some(ids[i])
    requires forall pending :: InCallOrder(later, pending)
    ensures InCallOrder(tools + later, ids)
  {
    if tools == [] {
      assert tools + later == later;
    } else {
      assert (tools + later)[1..] == tools[1..] + later;
      AnswersInOrder(tools[1..], ids[1..], later);
    }
  }

  lemma {:induction false} SettledGroupInOrder(g: Group, later: seq<Message>, pending: seq<string>)
    requires Settled(g) && IdsNonEmpty(g)
    requires forall p :: InCallOrder(later, p)
    ensures InCallOrder(g + later, pending)
  {
    assert (g + later)[1..] == g[1..] + later;
    if Requests(g[0]) {
      AllIdsCount(g[0].calls);
      if |g| > 1 {
        AnswersInOrder(g[1..], IdsOf(g[0].calls), later);
      } else {
        assert g[1..] + later == later;
      }
    } else {
      assert g[1..] + later == later;
    }
  }

  lemma {:induction false} SettledIsInOrder(ms: seq<Message>, pending: seq<string>)
    requires AllGroups(ms, Settled) && IdsNonEmpty(ms)
    ensures InCallOrder(ms, pending)
    decreases |ms|
  {
    if ms != [] {
      var n := GroupLength(ms);
      var g, later := ms[..n], ms[n..];
      FirstGroup(ms, Settled);
      forall p
        ensures InCallOrder(later, p)
      {
        SettledIsInOrder(later, p);
      }
      SettledGroupInOrder(g, later, pending);
      assert g + later == ms;
    }
  }

  /** System messages in between do not matter. */
  lemma {:induction false} InOrderOfRest(ms: seq<Message>, pending: seq<string>)
    ensures InCallOrder(ms, pending) <==> InCallOrder(Rest(ms), pending)
  {
    if ms != [] {
      var m := ms[0];
      if NotSystem(m) {
        assert Rest(ms) == [m] + Rest(ms[1..]);
        assert Rest(ms)[1..] == Rest(ms[1..]);
        InOrderOfRest(ms[1..], if m.role == Assistant then NonEmptyIds(m.calls)
                               else if m.role == Tool && pending != [] then pending[1..]
                               else pending);
      } else {
        assert Rest(ms) == Rest(ms[1..]);
        InOrderOfRest(ms[1..], pending);
      }
    }
  }

  /** Losing every tool_call_id of a transcript that the loop can leave, stopped ones included,
      and repairing it gives the transcript back. */
  lemma {:induction false} RepairUndoesLossOfIds(ms: seq<Message>)
    requires AllGroups(Rest(ms), Settled) && IdsNonEmpty(ms)
    ensures Repaired(Stripped(ms), [], |ms|) == ms
  {
    FilterHolds(ms, NotSystem);
    SettledIsInOrder(Rest(ms), []);
    InOrderOfRest(ms, []);
    RepairInverts(ms, [], |ms|);
  }

  /** The transcripts of any run that starts from a system message and in which each chat begins when
      no earlier loop is live, whatever was stopped, failed, trimmed, summarised or switched on the
      way. */
  lemma {:induction false} SessionTranscriptsAreRepaired(
    prompt: string, steps: seq<SharedHistory.Step>, c: ContextManager.Config)
    requires var start := StartOf(prompt);
             && SharedHistory.CoherentSteps(steps) && SharedHistory.Apart(start, steps, c)
             && SharedHistory.NoneLive(SharedHistory.Run(start, steps, c))
    ensures var ms := SharedHistory.Run(StartOf(prompt), steps, c).messages;
            IdsNonEmpty(ms) ==> Repaired(Stripped(ms), [], |ms|) == ms
  {
    var start := StartOf(prompt);
    var only := start.messages[0];
    assert start.messages[1..] == [] && !NotSystem(only);
    assert Filter(start.messages[1..], NotSystem) == [];
    SharedHistory.ApartStaysSettled(start, steps, c);
    var ms := SharedHistory.Run(start, steps, c).messages;
    if IdsNonEmpty(ms) {
      RepairUndoesLossOfIds(ms);
    }
  }

  function StartOf(prompt: string): SharedHistory.State {
    SharedHistory.State(
      [Message(System, Some(prompt), [], None)], ContextManager.FRESH_PLUGIN, [], [])
  }
}
