/** Messages of a conversation, how they fall into groups, and what it means for every
    tool call to be answered (qi_agent/context/window.py). */
module Transcript {
  import opened Basics

  datatype Role = System | User | Assistant | Tool

  /** One entry of an assistant message's `tool_calls`. `jsonLength` is the length of the
      entry's JSON text, the only thing the token estimate reads from it. */
  datatype ToolRequest = ToolRequest(id: string, name: string, arguments: string, jsonLength: nat)

  datatype Message = Message(
    role: Role, content: Option<string>, calls: seq<ToolRequest>, callId: Option<string>)

  type Group = seq<Message>

  function UserMessage(text: string): Message { Message(User, Some(text), [], None) }

  function ToolAnswer(id: string, output: string): Message {
    Message(Tool, Some(output), [], Some(id))
  }

  predicate IsSystem(m: Message) { m.role == System }

  predicate NotSystem(m: Message) { m.role != System }

  function Systems(ms: seq<Message>): seq<Message> { Filter(ms, IsSystem) }

  /** The part of a history that is grouped: everything but the system messages. */
  function Rest(ms: seq<Message>): seq<Message> { Filter(ms, NotSystem) }

  // ---- Grouping -------------------------------------------------------------------

  /** A message after which tool answers join the same group. */
  predicate Opens(m: Message) { m.role == Tool || (m.role == Assistant && m.calls != []) }

  function LeadingTools(ms: seq<Message>): (n: nat)
    ensures n <= |ms|
    ensures forall i :: 0 <= i < n ==> ms[i].role == Tool
    ensures n < |ms| ==> ms[n].role != Tool
  {
    if ms == [] || ms[0].role != Tool then 0 else 1 + LeadingTools(ms[1..])
  }

  function GroupLength(ms: seq<Message>): (n: nat)
    requires ms != []
    ensures 1 <= n <= |ms|
  {
    1 + if Opens(ms[0]) then LeadingTools(ms[1..]) else 0
  }

  /** The groups of a history: what `GroupMessages` computes step by step. */
  function Groups(ms: seq<Message>): seq<Group>
    decreases |ms|
  {
    if ms == [] then [] else [ms[..GroupLength(ms)]] + Groups(ms[GroupLength(ms)..])
  }

  /** A list that grouping keeps in one piece. */
  predicate IsGroup(g: Group) {
    g != [] && (|g| > 1 ==> Opens(g[0])) && forall i :: 1 <= i < |g| ==> g[i].role == Tool
  }

  /** A list that a preceding group cannot absorb. */
  predicate StartsFresh(ms: seq<Message>) { ms != [] ==> ms[0].role != Tool }

  lemma {:induction false} CloseGroup(g: Group, ms: seq<Message>)
    requires IsGroup(g) && (StartsFresh(ms) || !Opens(g[0]))
    ensures Groups(g + ms) == [g] + Groups(ms)
  {
    var whole := g + ms;
    assert whole[0] == g[0];
    var n := GroupLength(whole);
    if Opens(g[0]) {
      var tail := whole[1..];
      assert forall i :: 0 <= i < |g| - 1 ==> tail[i] == g[i + 1];
      assert ms != [] ==> tail[|g| - 1] == ms[0];
    }
    assert n == |g|;
    assert whole[..n] == g && whole[n..] == ms;
  }

  lemma {:induction false} HeadGroup(ms: seq<Message>)
    requires ms != []
    ensures IsGroup(ms[..GroupLength(ms)])
    ensures StartsFresh(ms[GroupLength(ms)..]) || !Opens(ms[0])
  {
  }

  /** Grouping loses, adds and reorders nothing. */
  lemma {:induction false} FlattenGroups(ms: seq<Message>)
    ensures Flatten(Groups(ms)) == ms
    decreases |ms|
  {
    if ms != [] {
      FlattenGroups(ms[GroupLength(ms)..]);
    }
  }

  /** Grouping splits at every message that no open group can absorb. */
  lemma {:induction false} GroupsConcat(a: seq<Message>, b: seq<Message>)
    requires StartsFresh(b)
    ensures Groups(a + b) == Groups(a) + Groups(b)
    decreases |a|
  {
    if a == [] {
      assert a + b == b;
    } else {
      var n := GroupLength(a);
      GroupsConcat(a[n..], b);
      FirstOfConcat(a, b);
      ConcatThree([a[..n]], Groups(a[n..]), Groups(b));
    }
  }

  lemma {:induction false} FirstOfConcat(a: seq<Message>, b: seq<Message>)
    requires a != [] && StartsFresh(b)
    ensures Groups(a + b) == [a[..GroupLength(a)]] + Groups(a[GroupLength(a)..] + b)
  {
    var n := GroupLength(a);
    HeadGroup(a);
    assert a + b == a[..n] + (a[n..] + b);
    assert StartsFresh(a[n..] + b) || !Opens(a[0]);
    CloseGroup(a[..n], a[n..] + b);
  }

  /** Grouping any run of consecutive groups again gives those groups. */
  lemma {:induction false} RegroupSuffix(ms: seq<Message>, k: nat)
    requires k <= |Groups(ms)|
    ensures Groups(Flatten(Groups(ms)[k..])) == Groups(ms)[k..]
    decreases |ms|
  {
    if k == 0 {
      FlattenGroups(ms);
    } else {
      var n := GroupLength(ms);
      RegroupSuffix(ms[n..], k - 1);
      assert Groups(ms)[k..] == Groups(ms[n..])[k - 1..];
    }
  }

  lemma {:induction false} RegroupPrefix(ms: seq<Message>, k: nat)
    requires k <= |Groups(ms)|
    ensures Groups(Flatten(Groups(ms)[..k])) == Groups(ms)[..k]
    decreases |ms|
  {
    if k > 0 {
      var n := GroupLength(ms);
      RegroupPrefix(ms[n..], k - 1);
      HeadGroup(ms);
      var tail := Groups(ms[n..])[..k - 1];
      assert Groups(ms)[..k] == [ms[..n]] + tail;
      if k > 1 {
        assert tail[0] == ms[n..][..GroupLength(ms[n..])];
        assert Flatten(tail)[0] == ms[n];
      }
      CloseGroup(ms[..n], Flatten(tail));
    }
  }

  /** Where the grouping loop stands: groups closed, group open, messages not yet read. */
  ghost predicate Grouping(
    groups: seq<Group>, open: Option<Group>, later: seq<Message>, all: seq<Message>)
  {
    match open
    case None => groups + Groups(later) == Groups(all)
    case Some(g) => IsGroup(g) && Opens(g[0]) && groups + Groups(g + later) == Groups(all)
  }

  lemma {:induction false} GroupingTool(
    groups: seq<Group>, open: Option<Group>, m: Message, later: seq<Message>, all: seq<Message>)
    requires Grouping(groups, open, [m] + later, all) && m.role == Tool
    ensures Grouping(groups, Some(if open.None? then [m] else open.value + [m]), later, all)
  {
    if open.Some? {
      assert open.value + ([m] + later) == (open.value + [m]) + later;
    }
  }

  lemma {:induction false} GroupingClose(
    groups: seq<Group>, g: Group, later: seq<Message>, all: seq<Message>)
    requires Grouping(groups, Some(g), later, all) && StartsFresh(later)
    ensures Grouping(groups + [g], None, later, all)
  {
    CloseGroup(g, later);
    assert groups + ([g] + Groups(later)) == (groups + [g]) + Groups(later);
  }

  lemma {:induction false} GroupingSingle(
    groups: seq<Group>, m: Message, later: seq<Message>, all: seq<Message>)
    requires Grouping(groups, None, [m] + later, all) && !Opens(m)
    ensures Grouping(groups + [[m]], None, later, all)
  {
    CloseGroup([m], later);
    assert groups + ([[m]] + Groups(later)) == (groups + [[m]]) + Groups(later);
  }

  /** The loop of `_group_messages`: the groups closed so far and the group still open. */
  method GroupMessages(messages: seq<Message>) returns (groups: seq<Group>)
    ensures groups == Groups(messages)
  {
    groups := [];
    var open: Option<Group> := None;
    assert messages[0..] == messages;
    for i := 0 to |messages|
      invariant Grouping(groups, open, messages[i..], messages)
    {
      var msg := messages[i];
      ghost var later := messages[i + 1..];
      assert messages[i..] == [msg] + later;
      if msg.role == Tool {
        GroupingTool(groups, open, msg, later, messages);
        open := Some(if open.None? then [msg] else open.value + [msg]);
      } else {
        if open.Some? {
          GroupingClose(groups, open.value, [msg] + later, messages);
          groups := groups + [open.value];
        }
        if msg.role == Assistant && msg.calls != [] {
          open := Some([msg]);
        } else {
          GroupingSingle(groups, msg, later, messages);
          groups := groups + [[msg]];
          open := None;
        }
      }
    }
    if open.Some? {
      GroupingClose(groups, open.value, [], messages);
      groups := groups + [open.value];
    }
  }

  // ---- Answered tool calls ----------------------------------------------------------

  /** `tools` are the answers to `calls`, one each, in call order. */
  predicate Answers(tools: seq<Message>, calls: seq<ToolRequest>) {
    && |tools| == |calls|
    && forall i :: 0 <= i < |calls| ==> tools[i].role == Tool && tools[i].callId == Some(calls[i].id)
  }

  predicate Requests(m: Message) { m.role == Assistant && m.calls != [] }

  /** Read left to right without any grouping: each assistant message that requests tools is
      followed at once by exactly the answers it asked for, and no answer stands elsewhere. */
  predicate Paired(ms: seq<Message>)
    decreases |ms|
  {
    ms == [] ||
    if Requests(ms[0]) then
      var n := |ms[0].calls|;
      n < |ms| && Answers(ms[1..1 + n], ms[0].calls) && Paired(ms[1 + n..])
    else
      ms[0].role != Tool && Paired(ms[1..])
  }

  /** Pairing of a history is pairing of its non-system part. */
  predicate ToolPaired(ms: seq<Message>) { Paired(Rest(ms)) }

  /** A group whose calls are all answered. */
  predicate Complete(g: Group) {
    && g != [] && g[0].role != Tool
    && (if Requests(g[0]) then Answers(g[1..], g[0].calls) else |g| == 1)
  }

  /** A group that is complete, or whose calls a stop left without any answer. */
  predicate Settled(g: Group) { Complete(g) || (|g| == 1 && Requests(g[0])) }

  ghost predicate AllGroups(ms: seq<Message>, p: Group -> bool) {
    forall g :: g in Groups(ms) ==> p(g)
  }

  lemma {:induction false} FirstGroup(ms: seq<Message>, p: Group -> bool)
    requires AllGroups(ms, p) && ms != []
    ensures p(ms[..GroupLength(ms)]) && AllGroups(ms[GroupLength(ms)..], p)
  {
    var g, later := ms[..GroupLength(ms)], ms[GroupLength(ms)..];
    assert Groups(ms) == [g] + Groups(later);
    assert g in Groups(ms);
    forall h | h in Groups(later)
      ensures p(h)
    {
      assert h in Groups(ms);
    }
  }

  /** Pairing is decided group by group: the reason whole groups can be dropped. */
  lemma {:induction false} PairedIffGroupsComplete(ms: seq<Message>)
    ensures Paired(ms) <==> AllGroups(ms, Complete)
    decreases |ms|
  {
    if ms == [] {
      return;
    }
    var n := GroupLength(ms);
    var g := ms[..n];
    assert Groups(ms) == [g] + Groups(ms[n..]);
    PairedIffGroupsComplete(ms[n..]);
    assert AllGroups(ms, Complete) <==> Complete(g) && AllGroups(ms[n..], Complete) by {
      assert forall h :: h in Groups(ms) <==> h == g || h in Groups(ms[n..]);
    }
    if Requests(ms[0]) {
      var c := |ms[0].calls|;
      assert g[0] == ms[0] && g[1..] == ms[1..n];
      if Paired(ms) {
        AnsweredGroupLength(ms);
      }
    } else if !Opens(ms[0]) {
      assert g == [ms[0]];
    } else {
      assert g[0] == ms[0];
    }
  }

  lemma {:induction false} AnsweredGroupLength(ms: seq<Message>)
    requires Paired(ms) && ms != [] && Requests(ms[0])
    ensures GroupLength(ms) == 1 + |ms[0].calls|
  {
    var c := |ms[0].calls|;
    var tail := ms[1..];
    var after := ms[1 + c..];
    assert forall i :: 0 <= i < c ==> tail[i] == ms[1..1 + c][i];
    assert after != [] ==> tail[c] == after[0] && after[0].role != Tool;
  }

  lemma {:induction false} PairedConcat(a: seq<Message>, b: seq<Message>)
    requires StartsFresh(b)
    ensures Paired(a + b) <==> Paired(a) && Paired(b)
  {
    GroupsConcat(a, b);
    PairedIffGroupsComplete(a);
    PairedIffGroupsComplete(b);
    PairedIffGroupsComplete(a + b);
    assert forall g :: g in Groups(a + b) <==> g in Groups(a) || g in Groups(b);
  }

  lemma {:induction false} AllGroupsConcat(a: seq<Message>, b: seq<Message>, p: Group -> bool)
    requires StartsFresh(b)
    ensures AllGroups(a + b, p) <==> AllGroups(a, p) && AllGroups(b, p)
  {
    GroupsConcat(a, b);
    assert forall g :: g in Groups(a + b) <==> g in Groups(a) || g in Groups(b);
  }

  lemma {:induction false} RestConcat(a: seq<Message>, b: seq<Message>)
    ensures Rest(a + b) == Rest(a) + Rest(b)
  {
    FilterConcat(a, b, NotSystem);
  }

  lemma {:induction false} RestOfNonSystems(ms: seq<Message>)
    requires forall m :: m in ms ==> NotSystem(m)
    ensures Rest(ms) == ms
  {
    FilterAll(ms, NotSystem);
  }
}
