/** Several tool loops on one history (qi_agent/agents/agent_manager.py, `run`;
    qi_agent/agents/agent.py): a stopped call of `run` returns at once, its worker goes on, and the
    next call clears the stop flag, so that both loops append to the same list. Every interleaving of
    their accesses to the history, with the stop tests, the LLM and the tools arbitrary. */
module SharedHistory {
  import opened Basics
  import opened Transcript
  import opened ContextManager
  import opened Llm
  import Async = AsyncCompressor
  import A = AgentLoop

  /** Where a loop is: before the stop test of a turn; in the waterfall, with the list it read and
      what has become of it; before the call; waiting for the LLM; after the reply; waiting for the
      tools; appending the answers. */
  datatype Pc =
    | Top
    | Rewriting(read: seq<Message>, now: seq<Message>)
    | Sending
    | Asking
    | Replied(r: ChatResult)
    | Executing(r: ChatResult)
    | Answering(r: ChatResult, outputs: string -> string, k: nat)
    | Over

  datatype Thread = Thread(pc: Pc, turnsLeft: nat)

  /** The history and the context manager are shared; `sent` are the lists given to the LLM. */
  datatype State = State(
    messages: seq<Message>, plugin: Plugin, sent: seq<seq<Message>>, loops: seq<Thread>)

  /** What a loop does next. It may leave where a stop test or an exception can strike. A list that
      no handler replaced is the shared list itself, so storing it loses nothing; `copied` says that a
      handler returned an equal list of its own. */
  datatype Act =
    | Go
    | Leave
    | Handled(handler: A.Handler)
    | Stored(copied: bool)
    | Reply(r: ChatResult)
    | Outputs(outputs: string -> string)

  datatype Step =
    | Begin(input: string, maxTurns: nat)
    | By(i: nat, act: Act)
    | Progress(steps: seq<Async.Step>)

  function NextTurn(turnsLeft: nat): Pc { if turnsLeft == 0 then Over else Top }

  function Moved(s: State, i: nat, pc: Pc): State
    requires i < |s.loops|
  {
    s.(loops := s.loops[i := s.loops[i].(pc := pc)])
  }

  function Appended(s: State, m: Message): State { s.(messages := s.messages + [m]) }

  function AnswerOf(pc: Pc): Message
    requires pc.Answering? && pc.k < |pc.r.toolCalls|
  {
    ToolAnswer(pc.r.toolCalls[pc.k].id, pc.outputs(pc.r.toolCalls[pc.k].id))
  }

  function Gone(s: State, i: nat): State
    requires i < |s.loops|
  {
    var t := s.loops[i];
    match t.pc
    case Top =>
      if t.turnsLeft == 0 then Moved(s, i, Over)
      else s.(loops := s.loops[i := Thread(Rewriting(s.messages, s.messages), t.turnsLeft - 1)])
    case Sending => Moved(s.(sent := s.sent + [s.messages]), i, Asking)
    case Replied(r) =>
      Moved(Appended(s, r.assistantMessage), i, if r.toolCalls == [] then Over else Executing(r))
    case Answering(r, outputs, k) =>
      if k < |r.toolCalls| then
        Moved(Appended(s, AnswerOf(t.pc)), i,
              if k + 1 < |r.toolCalls| then Answering(r, outputs, k + 1) else NextTurn(t.turnsLeft))
      else s
    case _ => s
  }

  /** An act that does not fit changes nothing. */
  function Acted(s: State, i: nat, act: Act, c: Config): State
    requires i < |s.loops|
  {
    var pc := s.loops[i].pc;
    match act
    case Go => Gone(s, i)
    case Leave => if pc.Answering? then s else Moved(s, i, Over)
    case Handled(h) =>
      if pc.Rewriting? then
        var (plugin, now) := A.Handle(h, s.plugin, pc.now, c);
        Moved(s.(plugin := plugin), i, Rewriting(pc.read, now))
      else s
    case Stored(copied) =>
      if pc.Rewriting? then
        Moved(if !copied && pc.now == pc.read then s else s.(messages := pc.now), i, Sending)
      else s
    case Reply(r) =>
      if pc.Asking? then
        Moved(s.(plugin := PostLlm(s.plugin, A.Tokens(r), s.messages, c)), i, Replied(r))
      else s
    case Outputs(outputs) => if pc.Executing? then Moved(s, i, Answering(pc.r, outputs, 0)) else s
  }

  function Next(s: State, step: Step, c: Config): State {
    match step
    case Begin(input, maxTurns) =>
      Appended(s, UserMessage(input)).(loops := s.loops + [Thread(NextTurn(maxTurns), maxTurns)])
    case By(i, act) => if i < |s.loops| then Acted(s, i, act, c) else s
    case Progress(steps) => s.(plugin := Progressed(s.plugin, steps, c))
  }

  function Run(s: State, steps: seq<Step>, c: Config): State
    decreases |steps|
  {
    if steps == [] then s else Run(Next(s, steps[0], c), steps[1..], c)
  }

  predicate NoneLive(s: State) { forall i :: 0 <= i < |s.loops| ==> s.loops[i].pc.Over? }

  /** Every reply agrees with its calls. */
  ghost predicate CoherentSteps(steps: seq<Step>) {
    forall step :: step in steps && step.By? && step.act.Reply? ==> Coherent(step.act.r)
  }

  /** Each chat begins when no earlier loop is live. */
  predicate Apart(s: State, steps: seq<Step>, c: Config)
    decreases |steps|
  {
    steps == [] ||
    ((steps[0].Begin? ==> NoneLive(s)) && Apart(Next(s, steps[0], c), steps[1..], c))
  }

  ghost predicate NoBegin(steps: seq<Step>) { forall step :: step in steps ==> !step.Begin? }

  ghost predicate AllSent(s: State, p: Group -> bool) {
    forall ms :: ms in s.sent ==> AllGroups(Rest(ms), p)
  }

  // ---- One live loop ---------------------------------------------------------------------------

  /** A request and the first `k` of its answers end the history. */
  ghost predicate PartlyAnswered(
    ms: seq<Message>, r: ChatResult, outputs: string -> string, k: nat, p: Group -> bool)
  {
    && Coherent(r) && k <= |r.toolCalls| && r.toolCalls != [] && k < |ms|
    && ms[|ms| - k - 1..] == [r.assistantMessage] + A.Backfill(r.toolCalls, outputs)[..k]
    && AllGroups(Rest(ms[..|ms| - k - 1]), p)
  }

  /** What the history is like, as the only live loop goes. */
  ghost predicate Stands(pc: Pc, ms: seq<Message>, p: Group -> bool) {
    match pc
    case Rewriting(read, now) =>
      read == ms && AllGroups(Rest(ms), p) && AllGroups(Rest(now), p)
    case Replied(r) => Coherent(r) && AllGroups(Rest(ms), p)
    case Executing(r) => PartlyAnswered(ms, r, (_: string) => "", 0, p)
    case Answering(r, outputs, k) => k < |r.toolCalls| && PartlyAnswered(ms, r, outputs, k, p)
    case Over => AllGroups(Rest(ms), p) || A.TrailingUnanswered(ms, p)
    case _ => AllGroups(Rest(ms), p)
  }

  ghost predicate Inv(s: State, c: Config, p: Group -> bool) {
    && PluginInv(s.plugin, c, p) && AllSent(s, p)
    && (forall i :: 0 <= i < |s.loops| - 1 ==> s.loops[i].pc.Over?)
    && (if s.loops == [] then AllGroups(Rest(s.messages), p)
        else Stands(s.loops[|s.loops| - 1].pc, s.messages, p))
  }

  lemma {:induction false} HandleKeepsGroups(
    h: A.Handler, s: Plugin, ms: seq<Message>, c: Config, p: Group -> bool)
    requires PluginInv(s, c, p) && HoldsOfUsers(p) && AllGroups(Rest(ms), p)
    ensures var (s1, ms1) := A.Handle(h, s, ms, c);
            PluginInv(s1, c, p) && AllGroups(Rest(ms1), p)
  {
    match h
    case Mailbox(pieces) => A.AppendUser(ms, A.Join(pieces, " | "), p);
    case Manage(input) => PreStepKeepsGroups(s, ms, input, c, p);
    case Inject(_) =>
  }

  lemma {:induction false} RequestStands(ms: seq<Message>, r: ChatResult, p: Group -> bool)
    requires Coherent(r) && AllGroups(Rest(ms), p) && r.toolCalls != []
    ensures PartlyAnswered(ms + [r.assistantMessage], r, (_: string) => "", 0, p)
  {
    var asked := ms + [r.assistantMessage];
    assert asked[..|asked| - 1] == ms && asked[|asked| - 1..] == [r.assistantMessage];
    assert A.Backfill(r.toolCalls, (_: string) => "")[..0] == [];
    assert [r.assistantMessage] + [] == [r.assistantMessage];
  }

  lemma {:induction false} FinalAnswerStands(ms: seq<Message>, r: ChatResult, p: Group -> bool)
    requires Coherent(r) && AllGroups(Rest(ms), p) && r.toolCalls == [] && A.HoldsOfComplete(p)
    ensures AllGroups(Rest(ms + [r.assistantMessage]), p)
  {
    assert Complete([r.assistantMessage]);
    A.AppendGroup(ms, [r.assistantMessage], p);
  }

  /** The outputs do not matter before the first answer. */
  lemma {:induction false} NothingAnswered(
    ms: seq<Message>, r: ChatResult, one: string -> string, two: string -> string, p: Group -> bool)
    requires PartlyAnswered(ms, r, one, 0, p)
    ensures PartlyAnswered(ms, r, two, 0, p)
  {
    assert A.Backfill(r.toolCalls, one)[..0] == A.Backfill(r.toolCalls, two)[..0];
  }

  lemma {:induction false} OneMoreAnswer(
    ms: seq<Message>, r: ChatResult, outputs: string -> string, k: nat, p: Group -> bool)
    requires PartlyAnswered(ms, r, outputs, k, p) && k < |r.toolCalls| && A.HoldsOfComplete(p)
    ensures var id := r.toolCalls[k].id;
            var after := ms + [ToolAnswer(id, outputs(id))];
            && PartlyAnswered(after, r, outputs, k + 1, p)
            && (k + 1 == |r.toolCalls| ==> AllGroups(Rest(after), p))
  {
    var id, answers := r.toolCalls[k].id, A.Backfill(r.toolCalls, outputs);
    var after, n := ms + [ToolAnswer(id, outputs(id))], |ms| - k - 1;
    assert after[..n] == ms[..n];
    assert after[n..] == ms[n..] + [answers[k]];
    assert answers[..k + 1] == answers[..k] + [answers[k]];
    ConcatThree([r.assistantMessage], answers[..k], [answers[k]]);
    if k + 1 == |r.toolCalls| {
      assert answers[..k + 1] == answers;
      A.AnsweredKeepsGroups(ms[..n], r, outputs, p);
      ConcatThree(ms[..n], [r.assistantMessage], answers);
      assert after == ms[..n] + after[n..];
    }
  }

  lemma {:induction false} LeavingStands(pc: Pc, ms: seq<Message>, p: Group -> bool)
    requires Stands(pc, ms, p) && !pc.Answering?
    ensures Stands(Over, ms, p)
  {
    if pc.Executing? {
      assert ms[|ms| - 1] == ms[|ms| - 1..][0] == pc.r.assistantMessage;
    }
  }

  lemma {:induction false} OverStays(s: State, i: nat, act: Act, c: Config)
    requires i < |s.loops| && s.loops[i].pc.Over?
    ensures Acted(s, i, act, c) == s
  {
    assert s.loops[i].(pc := Over) == s.loops[i];
  }

  /** Only the last loop has moved. */
  lemma {:induction false} LastMoved(s: State, t: State, th: Thread, c: Config, p: Group -> bool)
    requires Inv(s, c, p) && s.loops != [] && t.loops == s.loops[|s.loops| - 1 := th]
    requires PluginInv(t.plugin, c, p) && AllSent(t, p) && Stands(th.pc, t.messages, p)
    ensures Inv(t, c, p)
  {
  }

  lemma {:induction false} ActKeepsInv(s: State, i: nat, act: Act, c: Config, p: Group -> bool)
    requires Inv(s, c, p) && A.HoldsOfComplete(p) && i < |s.loops|
    requires act.Reply? ==> Coherent(act.r)
    ensures Inv(Acted(s, i, act, c), c, p)
  {
    if s.loops[i].pc.Over? {
      OverStays(s, i, act, c);
    } else {
      assert i == |s.loops| - 1;
      match act {
        case Go => GoKeepsInv(s, i, c, p);
        case Handled(_) => HandledKeepsInv(s, i, act, c, p);
        case Reply(_) => ReplyKeepsInv(s, i, act, c, p);
        case _ => MoveKeepsInv(s, i, act, c, p);
      }
    }
  }

  lemma {:induction false} HandledKeepsInv(s: State, i: nat, act: Act, c: Config, p: Group -> bool)
    requires Inv(s, c, p) && A.HoldsOfComplete(p) && i == |s.loops| - 1 && act.Handled?
    ensures Inv(Acted(s, i, act, c), c, p)
  {
    var pc := s.loops[i].pc;
    if pc.Rewriting? {
      HandleKeepsGroups(act.handler, s.plugin, pc.now, c, p);
      var t := Acted(s, i, act, c);
      LastMoved(s, t, t.loops[i], c, p);
    }
  }

  lemma {:induction false} ReplyKeepsInv(s: State, i: nat, act: Act, c: Config, p: Group -> bool)
    requires Inv(s, c, p) && i == |s.loops| - 1 && act.Reply? && Coherent(act.r)
    ensures Inv(Acted(s, i, act, c), c, p)
  {
    if s.loops[i].pc.Asking? {
      PostLlmKeepsInv(s.plugin, A.Tokens(act.r), s.messages, c, p);
      var t := Acted(s, i, act, c);
      LastMoved(s, t, t.loops[i], c, p);
    }
  }

  lemma {:induction false} MoveKeepsInv(s: State, i: nat, act: Act, c: Config, p: Group -> bool)
    requires Inv(s, c, p) && i == |s.loops| - 1 && (act.Leave? || act.Stored? || act.Outputs?)
    ensures Inv(Acted(s, i, act, c), c, p)
  {
    var pc, t := s.loops[i].pc, Acted(s, i, act, c);
    if act.Leave? && !pc.Answering? {
      LeavingStands(pc, s.messages, p);
      LastMoved(s, t, t.loops[i], c, p);
    } else if act.Stored? && pc.Rewriting? {
      LastMoved(s, t, t.loops[i], c, p);
    } else if act.Outputs? && pc.Executing? {
      NothingAnswered(s.messages, pc.r, (_: string) => "", act.outputs, p);
      LastMoved(s, t, t.loops[i], c, p);
    }
  }

  lemma {:induction false} GoKeepsInv(s: State, i: nat, c: Config, p: Group -> bool)
    requires Inv(s, c, p) && A.HoldsOfComplete(p) && i == |s.loops| - 1
    ensures Inv(Gone(s, i), c, p)
  {
    var t := Gone(s, i);
    match s.loops[i].pc
    case Top => LastMoved(s, t, t.loops[i], c, p);
    case Sending => LastMoved(s, t, t.loops[i], c, p);
    case Replied(r) =>
      if r.toolCalls == [] {
        FinalAnswerStands(s.messages, r, p);
      } else {
        RequestStands(s.messages, r, p);
      }
      LastMoved(s, t, t.loops[i], c, p);
    case Answering(r, outputs, k) =>
      OneMoreAnswer(s.messages, r, outputs, k, p);
      LastMoved(s, t, t.loops[i], c, p);
    case _ =>
  }

  lemma {:induction false} StepKeepsInv(s: State, step: Step, c: Config, p: Group -> bool)
    requires Inv(s, c, p) && A.HoldsOfComplete(p) && CoherentSteps([step])
    requires step.Begin? ==> NoneLive(s) && AllGroups(Rest(s.messages), p)
    ensures Inv(Next(s, step, c), c, p)
  {
    match step
    case Begin(input, _) =>
      A.AppendUser(s.messages, input, p);
    case By(i, act) =>
      assert step in [step];
      if i < |s.loops| {
        ActKeepsInv(s, i, act, c, p);
      }
    case Progress(steps) => WorkKeepsInv(s.plugin.compressor, steps, c.compressor, p);
  }

  /** With nobody live the history is as the last loop left it. */
  lemma {:induction false} RestingIsSettled(s: State, c: Config)
    requires Inv(s, c, Settled) && NoneLive(s)
    ensures AllGroups(Rest(s.messages), Settled)
  {
    if A.TrailingUnanswered(s.messages, Settled) {
      A.TrailingIsSettled(s.messages);
    }
  }

  /** Over every interleaving in which each chat begins when no earlier loop is live, any number of
      stopped and failed chats included: every list sent consists of settled groups, and so does the
      history whenever no loop is live. */
  lemma {:induction false} ApartStaysSettled(s: State, steps: seq<Step>, c: Config)
    requires Inv(s, c, Settled) && CoherentSteps(steps) && Apart(s, steps, c)
    ensures Inv(Run(s, steps, c), c, Settled) && AllSent(Run(s, steps, c), Settled)
    ensures NoneLive(Run(s, steps, c)) ==> AllGroups(Rest(Run(s, steps, c).messages), Settled)
    decreases |steps|
  {
    if steps == [] {
      if NoneLive(s) {
        RestingIsSettled(s, c);
      }
    } else {
      assert steps[0] in steps;
      if steps[0].Begin? {
        RestingIsSettled(s, c);
      }
      StepKeepsInv(s, steps[0], c, Settled);
      ApartStaysSettled(Next(s, steps[0], c), steps[1..], c);
    }
  }

  lemma {:induction false} QuietKeepsInv(s: State, steps: seq<Step>, c: Config, p: Group -> bool)
    requires Inv(s, c, p) && A.HoldsOfComplete(p) && CoherentSteps(steps) && NoBegin(steps)
    ensures Inv(Run(s, steps, c), c, p)
    decreases |steps|
  {
    if steps != [] {
      assert steps[0] in steps;
      StepKeepsInv(s, steps[0], c, p);
      QuietKeepsInv(Next(s, steps[0], c), steps[1..], c, p);
    }
  }

  // ---- What the states of a run look like --------------------------------------------------------

  predicate WellFormedPc(t: Thread) {
    match t.pc
    case Top => t.turnsLeft > 0
    case Replied(r) => Coherent(r)
    case Executing(r) => Coherent(r) && r.toolCalls != []
    case Answering(r, _, k) => k < |r.toolCalls|
    case _ => true
  }

  ghost predicate WellFormed(s: State) {
    forall i :: 0 <= i < |s.loops| ==> WellFormedPc(s.loops[i])
  }

  lemma {:induction false} RunKeepsWellFormed(s: State, steps: seq<Step>, c: Config)
    requires WellFormed(s) && CoherentSteps(steps)
    ensures WellFormed(Run(s, steps, c))
    decreases |steps|
  {
    if steps != [] {
      assert steps[0] in steps;
      RunKeepsWellFormed(Next(s, steps[0], c), steps[1..], c);
    }
  }

  lemma {:induction false} RunConcat(s: State, a: seq<Step>, b: seq<Step>, c: Config)
    ensures Run(s, a + b, c) == Run(Run(s, a, c), b, c)
    decreases |a|
  {
    if a == [] {
      assert a + b == b;
    } else {
      assert (a + b)[0] == a[0] && (a + b)[1..] == a[1..] + b;
      RunConcat(Next(s, a[0], c), a[1..], b, c);
    }
  }

  lemma {:induction false} RunSnoc(s: State, a: seq<Step>, step: Step, c: Config)
    ensures Run(s, a + [step], c) == Next(Run(s, a, c), step, c)
  {
    RunConcat(s, a, [step], c);
    assert [step][1..] == [];
  }

  // ---- When a second loop can do harm ------------------------------------------------------------

  ghost predicate Harmless(steps: seq<Step>) { NoBegin(steps) && CoherentSteps(steps) }

  lemma {:induction false} HarmlessConcat(a: seq<Step>, b: seq<Step>)
    requires Harmless(a) && Harmless(b)
    ensures Harmless(a + b)
  {
  }

  /** The other loops are where they were. */
  ghost predicate OthersStay(s: State, t: State, i: nat) {
    |t.loops| == |s.loops| && forall j :: 0 <= j < |s.loops| && j != i ==> t.loops[j] == s.loops[j]
  }

  /** The message that this loop appends next. */
  predicate Poised(t: Thread) { t.pc.Replied? || t.pc.Answering? }

  function Coming(t: Thread): Message
    requires Poised(t) && WellFormedPc(t)
  {
    if t.pc.Replied? then t.pc.r.assistantMessage else AnswerOf(t.pc)
  }

  function Answer(text: string): ChatResult {
    ChatResult(Some(text), [], Message(Assistant, Some(text), [], None), None)
  }

  /** One step of a live loop towards its next message. */
  function Onward(t: Thread): Act {
    match t.pc
    case Rewriting(_, _) => Stored(false)
    case Asking => Reply(Answer(""))
    case Executing(_) => Outputs((_: string) => "")
    case _ => Go
  }

  function Distance(t: Thread): nat {
    match t.pc
    case Top => 4
    case Rewriting(_, _) => 3
    case Sending => 2
    case Asking => 1
    case Executing(_) => 1
    case _ => 0
  }

  /** A live loop can always be brought to append a message. */
  lemma {:induction false} LiveGetsPoised(s: State, i: nat, c: Config) returns (steps: seq<Step>)
    requires i < |s.loops| && !s.loops[i].pc.Over? && WellFormedPc(s.loops[i])
    ensures Harmless(steps) && OthersStay(s, Run(s, steps, c), i)
    ensures var t := Run(s, steps, c).loops[i]; Poised(t) && WellFormedPc(t)
    decreases Distance(s.loops[i])
  {
    if Poised(s.loops[i]) {
      steps := [];
    } else {
      var step := By(i, Onward(s.loops[i]));
      var later := LiveGetsPoised(Next(s, step, c), i, c);
      steps := [step] + later;
      assert steps[1..] == later;
    }
  }

  lemma {:induction false} PoisedAppends(s: State, i: nat, c: Config)
    requires i < |s.loops| && Poised(s.loops[i]) && WellFormedPc(s.loops[i])
    ensures var t := Next(s, By(i, Go), c);
            t.messages == s.messages + [Coming(s.loops[i])] && OthersStay(s, t, i)
  {
  }

  function Request(call: ToolRequest): ChatResult {
    ChatResult(None, [call], Message(Assistant, None, [call], None), None)
  }

  /** A loop at the top can send the history as it is. */
  lemma {:induction false} TopSends(s: State, j: nat, c: Config) returns (steps: seq<Step>)
    requires j < |s.loops| && s.loops[j].pc.Top? && s.loops[j].turnsLeft > 0
    ensures Harmless(steps)
    ensures Run(s, steps, c) == State(s.messages, s.plugin, s.sent + [s.messages],
                                      s.loops[j := Thread(Asking, s.loops[j].turnsLeft - 1)])
  {
    steps := [By(j, Go), By(j, Stored(false)), By(j, Go)];
    var s1 := Next(s, steps[0], c);
    var s2 := Next(s1, steps[1], c);
    var s3 := Next(s2, steps[2], c);
    assert steps[1..][1..] == [steps[2]] && [steps[2]][1..] == [];
    assert Run(s, steps, c) == Run(s1, steps[1..], c) == Run(s2, [steps[2]], c) == Run(s3, [], c);
  }

  /** And it can then ask for a tool. */
  lemma {:induction false} TopRequests(s: State, j: nat, call: ToolRequest, c: Config)
    returns (steps: seq<Step>)
    requires j < |s.loops| && s.loops[j].pc.Top? && s.loops[j].turnsLeft > 0
    ensures Harmless(steps) && OthersStay(s, Run(s, steps, c), j)
    ensures var t := Run(s, steps, c);
            && t.messages == s.messages + [Request(call).assistantMessage]
            && t.loops[j] == Thread(Executing(Request(call)), s.loops[j].turnsLeft - 1)
  {
    var first := TopSends(s, j, c);
    var s1 := Run(s, first, c);
    var s2 := Next(s1, By(j, Reply(Request(call))), c);
    RunSnoc(s, first, By(j, Reply(Request(call))), c);
    var second := first + [By(j, Reply(Request(call)))];
    RunSnoc(s, second, By(j, Go), c);
    steps := second + [By(j, Go)];
  }

  /** The one answer of such a request. */
  lemma {:induction false} RequestIsAnswered(s: State, j: nat, call: ToolRequest, c: Config)
    returns (steps: seq<Step>)
    requires j < |s.loops| && s.loops[j].pc == Executing(Request(call))
    ensures Harmless(steps) && OthersStay(s, Run(s, steps, c), j)
    ensures var t := Run(s, steps, c);
            && t.messages == s.messages + [ToolAnswer(call.id, "")]
            && t.loops[j] == Thread(NextTurn(s.loops[j].turnsLeft), s.loops[j].turnsLeft)
  {
    steps := [By(j, Outputs((_: string) => "")), By(j, Go)];
    var s1 := Next(s, steps[0], c);
    assert [steps[1]][1..] == [] && steps[1..] == [steps[1]];
    assert Run(s, steps, c) == Run(s1, [steps[1]], c) == Run(Next(s1, steps[1], c), [], c);
  }

  /** A message that comes between a request and its answer unsettles the history. */
  lemma {:induction false} IntrusionUnsettles(ms: seq<Message>, call: ToolRequest, m: Message)
    requires m.role == Tool || m.role == Assistant
    requires m.calls != [] ==> m.calls[0].id != call.id
    ensures !AllGroups(Rest(ms + [Request(call).assistantMessage] + [m] + [ToolAnswer(call.id, "")]),
                       Settled)
  {
    var request, answer := Request(call).assistantMessage, ToolAnswer(call.id, "");
    var tail := [request, m, answer];
    assert ms + [request] + [m] + [answer] == ms + tail;
    RestConcat(ms, tail);
    RestOfNonSystems(tail);
    GroupsConcat(Rest(ms), tail);
    var g := UnsettledGroup(call, m);
    assert g in Groups(Rest(ms + tail));
  }

  lemma {:induction false} UnsettledGroup(call: ToolRequest, m: Message) returns (g: Group)
    requires m.role == Tool || m.role == Assistant
    requires m.calls != [] ==> m.calls[0].id != call.id
    ensures g in Groups([Request(call).assistantMessage, m, ToolAnswer(call.id, "")]) && !Settled(g)
  {
    var request, answer := Request(call).assistantMessage, ToolAnswer(call.id, "");
    var tail := [request, m, answer];
    if m.role == Tool {
      g := tail;
      CloseGroup(g, []);
      assert g + [] == g;
    } else {
      CloseGroup([request], [m, answer]);
      assert tail == [request] + [m, answer];
      if m.calls == [] {
        g := [answer];
        CloseGroup([m], [answer]);
        assert [m, answer] == [m] + [answer];
        CloseGroup([answer], []);
        assert [answer] + [] == [answer];
      } else {
        g := [m, answer];
        CloseGroup(g, []);
        assert g + [] == g;
        assert g[1..] == [answer];
      }
    }
  }

  function FreshCall(m: Message): ToolRequest {
    ToolRequest(if m.calls == [] then "" else m.calls[0].id + "'", "", "{}", 2)
  }

  /** A property between completeness and being settled. */
  ghost predicate BetweenBoth(p: Group -> bool) {
    A.HoldsOfComplete(p) && forall g: Group :: p(g) ==> Settled(g)
  }

  /** A live leftover can be brought to spoil the new chat's history before the new loop sends it. */
  lemma {:induction false} LeftoverSpoils(s: State, i: nat, j: nat, c: Config, p: Group -> bool)
    returns (steps: seq<Step>)
    requires i < |s.loops| && j < |s.loops| && i != j && BetweenBoth(p)
    requires !s.loops[i].pc.Over? && WellFormedPc(s.loops[i])
    requires s.loops[j].pc.Top? && s.loops[j].turnsLeft >= 2
    ensures Harmless(steps) && !AllSent(Run(s, steps, c), p)
  {
    var first := LiveGetsPoised(s, i, c);
    var s1 := Run(s, first, c);
    var m := Coming(s1.loops[i]);
    var call := FreshCall(m);
    var second := TopRequests(s1, j, call, c);
    var s2 := Run(s1, second, c);
    PoisedAppends(s2, i, c);
    var s3 := Next(s2, By(i, Go), c);
    var fourth := RequestIsAnswered(s3, j, call, c);
    var s4 := Run(s3, fourth, c);
    IntrusionUnsettles(s1.messages, call, m);
    var fifth := TopSends(s4, j, c);
    var s5 := Run(s4, fifth, c);
    steps := Joined(s, first, second, By(i, Go), fourth, fifth, c);
    assert s5.sent[|s5.sent| - 1] == s4.messages && s4.messages in s5.sent;
    assert AllGroups(Rest(s4.messages), p) ==> AllGroups(Rest(s4.messages), Settled);
  }

  lemma {:induction false} Joined(
    s: State, first: seq<Step>, second: seq<Step>, third: Step, fourth: seq<Step>, fifth: seq<Step>,
    c: Config)
    returns (steps: seq<Step>)
    requires Harmless(first) && Harmless(second) && Harmless(fourth) && Harmless(fifth)
    requires Harmless([third])
    ensures Harmless(steps)
    ensures Run(s, steps, c)
         == Run(Run(Next(Run(Run(s, first, c), second, c), third, c), fourth, c), fifth, c)
  {
    RunConcat(s, first, second, c);
    HarmlessConcat(first, second);
    RunSnoc(s, first + second, third, c);
    HarmlessConcat(first + second, [third]);
    RunConcat(s, first + second + [third], fourth, c);
    HarmlessConcat(first + second + [third], fourth);
    RunConcat(s, first + second + [third] + fourth, fifth, c);
    HarmlessConcat(first + second + [third] + fourth, fifth);
    steps := first + second + [third] + fourth + fifth;
  }

  lemma {:induction false} StartHasHistory(ms: seq<Message>, input: string, p: Group -> bool)
    requires AllGroups(Rest(ms + [UserMessage(input)]), p)
    ensures AllGroups(Rest(ms), p)
  {
    var user := [UserMessage(input)];
    RestConcat(ms, user);
    RestOfNonSystems(user);
    AllGroupsConcat(Rest(ms), user, p);
  }

  ghost predicate SafeFrom(s: State, c: Config, p: Group -> bool) {
    forall steps :: Harmless(steps) ==> AllSent(Run(s, steps, c), p)
  }

  /** For pairing and for being settled alike: from the moment a chat begins every list sent has the
      property, whatever happens, exactly when the history has it and no earlier loop is live. */
  lemma {:induction false} SafeToBeginExactlyWhen(
    s: State, input: string, maxTurns: nat, c: Config, p: Group -> bool)
    requires PluginInv(s.plugin, c, p) && AllSent(s, p) && WellFormed(s)
    requires BetweenBoth(p) && maxTurns >= 2
    ensures SafeFrom(Next(s, Begin(input, maxTurns), c), c, p)
            <==> NoneLive(s) && AllGroups(Rest(s.messages), p)
  {
    var t, j := Next(s, Begin(input, maxTurns), c), |s.loops|;
    if NoneLive(s) && AllGroups(Rest(s.messages), p) {
      A.AppendUser(s.messages, input, p);
      assert Inv(t, c, p);
      forall steps | Harmless(steps)
        ensures AllSent(Run(t, steps, c), p)
      {
        QuietKeepsInv(t, steps, c, p);
      }
    } else if !AllGroups(Rest(s.messages), p) {
      var steps := TopSends(t, j, c);
      assert t.messages in Run(t, steps, c).sent;
      if AllGroups(Rest(t.messages), p) {
        StartHasHistory(s.messages, input, p);
      }
    } else {
      var i :| 0 <= i < |s.loops| && !s.loops[i].pc.Over?;
      assert t.loops[i] == s.loops[i];
      var steps := LeftoverSpoils(t, i, j, c, p);
    }
  }

  /** For pairing, as the LLM's interface demands it: a chat sends only paired lists, whatever happens,
      exactly when it begins on a paired history and no earlier loop is live. */
  lemma {:induction false} PairedFromExactlyWhen(s: State, input: string, maxTurns: nat, c: Config)
    requires PluginInv(s.plugin, c, Complete) && WellFormed(s) && maxTurns >= 2
    requires forall ms :: ms in s.sent ==> ToolPaired(ms)
    ensures var t := Next(s, Begin(input, maxTurns), c);
            (forall steps, ms :: Harmless(steps) && ms in Run(t, steps, c).sent ==> ToolPaired(ms))
            <==> NoneLive(s) && ToolPaired(s.messages)
  {
    var t := Next(s, Begin(input, maxTurns), c);
    forall ms: seq<Message>
      ensures ToolPaired(ms) <==> AllGroups(Rest(ms), Complete)
    {
      PairedIffGroupsComplete(Rest(ms));
    }
    SafeToBeginExactlyWhen(s, input, maxTurns, c, Complete);
    if SafeFrom(t, c, Complete) {
      forall steps, ms | Harmless(steps) && ms in Run(t, steps, c).sent
        ensures ToolPaired(ms)
      {
        assert AllSent(Run(t, steps, c), Complete);
      }
    } else {
      var steps :| Harmless(steps) && !AllSent(Run(t, steps, c), Complete);
      var ms :| ms in Run(t, steps, c).sent && !AllGroups(Rest(ms), Complete);
      assert !ToolPaired(ms);
    }
  }

  // ---- A late answer -----------------------------------------------------------------------------

  const EMPTY := State([], FRESH_PLUGIN, [], [])

  /** A chat is stopped while its tool runs and the next one begins before the tool ends: the answer
      comes behind the next input, stands alone there, and is sent so. */
  lemma {:induction false} LateAnswerStandsAlone(
    input: string, next: string, call: ToolRequest, c: Config, turns: nat)
    returns (steps: seq<Step>)
    requires turns > 0
    ensures CoherentSteps(steps)
    ensures var u, r := UserMessage(input), Request(call).assistantMessage;
            var n, a := UserMessage(next), ToolAnswer(call.id, "");
            var s := Run(EMPTY, steps, c);
            && s.messages == [u, r, n, a] && s.messages in s.sent
            && Groups(s.messages) == [[u], [r], [n], [a]]
            && !AllGroups(Rest(s.messages), Settled) && !ToolPaired(s.messages)
  {
    steps := RequestThenNext(input, next, call, c, turns);
    var s2 := Run(EMPTY, steps, c);
    var more := RequestIsAnswered(s2, 0, call, c);
    RunConcat(EMPTY, steps, more, c);
    steps := steps + more;
    var s3 := Run(EMPTY, steps, c);
    more := TopSends(s3, 1, c);
    RunConcat(EMPTY, steps, more, c);
    steps := steps + more;
    FourAlone(UserMessage(input), call, UserMessage(next));
    PairedIffGroupsComplete(Rest(s3.messages));
  }

  /** The first loop waits for its tool, the second has begun. */
  lemma {:induction false} RequestThenNext(
    input: string, next: string, call: ToolRequest, c: Config, turns: nat)
    returns (steps: seq<Step>)
    requires turns > 0
    ensures CoherentSteps(steps)
    ensures var s := Run(EMPTY, steps, c);
            && s.messages == [UserMessage(input), Request(call).assistantMessage, UserMessage(next)]
            && s.loops == [Thread(Executing(Request(call)), turns - 1), Thread(Top, turns)]
  {
    steps := [Begin(input, turns)];
    var s1 := Next(EMPTY, Begin(input, turns), c);
    assert steps[1..] == [] && Run(EMPTY, steps, c) == Run(s1, [], c);
    assert [] + [UserMessage(input)] == [UserMessage(input)];
    var more := TopRequests(s1, 0, call, c);
    RunConcat(EMPTY, steps, more, c);
    steps := steps + more;
    RunSnoc(EMPTY, steps, Begin(next, turns), c);
    steps := steps + [Begin(next, turns)];
  }

  lemma {:induction false} FourAlone(u: Message, call: ToolRequest, n: Message)
    requires u.role == User && n.role == User
    ensures var r, a := Request(call).assistantMessage, ToolAnswer(call.id, "");
            var ms := [u, r, n, a];
            && Groups(ms) == [[u], [r], [n], [a]] && Rest(ms) == ms
            && !AllGroups(ms, Settled) && !AllGroups(ms, Complete)
  {
    var r, a := Request(call).assistantMessage, ToolAnswer(call.id, "");
    var ms := [u, r, n, a];
    RestOfNonSystems(ms);
    GroupsOfFour(u, r, n, a);
    assert [a] in Groups(ms);
  }

  lemma {:induction false} GroupsOfFour(u: Message, r: Message, n: Message, a: Message)
    requires u.role == User && r.role == Assistant && n.role == User
    ensures Groups([u, r, n, a]) == [[u], [r], [n], [a]]
  {
    GroupsOfTwo(n, a);
    CloseGroup([r], [n, a]);
    assert [r] + [n, a] == [r, n, a];
    CloseGroup([u], [r, n, a]);
    assert [u] + [r, n, a] == [u, r, n, a];
  }

  lemma {:induction false} GroupsOfTwo(n: Message, a: Message)
    requires n.role == User
    ensures Groups([n, a]) == [[n], [a]]
  {
    CloseGroup([a], []);
    assert [a] + [] == [a];
    CloseGroup([n], [a]);
    assert [n] + [a] == [n, a];
  }

  // ---- A loop that nothing interrupts ------------------------------------------------------------

  ghost predicate Leads(s: State, steps: seq<Step>, t: State, c: Config) {
    Harmless(steps) && Run(s, steps, c) == t
  }

  lemma {:induction false} LeadsOn(
    s: State, a: seq<Step>, t: State, b: seq<Step>, u: State, c: Config)
    requires Leads(s, a, t, c) && Leads(t, b, u, c)
    ensures Leads(s, a + b, u, c)
  {
    RunConcat(s, a, b, c);
    HarmlessConcat(a, b);
  }

  lemma {:induction false} LeadsBy(s: State, a: seq<Step>, t: State, step: Step, c: Config)
    requires Leads(s, a, t, c) && Harmless([step])
    ensures Leads(s, a + [step], Next(t, step, c), c)
  {
    RunSnoc(s, a, step, c);
    HarmlessConcat(a, [step]);
  }

  /** The shared state and this loop after a piece of a turn that is left with so many turns. */
  function After(s: State, i: nat, u: A.State, turnsLeft: nat): State
    requires i < |s.loops|
  {
    State(u.messages, u.plugin, u.sent,
          s.loops[i := Thread(if u.exit.Some? then Over else NextTurn(turnsLeft), turnsLeft)])
  }

  function Alone(s: State): A.State { A.State(s.messages, A.NO_USAGE, s.plugin, s.sent, None) }

  lemma {:induction false} AnswersRun(s: State, i: nat, c: Config) returns (steps: seq<Step>)
    requires i < |s.loops| && s.loops[i].pc.Answering? && WellFormedPc(s.loops[i])
    ensures var t := s.loops[i];
            var answers := A.Backfill(t.pc.r.toolCalls, t.pc.outputs)[t.pc.k..];
            Leads(s, steps,
                  s.(messages := s.messages + answers,
                     loops := s.loops[i := Thread(NextTurn(t.turnsLeft), t.turnsLeft)]), c)
    decreases |s.loops[i].pc.r.toolCalls| - s.loops[i].pc.k
  {
    var t, pc := s.loops[i], s.loops[i].pc;
    var answers := A.Backfill(pc.r.toolCalls, pc.outputs);
    assert answers[pc.k..] == [answers[pc.k]] + answers[pc.k + 1..];
    var s1 := Next(s, By(i, Go), c);
    assert Leads(s, [], s, c);
    LeadsBy(s, [], s, By(i, Go), c);
    steps := [] + [By(i, Go)];
    ConcatThree(s.messages, [answers[pc.k]], answers[pc.k + 1..]);
    if pc.k + 1 < |pc.r.toolCalls| {
      var later := AnswersRun(s1, i, c);
      LeadsOn(s, steps, s1, later,
              s.(messages := s.messages + answers[pc.k..],
                 loops := s.loops[i := Thread(NextTurn(t.turnsLeft), t.turnsLeft)]), c);
      steps := steps + later;
    } else {
      assert answers[pc.k + 1..] == [] && s1.messages + [] == s1.messages;
    }
  }

  lemma {:induction false} ReactRuns(s: State, i: nat, e: A.StepEnv, c: Config)
    returns (steps: seq<Step>)
    requires i < |s.loops| && s.loops[i].pc.Replied?
    ensures Leads(s, steps, After(s, i, A.React(Alone(s), e, s.loops[i].pc.r), s.loops[i].turnsLeft), c)
  {
    var r := s.loops[i].pc.r;
    assert Leads(s, [], s, c);
    if e.stopAfterLlm || (r.toolCalls == [] && e.raises.InFinalAnswer?) {
      LeadsBy(s, [], s, By(i, Leave), c);
      steps := [] + [By(i, Leave)];
    } else {
      var s1 := Next(s, By(i, Go), c);
      LeadsBy(s, [], s, By(i, Go), c);
      steps := [] + [By(i, Go)];
      if r.toolCalls != [] {
        if e.outputs.None? || e.stopAfterTools {
          LeadsBy(s, steps, s1, By(i, Leave), c);
          steps := steps + [By(i, Leave)];
        } else {
          var s2 := Next(s1, By(i, Outputs(e.outputs.value)), c);
          LeadsBy(s, steps, s1, By(i, Outputs(e.outputs.value)), c);
          steps := steps + [By(i, Outputs(e.outputs.value))];
          var answers := AnswersRun(s2, i, c);
          assert A.Backfill(r.toolCalls, e.outputs.value)[0..]
              == A.Backfill(r.toolCalls, e.outputs.value);
          LeadsOn(s, steps, s2, answers,
                  After(s, i, A.React(Alone(s), e, r), s.loops[i].turnsLeft), c);
          steps := steps + answers;
        }
      }
    }
  }

  lemma {:induction false} AskRuns(s: State, i: nat, e: A.StepEnv, c: Config)
    returns (steps: seq<Step>)
    requires i < |s.loops| && s.loops[i].pc.Sending?
    requires e.reply.Some? ==> Coherent(e.reply.value)
    ensures Leads(s, steps, After(s, i, A.Ask(Alone(s), e, c), s.loops[i].turnsLeft), c)
  {
    assert Leads(s, [], s, c);
    if e.raises.BeforeLlm? {
      LeadsBy(s, [], s, By(i, Leave), c);
      steps := [] + [By(i, Leave)];
    } else {
      var s1 := Next(s, By(i, Go), c);
      LeadsBy(s, [], s, By(i, Go), c);
      steps := [] + [By(i, Go)];
      if e.reply.None? {
        LeadsBy(s, steps, s1, By(i, Leave), c);
        steps := steps + [By(i, Leave)];
      } else {
        var s2 := Next(s1, Progress(e.duringCall), c);
        LeadsBy(s, steps, s1, Progress(e.duringCall), c);
        steps := steps + [Progress(e.duringCall)];
        if e.raises == A.InPostLlm(false) {
          LeadsBy(s, steps, s2, By(i, Leave), c);
          steps := steps + [By(i, Leave)];
        } else {
          var reply := By(i, Reply(e.reply.value));
          var s3 := Next(s2, reply, c);
          LeadsBy(s, steps, s2, reply, c);
          steps := steps + [reply];
          if e.raises.InPostLlm? {
            LeadsBy(s, steps, s3, By(i, Leave), c);
            steps := steps + [By(i, Leave)];
          } else {
            var later := ReactRuns(s3, i, e, c);
            LeadsOn(s, steps, s3, later, After(s, i, A.Ask(Alone(s), e, c), s.loops[i].turnsLeft), c);
            steps := steps + later;
          }
        }
      }
    }
  }

  lemma {:induction false} HandlersRun(s: State, i: nat, hs: seq<A.Handler>, c: Config)
    returns (steps: seq<Step>)
    requires i < |s.loops| && s.loops[i].pc.Rewriting?
    ensures var t := s.loops[i];
            var (plugin, now) := A.Waterfall(hs, s.plugin, t.pc.now, c);
            Leads(s, steps,
                  s.(plugin := plugin,
                     loops := s.loops[i := Thread(Rewriting(t.pc.read, now), t.turnsLeft)]), c)
    decreases |hs|
  {
    assert Leads(s, [], s, c);
    steps := [];
    if hs != [] {
      var s1 := Next(s, By(i, Handled(hs[0])), c);
      LeadsBy(s, [], s, By(i, Handled(hs[0])), c);
      var later := HandlersRun(s1, i, hs[1..], c);
      LeadsOn(s, [] + [By(i, Handled(hs[0]))], s1, later, Run(s1, later, c), c);
      steps := [] + [By(i, Handled(hs[0]))] + later;
    }
  }

  /** A turn of a loop that no other loop interrupts is the step of AgentLoop, for every stop, every
      exception, every rewriting and every progress of the worker. */
  lemma {:induction false} UninterruptedIsStep(s: State, i: nat, e: A.StepEnv, c: Config)
    returns (steps: seq<Step>)
    requires i < |s.loops| && s.loops[i].pc.Top? && s.loops[i].turnsLeft > 0
    requires e.reply.Some? ==> Coherent(e.reply.value)
    ensures var left := s.loops[i].turnsLeft - if e.stopAtTop then 0 else 1;
            Leads(s, steps, After(s, i, A.Step(Alone(s), e, c), left), c)
  {
    assert Leads(s, [], s, c);
    if e.stopAtTop {
      LeadsBy(s, [], s, By(i, Leave), c);
      steps := [] + [By(i, Leave)];
    } else {
      var s1 := Next(s, By(i, Go), c);
      LeadsBy(s, [], s, By(i, Go), c);
      var handled := HandlersRun(s1, i, e.waterfall, c);
      var s2 := Run(s1, handled, c);
      LeadsOn(s, [] + [By(i, Go)], s1, handled, s2, c);
      steps := [] + [By(i, Go)] + handled;
      if e.raises.InPreStep? {
        LeadsBy(s, steps, s2, By(i, Leave), c);
        steps := steps + [By(i, Leave)];
      } else {
        var s3 := Next(s2, By(i, Stored(true)), c);
        LeadsBy(s, steps, s2, By(i, Stored(true)), c);
        steps := steps + [By(i, Stored(true))];
        var later := AskRuns(s3, i, e, c);
        LeadsOn(s, steps, s3, later, Run(s3, later, c), c);
        steps := steps + later;
      }
    }
  }
}
