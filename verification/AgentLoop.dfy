/** The tool-calling loop (qi_agent/agents/agent.py) over a conversation, with the LLM, the
    tools, the pre-step handlers and the moments of a stop all arbitrary. */
module AgentLoop {
  import opened Basics
  import opened Transcript
  import opened ContextManager
  import opened Llm
  import Async = AsyncCompressor

  /** One handler of the pre-step waterfall as it runs: the mailbox with the pieces it finds,
      the context manager, or a plugin that rewrites system messages only. */
  datatype Handler =
    | Mailbox(pieces: seq<string>)
    | Manage(input: PreStepInput)
    | Inject(rewrite: seq<Message> -> seq<Message>)

  function Join(pieces: seq<string>, separator: string): string {
    if pieces == [] then ""
    else if |pieces| == 1 then pieces[0]
    else pieces[0] + separator + Join(pieces[1..], separator)
  }

  /** Several pieces of mail become one user message, so that user messages do not pile up. */
  function WithMail(ms: seq<Message>, pieces: seq<string>): seq<Message> {
    if pieces == [] then ms else ms + [UserMessage(Join(pieces, " | "))]
  }

  function Handle(h: Handler, s: Plugin, ms: seq<Message>, c: Config): (Plugin, seq<Message>) {
    match h
    case Mailbox(pieces) => (s, WithMail(ms, pieces))
    case Manage(input) => PreStep(s, ms, input, c)
    case Inject(rewrite) => (s, if Rest(rewrite(ms)) == Rest(ms) then rewrite(ms) else ms)
  }

  function Waterfall(hs: seq<Handler>, s: Plugin, ms: seq<Message>, c: Config)
    : (Plugin, seq<Message>)
  {
    if hs == [] then (s, ms)
    else
      var (s1, ms1) := Handle(hs[0], s, ms, c);
      Waterfall(hs[1..], s1, ms1, c)
  }

  /** Where a listener raises: a handler of the waterfall; before the call of the LLM; after it,
      before or behind the context manager's own listener; before the final answer is kept; or at the
      end of a turn that is stopped or out of turns. */
  datatype Place =
    | Nowhere
    | InPreStep
    | BeforeLlm
    | InPostLlm(noted: bool)
    | InFinalAnswer
    | InTurnEnd

  /** Everything one step meets. `stop*` are the answers of the three stop tests; `waterfall`
      the handlers that run; `duringCall` is what the background worker does while the LLM is
      called; no `reply` means that the client raised, no `outputs` that the executor or a listener
      to a tool call did. */
  datatype StepEnv = StepEnv(
    stopAtTop: bool, waterfall: seq<Handler>, raises: Place, duringCall: seq<Async.Step>,
    reply: Option<ChatResult>, stopAfterLlm: bool,
    outputs: Option<string -> string>, stopAfterTools: bool)

  datatype Exit = Answered(text: string) | Stopped | MaxTurns | Raised

  /** The conversation and what the loop has done: `sent` are the lists given to the LLM. */
  datatype State = State(
    messages: seq<Message>, usage: Usage, plugin: Plugin, sent: seq<seq<Message>>,
    exit: Option<Exit>)

  const NO_USAGE := Usage(0, 0, 0)

  function AddUsage(u: Usage, r: Option<Usage>): Usage {
    if r.None? then u
    else Usage(u.prompt + r.value.prompt, u.completion + r.value.completion, u.total + r.value.total)
  }

  function Backfill(calls: seq<ToolRequest>, outputs: string -> string): seq<Message> {
    Map(calls, (call: ToolRequest) => ToolAnswer(call.id, outputs(call.id)))
  }

  /** How a turn ends that is not finished. */
  function Ended(e: StepEnv, exit: Exit): Option<Exit> {
    Some(if e.raises.InTurnEnd? then Raised else exit)
  }

  /** The part of a step after the LLM has replied. */
  function React(s: State, e: StepEnv, r: ChatResult): State {
    if e.stopAfterLlm then s.(exit := Ended(e, Stopped))
    else if r.toolCalls == [] && e.raises.InFinalAnswer? then s.(exit := Some(Raised))
    else
      var t := s.(messages := s.messages + [r.assistantMessage]);
      if r.toolCalls == [] then
        t.(exit := Some(Answered(if r.content.Some? then r.content.value else "")))
      else if e.outputs.None? then t.(exit := Some(Raised))
      else if e.stopAfterTools then t.(exit := Ended(e, Stopped))
      else t.(messages := t.messages + Backfill(r.toolCalls, e.outputs.value))
  }

  function Tokens(r: ChatResult): nat { if r.usage.Some? then r.usage.value.prompt else 0 }

  /** From the stored list to the end of the step. */
  function Ask(s: State, e: StepEnv, c: Config): State {
    if e.raises.BeforeLlm? then s.(exit := Some(Raised))
    else
      var t := s.(sent := s.sent + [s.messages]);
      if e.reply.None? then t.(exit := Some(Raised))
      else
        var r := e.reply.value;
        var worked := Progressed(s.plugin, e.duringCall, c);
        var noted := PostLlm(worked, Tokens(r), s.messages, c);
        if e.raises.InPostLlm? then
          t.(plugin := if e.raises.noted then noted else worked, exit := Some(Raised))
        else React(t.(plugin := noted, usage := AddUsage(s.usage, r.usage)), e, r)
  }

  function Step(s: State, e: StepEnv, c: Config): State {
    if e.stopAtTop then s.(exit := Ended(e, Stopped))
    else
      var (plugin, messages) := Waterfall(e.waterfall, s.plugin, s.messages, c);
      if e.raises.InPreStep? then s.(plugin := plugin, exit := Some(Raised))
      else Ask(s.(plugin := plugin, messages := messages), e, c)
  }

  function Loop(s: State, env: nat -> StepEnv, step: nat, maxTurns: nat, c: Config): State
    decreases maxTurns - step
  {
    if s.exit.Some? then s
    else if step >= maxTurns then s.(exit := Ended(env(step), MaxTurns))
    else Loop(Step(s, env(step), c), env, step + 1, maxTurns, c)
  }

  /** The user's input is appended; a listener to the start of the turn may raise. */
  function Opened(s: State, input: string, raises: bool): State {
    s.(messages := s.messages + [UserMessage(input)], exit := if raises then Some(Raised) else None)
  }

  /** A whole chat: its opening and the loop. */
  function ChatRun(
    s: State, input: string, raises: bool, env: nat -> StepEnv, maxTurns: nat, c: Config): State
  {
    Loop(Opened(s, input, raises), env, 0, maxTurns, c)
  }

  // ---- The agent and its conversation ------------------------------------------------------

  class AgentContext {
    var messages: seq<Message>
    var turn: nat
    var usage: Usage

    constructor (systemPrompt: string)
      ensures messages == [Message(System, Some(systemPrompt), [], None)]
      ensures turn == 0 && usage == NO_USAGE
    {
      messages := [Message(System, Some(systemPrompt), [], None)];
      turn := 0;
      usage := NO_USAGE;
    }
  }

  class Agent {
    const context: AgentContext
    const manager: ContextManagerPlugin
    const maxTurns: nat
    var sent: seq<seq<Message>>

    constructor (context: AgentContext, manager: ContextManagerPlugin, maxTurns: nat)
      ensures this.context == context && this.manager == manager && this.maxTurns == maxTurns
      ensures sent == []
    {
      this.context, this.manager, this.maxTurns := context, manager, maxTurns;
      sent := [];
    }

    function View(exit: Option<Exit>): State
      reads this, context, manager
    {
      State(context.messages, context.usage, manager.View(), sent, exit)
    }

    method RunWaterfall(handlers: seq<Handler>) returns (messages: seq<Message>)
      modifies manager`compressor
      ensures (manager.View(), messages)
           == Waterfall(handlers, old(manager.View()), context.messages, manager.config)
    {
      messages := context.messages;
      for i := 0 to |handlers|
        invariant Waterfall(handlers[i..], manager.View(), messages, manager.config)
               == Waterfall(handlers, old(manager.View()), context.messages, manager.config)
      {
        match handlers[i]
        case Mailbox(pieces) =>
          if pieces != [] {
            messages := messages + [UserMessage(Join(pieces, " | "))];
          }
        case Manage(input) => messages := manager.OnPreStep(messages, input);
        case Inject(rewrite) =>
          if Rest(rewrite(messages)) == Rest(messages) {
            messages := rewrite(messages);
          }
      }
    }

    /** The answers are appended in call order. */
    method AppendAnswers(calls: seq<ToolRequest>, outputs: string -> string)
      modifies context`messages
      ensures context.messages == old(context.messages) + Backfill(calls, outputs)
    {
      for i := 0 to |calls|
        invariant context.messages == old(context.messages) + Backfill(calls, outputs)[..i]
      {
        context.messages := context.messages + [ToolAnswer(calls[i].id, outputs(calls[i].id))];
      }
    }

    /** The body of the loop of `_run_tool_loop`; no exit means another turn. */
    method RunStep(e: StepEnv) returns (exit: Option<Exit>)
      modifies this`sent, context`messages, context`usage, manager
      ensures View(exit) == Step(old(View(None)), e, manager.config)
    {
      if e.stopAtTop {
        return Ended(e, Stopped);
      }
      var rewritten := RunWaterfall(e.waterfall);
      if e.raises.InPreStep? {
        return Some(Raised);
      }
      context.messages := rewritten;
      exit := AskLlm(e);
    }

    /** From the call of the LLM to the end of the body. */
    method AskLlm(e: StepEnv) returns (exit: Option<Exit>)
      modifies this`sent, context`messages, context`usage, manager
      ensures View(exit) == Ask(old(View(None)), e, manager.config)
    {
      if e.raises.BeforeLlm? {
        return Some(Raised);
      }
      sent := sent + [context.messages];
      if e.reply.None? {
        return Some(Raised);
      }
      var r := e.reply.value;
      manager.LetWorkerRun(e.duringCall);
      if e.raises != InPostLlm(false) {
        manager.OnPostLlm(Tokens(r), context.messages);
      }
      if e.raises.InPostLlm? {
        return Some(Raised);
      }
      context.usage := AddUsage(context.usage, r.usage);
      exit := TakeReply(e, r);
    }

    method TakeReply(e: StepEnv, r: ChatResult) returns (exit: Option<Exit>)
      modifies context`messages
      ensures View(exit) == React(old(View(None)), e, r)
    {
      if e.stopAfterLlm {
        return Ended(e, Stopped);
      }
      if r.toolCalls == [] {
        if e.raises.InFinalAnswer? {
          return Some(Raised);
        }
        context.messages := context.messages + [r.assistantMessage];
        return Some(Answered(if r.content.Some? then r.content.value else ""));
      }
      context.messages := context.messages + [r.assistantMessage];
      if e.outputs.None? {
        return Some(Raised);
      }
      if e.stopAfterTools {
        return Ended(e, Stopped);
      }
      AppendAnswers(r.toolCalls, e.outputs.value);
      exit := None;
    }

    /** `_run_tool_loop`. */
    method RunToolLoop(env: nat -> StepEnv) returns (exit: Exit)
      modifies this`sent, context`messages, context`usage, manager
      ensures View(Some(exit)) == Loop(old(View(None)), env, 0, maxTurns, manager.config)
    {
      for step := 0 to maxTurns
        invariant Loop(View(None), env, step, maxTurns, manager.config)
               == Loop(old(View(None)), env, 0, maxTurns, manager.config)
      {
        var ended := RunStep(env(step));
        if ended.Some? {
          return ended.value;
        }
      }
      return Ended(env(maxTurns), MaxTurns).value;
    }

    /** `chat`: the input joins the conversation, the turn is counted, the loop runs. */
    method Chat(input: string, raises: bool, env: nat -> StepEnv) returns (exit: Exit)
      modifies this`sent, context, manager
      ensures context.turn == old(context.turn) + 1
      ensures View(Some(exit))
           == ChatRun(old(View(None)), input, raises, env, maxTurns, manager.config)
    {
      context.messages := context.messages + [UserMessage(input)];
      context.turn := context.turn + 1;
      if raises {
        return Raised;
      }
      exit := RunToolLoop(env);
    }
  }

  // ---- Every list sent is paired -----------------------------------------------------------

  /** A property of groups that complete groups have. */
  ghost predicate HoldsOfComplete(p: Group -> bool) { forall g: Group :: Complete(g) ==> p(g) }

  ghost predicate CoherentReplies(env: nat -> StepEnv) {
    forall i: nat :: env(i).reply.Some? ==> Coherent(env(i).reply.value)
  }

  /** One assistant message whose calls nobody answered ends the history. */
  ghost predicate TrailingUnanswered(ms: seq<Message>, p: Group -> bool) {
    ms != [] && Requests(ms[|ms| - 1]) && AllGroups(Rest(ms[..|ms| - 1]), p)
  }

  ghost predicate Good(s: State, c: Config, p: Group -> bool) {
    && PluginInv(s.plugin, c, p)
    && (forall m :: m in s.sent ==> AllGroups(Rest(m), p))
    && (AllGroups(Rest(s.messages), p)
        || (s.exit in {Some(Stopped), Some(Raised)} && TrailingUnanswered(s.messages, p)))
  }

  lemma {:induction false} AppendGroup(ms: seq<Message>, g: Group, p: Group -> bool)
    requires AllGroups(Rest(ms), p) && p(g) && IsGroup(g) && g[0].role != Tool
    requires forall m :: m in g ==> NotSystem(m)
    ensures AllGroups(Rest(ms + g), p)
  {
    RestConcat(ms, g);
    RestOfNonSystems(g);
    CloseGroup(g, []);
    assert g + [] == g;
    AllGroupsConcat(Rest(ms), g, p);
  }

  lemma {:induction false} AppendUser(ms: seq<Message>, text: string, p: Group -> bool)
    requires AllGroups(Rest(ms), p) && HoldsOfUsers(p)
    ensures AllGroups(Rest(ms + [UserMessage(text)]), p)
  {
    AppendGroup(ms, [UserMessage(text)], p);
  }

  lemma {:induction false} WaterfallKeepsGroups(
    hs: seq<Handler>, s: Plugin, ms: seq<Message>, c: Config, p: Group -> bool)
    requires PluginInv(s, c, p) && HoldsOfUsers(p) && AllGroups(Rest(ms), p)
    ensures PluginInv(Waterfall(hs, s, ms, c).0, c, p)
    ensures AllGroups(Rest(Waterfall(hs, s, ms, c).1), p)
  {
    if hs != [] {
      match hs[0] {
        case Mailbox(pieces) => AppendUser(ms, Join(pieces, " | "), p);
        case Manage(input) => PreStepKeepsGroups(s, ms, input, c, p);
        case Inject(_) =>
      }
      var (s1, ms1) := Handle(hs[0], s, ms, c);
      WaterfallKeepsGroups(hs[1..], s1, ms1, c, p);
    }
  }

  lemma {:induction false} BackfillAnswers(calls: seq<ToolRequest>, outputs: string -> string)
    ensures Answers(Backfill(calls, outputs), calls)
  {
    forall i | 0 <= i < |calls|
      ensures Backfill(calls, outputs)[i] == ToolAnswer(calls[i].id, outputs(calls[i].id))
    {
    }
  }

  lemma {:induction false} AnsweredKeepsGroups(
    ms: seq<Message>, r: ChatResult, outputs: string -> string, p: Group -> bool)
    requires AllGroups(Rest(ms), p) && HoldsOfComplete(p) && Coherent(r) && r.toolCalls != []
    ensures AllGroups(Rest(ms + [r.assistantMessage] + Backfill(r.toolCalls, outputs)), p)
  {
    var m := r.assistantMessage;
    var answers := Backfill(r.toolCalls, outputs);
    var g := [m] + answers;
    assert g[0] == m && g[1..] == answers;
    BackfillAnswers(r.toolCalls, outputs);
    assert Complete(g);
    AppendGroup(ms, g, p);
    assert ms + g == ms + [m] + answers;
  }

  lemma {:induction false} ReactKeepsGood(
    s: State, e: StepEnv, r: ChatResult, c: Config, p: Group -> bool)
    requires Good(s, c, p) && s.exit.None? && HoldsOfComplete(p) && Coherent(r)
    ensures Good(React(s, e, r), c, p)
  {
    var m := r.assistantMessage;
    if r.toolCalls == [] {
      AppendGroup(s.messages, [m], p);
    } else {
      var asked := s.messages + [m];
      assert asked[..|asked| - 1] == s.messages;
      if e.outputs.Some? {
        AnsweredKeepsGroups(s.messages, r, e.outputs.value, p);
      }
    }
  }

  lemma {:induction false} AskKeepsGood(s: State, e: StepEnv, c: Config, p: Group -> bool)
    requires Good(s, c, p) && s.exit.None? && HoldsOfComplete(p)
    requires e.reply.Some? ==> Coherent(e.reply.value)
    ensures Good(Ask(s, e, c), c, p)
  {
    if !e.raises.BeforeLlm? && e.reply.Some? {
      var r := e.reply.value;
      var worked := Progressed(s.plugin, e.duringCall, c);
      WorkKeepsInv(s.plugin.compressor, e.duringCall, c.compressor, p);
      PostLlmKeepsInv(worked, Tokens(r), s.messages, c, p);
      var t := s.(sent := s.sent + [s.messages], plugin := PostLlm(worked, Tokens(r), s.messages, c),
                  usage := AddUsage(s.usage, r.usage));
      ReactKeepsGood(t, e, r, c, p);
    }
  }

  lemma {:induction false} StepKeepsGood(s: State, e: StepEnv, c: Config, p: Group -> bool)
    requires Good(s, c, p) && s.exit.None? && HoldsOfComplete(p)
    requires e.reply.Some? ==> Coherent(e.reply.value)
    ensures Good(Step(s, e, c), c, p)
  {
    var (plugin, messages) := Waterfall(e.waterfall, s.plugin, s.messages, c);
    WaterfallKeepsGroups(e.waterfall, s.plugin, s.messages, c, p);
    if !e.stopAtTop && !e.raises.InPreStep? {
      AskKeepsGood(s.(plugin := plugin, messages := messages), e, c, p);
    }
  }

  lemma {:induction false} LoopKeepsGood(
    s: State, env: nat -> StepEnv, step: nat, maxTurns: nat, c: Config, p: Group -> bool)
    requires Good(s, c, p) && HoldsOfComplete(p) && CoherentReplies(env)
    ensures Good(Loop(s, env, step, maxTurns, c), c, p)
    ensures Loop(s, env, step, maxTurns, c).exit.Some?
    decreases maxTurns - step
  {
    if s.exit.None? && step < maxTurns {
      StepKeepsGood(s, env(step), c, p);
      LoopKeepsGood(Step(s, env(step), c), env, step + 1, maxTurns, c, p);
    }
  }

  /** A chat that starts on a history whose tool calls are all answered sends only such
      histories to the LLM, whatever the LLM replies, whatever is trimmed, summarised or
      switched before each call, and whatever the mailbox adds. It ends on such a history,
      unless a stop or an exception leaves one unanswered assistant message at the end. */
  lemma {:induction false} ChatSendsPairedHistories(
    s: State, input: string, raises: bool, env: nat -> StepEnv, maxTurns: nat, c: Config)
    requires ToolPaired(s.messages) && PluginInv(s.plugin, c, Complete)
    requires forall m :: m in s.sent ==> ToolPaired(m)
    requires CoherentReplies(env)
    ensures var t := ChatRun(s, input, raises, env, maxTurns, c);
            && (forall m :: m in t.sent ==> ToolPaired(m))
            && t.exit.Some? && PluginInv(t.plugin, c, Complete)
            && (t.exit.value.Answered? || t.exit.value.MaxTurns? ==> ToolPaired(t.messages))
            && (ToolPaired(t.messages)
                || (&& t.messages != [] && Requests(t.messages[|t.messages| - 1])
                    && ToolPaired(t.messages[..|t.messages| - 1])))
  {
    forall ms: seq<Message>
      ensures ToolPaired(ms) <==> AllGroups(Rest(ms), Complete)
    {
      PairedIffGroupsComplete(Rest(ms));
    }
    AppendUser(s.messages, input, Complete);
    var start := Opened(s, input, raises);
    LoopKeepsGood(start, env, 0, maxTurns, c, Complete);
  }

  // ---- Exactly when a chat ends unpaired ------------------------------------------------------

  /** What happens in a step that leaves a request without its answers: the reply has calls and is
      kept, and then the executor raises or the stop test after the tools strikes. */
  predicate LeavesUnanswered(e: StepEnv) {
    && !e.stopAtTop && !e.raises.InPreStep? && !e.raises.BeforeLlm? && !e.raises.InPostLlm?
    && e.reply.Some? && e.reply.value.toolCalls != []
    && !e.stopAfterLlm
    && (e.outputs.None? || e.stopAfterTools)
  }

  /** The state before step `k`, if the loop gets that far. */
  function Before(s: State, env: nat -> StepEnv, k: nat, c: Config): State {
    if k == 0 then s
    else var t := Before(s, env, k - 1, c); if t.exit.Some? then t else Step(t, env(k - 1), c)
  }

  predicate Reached(s: State, env: nat -> StepEnv, k: nat, c: Config) {
    Before(s, env, k, c).exit.None?
  }

  lemma {:induction false} UnansweredIsNotComplete(ms: seq<Message>, m: Message)
    requires Requests(m)
    ensures !AllGroups(Rest(ms + [m]), Complete)
  {
    RestConcat(ms, [m]);
    RestOfNonSystems([m]);
    CloseGroup([m], []);
    assert [m] + [] == [m] && Groups([m]) == [[m]];
    AllGroupsConcat(Rest(ms), [m], Complete);
    assert [m] in Groups([m]) && [m][1..] == [];
  }

  /** One step keeps the history complete unless it leaves a request unanswered. */
  lemma {:induction false} StepCompleteExactlyWhen(s: State, e: StepEnv, c: Config)
    requires Good(s, c, Complete) && s.exit.None?
    requires e.reply.Some? ==> Coherent(e.reply.value)
    ensures AllGroups(Rest(Step(s, e, c).messages), Complete) <==> !LeavesUnanswered(e)
    ensures LeavesUnanswered(e) ==> Step(s, e, c).exit.Some?
  {
    StepKeepsGood(s, e, c, Complete);
    var (plugin, messages) := Waterfall(e.waterfall, s.plugin, s.messages, c);
    WaterfallKeepsGroups(e.waterfall, s.plugin, s.messages, c, Complete);
    if LeavesUnanswered(e) {
      UnansweredIsNotComplete(messages, e.reply.value.assistantMessage);
    } else if Step(s, e, c).exit in {Some(Stopped), Some(Raised)} {
      assert Step(s, e, c).messages in {s.messages, messages};
    }
  }

  lemma {:induction false} LaterSteps(s: State, env: nat -> StepEnv, k: nat, c: Config)
    requires s.exit.Some?
    ensures Before(s, env, k, c) == s
  {
    if k > 0 {
      LaterSteps(s, env, k - 1, c);
    }
  }

  lemma {:induction false} LoopCompleteExactlyWhen(
    s: State, env: nat -> StepEnv, step: nat, maxTurns: nat, c: Config)
    requires Good(s, c, Complete) && s.exit.None? && CoherentReplies(env)
    ensures AllGroups(Rest(Loop(s, env, step, maxTurns, c).messages), Complete)
            <==> NoneLeft(s, env, step, maxTurns, c)
    decreases maxTurns - step
  {
    if step < maxTurns {
      var t := Step(s, env(step), c);
      StepCompleteExactlyWhen(s, env(step), c);
      StepKeepsGood(s, env(step), c, Complete);
      SplitFirst(s, t, env, step, maxTurns, c);
      if t.exit.Some? {
        var later := Shifted(env, step + 1);
        forall k: nat
          ensures !Reached(t, later, k, c)
        {
          LaterSteps(t, later, k, c);
        }
      } else {
        LoopCompleteExactlyWhen(t, env, step + 1, maxTurns, c);
      }
    }
  }

  function Shifted(env: nat -> StepEnv, step: nat): nat -> StepEnv { (k: nat) => env(step + k) }

  lemma {:induction false} BeforeShifts(s: State, env: nat -> StepEnv, step: nat, k: nat, c: Config)
    requires s.exit.None?
    ensures Before(s, Shifted(env, step), k + 1, c)
         == Before(Step(s, env(step), c), Shifted(env, step + 1), k, c)
  {
    if k == 0 {
      assert Before(s, Shifted(env, step), 0, c) == s;
      assert Shifted(env, step)(0) == env(step);
    } else {
      BeforeShifts(s, env, step, k - 1, c);
      assert Shifted(env, step)(k) == env(step + k) == Shifted(env, step + 1)(k - 1);
    }
  }

  ghost predicate NoneLeft(s: State, env: nat -> StepEnv, step: nat, maxTurns: nat, c: Config) {
    forall k: nat :: step + k < maxTurns && Reached(s, Shifted(env, step), k, c)
                     ==> !LeavesUnanswered(env(step + k))
  }

  lemma {:induction false} SplitFirst(
    s: State, t: State, env: nat -> StepEnv, step: nat, maxTurns: nat, c: Config)
    requires s.exit.None? && t == Step(s, env(step), c) && step < maxTurns
    ensures NoneLeft(s, env, step, maxTurns, c)
            <==> !LeavesUnanswered(env(step)) && NoneLeft(t, env, step + 1, maxTurns, c)
  {
    assert Reached(s, Shifted(env, step), 0, c) && env(step + 0) == env(step);
    if NoneLeft(s, env, step, maxTurns, c) {
      LaterLeavesNone(s, t, env, step, maxTurns, c);
    }
    if !LeavesUnanswered(env(step)) && NoneLeft(t, env, step + 1, maxTurns, c) {
      AllLeaveNone(s, t, env, step, maxTurns, c);
    }
  }

  lemma {:induction false} LaterLeavesNone(
    s: State, t: State, env: nat -> StepEnv, step: nat, maxTurns: nat, c: Config)
    requires s.exit.None? && t == Step(s, env(step), c) && NoneLeft(s, env, step, maxTurns, c)
    ensures NoneLeft(t, env, step + 1, maxTurns, c)
  {
    var here, later := Shifted(env, step), Shifted(env, step + 1);
    forall k: nat | step + 1 + k < maxTurns && Reached(t, later, k, c)
      ensures !LeavesUnanswered(env(step + 1 + k))
    {
      BeforeShifts(s, env, step, k, c);
      assert Reached(s, here, k + 1, c);
      assert step + (k + 1) == step + 1 + k;
    }
  }

  lemma {:induction false} AllLeaveNone(
    s: State, t: State, env: nat -> StepEnv, step: nat, maxTurns: nat, c: Config)
    requires s.exit.None? && t == Step(s, env(step), c)
    requires !LeavesUnanswered(env(step)) && NoneLeft(t, env, step + 1, maxTurns, c)
    ensures NoneLeft(s, env, step, maxTurns, c)
  {
    var here, later := Shifted(env, step), Shifted(env, step + 1);
    forall k: nat | step + k < maxTurns && Reached(s, here, k, c)
      ensures !LeavesUnanswered(env(step + k))
    {
      if k == 0 {
        assert env(step + k) == env(step);
      } else {
        var j: nat := k - 1;
        BeforeShifts(s, env, step, j, c);
        assert Reached(t, later, j, c) && env(step + 1 + j) == env(step + k);
      }
    }
  }

  lemma {:induction false} ShiftedByNothing(s: State, env: nat -> StepEnv, k: nat, c: Config)
    ensures Before(s, Shifted(env, 0), k, c) == Before(s, env, k, c)
  {
    if k > 0 {
      ShiftedByNothing(s, env, k - 1, c);
    }
  }

  /** A step that was reached left a request without its answers. */
  ghost predicate SomeLeft(s: State, env: nat -> StepEnv, maxTurns: nat, c: Config) {
    exists k: nat :: k < maxTurns && Reached(s, env, k, c) && LeavesUnanswered(env(k))
  }

  /** A chat that starts on a paired history ends on one exactly when no step that it reached ended
      between keeping a request and appending the answers. */
  lemma {:induction false} ChatEndsPairedExactlyWhen(
    s: State, input: string, raises: bool, env: nat -> StepEnv, maxTurns: nat, c: Config)
    requires ToolPaired(s.messages) && PluginInv(s.plugin, c, Complete)
    requires forall m :: m in s.sent ==> ToolPaired(m)
    requires CoherentReplies(env)
    ensures var start := Opened(s, input, raises);
            ToolPaired(ChatRun(s, input, raises, env, maxTurns, c).messages)
            <==> !SomeLeft(start, env, maxTurns, c)
  {
    forall ms: seq<Message>
      ensures ToolPaired(ms) <==> AllGroups(Rest(ms), Complete)
    {
      PairedIffGroupsComplete(Rest(ms));
    }
    AppendUser(s.messages, input, Complete);
    var start := Opened(s, input, raises);
    if raises {
      forall k: nat
        ensures !Reached(start, env, k, c)
      {
        LaterSteps(start, env, k, c);
      }
      return;
    }
    LoopCompleteExactlyWhen(start, env, 0, maxTurns, c);
    forall k: nat
      ensures Reached(start, Shifted(env, 0), k, c) <==> Reached(start, env, k, c)
    {
      ShiftedByNothing(start, env, k, c);
    }
    assert NoneLeft(start, env, 0, maxTurns, c)
           <==> forall k: nat :: k < maxTurns && Reached(start, env, k, c)
                                 ==> !LeavesUnanswered(env(0 + k));
  }

  /** So the next chat starts on a paired list exactly under the same condition. */
  lemma {:induction false} NextChatStartsPairedExactlyWhen(
    s: State, input: string, raises: bool, env: nat -> StepEnv, maxTurns: nat, c: Config, next: string)
    requires ToolPaired(s.messages) && PluginInv(s.plugin, c, Complete)
    requires forall m :: m in s.sent ==> ToolPaired(m)
    requires CoherentReplies(env)
    ensures var start := Opened(s, input, raises);
            ToolPaired(ChatRun(s, input, raises, env, maxTurns, c).messages + [UserMessage(next)])
            <==> !SomeLeft(start, env, maxTurns, c)
  {
    ChatEndsPairedExactlyWhen(s, input, raises, env, maxTurns, c);
    StartIsPairedIffHistoryIs(ChatRun(s, input, raises, env, maxTurns, c).messages, next);
  }

  /** A reply that asks for one tool, and a stop while the tool runs. */
  function StoppedInTool(id: string, name: string, output: string): nat -> StepEnv {
    var call := ToolRequest(id, name, "{}", 2);
    var r := ChatResult(None, [call], Message(Assistant, None, [call], None), None);
    (step: nat) => StepEnv(false, [], Nowhere, [], Some(r), false, Some((_: string) => output), true)
  }

  /** From any paired history such a chat ends unpaired, and so the next one starts. */
  lemma {:induction false} StopInToolEndsUnpaired(
    s: State, input: string, maxTurns: nat, c: Config, id: string, name: string, output: string)
    requires ToolPaired(s.messages) && PluginInv(s.plugin, c, Complete) && maxTurns > 0
    requires forall m :: m in s.sent ==> ToolPaired(m)
    ensures var env := StoppedInTool(id, name, output);
            && CoherentReplies(env)
            && !ToolPaired(ChatRun(s, input, false, env, maxTurns, c).messages)
  {
    var env := StoppedInTool(id, name, output);
    var start := Opened(s, input, false);
    ChatEndsPairedExactlyWhen(s, input, false, env, maxTurns, c);
    assert Reached(start, env, 0, c) && LeavesUnanswered(env(0));
  }

  // ---- Sessions of many chats --------------------------------------------------------------

  datatype ChatInput = ChatInput(input: string, raises: bool, env: nat -> StepEnv, maxTurns: nat)

  function ChatOf(s: State, chat: ChatInput, c: Config): State {
    ChatRun(s, chat.input, chat.raises, chat.env, chat.maxTurns, c)
  }

  function Session(s: State, chats: seq<ChatInput>, c: Config): State
    decreases |chats|
  {
    if chats == [] then s
    else Session(ChatOf(s, chats[0], c), chats[1..], c)
  }

  lemma {:induction false} TrailingIsSettled(ms: seq<Message>)
    requires TrailingUnanswered(ms, Settled)
    ensures AllGroups(Rest(ms), Settled)
  {
    var h := ms[..|ms| - 1];
    assert ms == h + [ms[|ms| - 1]];
    AppendGroup(h, [ms[|ms| - 1]], Settled);
  }

  /** Over any number of chats, stopped ones included, every group of the history and of
      every list sent is either completely answered or a bare unanswered request. */
  lemma {:induction false} SessionStaysSettled(s: State, chats: seq<ChatInput>, c: Config)
    requires AllGroups(Rest(s.messages), Settled) && PluginInv(s.plugin, c, Settled)
    requires forall m :: m in s.sent ==> AllGroups(Rest(m), Settled)
    requires forall i :: 0 <= i < |chats| ==> CoherentReplies(chats[i].env)
    ensures var t := Session(s, chats, c);
            && AllGroups(Rest(t.messages), Settled)
            && forall m :: m in t.sent ==> AllGroups(Rest(m), Settled)
    decreases |chats|
  {
    if chats != [] {
      var chat := chats[0];
      AppendUser(s.messages, chat.input, Settled);
      var start := Opened(s, chat.input, chat.raises);
      LoopKeepsGood(start, chat.env, 0, chat.maxTurns, c, Settled);
      var t := ChatOf(s, chat, c);
      if TrailingUnanswered(t.messages, Settled) {
        TrailingIsSettled(t.messages);
      }
      SessionStaysSettled(t, chats[1..], c);
    }
  }

  /** The limit of pairing: the list a chat starts from is paired exactly when the history it
      continues is, so after a stop that left an unanswered request it is not. */
  lemma {:induction false} StartIsPairedIffHistoryIs(history: seq<Message>, input: string)
    ensures ToolPaired(history + [UserMessage(input)]) <==> ToolPaired(history)
    ensures TrailingUnanswered(history, Complete) ==> !ToolPaired(history + [UserMessage(input)])
  {
    var user := [UserMessage(input)];
    RestConcat(history, user);
    RestOfNonSystems(user);
    PairedConcat(Rest(history), user);
    if TrailingUnanswered(history, Complete) {
      var h, last := history[..|history| - 1], [history[|history| - 1]];
      assert history == h + last;
      RestConcat(h, last);
      RestOfNonSystems(last);
      PairedConcat(Rest(h), last);
    }
  }
}
