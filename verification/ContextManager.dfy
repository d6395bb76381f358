/** The rewriting of a history before each LLM call: the strategy chain, the switch to a
    background snapshot, and the request for one (qi_agent/plugins/builtin/context_manager.py,
    qi_agent/context/strategies). */
module ContextManager {
  import opened Basics
  import opened Transcript
  import opened Compressor
  import Window
  import Async = AsyncCompressor

  const STICKY_HEADER := "[重要信息（用户要求保留，永不裁剪）]"

  /** One strategy with its configuration section. */
  datatype Strategy =
    | Sticky
    | Compress(window: nat, threshold: real, keepRecent: int)
    | Window(budget: Option<int>)

  /** What a chain run reads from outside: the last measured usage, the rendered sticky
      notes (empty when there are none) and the summariser. */
  datatype ChainInput = ChainInput(
    promptTokens: nat, sticky: string, summarize: seq<Message> -> string)

  predicate Contains(text: string, part: string) {
    part <= text || (text != [] && Contains(text[1..], part))
  }

  function TextOf(m: Message): string { if m.content.Some? then m.content.value else "" }

  function AttachSticky(ms: seq<Message>, sticky: string): seq<Message> {
    if ms == [] || !IsSystem(ms[0]) || Contains(TextOf(ms[0]), STICKY_HEADER) then ms
    else [ms[0].(content := Some(TextOf(ms[0]) + "\n\n" + sticky))] + ms[1..]
  }

  predicate ShouldApply(s: Strategy, input: ChainInput) {
    match s
    case Sticky => input.sticky != ""
    case Compress(window, threshold, _) => ShouldCompress(input.promptTokens, window, threshold)
    case Window(budget) => budget.Some? && budget.value > 0
  }

  /** The rewritten history, and whether the strategy consumed the turn. */
  function Apply(s: Strategy, ms: seq<Message>, input: ChainInput): (seq<Message>, bool) {
    match s
    case Sticky => (AttachSticky(ms, input.sticky), false)
    case Compress(_, _, keepRecent) => Compressor.Compress(ms, input.summarize, keepRecent)
    case Window(budget) =>
      if budget.None? then (ms, false)
      else var (trimmed, dropped) := Window.Trim(ms, budget.value); (trimmed, dropped > 0)
  }

  function Chained(chain: seq<Strategy>, ms: seq<Message>, input: ChainInput): seq<Message> {
    if chain == [] then ms
    else if !ShouldApply(chain[0], input) then Chained(chain[1..], ms, input)
    else
      var (rewritten, consumed) := Apply(chain[0], ms, input);
      if consumed then rewritten else Chained(chain[1..], rewritten, input)
  }

  predicate NotCompress(s: Strategy) { !s.Compress? }

  /** The first compress strategy of the chain, whose threshold also guards requests. */
  function CompressOf(chain: seq<Strategy>): Option<Strategy> {
    var found := Filter(chain, (s: Strategy) => s.Compress?);
    if found == [] then None else Some(found[0])
  }

  // ---- The plugin ------------------------------------------------------------------------

  datatype Config = Config(chain: seq<Strategy>, async: bool, compressor: Async.Config)

  datatype Plugin = Plugin(lastPromptTokens: nat, compressor: Async.State)

  const FRESH_PLUGIN := Plugin(0, Async.INITIAL)

  /** Progress of the background worker: anything but a request or a take. */
  function Work(s: Async.State, steps: seq<Async.Step>, c: Async.Config): Async.State
    decreases |steps|
  {
    if steps == [] then s
    else
      Work(if steps[0].Publish? || steps[0].Finish? then Async.Next(s, steps[0], c) else s,
           steps[1..], c)
  }

  function Progressed(s: Plugin, steps: seq<Async.Step>, c: Config): Plugin {
    s.(compressor := Work(s.compressor, steps, c.compressor))
  }

  /** What one pre-step run meets: the worker's progress before the snapshot is taken and
      before the busy test, the sticky notes, and the summariser. */
  datatype PreStepInput = PreStepInput(
    beforeTake: seq<Async.Step>, beforeBusy: seq<Async.Step>,
    sticky: string, summarize: seq<Message> -> string)

  function PreStep(s: Plugin, ms: seq<Message>, e: PreStepInput, c: Config)
    : (Plugin, seq<Message>)
  {
    var input := ChainInput(s.lastPromptTokens, e.sticky, e.summarize);
    if !c.async then (s, Chained(c.chain, ms, input))
    else
      var ready := Work(s.compressor, e.beforeTake, c.compressor);
      var switched := Async.Taken(ready.shared, ms, c.compressor).1;
      var taken := Async.Next(ready, Async.Take(ms), c.compressor);
      if switched.Some? then
        (s.(compressor := taken),
         Chained(Filter(c.chain, NotCompress), switched.value, input))
      else
        var asked := Work(taken, e.beforeBusy, c.compressor);
        (s.(compressor := asked),
         Chained(if asked.shared.running then Filter(c.chain, NotCompress) else c.chain,
                 ms, input))
  }

  function PostLlm(s: Plugin, promptTokens: nat, ms: seq<Message>, c: Config): Plugin {
    if promptTokens == 0 then s
    else
      var t := s.(lastPromptTokens := promptTokens);
      var strategy := CompressOf(c.chain);
      if c.async && strategy.Some? && strategy.value.Compress?
         && ShouldCompress(promptTokens, strategy.value.window, strategy.value.threshold)
      then t.(compressor := Async.Next(s.compressor, Async.Request(ms), c.compressor))
      else t
  }

  class ContextManagerPlugin {
    const config: Config
    var lastPromptTokens: nat
    var compressor: Async.State

    function View(): Plugin
      reads this
    {
      Plugin(lastPromptTokens, compressor)
    }

    constructor (config: Config)
      ensures this.config == config && View() == FRESH_PLUGIN
    {
      this.config := config;
      lastPromptTokens, compressor := 0, Async.INITIAL;
    }

    /** `_run_chain`: strategies in order until one consumes. */
    method RunChain(history: seq<Message>, chain: seq<Strategy>, e: PreStepInput)
      returns (messages: seq<Message>)
      ensures messages
           == Chained(chain, history, ChainInput(lastPromptTokens, e.sticky, e.summarize))
    {
      messages := history;
      var input := ChainInput(lastPromptTokens, e.sticky, e.summarize);
      for i := 0 to |chain|
        invariant Chained(chain[i..], messages, input) == Chained(chain, history, input)
      {
        if ShouldApply(chain[i], input) {
          var (rewritten, consumed) := Apply(chain[i], messages, input);
          messages := rewritten;
          if consumed {
            return;
          }
        }
      }
    }

    /** `_on_pre_step`, with the worker running in between. */
    method OnPreStep(history: seq<Message>, e: PreStepInput) returns (messages: seq<Message>)
      modifies this`compressor
      ensures (View(), messages) == PreStep(old(View()), history, e, config)
    {
      if config.async {
        compressor := Work(compressor, e.beforeTake, config.compressor);
        var switched := Async.Taken(compressor.shared, history, config.compressor).1;
        compressor := Async.Next(compressor, Async.Take(history), config.compressor);
        if switched.Some? {
          messages := RunChain(switched.value, Filter(config.chain, NotCompress), e);
          return;
        }
        compressor := Work(compressor, e.beforeBusy, config.compressor);
        if compressor.shared.running {
          messages := RunChain(history, Filter(config.chain, NotCompress), e);
          return;
        }
      }
      messages := RunChain(history, config.chain, e);
    }

    /** The worker goes on by itself. */
    method LetWorkerRun(steps: seq<Async.Step>)
      modifies this`compressor
      ensures View() == Progressed(old(View()), steps, config)
    {
      compressor := Work(compressor, steps, config.compressor);
    }

    /** `_on_post_llm`: the measured usage decides whether to start a compression. */
    method OnPostLlm(promptTokens: nat, messages: seq<Message>)
      modifies this
      ensures View() == PostLlm(old(View()), promptTokens, messages, config)
    {
      if promptTokens > 0 {
        lastPromptTokens := promptTokens;
        var strategy := CompressOf(config.chain);
        if config.async && strategy.Some? && strategy.value.Compress?
           && ShouldCompress(promptTokens, strategy.value.window, strategy.value.threshold)
        {
          compressor := Async.Next(compressor, Async.Request(messages), config.compressor);
        }
      }
    }
  }

  // ---- What rewriting keeps ----------------------------------------------------------------

  /** A property of groups that every lone user message has (anchors and summaries are such). */
  ghost predicate HoldsOfUsers(p: Group -> bool) { forall t :: p([UserMessage(t)]) }

  lemma {:induction false} ApplyKeepsGroups(
    s: Strategy, ms: seq<Message>, input: ChainInput, p: Group -> bool)
    requires HoldsOfUsers(p) && AllGroups(Rest(ms), p)
    ensures AllGroups(Rest(Apply(s, ms, input).0), p)
  {
    match s
    case Sticky =>
    case Compress(_, _, keepRecent) =>
      var summary := input.summarize(Split(ms, keepRecent).0);
      assert p([SummaryMessage(summary)]);
      AssembleKeepsGroups(ms, summary, keepRecent, p);
    case Window(budget) =>
      if budget.Some? {
        assert p([Window.ANCHOR]);
        Window.TrimKeepsGroups(ms, budget.value, p);
      }
  }

  /** No chain, in any order and with any settings, breaks up a group. */
  lemma {:induction false} ChainKeepsGroups(
    chain: seq<Strategy>, ms: seq<Message>, input: ChainInput, p: Group -> bool)
    requires HoldsOfUsers(p) && AllGroups(Rest(ms), p)
    ensures AllGroups(Rest(Chained(chain, ms, input)), p)
  {
    if chain != [] {
      if !ShouldApply(chain[0], input) {
        ChainKeepsGroups(chain[1..], ms, input, p);
      } else {
        var (rewritten, consumed) := Apply(chain[0], ms, input);
        ApplyKeepsGroups(chain[0], ms, input, p);
        ChainKeepsGroups(chain[1..], rewritten, input, p);
      }
    }
  }

  /** Every list the compressor has ever copied had the property. */
  ghost predicate CopiesHold(s: Async.State, p: Group -> bool) {
    forall r :: r in s.requests ==> AllGroups(Rest(r), p)
  }

  ghost predicate PluginInv(s: Plugin, c: Config, p: Group -> bool) {
    Async.Inv(s.compressor, c.compressor) && CopiesHold(s.compressor, p)
  }

  lemma {:induction false} WorkKeepsInv(
    s: Async.State, steps: seq<Async.Step>, c: Async.Config, p: Group -> bool)
    requires Async.Inv(s, c) && CopiesHold(s, p)
    ensures Async.Inv(Work(s, steps, c), c) && CopiesHold(Work(s, steps, c), p)
    decreases |steps|
  {
    if steps != [] {
      var t := if steps[0].Publish? || steps[0].Finish? then Async.Next(s, steps[0], c) else s;
      Async.NextKeepsInv(s, steps[0], c);
      assert t.requests == s.requests;
      WorkKeepsInv(t, steps[1..], c, p);
    }
  }

  lemma {:induction false} TakenHolds(
    s: Async.State, ms: seq<Message>, c: Async.Config, p: Group -> bool)
    requires Async.Inv(s, c) && CopiesHold(s, p) && HoldsOfUsers(p)
    requires Async.Taken(s.shared, ms, c).1.Some?
    ensures AllGroups(Rest(Async.Taken(s.shared, ms, c).1.value), p)
  {
    var source := s.requests[s.origin.0];
    assert source in s.requests;
    assert p([SummaryMessage(s.origin.1)]);
    AssembleKeepsGroups(source, s.origin.1, c.keepRecent, p);
  }

  /** Before a call: whatever the worker has done meanwhile, the rewritten history consists
      of groups with the property, be it trimmed, summarised or switched. */
  lemma {:induction false} PreStepKeepsGroups(
    s: Plugin, ms: seq<Message>, e: PreStepInput, c: Config, p: Group -> bool)
    requires PluginInv(s, c, p) && HoldsOfUsers(p) && AllGroups(Rest(ms), p)
    ensures PluginInv(PreStep(s, ms, e, c).0, c, p)
    ensures AllGroups(Rest(PreStep(s, ms, e, c).1), p)
  {
    var input := ChainInput(s.lastPromptTokens, e.sticky, e.summarize);
    ChainKeepsGroups(c.chain, ms, input, p);
    ChainKeepsGroups(Filter(c.chain, NotCompress), ms, input, p);
    if c.async {
      var ready := Work(s.compressor, e.beforeTake, c.compressor);
      WorkKeepsInv(s.compressor, e.beforeTake, c.compressor, p);
      Async.NextKeepsInv(ready, Async.Take(ms), c.compressor);
      var taken := Async.Next(ready, Async.Take(ms), c.compressor);
      assert taken.requests == ready.requests;
      WorkKeepsInv(taken, e.beforeBusy, c.compressor, p);
      if Async.Taken(ready.shared, ms, c.compressor).1.Some? {
        TakenHolds(ready, ms, c.compressor, p);
        ChainKeepsGroups(Filter(c.chain, NotCompress),
                         Async.Taken(ready.shared, ms, c.compressor).1.value, input, p);
      }
    }
  }

  lemma {:induction false} PostLlmKeepsInv(
    s: Plugin, tokens: nat, ms: seq<Message>, c: Config, p: Group -> bool)
    requires PluginInv(s, c, p) && AllGroups(Rest(ms), p)
    ensures PluginInv(PostLlm(s, tokens, ms, c), c, p)
  {
    Async.NextKeepsInv(s.compressor, Async.Request(ms), c.compressor);
  }
}
