/** What the switch to a background snapshot loses when the history was rewritten in the meantime:
    the request, pre-steps and calls with the worker at any point
    (qi_agent/plugins/builtin/context_manager.py), and the take of what it published
    (qi_agent/context/async_compressor.py). */
module SnapshotSwitch {
  import opened Basics
  import opened Transcript
  import opened Compressor
  import opened ContextManager
  import Window
  import Async = AsyncCompressor

  function Size(ms: seq<Message>): nat { |Groups(Rest(ms))| }

  // ---- How far a history shrinks before a call ---------------------------------------------------

  /** The groups that trimming drops, less the anchor that it adds. */
  function TrimShrinkage(ms: seq<Message>, budget: int): int {
    var d := Window.Trim(ms, budget).1;
    d - if 0 < d <= Size(ms) then |Window.AnchorGroups(Groups(Rest(ms))[d..])| else 0
  }

  /** Over the chain, which ends at the first window that drops anything and at the first compression
      that finds something early: all but the recent groups become one. */
  function ChainShrinkage(chain: seq<Strategy>, ms: seq<Message>, input: ChainInput): int {
    if chain == [] then 0
    else if !ShouldApply(chain[0], input) then ChainShrinkage(chain[1..], ms, input)
    else
      match chain[0]
      case Sticky => ChainShrinkage(chain[1..], AttachSticky(ms, input.sticky), input)
      case Compress(_, _, keepRecent) =>
        if Split(ms, keepRecent).0 == [] then ChainShrinkage(chain[1..], ms, input)
        else Size(ms) - 1 - KeepCount(Size(ms), keepRecent)
      case Window(budget) =>
        if budget.None? || Window.Trim(ms, budget.value).1 <= 0 then
          ChainShrinkage(chain[1..], ms, input)
        else TrimShrinkage(ms, budget.value)
  }

  function RestOfChain(c: Config): seq<Strategy> { Filter(c.chain, NotCompress) }

  function InputOf(s: Plugin, e: PreStepInput): ChainInput {
    ChainInput(s.lastPromptTokens, e.sticky, e.summarize)
  }

  /** A whole pre-step: by the switch to a snapshot and the rest of the chain; or by the chain, with
      or without compression as the busy test says. */
  function PreStepShrinkage(s: Plugin, ms: seq<Message>, e: PreStepInput, c: Config): int {
    if !c.async then ChainShrinkage(c.chain, ms, InputOf(s, e))
    else
      var ready := Work(s.compressor, e.beforeTake, c.compressor);
      var switched := Async.Taken(ready.shared, ms, c.compressor).1;
      if switched.Some? then
        Size(ms) - Size(switched.value) + ChainShrinkage(RestOfChain(c), switched.value, InputOf(s, e))
      else
        var taken := Async.Next(ready, Async.Take(ms), c.compressor);
        var asked := Work(taken, e.beforeBusy, c.compressor);
        ChainShrinkage(if asked.shared.running then RestOfChain(c) else c.chain, ms, InputOf(s, e))
  }

  lemma {:induction false} TrimShrinks(ms: seq<Message>, budget: int)
    ensures Window.Trim(ms, budget).1 > 0 ==>
              Size(Window.Trim(ms, budget).0) == Size(ms) - TrimShrinkage(ms, budget)
    ensures Window.Trim(ms, budget).1 <= 0 ==> Window.Trim(ms, budget).0 == ms
  {
    Window.TrimKeepsWholeGroups(ms, budget);
    var gs, d := Groups(Rest(ms)), Window.Trim(ms, budget).1;
    if d > 0 {
      assert |gs[d..]| == |gs| - d;
    }
  }

  lemma {:induction false} CompressShrinks(ms: seq<Message>, summary: string, keepRecent: int)
    ensures Size(Assemble(ms, summary, keepRecent)) == 1 + KeepCount(Size(ms), keepRecent)
  {
    AssembleShape(ms, summary, keepRecent);
  }

  /** Every chain, whatever is in it. */
  lemma {:induction false} ChainShrinks(chain: seq<Strategy>, ms: seq<Message>, input: ChainInput)
    ensures Size(Chained(chain, ms, input)) == Size(ms) - ChainShrinkage(chain, ms, input)
  {
    if chain != [] {
      var tail := chain[1..];
      if !ShouldApply(chain[0], input) {
        ChainShrinks(tail, ms, input);
      } else {
        match chain[0]
        case Sticky =>
          ChainShrinks(tail, AttachSticky(ms, input.sticky), input);
        case Compress(_, _, keepRecent) =>
          CompressShrinks(ms, input.summarize(Split(ms, keepRecent).0), keepRecent);
          ChainShrinks(tail, ms, input);
        case Window(budget) =>
          TrimShrinks(ms, budget.value);
          ChainShrinks(tail, ms, input);
      }
    }
  }

  /** Every pre-step, whatever the worker does in it. */
  lemma {:induction false} PreStepShrinks(s: Plugin, ms: seq<Message>, e: PreStepInput, c: Config)
    ensures Size(PreStep(s, ms, e, c).1) == Size(ms) - PreStepShrinkage(s, ms, e, c)
  {
    var input := InputOf(s, e);
    ChainShrinks(c.chain, ms, input);
    ChainShrinks(RestOfChain(c), ms, input);
    var switched :=
      Async.Taken(Work(s.compressor, e.beforeTake, c.compressor).shared, ms, c.compressor).1;
    if switched.Some? {
      ChainShrinks(RestOfChain(c), switched.value, input);
    }
  }

  // ---- Turns -----------------------------------------------------------------------------------

  /** One turn of the loop: what was appended, what the pre-step met, what the worker did during the
      call, and the measured usage. */
  datatype Turn = Turn(
    appended: seq<Message>, input: PreStepInput, duringCall: seq<Async.Step>, tokens: nat)

  /** After the call of a turn. */
  function Called(s: Plugin, t: Turn, ms: seq<Message>, c: Config): Plugin {
    PostLlm(Progressed(s, t.duringCall, c), t.tokens, ms, c)
  }

  /** The plugin and the history after these turns. */
  function After(s: Plugin, ms: seq<Message>, turns: seq<Turn>, c: Config): (Plugin, seq<Message>)
    decreases |turns|
  {
    if turns == [] then (s, ms)
    else
      var (s1, ms1) := PreStep(s, ms + turns[0].appended, turns[0].input, c);
      After(Called(s1, turns[0], ms1, c), ms1, turns[1..], c)
  }

  /** How many groups the turns appended. */
  function Appended(turns: seq<Turn>): nat {
    if turns == [] then 0 else Size(turns[0].appended) + Appended(turns[1..])
  }

  /** How many groups their pre-steps took away: trimmed, compressed or switched. */
  function Shrunk(s: Plugin, ms: seq<Message>, turns: seq<Turn>, c: Config): int
    decreases |turns|
  {
    if turns == [] then 0
    else
      var t := turns[0];
      var (s1, ms1) := PreStep(s, ms + t.appended, t.input, c);
      PreStepShrinkage(s, ms + t.appended, t.input, c)
        + Shrunk(Called(s1, t, ms1, c), ms1, turns[1..], c)
  }

  ghost predicate AllFresh(turns: seq<Turn>) {
    forall t :: t in turns ==> StartsFresh(Rest(t.appended))
  }

  /** The size of a history after any turns. */
  lemma {:induction false} SizeAfter(s: Plugin, ms: seq<Message>, turns: seq<Turn>, c: Config)
    requires AllFresh(turns)
    ensures Size(After(s, ms, turns, c).1) == Size(ms) + Appended(turns) - Shrunk(s, ms, turns, c)
    decreases |turns|
  {
    if turns != [] {
      var t := turns[0];
      AppendedSize(ms, t.appended);
      PreStepShrinks(s, ms + t.appended, t.input, c);
      var (s1, ms1) := PreStep(s, ms + t.appended, t.input, c);
      SizeAfter(Called(s1, t, ms1, c), ms1, turns[1..], c);
    }
  }

  lemma {:induction false} AppendedSize(ms: seq<Message>, app: seq<Message>)
    requires StartsFresh(Rest(app))
    ensures Size(ms + app) == Size(ms) + Size(app)
  {
    RestConcat(ms, app);
    GroupsConcat(Rest(ms), Rest(app));
  }

  // ---- What a request copied stays what it copied -----------------------------------------------

  /** The request's copy is still the source of what the compressor will hand out for it. */
  ghost predicate Copied(s: Async.State, w: nat, source: seq<Message>, c: Async.Config) {
    Async.Inv(s, c) && w < |s.requests| && s.requests[w] == source
  }

  lemma {:induction false} NextKeepsCopy(
    s: Async.State, step: Async.Step, w: nat, source: seq<Message>, c: Async.Config)
    requires Copied(s, w, source, c)
    ensures Copied(Async.Next(s, step, c), w, source, c)
  {
    Async.NextKeepsInv(s, step, c);
  }

  lemma {:induction false} WorkKeepsCopy(
    s: Async.State, steps: seq<Async.Step>, w: nat, source: seq<Message>, c: Async.Config)
    requires Copied(s, w, source, c)
    ensures Copied(Work(s, steps, c), w, source, c)
    ensures Work(s, steps, c).handed == s.handed
    decreases |steps|
  {
    if steps != [] {
      NextKeepsCopy(s, steps[0], w, source, c);
      WorkKeepsCopy(if steps[0].Publish? || steps[0].Finish? then Async.Next(s, steps[0], c) else s,
                    steps[1..], w, source, c);
    }
  }

  lemma {:induction false} PreStepKeepsCopy(
    s: Plugin, ms: seq<Message>, e: PreStepInput, c: Config, w: nat, source: seq<Message>)
    requires Copied(s.compressor, w, source, c.compressor)
    ensures Copied(PreStep(s, ms, e, c).0.compressor, w, source, c.compressor)
  {
    if c.async {
      var ready := Work(s.compressor, e.beforeTake, c.compressor);
      WorkKeepsCopy(s.compressor, e.beforeTake, w, source, c.compressor);
      NextKeepsCopy(ready, Async.Take(ms), w, source, c.compressor);
      WorkKeepsCopy(Async.Next(ready, Async.Take(ms), c.compressor), e.beforeBusy, w, source,
                    c.compressor);
    }
  }

  lemma {:induction false} CalledKeepsCopy(
    s: Plugin, t: Turn, ms: seq<Message>, c: Config, w: nat, source: seq<Message>)
    requires Copied(s.compressor, w, source, c.compressor)
    ensures Copied(Called(s, t, ms, c).compressor, w, source, c.compressor)
  {
    WorkKeepsCopy(s.compressor, t.duringCall, w, source, c.compressor);
    NextKeepsCopy(Work(s.compressor, t.duringCall, c.compressor), Async.Request(ms), w, source,
                  c.compressor);
  }

  lemma {:induction false} AfterKeepsCopy(
    s: Plugin, ms: seq<Message>, turns: seq<Turn>, c: Config, w: nat, source: seq<Message>)
    requires Copied(s.compressor, w, source, c.compressor)
    ensures Copied(After(s, ms, turns, c).0.compressor, w, source, c.compressor)
    decreases |turns|
  {
    if turns != [] {
      var t := turns[0];
      PreStepKeepsCopy(s, ms + t.appended, t.input, c, w, source);
      var (s1, ms1) := PreStep(s, ms + t.appended, t.input, c);
      CalledKeepsCopy(s1, t, ms1, c, w, source);
      AfterKeepsCopy(Called(s1, t, ms1, c), ms1, turns[1..], c, w, source);
    }
  }

  // ---- The take --------------------------------------------------------------------------------

  /** From the request to the switch, over any number of turns with any appended groups, any chain,
      and any progress of the worker at any moment: when the field holds the snapshot of this request,
      it is handed out exactly when the groups appended since the request are at most `maxGrowth` and
      as many more as were trimmed, compressed or switched away. The list that is handed out then has
      none of the appended groups. */
  lemma {:induction false} SwitchAfterTurns(
    s: Plugin, source: seq<Message>, turns: seq<Turn>, app: seq<Message>, e: PreStepInput,
    c: Config, w: nat)
    requires c.async && Copied(s.compressor, w, source, c.compressor)
    requires AllFresh(turns) && StartsFresh(Rest(app))
    ensures var (s1, ms1) := After(s, source, turns, c);
            var ready := Work(s1.compressor, e.beforeTake, c.compressor);
            ready.shared.snapshot.Some? && ready.origin.0 == w ==>
              var (s2, ms2) := PreStep(s1, ms1 + app, e, c);
              var snapshot := Assemble(source, ready.origin.1, c.compressor.keepRecent);
              var gs := Groups(Rest(source));
              var switched := Appended(turns) + Size(app)
                              <= c.compressor.maxGrowth + Shrunk(s, source, turns, c);
              && s2.compressor.handed == s1.compressor.handed
                   + (if switched then [Async.Handout(w, ready.origin.1, snapshot)] else [])
              && (switched ==> ms2 == Chained(RestOfChain(c), snapshot, InputOf(s1, e)))
              && Groups(Rest(snapshot)) == [[SummaryMessage(ready.origin.1)]]
                   + gs[|gs| - KeepCount(|gs|, c.compressor.keepRecent)..]
  {
    var (s1, ms1) := After(s, source, turns, c);
    AfterKeepsCopy(s, source, turns, c, w, source);
    WorkKeepsCopy(s1.compressor, e.beforeTake, w, source, c.compressor);
    var ready := Work(s1.compressor, e.beforeTake, c.compressor);
    NextKeepsCopy(ready, Async.Take(ms1 + app), w, source, c.compressor);
    var taken := Async.Next(ready, Async.Take(ms1 + app), c.compressor);
    WorkKeepsCopy(taken, e.beforeBusy, w, source, c.compressor);
    SizeAfter(s, source, turns, c);
    AppendedSize(ms1, app);
    AssembleShape(source, ready.origin.1, c.compressor.keepRecent);
    assert s1.compressor.handed + [] == s1.compressor.handed;
  }

  // ---- Trimming hides what is lost --------------------------------------------------------------

  function Users(texts: seq<string>): (ms: seq<Message>)
    ensures |ms| == |texts| && forall i :: 0 <= i < |ms| ==> ms[i] == UserMessage(texts[i])
  {
    Map(texts, (t: string) => UserMessage(t))
  }

  function Singles(ms: seq<Message>): (gs: seq<Group>)
    ensures |gs| == |ms| && forall i :: 0 <= i < |gs| ==> gs[i] == [ms[i]]
  {
    Map(ms, (m: Message) => [m])
  }

  lemma {:induction false} FlattenSingles(ms: seq<Message>)
    ensures Flatten(Singles(ms)) == ms
  {
    if ms != [] {
      FlattenSingles(ms[1..]);
      assert Singles(ms)[1..] == Singles(ms[1..]);
    }
  }

  lemma {:induction false} UsersStandAlone(texts: seq<string>)
    ensures Rest(Users(texts)) == Users(texts) && Systems(Users(texts)) == []
    ensures Groups(Users(texts)) == Singles(Users(texts))
  {
    FilterNone(Users(texts), IsSystem);
    FilterAll(Users(texts), NotSystem);
    UserGroups(texts);
  }

  lemma {:induction false} UserGroups(texts: seq<string>)
    ensures Groups(Users(texts)) == Singles(Users(texts))
  {
    if texts == [] {
      assert Users(texts) == [];
    } else {
      UserGroups(texts[1..]);
      var head, tail := [UserMessage(texts[0])], Users(texts[1..]);
      CloseGroup(head, tail);
      HeadUser(texts);
    }
  }

  lemma {:induction false} HeadUser(texts: seq<string>)
    requires texts != []
    ensures Users(texts) == [UserMessage(texts[0])] + Users(texts[1..])
    ensures Singles(Users(texts)) == [[UserMessage(texts[0])]] + Singles(Users(texts[1..]))
  {
  }

  predicate Light(text: string) { 0 < |text| < 8 }

  lemma {:induction false} LightWeight(texts: seq<string>)
    requires forall t :: t in texts ==> Light(t)
    ensures Window.Weight(Singles(Users(texts))) == |texts|
  {
    if texts != [] {
      LightWeight(texts[1..]);
      var m := UserMessage(texts[0]);
      assert Singles(Users(texts)) == [[m]] + Singles(Users(texts[1..]));
      assert Light(texts[0]) && [m][1..] == [];
      assert Window.Tokens([m]) == Window.MessageTokens(m) + Window.Tokens([m][1..]) == 1;
    }
  }

  /** Three light messages and room for two: one goes, without an anchor. */
  lemma {:induction false} OneOfThreeGoes(a: string, b: string, x: string)
    requires Light(a) && Light(b) && Light(x)
    ensures Window.Trim(Users([a, b, x]), 2) == (Users([b, x]), 1)
    ensures TrimShrinkage(Users([a, b, x]), 2) == 1
  {
    var ms, left := Users([a, b, x]), Users([b, x]);
    UsersStandAlone([a, b, x]);
    var gs := Groups(Rest(ms));
    assert ms[1..] == left && gs[1..] == Singles(left) && gs[0..] == gs;
    LightWeight([a, b, x]);
    LightWeight([b, x]);
    Window.CutIsUnique(gs, 2, 1);
    FlattenSingles(left);
    assert left[0].role == User;
    assert Systems(ms) + Window.Anchored(left) == left;
  }

  const SUMMARISE := Compress(0, 0.0, 1)

  /** Automatic compression to one recent group, no growth allowed; with room for two light messages,
      or without a window. */
  const TIGHT := Config([SUMMARISE, Strategy.Window(Some(2))], true, Async.Config(1, 0))
  const BARE := Config([SUMMARISE], true, Async.Config(1, 0))

  function Meets(beforeTake: seq<Async.Step>, beforeBusy: seq<Async.Step>): PreStepInput {
    PreStepInput(beforeTake, beforeBusy, "", (_: seq<Message>) => "")
  }

  lemma {:induction false} ChainsOf()
    ensures CompressOf(TIGHT.chain) == Some(SUMMARISE) == CompressOf(BARE.chain)
    ensures RestOfChain(TIGHT) == [Strategy.Window(Some(2))] && RestOfChain(BARE) == []
  {
    assert TIGHT.chain[1..] == [Strategy.Window(Some(2))] && TIGHT.chain[1..][1..] == [];
    assert Filter(TIGHT.chain[1..], NotCompress) == [Strategy.Window(Some(2))];
    assert BARE.chain[1..] == [] && Filter(BARE.chain[1..], NotCompress) == [];
  }

  /** A compression of two messages has been requested. */
  function Requested(a: string, b: string, c: Config): Plugin {
    PostLlm(FRESH_PLUGIN, 1, Users([a, b]), c)
  }

  function Summarising(a: string, b: string): Async.State {
    Async.State(Async.Shared(true, None), map[0 := Async.Summarising], [Users([a, b])], (0, ""), [])
  }

  function Finished(a: string, b: string, summary: string): Async.State {
    Async.State(
      Async.Shared(false, Some(Async.Snapshot(Assemble(Users([a, b]), summary, 1), 2))),
      map[], [Users([a, b])], (0, summary), [])
  }

  function Finishing(summary: string): seq<Async.Step> {
    [Async.Publish(0, Some(summary)), Async.Finish(0)]
  }

  lemma {:induction false} RequestedIsSummarising(a: string, b: string, c: Config)
    requires c in {TIGHT, BARE}
    ensures Requested(a, b, c) == Plugin(1, Summarising(a, b))
    ensures Copied(Summarising(a, b), 0, Users([a, b]), c.compressor)
  {
    ChainsOf();
    Async.NextKeepsInv(Async.INITIAL, Async.Request(Users([a, b])), c.compressor);
  }

  lemma {:induction false} SummaryOfFirst(a: string, b: string, x: string, summary: string)
    requires x != b && UserMessage(x) != SummaryMessage(summary)
    ensures Split(Users([a, b]), 1).0 != []
    ensures UserMessage(x) !in Assemble(Users([a, b]), summary, 1)
  {
    EarlyIsFirst(a, b);
    UsersStandAlone([a, b]);
    assert Assemble(Users([a, b]), summary, 1) == [SummaryMessage(summary)] + Users([b]);
  }

  lemma {:induction false} WorkerFinishes(a: string, b: string, summary: string, c: Async.Config)
    requires c == Async.Config(1, 0) && Split(Users([a, b]), 1).0 != []
    ensures Work(Summarising(a, b), Finishing(summary), c) == Finished(a, b, summary)
  {
    UsersStandAlone([a, b]);
    var steps := Finishing(summary);
    assert steps[1..] == [Async.Finish(0)] && steps[1..][1..] == [];
    var published := Async.Next(Summarising(a, b), steps[0], c);
    assert Async.Next(published, Async.Finish(0), c) == Finished(a, b, summary);
    assert Work(published, steps[1..], c) == Work(Finished(a, b, summary), [], c);
  }

  /** One message appended; what its pre-step makes of the three. */
  lemma {:induction false} OneTurn(
    a: string, b: string, x: string, e: PreStepInput, c: Config, left: seq<Message>, after: Async.State)
    requires PreStep(Plugin(1, Summarising(a, b)), Users([a, b, x]), e, c) == (Plugin(1, after), left)
    requires PreStepShrinkage(Plugin(1, Summarising(a, b)), Users([a, b, x]), e, c) == 1
    ensures var s, turns := Plugin(1, Summarising(a, b)), [Turn(Users([x]), e, [], 0)];
            && AllFresh(turns) && Appended(turns) == 1
            && After(s, Users([a, b]), turns, c) == (Plugin(1, after), left)
            && Shrunk(s, Users([a, b]), turns, c) == 1
  {
    var s, t := Plugin(1, Summarising(a, b)), Turn(Users([x]), e, [], 0);
    UsersStandAlone([x]);
    assert Users([a, b]) + t.appended == Users([a, b, x]);
    assert [t][1..] == [];
    assert Called(Plugin(1, after), t, left, c) == Plugin(1, after);
    assert Appended([t]) == Size(t.appended) + Appended([t][1..]);
    assert Shrunk(Plugin(1, after), left, [t][1..], c) == 0;
    assert After(Plugin(1, after), left, [t][1..], c) == (Plugin(1, after), left);
  }

  /** The appended message is in the history before the switch and not in the list handed out. */
  ghost predicate Loses(x: string, s: Plugin, ms: seq<Message>, e: PreStepInput, c: Config) {
    var handed := PreStep(s, ms, e, c).0.compressor.handed;
    && UserMessage(x) in ms && s.compressor.handed == []
    && |handed| == 1 && UserMessage(x) !in handed[0].messages
  }

  /** Two messages are copied and a third is appended; when a pre-step has taken one group away, the
      snapshot, which knows nothing of the third, passes for one that nothing was appended to. */
  lemma {:induction false} ShrinkingHides(
    a: string, b: string, x: string, summary: string, e: PreStepInput, later: PreStepInput,
    c: Config, left: seq<Message>, after: Async.State)
    requires c in {TIGHT, BARE} && x != b && UserMessage(x) != SummaryMessage(summary)
    requires PreStep(Plugin(1, Summarising(a, b)), Users([a, b, x]), e, c) == (Plugin(1, after), left)
    requires PreStepShrinkage(Plugin(1, Summarising(a, b)), Users([a, b, x]), e, c) == 1
    requires Work(after, later.beforeTake, c.compressor) == Finished(a, b, summary)
    requires after.handed == [] && UserMessage(x) in left
    ensures var turns := [Turn(Users([x]), e, [], 0)];
            var (s1, ms1) := After(Requested(a, b, c), Users([a, b]), turns, c);
            && c.compressor.maxGrowth == 0 && Appended(turns) == 1
            && Loses(x, s1, ms1, later, c)
  {
    RequestedIsSummarising(a, b, c);
    OneTurn(a, b, x, e, c, left, after);
    SummaryOfFirst(a, b, x, summary);
    assert left + [] == left;
    SwitchAfterTurns(Plugin(1, Summarising(a, b)), Users([a, b]), [Turn(Users([x]), e, [], 0)], [],
                     later, c, 0);
  }

  /** Trimming hides the loss: the worker is busy while the first of three messages goes. */
  lemma {:induction false} TrimmingHidesALoss(a: string, b: string, x: string, summary: string)
    requires Light(a) && Light(b) && Light(x) && x != b
    requires UserMessage(x) != SummaryMessage(summary)
    ensures var turns := [Turn(Users([x]), Meets([], []), [], 0)];
            var (s1, ms1) := After(Requested(a, b, TIGHT), Users([a, b]), turns, TIGHT);
            && TIGHT.compressor.maxGrowth == 0 && Appended(turns) == 1
            && Loses(x, s1, ms1, Meets(Finishing(summary), []), TIGHT)
  {
    ChainsOf();
    OneOfThreeGoes(a, b, x);
    SummaryOfFirst(a, b, x, summary);
    WorkerFinishes(a, b, summary, TIGHT.compressor);
    var s, e := Plugin(1, Summarising(a, b)), Meets([], []);
    assert s.compressor.handed + [] == s.compressor.handed;
    assert Async.Next(s.compressor, Async.Take(Users([a, b, x])), TIGHT.compressor) == s.compressor;
    assert RestOfChain(TIGHT)[1..] == [];
    assert Users([b, x])[1] == UserMessage(x);
    ShrinkingHides(a, b, x, summary, e, Meets(Finishing(summary), []), TIGHT, Users([b, x]),
                   Summarising(a, b));
  }

  /** So does compression: the worker finishes between the take and the busy test, and the chain
      compresses once more. No window is needed. */
  lemma {:induction false} CompressionHidesALoss(a: string, b: string, x: string, summary: string)
    requires x != b && UserMessage(x) != SummaryMessage(summary)
    ensures var turns := [Turn(Users([x]), Meets([], Finishing(summary)), [], 0)];
            var (s1, ms1) := After(Requested(a, b, BARE), Users([a, b]), turns, BARE);
            && BARE.compressor.maxGrowth == 0 && Appended(turns) == 1
            && Loses(x, s1, ms1, Meets([], []), BARE)
  {
    ChainsOf();
    SummaryOfFirst(a, b, x, summary);
    WorkerFinishes(a, b, summary, BARE.compressor);
    TwoOfThreeBecomeOne(a, b, x);
    var s, e := Plugin(1, Summarising(a, b)), Meets([], Finishing(summary));
    assert s.compressor.handed + [] == s.compressor.handed;
    assert Async.Next(s.compressor, Async.Take(Users([a, b, x])), BARE.compressor) == s.compressor;
    ShrinkingHides(a, b, x, summary, e, Meets([], []), BARE, [SummaryMessage("")] + Users([x]),
                   Finished(a, b, summary));
  }

  lemma {:induction false} TwoOfThreeBecomeOne(a: string, b: string, x: string)
    ensures var ms, input := Users([a, b, x]), ChainInput(1, "", (_: seq<Message>) => "");
            && Chained(BARE.chain, ms, input) == [SummaryMessage("")] + Users([x])
            && ChainShrinkage(BARE.chain, ms, input) == 1
    ensures UserMessage(x) in [SummaryMessage("")] + Users([x])
  {
    var ms := Users([a, b, x]);
    UsersStandAlone([a, b, x]);
    var gs := Groups(Rest(ms));
    assert gs[..2] == Singles(ms[..2]) && gs[2..] == Singles(ms[2..]);
    FlattenSingles(ms[..2]);
    FlattenSingles(ms[2..]);
    assert ms[2..] == Users([x]);
    assert Users([x])[0] == UserMessage(x);
  }

  lemma {:induction false} EarlyIsFirst(a: string, b: string)
    ensures Split(Users([a, b]), 1) == (Users([a]), Users([b]))
  {
    UsersStandAlone([a, b]);
    var ms := Users([a, b]);
    var gs := Groups(Rest(ms));
    assert gs[..1] == Singles(ms[..1]) && gs[1..] == Singles(ms[1..]);
    FlattenSingles(ms[..1]);
    FlattenSingles(ms[1..]);
    assert ms[..1] == Users([a]) && ms[1..] == Users([b]);
  }
}
