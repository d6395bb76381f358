/** What the LLM client returns, and how `chat_stream` accumulates it (qi_agent/llm.py).
    JSON parsing and printing of tool arguments are parameters. */
module Llm {
  import opened Basics
  import opened Transcript

  datatype Usage = Usage(prompt: nat, completion: nat, total: nat)

  /** A reply of the LLM client; no tool calls is the empty list. */
  datatype ChatResult = ChatResult(
    content: Option<string>, toolCalls: seq<ToolRequest>, assistantMessage: Message,
    usage: Option<Usage>)

  /** The reply's own message carries exactly the reply's content and tool calls. */
  predicate Coherent(r: ChatResult) {
    r.assistantMessage == Message(Assistant, r.content, r.toolCalls, None)
  }

  /** A piece of a tool call; parts that are absent are empty. */
  datatype Fragment = Fragment(index: int, id: string, name: string, arguments: string)

  datatype Delta = Delta(content: string, toolCalls: seq<Fragment>)

  datatype Chunk = Chunk(usage: Option<Usage>, choice: Option<Delta>)

  /** A tool call while it is being received. */
  datatype Partial = Partial(id: string, name: string, arguments: seq<string>)

  /** Parsing the argument text and printing it again (text that does not parse becomes the
      empty object), and the length of a printed call. */
  datatype Json = Json(normalize: string -> string, length: (string, string, string) -> nat)

  function Finish(a: Partial, json: Json): ToolRequest {
    var text := Flatten(a.arguments);
    var arguments := json.normalize(if text == "" then "{}" else text);
    ToolRequest(a.id, a.name, arguments, json.length(a.id, a.name, arguments))
  }

  function FinishAll(tools: map<int, Partial>, json: Json): seq<ToolRequest> {
    var order := Sorted(tools.Keys);
    seq(|order|, i requires 0 <= i < |order| => Finish(tools[order[i]], json))
  }

  // ---- Accumulation, fragment by fragment --------------------------------------------------

  function Merge(a: Partial, f: Fragment): Partial {
    Partial(if f.id != "" then f.id else a.id,
            if f.name != "" then f.name else a.name,
            if f.arguments != "" then a.arguments + [f.arguments] else a.arguments)
  }

  function Accumulate(tools: map<int, Partial>, f: Fragment): map<int, Partial> {
    tools[f.index := Merge(if f.index in tools then tools[f.index] else Partial("", "", []), f)]
  }

  function AccumulateAll(tools: map<int, Partial>, fs: seq<Fragment>): map<int, Partial> {
    if fs == [] then tools
    else Accumulate(AccumulateAll(tools, fs[..|fs| - 1]), fs[|fs| - 1])
  }

  /** A chunk with neither usage nor a choice makes the client raise. */
  predicate Malformed(c: Chunk) { c.usage.None? && c.choice.None? }

  function FragmentsOf(chunks: seq<Chunk>): seq<Fragment> {
    if chunks == [] then []
    else
      FragmentsOf(chunks[..|chunks| - 1]) +
      var last := chunks[|chunks| - 1]; if last.choice.Some? then last.choice.value.toolCalls else []
  }

  function TextOf(chunks: seq<Chunk>): string {
    if chunks == [] then ""
    else
      TextOf(chunks[..|chunks| - 1]) +
      var last := chunks[|chunks| - 1]; if last.choice.Some? then last.choice.value.content else ""
  }

  function LastUsage(chunks: seq<Chunk>): Option<Usage> {
    if chunks == [] then None
    else if chunks[|chunks| - 1].usage.Some? then chunks[|chunks| - 1].usage
    else LastUsage(chunks[..|chunks| - 1])
  }

  // ---- What the result depends on ------------------------------------------------------------

  function On(index: int): Fragment -> bool { (f: Fragment) => f.index == index }

  function ForIndex(fs: seq<Fragment>, index: int): seq<Fragment> {
    Filter(fs, On(index))
  }

  function LastId(fs: seq<Fragment>): string {
    if fs == [] then ""
    else if fs[|fs| - 1].id != "" then fs[|fs| - 1].id else LastId(fs[..|fs| - 1])
  }

  function LastName(fs: seq<Fragment>): string {
    if fs == [] then ""
    else if fs[|fs| - 1].name != "" then fs[|fs| - 1].name else LastName(fs[..|fs| - 1])
  }

  function Arguments(fs: seq<Fragment>): string {
    if fs == [] then "" else Arguments(fs[..|fs| - 1]) + fs[|fs| - 1].arguments
  }

  /** The complete call that the fragments of one index spell. */
  function CallOf(fs: seq<Fragment>, json: Json): ToolRequest {
    var text := Arguments(fs);
    var arguments := json.normalize(if text == "" then "{}" else text);
    ToolRequest(LastId(fs), LastName(fs), arguments,
                json.length(LastId(fs), LastName(fs), arguments))
  }

  function Indices(fs: seq<Fragment>): set<int> { set f | f in fs :: f.index }

  predicate Ascending(s: seq<int>) { forall i, j :: 0 <= i < j < |s| ==> s[i] < s[j] }

  predicate IsLeast(m: int, s: set<int>) { m in s && forall x :: x in s ==> m <= x }

  lemma {:induction false} LeastExists(s: set<int>)
    requires |s| > 0
    ensures exists m :: IsLeast(m, s)
  {
    var x := AnyElement(s);
    var others := s - {x};
    if |others| == 0 {
      assert s == {x};
      assert IsLeast(x, s);
    } else {
      LeastExists(others);
      var m :| IsLeast(m, others);
      var least := if m <= x then m else x;
      forall y | y in s
        ensures least <= y
      {
        assert y == x || y in others;
      }
      assert IsLeast(least, s);
    }
  }

  function Least(s: set<int>): (m: int)
    requires |s| > 0
    ensures IsLeast(m, s)
  {
    LeastExists(s);
    var m :| IsLeast(m, s);
    m
  }

  /** The elements of a set in increasing order. */
  function Sorted(s: set<int>): (r: seq<int>)
    ensures Ascending(r) && forall x :: x in r <==> x in s
  {
    if |s| == 0 then [] else [Least(s)] + Sorted(s - {Least(s)})
  }

  /** One call per index, in increasing order, each spelled by that index's own fragments. */
  function CallsOf(fs: seq<Fragment>, json: Json): seq<ToolRequest> {
    Map(Sorted(Indices(fs)), index => CallOf(ForIndex(fs, index), json))
  }

  /** The result, read off the whole stream: the calls if there are any, otherwise the text; and
      the last usage. */
  function ResultOf(chunks: seq<Chunk>, json: Json): ChatResult {
    var fs := FragmentsOf(chunks);
    var calls := CallsOf(fs, json);
    var content := if calls == [] then Some(TextOf(chunks)) else None;
    ChatResult(content, calls, Message(Assistant, content, calls, None), LastUsage(chunks))
  }

  // ---- The loop of chat_stream ---------------------------------------------------------------

  /** A partial call that has received exactly these fragments. */
  predicate Spells(a: Partial, fs: seq<Fragment>) {
    a.id == LastId(fs) && a.name == LastName(fs) && Flatten(a.arguments) == Arguments(fs)
  }

  lemma {:induction false} MergeSpells(a: Partial, fs: seq<Fragment>, f: Fragment)
    requires Spells(a, fs)
    ensures Spells(Merge(a, f), fs + [f])
  {
    assert (fs + [f])[..|fs|] == fs;
    FlattenConcat(a.arguments, [f.arguments]);
  }

  lemma {:induction false} ForIndexSnoc(fs: seq<Fragment>, f: Fragment, index: int)
    ensures ForIndex(fs + [f], index) == ForIndex(fs, index) + if f.index == index then [f] else []
  {
    FilterConcat(fs, [f], On(index));
  }

  lemma {:induction false} AccumulatedKeys(fs: seq<Fragment>)
    ensures AccumulateAll(map[], fs).Keys == Indices(fs)
  {
    if fs != [] {
      var before, f := fs[..|fs| - 1], fs[|fs| - 1];
      assert fs == before + [f];
      AccumulatedKeys(before);
      assert Indices(fs) == Indices(before) + {f.index};
    }
  }

  /** What one index has received. */
  ghost predicate Received(tools: map<int, Partial>, index: int, mine: seq<Fragment>) {
    if index in tools then Spells(tools[index], mine) else mine == []
  }

  lemma {:induction false} AccumulateReceives(
    tools: map<int, Partial>, index: int, mine: seq<Fragment>, f: Fragment)
    requires Received(tools, index, mine)
    ensures Received(Accumulate(tools, f), index, mine + if f.index == index then [f] else [])
  {
    if f.index == index {
      MergeSpells(if index in tools then tools[index] else Partial("", "", []), mine, f);
    } else {
      assert mine + [] == mine;
    }
  }

  /** Each index accumulates its own fragments, however they are interleaved with others. */
  lemma {:induction false} AccumulatesByIndex(fs: seq<Fragment>, index: int)
    ensures Received(AccumulateAll(map[], fs), index, ForIndex(fs, index))
  {
    if fs != [] {
      var before, f := fs[..|fs| - 1], fs[|fs| - 1];
      assert fs == before + [f];
      AccumulatesByIndex(before, index);
      ForIndexSnoc(before, f, index);
      AccumulateReceives(AccumulateAll(map[], before), index, ForIndex(before, index), f);
    }
  }

  lemma {:induction false} AccumulateConcat(
    tools: map<int, Partial>, a: seq<Fragment>, b: seq<Fragment>)
    ensures AccumulateAll(tools, a + b) == AccumulateAll(AccumulateAll(tools, a), b)
  {
    if b == [] {
      assert a + b == a;
    } else {
      assert (a + b)[..|a + b| - 1] == a + b[..|b| - 1];
      AccumulateConcat(tools, a, b[..|b| - 1]);
    }
  }

  method AddFragments(start: map<int, Partial>, fs: seq<Fragment>) returns (tools: map<int, Partial>)
    ensures tools == AccumulateAll(start, fs)
  {
    tools := start;
    for j := 0 to |fs|
      invariant tools == AccumulateAll(start, fs[..j])
    {
      assert fs[..j + 1][..j] == fs[..j];
      var f := fs[j];
      var a := if f.index in tools then tools[f.index] else Partial("", "", []);
      assert AccumulateAll(start, fs[..j + 1]) == Accumulate(tools, f);
      tools := tools[f.index := Merge(a, f)];
    }
    assert fs[..|fs|] == fs;
  }

  method FinishCalls(tools: map<int, Partial>, json: Json) returns (calls: seq<ToolRequest>)
    ensures calls == FinishAll(tools, json)
  {
    var order := Sorted(tools.Keys);
    calls := [];
    for i := 0 to |order|
      invariant |calls| == i && forall j :: 0 <= j < i ==> calls[j] == Finish(tools[order[j]], json)
    {
      calls := calls + [Finish(tools[order[i]], json)];
    }
  }

  /** The part of `chat_stream` after the stream: calls in increasing index, or the text. */
  method Conclude(tools: map<int, Partial>, parts: seq<string>, usage: Option<Usage>, json: Json)
    returns (result: ChatResult)
    ensures Coherent(result) && result.usage == usage
    ensures result.toolCalls == FinishAll(tools, json)
    ensures result.content == if tools.Keys == {} then Some(Flatten(parts)) else None
  {
    if |tools.Keys| > 0 {
      var calls := FinishCalls(tools, json);
      return ChatResult(None, calls, Message(Assistant, None, calls, None), usage);
    }
    var text := Flatten(parts);
    result := ChatResult(Some(text), [], Message(Assistant, Some(text), [], None), usage);
  }

  /** How far the stream has been read. */
  ghost predicate ReadTo(
    chunks: seq<Chunk>, i: nat, tools: map<int, Partial>, parts: seq<string>,
    usage: Option<Usage>)
    requires i <= |chunks|
  {
    && tools == AccumulateAll(map[], FragmentsOf(chunks[..i]))
    && Flatten(parts) == TextOf(chunks[..i])
    && usage == LastUsage(chunks[..i])
  }

  lemma {:induction false} ReadOne(
    chunks: seq<Chunk>, i: nat, tools: map<int, Partial>, parts: seq<string>,
    usage: Option<Usage>)
    requires i < |chunks| && ReadTo(chunks, i, tools, parts, usage)
    ensures var c := chunks[i];
            var d := if c.choice.Some? then c.choice.value else Delta("", []);
            ReadTo(chunks, i + 1, AccumulateAll(tools, d.toolCalls),
                   if d.content != "" then parts + [d.content] else parts,
                   if c.usage.Some? then c.usage else usage)
  {
    var c := chunks[i];
    var d := if c.choice.Some? then c.choice.value else Delta("", []);
    assert chunks[..i + 1][..i] == chunks[..i];
    AccumulateConcat(map[], FragmentsOf(chunks[..i]), d.toolCalls);
    FlattenConcat(parts, [d.content]);
  }

  method ChatStream(chunks: seq<Chunk>, json: Json)
    returns (result: Result<ChatResult, string>, deltas: seq<string>)
    ensures result.Ok? <==> forall i :: 0 <= i < |chunks| ==> !Malformed(chunks[i])
    ensures result.Ok? ==> result.value == ResultOf(chunks, json) && Coherent(result.value)
    ensures result.Ok? ==> Flatten(deltas) == TextOf(chunks)
  {
    var tools: map<int, Partial> := map[];
    var usage: Option<Usage> := None;
    deltas := [];
    for i := 0 to |chunks|
      invariant forall j :: 0 <= j < i ==> !Malformed(chunks[j])
      invariant ReadTo(chunks, i, tools, deltas, usage)
    {
      ReadOne(chunks, i, tools, deltas, usage);
      var chunk := chunks[i];
      if chunk.usage.Some? {
        usage := chunk.usage;
        if chunk.choice.None? {
          continue;
        }
      } else if chunk.choice.None? {
        return Err("list index out of range"), deltas;
      }
      var delta := chunk.choice.value;
      if delta.content != "" {
        deltas := deltas + [delta.content];
      }
      tools := AddFragments(tools, delta.toolCalls);
    }
    assert chunks[..|chunks|] == chunks;
    var r := Conclude(tools, deltas, usage, json);
    CallsAreDigests(FragmentsOf(chunks), json);
    result := Ok(r);
  }

  lemma {:induction false} CallsAreDigests(fs: seq<Fragment>, json: Json)
    ensures var tools := AccumulateAll(map[], fs);
            && tools.Keys == Indices(fs)
            && FinishAll(tools, json) == CallsOf(fs, json)
  {
    var tools := AccumulateAll(map[], fs);
    AccumulatedKeys(fs);
    forall k | k in tools
      ensures Finish(tools[k], json) == CallOf(ForIndex(fs, k), json)
    {
      AccumulatesByIndex(fs, k);
    }
  }

  // ---- Independence of the splitting -----------------------------------------------------------

  /** The same last id, last name and concatenated arguments. */
  predicate SpellSame(a: seq<Fragment>, b: seq<Fragment>) {
    LastId(a) == LastId(b) && LastName(a) == LastName(b) && Arguments(a) == Arguments(b)
  }

  /** Two streams of fragments that spell the same for each index. */
  ghost predicate SameCalls(a: seq<Fragment>, b: seq<Fragment>) {
    && Indices(a) == Indices(b)
    && forall k :: k in Indices(a) ==> SpellSame(ForIndex(a, k), ForIndex(b, k))
  }

  /** The result depends on nothing else: not on how the text is cut into chunks, how the
      fragments are cut and distributed over chunks, or how indexes are interleaved. */
  lemma {:induction false} SameContentSameResult(a: seq<Chunk>, b: seq<Chunk>, json: Json)
    requires SameCalls(FragmentsOf(a), FragmentsOf(b))
    requires TextOf(a) == TextOf(b) && LastUsage(a) == LastUsage(b)
    ensures ResultOf(a, json) == ResultOf(b, json)
  {
    var fa, fb := FragmentsOf(a), FragmentsOf(b);
    forall k | k in Indices(fa)
      ensures CallOf(ForIndex(fa, k), json) == CallOf(ForIndex(fb, k), json)
    {
    }
    assert CallsOf(fa, json) == CallsOf(fb, json);
  }

  lemma {:induction false} ForIndexSplice(a: seq<Fragment>, m: seq<Fragment>, b: seq<Fragment>, k: int)
    ensures ForIndex(a + m + b, k) == ForIndex(a, k) + ForIndex(m, k) + ForIndex(b, k)
  {
    FilterConcat(a + m, b, On(k));
    FilterConcat(a, m, On(k));
  }

  lemma {:induction false} DigestConcat(a: seq<Fragment>, b: seq<Fragment>)
    ensures LastId(a + b) == if LastId(b) != "" then LastId(b) else LastId(a)
    ensures LastName(a + b) == if LastName(b) != "" then LastName(b) else LastName(a)
    ensures Arguments(a + b) == Arguments(a) + Arguments(b)
  {
    NamesConcat(a, b);
    ArgumentsConcat(a, b);
  }

  lemma {:induction false} NamesConcat(a: seq<Fragment>, b: seq<Fragment>)
    ensures LastId(a + b) == if LastId(b) != "" then LastId(b) else LastId(a)
    ensures LastName(a + b) == if LastName(b) != "" then LastName(b) else LastName(a)
  {
    if b == [] {
      assert a + b == a;
    } else {
      assert (a + b)[..|a + b| - 1] == a + b[..|b| - 1];
      NamesConcat(a, b[..|b| - 1]);
    }
  }

  lemma {:induction false} ArgumentsConcat(a: seq<Fragment>, b: seq<Fragment>)
    ensures Arguments(a + b) == Arguments(a) + Arguments(b)
  {
    if b == [] {
      assert a + b == a;
    } else {
      assert (a + b)[..|a + b| - 1] == a + b[..|b| - 1];
      ArgumentsConcat(a, b[..|b| - 1]);
    }
  }

  function Pieces(f: Fragment, cut: nat): seq<Fragment>
    requires cut <= |f.arguments|
  {
    [f.(arguments := f.arguments[..cut]), Fragment(f.index, "", "", f.arguments[cut..])]
  }

  lemma {:induction false} OneFragment(f: Fragment, k: int)
    ensures LastId([f]) == f.id && LastName([f]) == f.name && Arguments([f]) == f.arguments
    ensures ForIndex([f], k) == if f.index == k then [f] else []
  {
    assert [f][..0] == [];
    assert [] + [f] == [f];
    ForIndexSnoc([], f, k);
  }

  lemma {:induction false} PiecesSpellWhole(f: Fragment, cut: nat, k: int)
    requires cut <= |f.arguments|
    ensures SpellSame(ForIndex([f], k), ForIndex(Pieces(f, cut), k))
  {
    var first, second := Pieces(f, cut)[0], Pieces(f, cut)[1];
    assert Pieces(f, cut) == [first] + [second];
    OneFragment(f, k);
    OneFragment(first, k);
    OneFragment(second, k);
    ForIndexSnoc([first], second, k);
    if k == f.index {
      DigestConcat([first], [second]);
      assert f.arguments == f.arguments[..cut] + f.arguments[cut..];
    }
  }

  /** Replacing some fragments by others that spell the same for an index changes nothing
      for that index. */
  lemma {:induction false} SpliceSpellsSame(
    before: seq<Fragment>, a: seq<Fragment>, b: seq<Fragment>, after: seq<Fragment>, k: int)
    requires SpellSame(ForIndex(a, k), ForIndex(b, k))
    ensures SpellSame(ForIndex(before + a + after, k), ForIndex(before + b + after, k))
  {
    ForIndexSplice(before, a, after, k);
    ForIndexSplice(before, b, after, k);
    DigestConcat(ForIndex(before, k) + ForIndex(a, k), ForIndex(after, k));
    DigestConcat(ForIndex(before, k) + ForIndex(b, k), ForIndex(after, k));
    DigestConcat(ForIndex(before, k), ForIndex(a, k));
    DigestConcat(ForIndex(before, k), ForIndex(b, k));
  }

  /** Cutting one fragment in two anywhere in its arguments changes nothing. */
  lemma {:induction false} SplittingIsInvisible(
    before: seq<Fragment>, f: Fragment, cut: nat, after: seq<Fragment>)
    requires cut <= |f.arguments|
    ensures SameCalls(before + [f] + after, before + Pieces(f, cut) + after)
  {
    var whole, split := before + [f] + after, before + Pieces(f, cut) + after;
    assert Indices(whole) == Indices(split) by {
      assert forall g :: g in whole <==> g in before || g == f || g in after;
      assert forall g :: g in split <==> g in before || g in Pieces(f, cut) || g in after;
      assert f in whole && Pieces(f, cut)[0] in split;
    }
    forall k
      ensures SpellSame(ForIndex(whole, k), ForIndex(split, k))
    {
      PiecesSpellWhole(f, cut, k);
      SpliceSpellsSame(before, [f], Pieces(f, cut), after, k);
    }
  }

  /** Neighbouring fragments of different indexes may arrive in either order. */
  lemma {:induction false} InterleavingIsInvisible(
    before: seq<Fragment>, f: Fragment, g: Fragment, after: seq<Fragment>)
    requires f.index != g.index
    ensures SameCalls(before + [f, g] + after, before + [g, f] + after)
  {
    var one, two := before + [f, g] + after, before + [g, f] + after;
    assert Indices(one) == Indices(two) by {
      assert forall h :: h in one <==> h in before || h == f || h == g || h in after;
      assert forall h :: h in two <==> h in before || h == f || h == g || h in after;
    }
    forall k
      ensures ForIndex(one, k) == ForIndex(two, k)
    {
      ForIndexSplice(before, [f, g], after, k);
      ForIndexSplice(before, [g, f], after, k);
      assert [f, g] == [f] + [g] && [g, f] == [g] + [f];
      ForIndexSnoc([f], g, k);
      ForIndexSnoc([g], f, k);
    }
  }
}
