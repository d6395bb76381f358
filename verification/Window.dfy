/** Trimming a history to a token budget (qi_agent/context/window.py,
    qi_agent/context/estimator.py, qi_agent/context/strategies/window.py). */
module Window {
  import opened Basics
  import opened Transcript

  const ANCHOR_TEXT := "[早期对话已裁剪——如需回忆早期内容请说明]"
  const ANCHOR := UserMessage(ANCHOR_TEXT)

  function EstimateTokens(length: nat): nat { if length < 4 then 1 else length / 4 }

  /** Length of the JSON text of the whole `tool_calls` list: brackets and ", " separators. */
  function JsonListLength(calls: seq<ToolRequest>): nat {
    if calls == [] then 2
    else calls[0].jsonLength + (if |calls| == 1 then 2 else 2 + JsonListLength(calls[1..]))
  }

  function MessageTokens(m: Message): (n: nat)
    ensures n >= 1
  {
    if m.content.Some? && m.content.value != "" then EstimateTokens(|m.content.value|)
    else if m.calls != [] then EstimateTokens(JsonListLength(m.calls))
    else 1
  }

  function Tokens(ms: seq<Message>): nat {
    if ms == [] then 0 else MessageTokens(ms[0]) + Tokens(ms[1..])
  }

  function Weight(gs: seq<Group>): nat {
    if gs == [] then 0 else Tokens(gs[0]) + Weight(gs[1..])
  }

  // ---- Which groups stay --------------------------------------------------------------

  /** The first kept group: the longest suffix of groups that fits, but at least the newest. */
  function Cut(gs: seq<Group>, budget: int): (k: nat)
    requires gs != []
    ensures k < |gs|
  {
    if |gs| == 1 || Weight(gs) <= budget then 0 else 1 + Cut(gs[1..], budget)
  }

  lemma {:induction false} WeightOfSuffix(gs: seq<Group>, i: nat, j: nat)
    requires i <= j <= |gs|
    ensures Weight(gs[j..]) <= Weight(gs[i..])
    decreases j - i
  {
    if i < j {
      assert gs[i..][1..] == gs[i + 1..];
      WeightOfSuffix(gs, i + 1, j);
    }
  }

  /** What the cut means: the kept suffix fits (or is the newest group alone), and every
      longer suffix exceeds the budget. */
  lemma {:induction false} CutIsLongest(gs: seq<Group>, budget: int)
    requires gs != []
    ensures var k := Cut(gs, budget);
            && Weight(gs[k..]) <= Max(budget, Weight(gs[|gs| - 1..]))
            && (k < |gs| - 1 ==> Weight(gs[k..]) <= budget)
            && forall j :: 0 <= j < k ==> Weight(gs[j..]) > budget
  {
    if |gs| == 1 || Weight(gs) <= budget {
      assert gs[0..] == gs;
    } else {
      CutIsLongest(gs[1..], budget);
      var k := Cut(gs[1..], budget);
      assert gs[1..][k..] == gs[1 + k..];
      assert gs[1..][|gs| - 2..] == gs[|gs| - 1..];
      forall j | 0 <= j < 1 + k
        ensures Weight(gs[j..]) > budget
      {
        if j == 0 {
          assert gs[0..] == gs;
        } else {
          assert gs[j..] == gs[1..][j - 1..];
        }
      }
    }
  }

  /** The cut is the only index with that meaning. */
  lemma {:induction false} CutIsUnique(gs: seq<Group>, budget: int, k: nat)
    requires k < |gs|
    requires k == |gs| - 1 || Weight(gs[k..]) <= budget
    requires k > 0 ==> Weight(gs[k - 1..]) > budget
    ensures Cut(gs, budget) == k
  {
    assert gs[0..] == gs;
    if k > 0 {
      WeightOfSuffix(gs, 0, k - 1);
      assert gs[1..][k - 1..] == gs[k..];
      assert k > 1 ==> gs[1..][k - 2..] == gs[k - 1..];
      CutIsUnique(gs[1..], budget, k - 1);
    }
  }

  /** A list that must not open a history is preceded by the anchor. */
  function Anchored(kept: seq<Message>): seq<Message> {
    if kept != [] && kept[0].role == Assistant then [ANCHOR] + kept else kept
  }

  /** The result of trimming, and how many groups it dropped. */
  function Trim(ms: seq<Message>, budget: int): (seq<Message>, nat) {
    var gs := Groups(Rest(ms));
    if gs == [] || Cut(gs, budget) == 0 then (ms, 0)
    else (Systems(ms) + Anchored(Flatten(gs[Cut(gs, budget)..])), Cut(gs, budget))
  }

  /** `trim_messages`: groups are taken newest first until one would exceed the budget. */
  method TrimMessages(messages: seq<Message>, maxTokens: int)
    returns (result: seq<Message>, trimmed: nat)
    ensures (result, trimmed) == Trim(messages, maxTokens)
  {
    var systemMessages := Systems(messages);
    var rest := Rest(messages);
    if rest == [] {
      return messages, 0;
    }
    var groups := GroupMessages(rest);
    var kept: seq<Group> := [];
    var used := 0;
    var i := |groups|;
    while i > 0
      invariant 0 <= i <= |groups|
      invariant kept == groups[i..] && used == Weight(kept)
      invariant i < |groups| ==> i == |groups| - 1 || used <= maxTokens
    {
      var groupTokens := Tokens(groups[i - 1]);
      assert groups[i - 1..] == [groups[i - 1]] + groups[i..];
      if used + groupTokens > maxTokens && kept != [] {
        break;
      }
      kept, used, i := [groups[i - 1]] + kept, used + groupTokens, i - 1;
    }
    CutIsUnique(groups, maxTokens, i);
    if |groups| - |kept| <= 0 {
      return messages, 0;
    }
    trimmed := |groups| - |kept|;
    result := systemMessages + Flatten(kept);
    if |systemMessages| < |result| && result[|systemMessages|].role == Assistant {
      result := result[..|systemMessages|] + [ANCHOR] + result[|systemMessages|..];
    }
    assert result == systemMessages + Anchored(Flatten(kept));
  }

  // ---- What trimming keeps --------------------------------------------------------------

  /** The groups trimming keeps. */
  function Kept(ms: seq<Message>, budget: int): seq<Group> {
    var gs := Groups(Rest(ms));
    if gs == [] then [] else gs[Cut(gs, budget)..]
  }

  /** The group the anchor forms in front of the kept ones, if it is needed. */
  function AnchorGroups(kept: seq<Group>): seq<Group> {
    if Flatten(kept) != [] && Flatten(kept)[0].role == Assistant then [[ANCHOR]] else []
  }

  lemma {:induction false} PartsAreNonSystem(ms: seq<Message>, k: nat)
    requires k <= |Groups(ms)|
    ensures forall m :: m in Flatten(Groups(ms)[k..]) ==> m in ms
  {
    var gs := Groups(ms);
    FlattenGroups(ms);
    FlattenConcat(gs[..k], gs[k..]);
    assert gs == gs[..k] + gs[k..];
  }

  lemma {:induction false} RegroupAnchored(ms: seq<Message>, k: nat)
    requires k <= |Groups(ms)|
    ensures var kept := Groups(ms)[k..];
            Groups(Anchored(Flatten(kept))) == AnchorGroups(kept) + kept
  {
    var kept := Groups(ms)[k..];
    RegroupSuffix(ms, k);
    if AnchorGroups(kept) == [] {
      assert [] + kept == kept;
    } else {
      CloseGroup([ANCHOR], Flatten(kept));
    }
  }

  lemma {:induction false} SystemsThenRest(systems: seq<Message>, others: seq<Message>)
    requires forall m :: m in systems ==> IsSystem(m)
    requires forall m :: m in others ==> NotSystem(m)
    ensures Systems(systems + others) == systems && Rest(systems + others) == others
  {
    FilterConcat(systems, others, IsSystem);
    FilterConcat(systems, others, NotSystem);
    FilterAll(systems, IsSystem);
    FilterNone(systems, NotSystem);
    FilterAll(others, NotSystem);
    FilterNone(others, IsSystem);
  }

  /** System messages are never dropped, and what survives of the rest is a suffix of its groups,
      grouped as before, after at most an anchor. */
  lemma {:induction false} TrimKeepsWholeGroups(ms: seq<Message>, budget: int)
    ensures var gs := Groups(Rest(ms));
            var (result, trimmed) := Trim(ms, budget);
            && trimmed <= |gs| && (gs != [] ==> trimmed < |gs|)
            && Kept(ms, budget) == gs[trimmed..]
            && Systems(result) == Systems(ms)
            && (trimmed == 0 ==> result == ms)
            && Groups(Rest(result)) ==
               (if trimmed > 0 then AnchorGroups(gs[trimmed..]) else []) + gs[trimmed..]
  {
    var gs := Groups(Rest(ms));
    if gs == [] {
      return;
    }
    var k := Cut(gs, budget);
    if k == 0 {
      assert gs[0..] == gs;
    } else {
      FilterHolds(ms, IsSystem);
      FilterHolds(ms, NotSystem);
      PartsAreNonSystem(Rest(ms), k);
      SystemsThenRest(Systems(ms), Anchored(Flatten(gs[k..])));
      RegroupAnchored(Rest(ms), k);
    }
  }

  /** The suffix is the longest within the budget, or the newest group alone. */
  lemma {:induction false} TrimKeepsLongestSuffix(ms: seq<Message>, budget: int)
    requires Groups(Rest(ms)) != []
    ensures var gs := Groups(Rest(ms));
            var trimmed := Trim(ms, budget).1;
            && trimmed < |gs|
            && Weight(gs[trimmed..]) <= Max(budget, Weight(gs[|gs| - 1..]))
            && (trimmed < |gs| - 1 ==> Weight(gs[trimmed..]) <= budget)
            && forall j :: 0 <= j < trimmed ==> Weight(gs[j..]) > budget
  {
    CutIsLongest(Groups(Rest(ms)), budget);
  }

  lemma {:induction false} KeptStaysCut(kept: seq<Group>, budget: int)
    requires kept != [] && (|kept| == 1 || Weight(kept) <= budget)
    ensures Cut(kept, budget) == 0
    ensures Cut([[ANCHOR]] + kept, budget) == if Weight([[ANCHOR]] + kept) > budget then 1 else 0
  {
    assert ([[ANCHOR]] + kept)[1..] == kept;
  }

  /** Trimming twice gives the list of trimming once, whether or not the anchor itself fits;
      the second pass reports a dropped group exactly when the anchor did not fit. */
  lemma {:induction false} TrimTwice(ms: seq<Message>, budget: int)
    ensures Trim(Trim(ms, budget).0, budget).0 == Trim(ms, budget).0
    ensures var (once, trimmed) := Trim(ms, budget);
            var kept := Kept(ms, budget);
            Trim(once, budget).1 ==
            if trimmed > 0 && AnchorGroups(kept) != [] && Weight([[ANCHOR]] + kept) > budget
            then 1 else 0
  {
    var (once, k) := Trim(ms, budget);
    var gs := Groups(Rest(ms));
    if k == 0 {
      return;
    }
    TrimKeepsWholeGroups(ms, budget);
    CutIsLongest(gs, budget);
    var kept := gs[k..];
    KeptStaysCut(kept, budget);
    var again := Groups(Rest(once));
    if AnchorGroups(kept) == [] {
      assert again == kept;
    } else {
      assert again == [[ANCHOR]] + kept;
      assert again[1..] == kept;
    }
  }

  /** Whatever holds of every group, and of a lone user message, survives trimming. */
  lemma {:induction false} TrimKeepsGroups(ms: seq<Message>, budget: int, p: Group -> bool)
    requires AllGroups(Rest(ms), p) && p([ANCHOR])
    ensures AllGroups(Rest(Trim(ms, budget).0), p)
  {
    TrimKeepsWholeGroups(ms, budget);
  }
}
