/** Summarising the early part of a history (qi_agent/context/compressor.py,
    qi_agent/context/strategies/compress.py). The summary text is the summariser's answer,
    an arbitrary function of the messages it is given. */
module Compressor {
  import opened Basics
  import opened Transcript
  import Window

  const SUMMARY_HEADER := "[早期对话已压缩为摘要]\n"

  function SummaryMessage(summary: string): Message { UserMessage(SUMMARY_HEADER + summary) }

  predicate ShouldCompress(promptTokens: nat, window: nat, threshold: real) {
    promptTokens as real >= window as real * threshold
  }

  /** How many groups stay: a negative or oversized setting is clamped. */
  function KeepCount(groups: nat, keepRecent: int): (n: nat)
    ensures n <= groups
  {
    Max(0, Min(keepRecent, groups))
  }

  /** `compress_messages`: the history cut in two at a group boundary. */
  function Split(ms: seq<Message>, keepRecent: int): (seq<Message>, seq<Message>) {
    var gs := Groups(Rest(ms));
    var k := |gs| - KeepCount(|gs|, keepRecent);
    (Flatten(gs[..k]), Flatten(gs[k..]))
  }

  /** `assemble`: the system messages, the summary, and the recent groups. */
  function Assemble(ms: seq<Message>, summary: string, keepRecent: int): seq<Message> {
    Systems(ms) + [SummaryMessage(summary)] + Split(ms, keepRecent).1
  }

  /** `CompressStrategy.apply`: nothing early means nothing to do; otherwise the chain stops. */
  function Compress(ms: seq<Message>, summarize: seq<Message> -> string, keepRecent: int)
    : (seq<Message>, bool)
  {
    var early := Split(ms, keepRecent).0;
    if early == [] then (ms, false) else (Assemble(ms, summarize(early), keepRecent), true)
  }

  /** The cut loses nothing, falls between groups, and the recent part is the newest
      `keepRecent` groups. */
  lemma {:induction false} SplitAtBoundary(ms: seq<Message>, keepRecent: int)
    ensures var gs := Groups(Rest(ms));
            var (early, recent) := Split(ms, keepRecent);
            var k := |gs| - KeepCount(|gs|, keepRecent);
            && early + recent == Rest(ms)
            && Groups(early) == gs[..k] && Groups(recent) == gs[k..]
  {
    var gs := Groups(Rest(ms));
    var k := |gs| - KeepCount(|gs|, keepRecent);
    FlattenGroups(Rest(ms));
    FlattenConcat(gs[..k], gs[k..]);
    assert gs == gs[..k] + gs[k..];
    RegroupSuffix(Rest(ms), k);
    RegroupPrefix(Rest(ms), k);
  }

  /** The assembled history: the system messages as they were, then one summary group, then
      the recent groups unchanged. */
  lemma {:induction false} AssembleShape(ms: seq<Message>, summary: string, keepRecent: int)
    ensures var gs := Groups(Rest(ms));
            var result := Assemble(ms, summary, keepRecent);
            && Systems(result) == Systems(ms)
            && Groups(Rest(result)) ==
               [[SummaryMessage(summary)]] + gs[|gs| - KeepCount(|gs|, keepRecent)..]
  {
    var gs := Groups(Rest(ms));
    var k := |gs| - KeepCount(|gs|, keepRecent);
    SummaryThenRecent(ms, summary, k);
    var (systems, recent) := (Systems(ms), Flatten(gs[k..]));
    assert systems + [SummaryMessage(summary)] + recent
        == systems + ([SummaryMessage(summary)] + recent);
  }

  lemma {:induction false} SummaryThenRecent(ms: seq<Message>, summary: string, k: nat)
    requires k <= |Groups(Rest(ms))|
    ensures var recent := Flatten(Groups(Rest(ms))[k..]);
            var result := Systems(ms) + ([SummaryMessage(summary)] + recent);
            && Systems(result) == Systems(ms)
            && Groups(Rest(result)) == [[SummaryMessage(summary)]] + Groups(Rest(ms))[k..]
  {
    var recent := Flatten(Groups(Rest(ms))[k..]);
    FilterHolds(ms, IsSystem);
    FilterHolds(ms, NotSystem);
    Window.PartsAreNonSystem(Rest(ms), k);
    Window.SystemsThenRest(Systems(ms), [SummaryMessage(summary)] + recent);
    RegroupSuffix(Rest(ms), k);
    CloseGroup([SummaryMessage(summary)], recent);
  }

  lemma {:induction false} AssembleKeepsGroups(
    ms: seq<Message>, summary: string, keepRecent: int, p: Group -> bool)
    requires AllGroups(Rest(ms), p) && p([SummaryMessage(summary)])
    ensures AllGroups(Rest(Assemble(ms, summary, keepRecent)), p)
  {
    AssembleShape(ms, summary, keepRecent);
  }
}
