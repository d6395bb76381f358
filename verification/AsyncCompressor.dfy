/** Compression in a background thread (qi_agent/context/async_compressor.py): the fields under
    the lock, the worker's two critical sections, and every interleaving of them. */
module AsyncCompressor {
  import opened Basics
  import opened Transcript
  import opened Compressor

  datatype Snapshot = Snapshot(messages: seq<Message>, sourceGroups: nat)

  /** The fields guarded by the lock. */
  datatype Shared = Shared(running: bool, snapshot: Option<Snapshot>)

  datatype Config = Config(keepRecent: int, maxGrowth: int)

  function GroupCount(ms: seq<Message>): nat { |Groups(Rest(ms))| }

  // ---- The critical sections -----------------------------------------------------------

  function Requested(s: Shared): Shared { s.(running := true) }

  predicate Fresh(snap: Snapshot, current: seq<Message>, c: Config) {
    GroupCount(current) - snap.sourceGroups <= c.maxGrowth
  }

  /** The snapshot leaves the field whether or not it is new enough to be used. */
  function Taken(s: Shared, current: seq<Message>, c: Config): (Shared, Option<seq<Message>>) {
    (s.(snapshot := None),
     if s.snapshot.Some? && Fresh(s.snapshot.value, current, c)
     then Some(s.snapshot.value.messages) else None)
  }

  /** The worker on its private copy; no summary means that the summariser raised. */
  function Published(s: Shared, copy: seq<Message>, summary: Option<string>, c: Config): Shared {
    if summary.None? || Split(copy, c.keepRecent).0 == [] then s
    else s.(snapshot :=
              Some(Snapshot(Assemble(copy, summary.value, c.keepRecent), GroupCount(copy))))
  }

  function Finished(s: Shared): Shared { s.(running := false) }

  class BackgroundCompressor {
    const config: Config
    var running: bool
    var snapshot: Option<Snapshot>

    function View(): Shared
      reads this
    {
      Shared(running, snapshot)
    }

    constructor (config: Config)
      ensures this.config == config && View() == Shared(false, None)
    {
      this.config := config;
      running, snapshot := false, None;
    }

    /** Returns the worker's private copy, or nothing when a task is already running. */
    method Request(messages: seq<Message>) returns (job: Option<seq<Message>>)
      modifies this
      ensures job == if old(running) then None else Some(messages)
      ensures View() == Requested(old(View()))
    {
      if running {
        return None;
      }
      running := true;
      job := Some(messages);
    }

    method TakeIfFresh(current: seq<Message>) returns (taken: Option<seq<Message>>)
      modifies this
      ensures (View(), taken) == Taken(old(View()), current, config)
    {
      var snap := snapshot;
      snapshot := None;
      if snap.None? {
        return None;
      }
      var groups := GroupMessages(Rest(current));
      if |groups| - snap.value.sourceGroups > config.maxGrowth {
        return None;
      }
      taken := Some(snap.value.messages);
    }

    method Publish(copy: seq<Message>, summary: Option<string>)
      modifies this`snapshot
      ensures View() == Published(old(View()), copy, summary, config)
    {
      var (early, _) := Split(copy, config.keepRecent);
      if early == [] || summary.None? {
        return;
      }
      var groups := GroupMessages(Rest(copy));
      snapshot := Some(Snapshot(Assemble(copy, summary.value, config.keepRecent), |groups|));
    }

    method Finish()
      modifies this`running
      ensures View() == Finished(old(View()))
    {
      running := false;
    }
  }

  // ---- All interleavings ---------------------------------------------------------------

  datatype Phase = Summarising | Finishing

  /** What was handed out: for which request, with which summary, and the list itself. */
  datatype Handout = Handout(request: nat, summary: string, messages: seq<Message>)

  /** `requests`, `origin` and `handed` record the past; the rest is the running system.
      `workers` holds every thread that has been started and has not ended. */
  datatype State = State(
    shared: Shared,
    workers: map<nat, Phase>,
    requests: seq<seq<Message>>,
    origin: (nat, string),
    handed: seq<Handout>)

  datatype Step =
    | Request(messages: seq<Message>)
    | Take(current: seq<Message>)
    | Publish(worker: nat, summary: Option<string>)
    | Finish(worker: nat)

  const INITIAL := State(Shared(false, None), map[], [], (0, ""), [])

  function Next(s: State, step: Step, c: Config): State {
    match step
    case Request(messages) =>
      if s.shared.running then s
      else s.(shared := Requested(s.shared),
              workers := s.workers[|s.requests| := Summarising],
              requests := s.requests + [messages])
    case Take(current) =>
      var (shared, taken) := Taken(s.shared, current, c);
      s.(shared := shared,
         handed := s.handed +
           if taken.Some? then [Handout(s.origin.0, s.origin.1, taken.value)] else [])
    case Publish(w, summary) =>
      if w in s.workers && s.workers[w].Summarising? && w < |s.requests| then
        var shared := Published(s.shared, s.requests[w], summary, c);
        s.(shared := shared, workers := s.workers[w := Finishing],
           origin := if summary.None? || Split(s.requests[w], c.keepRecent).0 == [] then s.origin
                    else (w, summary.value))
      else s
    case Finish(w) =>
      if w in s.workers && s.workers[w].Finishing? then
        s.(shared := Finished(s.shared), workers := s.workers - {w})
      else s
  }

  function Run(steps: seq<Step>, c: Config): State {
    if steps == [] then INITIAL else Next(Run(steps[..|steps| - 1], c), steps[|steps| - 1], c)
  }

  /** A list is the compression of what one accepted request copied. */
  predicate CompressionOf(
    ms: seq<Message>, request: nat, summary: string, requests: seq<seq<Message>>, c: Config)
  {
    && request < |requests|
    && Split(requests[request], c.keepRecent).0 != []
    && ms == Assemble(requests[request], summary, c.keepRecent)
  }

  ghost predicate Inv(s: State, c: Config) {
    && (s.shared.running ==> s.requests != [] && s.workers.Keys == {|s.requests| - 1})
    && (!s.shared.running ==> s.workers == map[])
    && (s.shared.snapshot.Some? ==>
          && CompressionOf(s.shared.snapshot.value.messages, s.origin.0, s.origin.1, s.requests, c)
          && s.shared.snapshot.value.sourceGroups == GroupCount(s.requests[s.origin.0])
          && (forall h :: h in s.handed ==> h.request < s.origin.0)
          && (forall w :: w in s.workers && s.workers[w].Summarising? ==> s.origin.0 < w))
    && (forall h :: h in s.handed ==> CompressionOf(h.messages, h.request, h.summary, s.requests, c))
    && (forall h, w :: h in s.handed && w in s.workers && s.workers[w].Summarising? ==> h.request < w)
    && (forall i, j :: 0 <= i < j < |s.handed| ==> s.handed[i].request < s.handed[j].request)
  }

  lemma {:induction false} TakeKeepsInv(s: State, current: seq<Message>, c: Config)
    requires Inv(s, c)
    ensures Inv(Next(s, Take(current), c), c)
  {
  }

  lemma {:induction false} NextKeepsInv(s: State, step: Step, c: Config)
    requires Inv(s, c)
    ensures Inv(Next(s, step, c), c)
  {
    match step
    case Request(_) =>
    case Take(current) => TakeKeepsInv(s, current, c);
    case Publish(w, summary) =>
    case Finish(_) =>
  }

  /** Over every interleaving of requests, worker steps and takes: at most one worker exists,
      every handed-out list is the compression of what one request copied, and no request's
      compression is handed out twice. */
  lemma {:induction false} RunIsSafe(steps: seq<Step>, c: Config)
    ensures Inv(Run(steps, c), c)
    ensures |Run(steps, c).workers| <= 1
    ensures forall i, j :: 0 <= i < j < |Run(steps, c).handed| ==>
              Run(steps, c).handed[i].request != Run(steps, c).handed[j].request
  {
    if steps != [] {
      RunIsSafe(steps[..|steps| - 1], c);
      NextKeepsInv(Run(steps[..|steps| - 1], c), steps[|steps| - 1], c);
    }
    var s := Run(steps, c);
    assert |s.workers| == |s.workers.Keys|;
  }

  // ---- What a switch loses ---------------------------------------------------------------

  /** When the current history is the copied one with more appended, switching to the
      snapshot drops exactly the appended groups: the result is the summary and the copied
      history's recent groups, and at most `maxGrowth` groups are lost. */
  lemma {:induction false} SwitchDropsAppended(
    source: seq<Message>, appended: seq<Message>, summary: string, c: Config)
    requires StartsFresh(Rest(appended))
    ensures var current := source + appended;
            var gs := Groups(Rest(source));
            var k := |gs| - KeepCount(|gs|, c.keepRecent);
            var switched := Assemble(source, summary, c.keepRecent);
            && Groups(Rest(current)) == gs[..k] + gs[k..] + Groups(Rest(appended))
            && Groups(Rest(switched)) == [[SummaryMessage(summary)]] + gs[k..]
            && (Fresh(Snapshot(switched, |gs|), current, c)
                <==> |Groups(Rest(appended))| <= c.maxGrowth)
  {
    RestConcat(source, appended);
    GroupsConcat(Rest(source), Rest(appended));
    AssembleShape(source, summary, c.keepRecent);
    var gs := Groups(Rest(source));
    var k := |gs| - KeepCount(|gs|, c.keepRecent);
    assert gs == gs[..k] + gs[k..];
  }

  /** The same after any interleaving: a take against the copied list with more appended hands out
      the summary and the recent groups of what the request copied exactly when no more than
      `maxGrowth` groups were appended, and in either case the snapshot is gone. */
  lemma {:induction false} SwitchInAnyRun(steps: seq<Step>, appended: seq<Message>, c: Config)
    requires Run(steps, c).shared.snapshot.Some? && StartsFresh(Rest(appended))
    ensures var s := Run(steps, c);
            && s.origin.0 < |s.requests|
            && var source := s.requests[s.origin.0];
            var t := Next(s, Take(source + appended), c);
            var switched := Assemble(source, s.origin.1, c.keepRecent);
            var gs := Groups(Rest(source));
            && t.shared.snapshot.None?
            && t.handed == s.handed + (if |Groups(Rest(appended))| <= c.maxGrowth
                                       then [Handout(s.origin.0, s.origin.1, switched)] else [])
            && Groups(Rest(switched)) == [[SummaryMessage(s.origin.1)]]
                                         + gs[|gs| - KeepCount(|gs|, c.keepRecent)..]
  {
    RunIsSafe(steps, c);
    var s := Run(steps, c);
    var source := s.requests[s.origin.0];
    SwitchDropsAppended(source, appended, s.origin.1, c);
    RestConcat(source, appended);
    GroupsConcat(Rest(source), Rest(appended));
    var snap := s.shared.snapshot.value;
    assert snap == Snapshot(snap.messages, |Groups(Rest(source))|);
  }
}
