/** Executing a batch of tool calls (qi_agent/tools/executor.py): approval, the parallel run in
    any completion order, and results in call order. Tools are functions of the call. */
module Executor {
  import opened Basics

  datatype Action = ALLOW | BLOCK | NEED_APPROVAL | WARN | ESCALATION

  datatype Decision = Decision(action: Action, reason: string, code: string, command: string)

  /** What the tool-call event decided: nothing, a decision, or a bare text. */
  datatype Verdict = Pass | Ruled(decision: Decision) | Bare(text: string)

  /** `approved` is the mark that a granted approval leaves in the arguments. */
  datatype Call = Call(id: string, name: string, arguments: string, approved: bool)

  datatype Event =
    | AskApproval(id: string)
    | Start(call: Call)
    | Report(call: Call, output: string)

  /** What the executor cannot see: the listeners' answer to the `n`-th call's approval
      request, the tools themselves, and how a decision prints. */
  datatype World = World(
    approve: nat -> bool, run: Call -> string, show: Decision -> string)

  const SEC_DENIED := "SEC_APPROVAL_DENIED"
  const SEC_NOT_ALLOWED := "SEC_BLOCK_NOT_ALLOWED"

  predicate Allowed(call: Call, allowlist: Option<set<string>>) {
    allowlist.None? || call.name in allowlist.value
  }

  predicate NeedsApproval(v: Verdict) {
    v.Ruled? && (v.decision.action.NEED_APPROVAL? || v.decision.action.ESCALATION?)
  }

  predicate Runs(v: Verdict) { v.Pass? || (v.Ruled? && v.decision.action.WARN?) }

  /** A tool outside the restricted set. */
  function NotAllowed(call: Call): Verdict {
    Ruled(Decision(BLOCK, "工具不在受限子集内: " + call.name, SEC_NOT_ALLOWED, ""))
  }

  function Denied(d: Decision): Verdict {
    Ruled(Decision(BLOCK, "用户不同意执行: " + d.command, SEC_DENIED, d.command))
  }

  function Given(decisions: map<string, Verdict>, id: string): Verdict {
    if id in decisions then decisions[id] else Pass
  }

  // ---- What should happen to one call ------------------------------------------------------------

  /** The call and the verdict on it once approval has been asked where needed. */
  function Judged(call: Call, v: Verdict, allowlist: Option<set<string>>, approved: bool)
    : (Call, Verdict)
  {
    if !Allowed(call, allowlist) then (call, NotAllowed(call))
    else if !NeedsApproval(v) then (call, v)
    else if approved then (call.(approved := true), Pass)
    else (call, Denied(v.decision))
  }

  function OutputOf(call: Call, v: Verdict, w: World): string {
    match v
    case Pass => w.run(call)
    case Bare(text) => text
    case Ruled(d) =>
      if d.action.WARN? then w.run(call) + "\n[警告] " + d.reason
      else if d.action.BLOCK? then
        if d.code == SEC_DENIED then "[审批拒绝] 用户不同意执行: " + d.command
        else "[安全拦截] " + d.reason
      else w.show(d)
  }

  /** The calls after judgement, in order. */
  function JudgedAll(
    calls: seq<Call>, decisions: map<string, Verdict>, allowlist: Option<set<string>>, w: World)
    : (js: seq<(Call, Verdict)>)
    ensures |js| == |calls|
  {
    if calls == [] then []
    else
      var n := |calls| - 1;
      JudgedAll(calls[..n], decisions, allowlist, w)
        + [Judged(calls[n], Given(decisions, calls[n].id), allowlist, w.approve(n))]
  }

  /** Each call is judged by itself. */
  lemma {:induction false} JudgedEach(
    calls: seq<Call>, decisions: map<string, Verdict>, allowlist: Option<set<string>>, w: World,
    i: nat)
    requires i < |calls|
    ensures JudgedAll(calls, decisions, allowlist, w)[i]
         == Judged(calls[i], Given(decisions, calls[i].id), allowlist, w.approve(i))
  {
    if i < |calls| - 1 {
      JudgedEach(calls[..|calls| - 1], decisions, allowlist, w, i);
    }
  }

  function Started(): Call -> Event { (c: Call) => Start(c) }

  function Reported(w: World): ((Call, Verdict)) -> Event {
    (j: (Call, Verdict)) => Report(j.0, OutputOf(j.0, j.1, w))
  }

  function MayRun(): ((Call, Verdict)) -> bool { (j: (Call, Verdict)) => Runs(j.1) }

  function CallOf(): ((Call, Verdict)) -> Call { (j: (Call, Verdict)) => j.0 }

  function Running(js: seq<(Call, Verdict)>): seq<Call> {
    Map(Filter(js, MayRun()), CallOf())
  }

  ghost predicate Distinct(calls: seq<Call>) {
    forall i, j :: 0 <= i < j < |calls| ==> calls[i].id != calls[j].id
  }

  /** The events of a batch: the questions asked, a start for each call that runs, the reports. */
  function Trace(asked: seq<Event>, running: seq<Call>, reports: seq<Event>): seq<Event> {
    asked + Map(running, Started()) + reports
  }

  // ---- The three phases ----------------------------------------------------------------------------

  /** The pending table with its insertion order; a repeated id overwrites its entry. */
  datatype Table = Table(order: seq<string>, entries: map<string, (Call, Verdict)>)

  function Entered(t: Table, j: (Call, Verdict)): Table {
    Table(if j.0.id in t.entries then t.order else t.order + [j.0.id], t.entries[j.0.id := j])
  }

  function Tabulated(js: seq<(Call, Verdict)>): (t: Table)
    ensures forall i :: 0 <= i < |js| ==> js[i].0.id in t.entries
    ensures forall id :: id in t.order <==> id in t.entries
    ensures forall id :: id in t.entries ==> t.entries[id].0.id == id
  {
    if js == [] then Table([], map[]) else Entered(Tabulated(js[..|js| - 1]), js[|js| - 1])
  }

  function AskedOf(call: Call, v: Verdict, allowlist: Option<set<string>>): seq<Event> {
    if Allowed(call, allowlist) && NeedsApproval(v) then [AskApproval(call.id)] else []
  }

  /** The approval requests, in call order. */
  function Asked(
    calls: seq<Call>, decisions: map<string, Verdict>, allowlist: Option<set<string>>): seq<Event>
  {
    if calls == [] then []
    else
      Asked(calls[..|calls| - 1], decisions, allowlist) +
      var last := calls[|calls| - 1]; AskedOf(last, Given(decisions, last.id), allowlist)
  }

  lemma {:induction false} ApproveSnoc(
    calls: seq<Call>, n: nat, decisions: map<string, Verdict>, allowlist: Option<set<string>>,
    w: World)
    requires n < |calls|
    ensures var v := Given(decisions, calls[n].id);
            var j := Judged(calls[n], v, allowlist, w.approve(n));
            && Map(JudgedAll(calls[..n + 1], decisions, allowlist, w), CallOf())
               == Map(JudgedAll(calls[..n], decisions, allowlist, w), CallOf()) + [j.0]
            && Tabulated(JudgedAll(calls[..n + 1], decisions, allowlist, w))
               == Entered(Tabulated(JudgedAll(calls[..n], decisions, allowlist, w)), j)
            && Asked(calls[..n + 1], decisions, allowlist)
               == Asked(calls[..n], decisions, allowlist) + AskedOf(calls[n], v, allowlist)
  {
    assert calls[..n + 1][..n] == calls[..n];
    var js := JudgedAll(calls[..n], decisions, allowlist, w);
    var all := JudgedAll(calls[..n + 1], decisions, allowlist, w);
    assert all[..n] == js && all == js + [all[n]];
  }

  /** Phase 1: one call after the other, asking where the decision demands it. The calls themselves
      come out with the marks that granted approvals left in their arguments. */
  method Approve(
    calls: seq<Call>, decisions: map<string, Verdict>, allowlist: Option<set<string>>, w: World)
    returns (marked: seq<Call>, pending: Table, events: seq<Event>)
    ensures marked == Map(JudgedAll(calls, decisions, allowlist, w), CallOf())
    ensures pending == Tabulated(JudgedAll(calls, decisions, allowlist, w))
    ensures events == Asked(calls, decisions, allowlist)
  {
    marked, pending, events := [], Table([], map[]), [];
    for n := 0 to |calls|
      invariant marked == Map(JudgedAll(calls[..n], decisions, allowlist, w), CallOf())
      invariant pending == Tabulated(JudgedAll(calls[..n], decisions, allowlist, w))
      invariant events == Asked(calls[..n], decisions, allowlist)
    {
      ApproveSnoc(calls, n, decisions, allowlist, w);
      var judged, asked := ApproveOne(calls[n], Given(decisions, calls[n].id), allowlist, w.approve(n));
      marked := marked + [judged.0];
      events := events + asked;
      pending := Entered(pending, judged);
    }
    assert calls[..|calls|] == calls;
  }

  method ApproveOne(call: Call, v: Verdict, allowlist: Option<set<string>>, approved: bool)
    returns (judged: (Call, Verdict), asked: seq<Event>)
    ensures judged == Judged(call, v, allowlist, approved) && asked == AskedOf(call, v, allowlist)
  {
    asked := [];
    if !Allowed(call, allowlist) {
      return (call, NotAllowed(call)), asked;
    }
    if NeedsApproval(v) {
      asked := [AskApproval(call.id)];
      if approved {
        return (call.(approved := true), Pass), asked;
      }
      return (call, Denied(v.decision)), asked;
    }
    judged := (call, v);
  }

  function RunsIn(t: Table): string -> bool {
    (id: string) => id in t.entries && Runs(t.entries[id].1)
  }

  function CallIn(t: Table): string -> Call {
    (id: string) => if id in t.entries then t.entries[id].0 else Call(id, "", "", false)
  }

  /** The ids that may run, in insertion order. */
  function ToRun(t: Table): seq<string> { Filter(t.order, RunsIn(t)) }

  /** Each of these ids has been run once, and its own output collected. */
  ghost predicate Collected(
    ids: seq<string>, t: Table, w: World, outputs: map<string, string>, executed: seq<Call>)
  {
    && outputs.Keys == (set id | id in ids)
    && (forall id :: id in outputs ==> outputs[id] == w.run(CallIn(t)(id)))
    && multiset(executed) == multiset(Map(ids, CallIn(t)))
  }

  /** Phase 2: the calls complete in the order of `schedule`; the outputs are then collected. */
  method RunParallel(ids: seq<string>, t: Table, schedule: seq<string>, w: World)
    returns (outputs: map<string, string>, executed: seq<Call>)
    requires multiset(schedule) == multiset(ids)
    requires forall id :: id in ids ==> id in t.entries
    ensures Collected(ids, t, w, outputs, executed)
  {
    assert forall id :: id in schedule <==> id in ids by {
      assert forall id :: id in schedule <==> id in multiset(schedule);
      assert forall id :: id in ids <==> id in multiset(ids);
    }
    outputs, executed := map[], [];
    for k := 0 to |schedule|
      invariant outputs.Keys == set id | id in schedule[..k]
      invariant forall id :: id in outputs ==> outputs[id] == w.run(CallIn(t)(id))
      invariant executed == Map(schedule[..k], CallIn(t))
    {
      var id := schedule[k];
      assert schedule[..k + 1] == schedule[..k] + [id];
      assert id in schedule;
      var call := t.entries[id].0;
      outputs := outputs[id := w.run(call)];
      executed := executed + [call];
    }
    assert schedule[..|schedule|] == schedule;
    MapMultiset(schedule, ids, CallIn(t));
  }

  /** The text for the model: what ran, with a warning where one is due, or why it did not. */
  method Wrap(call: Call, verdict: Verdict, ran: string, w: World) returns (output: string)
    requires Runs(verdict) ==> ran == w.run(call)
    ensures output == OutputOf(call, verdict, w)
  {
    match verdict
    case Pass => output := ran;
    case Bare(text) => output := text;
    case Ruled(d) =>
      if d.action.BLOCK? {
        if d.code == SEC_DENIED {
          return "[审批拒绝] 用户不同意执行: " + d.command;
        }
        return "[安全拦截] " + d.reason;
      }
      output := if d.action.WARN? then ran + "\n[警告] " + d.reason else w.show(d);
  }

  function Ids(calls: seq<Call>): set<string> { set c | c in calls :: c.id }

  /** What the table's entries give. */
  ghost predicate EntryResults(t: Table, w: World, results: map<string, string>) {
    forall id :: id in results && id in t.entries ==>
      results[id] == OutputOf(t.entries[id].0, t.entries[id].1, w)
  }

  function EntryReport(c: Call, t: Table, w: World): Event {
    if c.id in t.entries then Report(c, OutputOf(t.entries[c.id].0, t.entries[c.id].1, w))
    else Report(c, "")
  }

  /** A report has the call itself, and the output that the table's entry for its id gives. */
  function EntryReports(calls: seq<Call>, t: Table, w: World): seq<Event> {
    if calls == [] then []
    else EntryReports(calls[..|calls| - 1], t, w) + [EntryReport(calls[|calls| - 1], t, w)]
  }

  /** Phase 3: one result and one report per call, in call order; from the table come the decision and
      the output. */
  method Collect(calls: seq<Call>, t: Table, outputs: map<string, string>, w: World)
    returns (results: map<string, string>, events: seq<Event>)
    requires OutputsReady(calls, t, outputs, w)
    ensures results.Keys == Ids(calls) && EntryResults(t, w, results)
    ensures events == EntryReports(calls, t, w)
  {
    results, events := map[], [];
    for i := 0 to |calls|
      invariant results.Keys == Ids(calls[..i]) && EntryResults(t, w, results)
      invariant events == EntryReports(calls[..i], t, w)
    {
      assert calls[..i + 1] == calls[..i] + [calls[i]] && calls[..i + 1][..i] == calls[..i];
      var (call, verdict) := t.entries[calls[i].id];
      var output := Wrap(call, verdict, if Runs(verdict) then outputs[calls[i].id] else "", w);
      assert EntryReport(calls[i], t, w) == Report(calls[i], output);
      events := events + [Report(calls[i], output)];
      results := results[calls[i].id := output];
    }
    assert calls[..|calls|] == calls;
  }

  lemma {:induction false} FilteredKeys(t: Table, order: seq<string>)
    ensures forall id :: id in Filter(order, RunsIn(t)) <==> id in order && RunsIn(t)(id)
  {
    FilterHolds(order, RunsIn(t));
  }

  /** What a batch must give: the specification for any ids, and for distinct ids call by call. */
  ghost predicate Meets(
    calls: seq<Call>, decisions: map<string, Verdict>, allowlist: Option<set<string>>, w: World,
    results: map<string, string>, events: seq<Event>, executed: seq<Call>)
  {
    var js, asked := JudgedAll(calls, decisions, allowlist, w), Asked(calls, decisions, allowlist);
    && SpecifiedForAll(calls, js, w, asked, results, events, executed)
    && (Distinct(calls) ==> Specified(calls, js, w, asked, results, events, executed))
  }

  /** The three phases over any calls, any decisions and any completion order. */
  method Execute(
    calls: seq<Call>, decisions: map<string, Verdict>, allowlist: Option<set<string>>, w: World,
    schedule: seq<string>)
    returns (results: map<string, string>, events: seq<Event>, executed: seq<Call>)
    requires multiset(schedule)
          == multiset(ToRun(Tabulated(JudgedAll(calls, decisions, allowlist, w))))
    ensures Meets(calls, decisions, allowlist, w, results, events, executed)
  {
    var marked, t, asked := Approve(calls, decisions, allowlist, w);
    var ids := ToRun(t);
    assert forall id :: id in ids ==> id in t.entries by {
      FilteredKeys(t, t.order);
    }
    var outputs;
    outputs, executed := RunParallel(ids, t, schedule, w);
    MarkedIds(calls, decisions, allowlist, w);
    MarkedReady(calls, decisions, allowlist, w, outputs, executed);
    var reports;
    results, reports := Collect(marked, t, outputs, w);
    events := Trace(asked, Map(ids, CallIn(t)), reports);
    BatchIsSpecified(calls, decisions, allowlist, w, JudgedAll(calls, decisions, allowlist, w), asked,
                     results, reports, executed);
    SpecifiedMeets(calls, decisions, allowlist, w, results, events, executed);
  }

  lemma {:induction false} MarkedReady(
    calls: seq<Call>, decisions: map<string, Verdict>, allowlist: Option<set<string>>, w: World,
    outputs: map<string, string>, executed: seq<Call>)
    requires var t := Tabulated(JudgedAll(calls, decisions, allowlist, w));
             Collected(ToRun(t), t, w, outputs, executed)
    ensures var js := JudgedAll(calls, decisions, allowlist, w);
            OutputsReady(Map(js, CallOf()), Tabulated(js), outputs, w)
  {
    JudgedIds(calls, decisions, allowlist, w);
    var t := Tabulated(JudgedAll(calls, decisions, allowlist, w));
    FilteredKeys(t, t.order);
  }

  lemma {:induction false} BatchIsSpecified(
    calls: seq<Call>, decisions: map<string, Verdict>, allowlist: Option<set<string>>, w: World,
    js: seq<(Call, Verdict)>, asked: seq<Event>, results: map<string, string>, reports: seq<Event>,
    executed: seq<Call>)
    requires js == JudgedAll(calls, decisions, allowlist, w)
    requires Produced(calls, js, Tabulated(js), w, results, reports, executed)
    ensures SpecifiedForAll(
              calls, js, w, asked, results,
              Trace(asked, Map(ToRun(Tabulated(js)), CallIn(Tabulated(js))), reports), executed)
  {
    JudgedIds(calls, decisions, allowlist, w);
    MeetsGeneralSpecification(calls, js, Tabulated(js), w, asked, results, reports, executed);
  }

  lemma {:induction false} SpecifiedMeets(
    calls: seq<Call>, decisions: map<string, Verdict>, allowlist: Option<set<string>>, w: World,
    results: map<string, string>, events: seq<Event>, executed: seq<Call>)
    requires SpecifiedForAll(calls, JudgedAll(calls, decisions, allowlist, w), w,
                             Asked(calls, decisions, allowlist), results, events, executed)
    ensures Meets(calls, decisions, allowlist, w, results, events, executed)
  {
    if Distinct(calls) {
      DistinctBatch(calls, decisions, allowlist, w, results, events, executed);
    }
  }

  lemma {:induction false} MarkedIds(
    calls: seq<Call>, decisions: map<string, Verdict>, allowlist: Option<set<string>>, w: World)
    ensures Ids(Map(JudgedAll(calls, decisions, allowlist, w), CallOf())) == Ids(calls)
  {
    var marked := Map(JudgedAll(calls, decisions, allowlist, w), CallOf());
    JudgedIds(calls, decisions, allowlist, w);
    forall id
      ensures id in Ids(marked) <==> id in Ids(calls)
    {
      if id in Ids(marked) {
        var i :| 0 <= i < |marked| && marked[i].id == id;
        assert calls[i] in calls && calls[i].id == id;
      }
      if id in Ids(calls) {
        var i :| 0 <= i < |calls| && calls[i].id == id;
        assert marked[i] in marked && marked[i].id == id;
      }
    }
  }

  ghost predicate OutputsReady(
    calls: seq<Call>, t: Table, outputs: map<string, string>, w: World)
  {
    && (forall i :: 0 <= i < |calls| ==> calls[i].id in t.entries)
    && forall id :: id in t.entries && Runs(t.entries[id].1) ==>
         id in outputs && outputs[id] == w.run(t.entries[id].0)
  }

  lemma {:induction false} JudgedIds(
    calls: seq<Call>, decisions: map<string, Verdict>, allowlist: Option<set<string>>, w: World)
    ensures var js := JudgedAll(calls, decisions, allowlist, w);
            && (forall i :: 0 <= i < |calls| ==> js[i].0.id == calls[i].id)
            && forall i :: 0 <= i < |calls| ==> calls[i].id in Tabulated(js).entries
  {
    var js := JudgedAll(calls, decisions, allowlist, w);
    var t := Tabulated(js);
    forall i | 0 <= i < |calls|
      ensures js[i].0.id == calls[i].id && calls[i].id in t.entries
    {
      JudgedEach(calls, decisions, allowlist, w, i);
      assert js[i].0.id in t.entries;
    }
  }

  /** What the three phases make of the table. */
  ghost predicate Produced(
    calls: seq<Call>, js: seq<(Call, Verdict)>, t: Table, w: World, results: map<string, string>,
    reports: seq<Event>, executed: seq<Call>)
  {
    && results.Keys == Ids(calls) && EntryResults(t, w, results)
    && reports == EntryReports(Map(js, CallOf()), t, w)
    && multiset(executed) == multiset(Map(ToRun(t), CallIn(t)))
  }

  lemma {:induction false} MeetsGeneralSpecification(
    calls: seq<Call>, js: seq<(Call, Verdict)>, t: Table, w: World, asked: seq<Event>,
    results: map<string, string>, reports: seq<Event>, executed: seq<Call>)
    requires t == Tabulated(js) && Produced(calls, js, t, w, results, reports, executed)
    requires forall i :: 0 <= i < |calls| ==> calls[i].id in t.entries
    ensures SpecifiedForAll(calls, js, w, asked, results,
                            Trace(asked, Map(ToRun(t), CallIn(t)), reports), executed)
  {
    ResultsOfTable(calls, js, t, w, results);
    assert reports == OwnReports(js, js, w) by {
      ReportsOfTable(js, js, t, w);
    }
    RunningOfTable(js, t);
  }

  // ---- The whole against the call-by-call specification ------------------------------------------

  ghost predicate OwnOutputs(
    calls: seq<Call>, js: seq<(Call, Verdict)>, w: World, results: map<string, string>)
    requires |js| == |calls|
  {
    forall i :: 0 <= i < |calls| ==>
      calls[i].id in results && results[calls[i].id] == OutputOf(js[i].0, js[i].1, w)
  }

  /** What each call gets by itself, in call order: its result; a start if it runs; a report. */
  ghost predicate Specified(
    calls: seq<Call>, js: seq<(Call, Verdict)>, w: World, asked: seq<Event>,
    results: map<string, string>, events: seq<Event>, executed: seq<Call>)
    requires |js| == |calls|
  {
    && results.Keys == Ids(calls)
    && OwnOutputs(calls, js, w, results)
    && events == Trace(asked, Running(js), Map(js, Reported(w)))
    && multiset(executed) == multiset(Running(js))
  }

  // ---- Repeated ids ---------------------------------------------------------------------------------

  function OtherThan(id: string): string -> bool { (x: string) => x != id }

  /** The ids in the order in which they first occur, each once. */
  function FirstIds(js: seq<(Call, Verdict)>): seq<string> {
    if js == [] then [] else [js[0].0.id] + Filter(FirstIds(js[1..]), OtherThan(js[0].0.id))
  }

  /** The last judgement of an id. */
  function LastOf(js: seq<(Call, Verdict)>, id: string): (Call, Verdict) {
    if js == [] then (Call(id, "", "", false), Pass)
    else if js[|js| - 1].0.id == id then js[|js| - 1]
    else LastOf(js[..|js| - 1], id)
  }

  /** The calls that run among these ids: those whose last judgement lets them. */
  function StartedOf(ids: seq<string>, js: seq<(Call, Verdict)>): seq<Call> {
    if ids == [] then []
    else
      var (call, verdict) := LastOf(js, ids[0]);
      (if Runs(verdict) then [call] else []) + StartedOf(ids[1..], js)
  }

  function OwnReport(j: (Call, Verdict), js: seq<(Call, Verdict)>, w: World): Event {
    Report(j.0, OutputOf(LastOf(js, j.0.id).0, LastOf(js, j.0.id).1, w))
  }

  /** Each of these calls reports itself, with the output of the last judgement of its id. */
  function OwnReports(some: seq<(Call, Verdict)>, js: seq<(Call, Verdict)>, w: World): (r: seq<Event>)
    ensures |r| == |some|
  {
    if some == [] then []
    else OwnReports(some[..|some| - 1], js, w) + [OwnReport(some[|some| - 1], js, w)]
  }

  /** With repeated ids the last judgement of an id decides for all its calls: each id runs at most
      once, in the order of first occurrence, and every call reports itself with the output of the
      last. */
  ghost predicate SpecifiedForAll(
    calls: seq<Call>, js: seq<(Call, Verdict)>, w: World, asked: seq<Event>,
    results: map<string, string>, events: seq<Event>, executed: seq<Call>)
  {
    var running := StartedOf(FirstIds(js), js);
    && results.Keys == Ids(calls)
    && LastOutputs(js, w, results)
    && events == Trace(asked, running, OwnReports(js, js, w))
    && multiset(executed) == multiset(running)
  }

  lemma {:induction false} FirstIdsSnoc(js: seq<(Call, Verdict)>, j: (Call, Verdict))
    ensures FirstIds(js + [j])
         == FirstIds(js) + if j.0.id in FirstIds(js) then [] else [j.0.id]
  {
    var all := js + [j];
    if js == [] {
      assert all[0] == j && all[1..] == [] && FirstIds(all[1..]) == [];
    } else {
      assert all[0] == js[0] && all[1..] == js[1..] + [j];
      FirstIdsSnoc(js[1..], j);
      FilterLast(FirstIds(js[1..]), js[0].0.id, j.0.id);
    }
  }

  lemma {:induction false} FilterLast(ids: seq<string>, id: string, last: string)
    ensures var front := Filter(ids, OtherThan(id));
            [id] + Filter(ids + if last in ids then [] else [last], OtherThan(id))
            == ([id] + front) + if last in [id] + front then [] else [last]
  {
    FilterHolds(ids, OtherThan(id));
    var front := Filter(ids, OtherThan(id));
    assert last in [id] + front <==> last == id || last in ids;
    if last in ids {
      assert ids + [] == ids && ([id] + front) + [] == [id] + front;
    } else {
      FilterConcat(ids, [last], OtherThan(id));
      assert [last][1..] == [] && Filter([last][1..], OtherThan(id)) == [];
      if last == id {
        assert front + [] == front && ([id] + front) + [] == [id] + front;
      } else {
        assert [id] + (front + [last]) == ([id] + front) + [last];
      }
    }
  }

  /** The table holds the ids in the order of first occurrence and their last judgements. */
  lemma {:induction false} TableOfRepeats(js: seq<(Call, Verdict)>)
    ensures Tabulated(js).order == FirstIds(js)
    ensures forall id :: id in Tabulated(js).entries ==> Tabulated(js).entries[id] == LastOf(js, id)
  {
    if js != [] {
      var init, last := js[..|js| - 1], js[|js| - 1];
      TableOfRepeats(init);
      FirstIdsLast(js);
      assert Tabulated(js) == Entered(Tabulated(init), last);
    }
  }

  lemma {:induction false} FirstIdsLast(js: seq<(Call, Verdict)>)
    requires js != []
    ensures var init, last := js[..|js| - 1], js[|js| - 1];
            FirstIds(js) == if last.0.id in FirstIds(init) then FirstIds(init)
                            else FirstIds(init) + [last.0.id]
  {
    var init, last := js[..|js| - 1], js[|js| - 1];
    FirstIdsSnoc(init, last);
    assert js == init + [last] && FirstIds(init) + [] == FirstIds(init);
  }

  lemma {:induction false} StartedOfTable(ids: seq<string>, js: seq<(Call, Verdict)>, t: Table)
    requires forall id :: id in ids ==> id in t.entries && t.entries[id] == LastOf(js, id)
    ensures Map(Filter(ids, RunsIn(t)), CallIn(t)) == StartedOf(ids, js)
  {
    if ids != [] {
      var id, later := ids[0], ids[1..];
      StartedOfTable(later, js, t);
      assert id in ids;
      if RunsIn(t)(id) {
        assert Filter(ids, RunsIn(t)) == [id] + Filter(later, RunsIn(t));
        assert Map([id] + Filter(later, RunsIn(t)), CallIn(t))
            == [CallIn(t)(id)] + Map(Filter(later, RunsIn(t)), CallIn(t));
      } else {
        assert Filter(ids, RunsIn(t)) == Filter(later, RunsIn(t));
      }
    }
  }

  lemma {:induction false} RunningOfTable(js: seq<(Call, Verdict)>, t: Table)
    requires t == Tabulated(js)
    ensures Map(ToRun(t), CallIn(t)) == StartedOf(FirstIds(js), js)
  {
    TableOfRepeats(js);
    StartedOfTable(t.order, js, t);
  }

  lemma {:induction false} ReportsOfTable(
    some: seq<(Call, Verdict)>, js: seq<(Call, Verdict)>, t: Table, w: World)
    requires t == Tabulated(js) && forall j :: j in some ==> j.0.id in t.entries
    ensures EntryReports(Map(some, CallOf()), t, w) == OwnReports(some, js, w)
  {
    var calls := Map(some, CallOf());
    if some == [] {
      assert calls == [];
    } else {
      var init, last := some[..|some| - 1], some[|some| - 1];
      ReportsOfTable(init, js, t, w);
      assert calls[..|some| - 1] == Map(init, CallOf()) && last in some;
      TableOfRepeats(js);
    }
  }

  ghost predicate LastOutputs(
    js: seq<(Call, Verdict)>, w: World, results: map<string, string>)
  {
    forall id :: id in results ==> results[id] == OutputOf(LastOf(js, id).0, LastOf(js, id).1, w)
  }

  lemma {:induction false} ResultsOfTable(
    calls: seq<Call>, js: seq<(Call, Verdict)>, t: Table, w: World, results: map<string, string>)
    requires t == Tabulated(js) && forall i :: 0 <= i < |calls| ==> calls[i].id in t.entries
    requires results.Keys == Ids(calls) && EntryResults(t, w, results)
    ensures LastOutputs(js, w, results)
  {
    TableOfRepeats(js);
    forall id | id in results
      ensures id in t.entries
    {
      assert id in Ids(calls);
    }
  }

  // ---- Distinct ids --------------------------------------------------------------------------

  ghost predicate DistinctIds(js: seq<(Call, Verdict)>) {
    js == [] ||
    var init, id := js[..|js| - 1], js[|js| - 1].0.id;
    DistinctIds(init) && forall j :: j in init ==> j.0.id != id
  }

  lemma {:induction false} DistinctCalls(calls: seq<Call>, js: seq<(Call, Verdict)>)
    requires Distinct(calls) && |js| == |calls|
    requires forall i :: 0 <= i < |calls| ==> js[i].0.id == calls[i].id
    ensures DistinctIds(js)
  {
    if js != [] {
      DistinctCalls(calls[..|calls| - 1], js[..|js| - 1]);
    }
  }

  function IdOf(): ((Call, Verdict)) -> string { (j: (Call, Verdict)) => j.0.id }

  lemma {:induction false} DistinctFirsts(js: seq<(Call, Verdict)>)
    requires DistinctIds(js)
    ensures FirstIds(js) == Map(js, IdOf())
  {
    if js != [] {
      var init, last := js[..|js| - 1], js[|js| - 1];
      DistinctFirsts(init);
      FirstIdsLast(js);
      assert Map(js, IdOf()) == Map(init, IdOf()) + [last.0.id];
      forall i | 0 <= i < |init|
        ensures FirstIds(init)[i] != last.0.id
      {
        assert init[i] in init;
      }
    }
  }

  lemma {:induction false} DistinctLasts(js: seq<(Call, Verdict)>, i: nat)
    requires DistinctIds(js) && i < |js|
    ensures LastOf(js, js[i].0.id) == js[i]
  {
    var init := js[..|js| - 1];
    if i < |init| {
      assert init[i] == js[i] && init[i] in init;
      DistinctLasts(init, i);
    }
  }

  /** With distinct ids the table is the list of judged calls. */
  lemma {:induction false} DistinctTable(js: seq<(Call, Verdict)>)
    requires DistinctIds(js)
    ensures Tabulated(js).order == Map(js, IdOf())
    ensures forall i :: 0 <= i < |js| ==>
              js[i].0.id in Tabulated(js).entries && Tabulated(js).entries[js[i].0.id] == js[i]
  {
    TableOfRepeats(js);
    DistinctFirsts(js);
    forall i | 0 <= i < |js|
      ensures LastOf(js, js[i].0.id) == js[i]
    {
      DistinctLasts(js, i);
    }
  }

  lemma {:induction false} StartedOwn(js: seq<(Call, Verdict)>, all: seq<(Call, Verdict)>)
    requires forall j :: j in js ==> LastOf(all, j.0.id) == j
    ensures StartedOf(Map(js, IdOf()), all) == Running(js)
  {
    var ids := Map(js, IdOf());
    if js == [] {
      assert ids == [];
    } else {
      var j, later := js[0], js[1..];
      StartedOwn(later, all);
      assert j in js && ids[0] == j.0.id && ids[1..] == Map(later, IdOf());
      if Runs(j.1) {
        assert Filter(js, MayRun()) == [j] + Filter(later, MayRun());
      } else {
        assert Filter(js, MayRun()) == Filter(later, MayRun());
      }
    }
  }

  lemma {:induction false} LastsAreOwn(js: seq<(Call, Verdict)>)
    requires DistinctIds(js)
    ensures forall j :: j in js ==> LastOf(js, j.0.id) == j
  {
    forall j | j in js
      ensures LastOf(js, j.0.id) == j
    {
      var i :| 0 <= i < |js| && js[i] == j;
      DistinctLasts(js, i);
    }
  }

  /** The calls started are the judged calls that may run, in call order. */
  lemma {:induction false} RunningInOrder(js: seq<(Call, Verdict)>)
    requires DistinctIds(js)
    ensures StartedOf(FirstIds(js), js) == Running(js)
  {
    LastsAreOwn(js);
    StartedOwn(js, js);
    DistinctFirsts(js);
  }

  lemma {:induction false} ReportsInOrder(
    some: seq<(Call, Verdict)>, js: seq<(Call, Verdict)>, w: World)
    requires forall j :: j in some ==> LastOf(js, j.0.id) == j
    ensures OwnReports(some, js, w) == Map(some, Reported(w))
  {
    if some != [] {
      var init, last := some[..|some| - 1], some[|some| - 1];
      ReportsInOrder(init, js, w);
      assert last in some && Map(some, Reported(w)) == Map(init, Reported(w)) + [Reported(w)(last)];
    }
  }

  lemma {:induction false} OutputsInOrder(
    calls: seq<Call>, js: seq<(Call, Verdict)>, w: World, results: map<string, string>)
    requires DistinctIds(js) && |js| == |calls|
    requires forall i :: 0 <= i < |calls| ==> js[i].0.id == calls[i].id
    requires results.Keys == Ids(calls) && LastOutputs(js, w, results)
    ensures OwnOutputs(calls, js, w, results)
  {
    forall i | 0 <= i < |calls|
      ensures calls[i].id in results && results[calls[i].id] == OutputOf(js[i].0, js[i].1, w)
    {
      assert calls[i] in calls && calls[i].id in Ids(calls);
      DistinctLasts(js, i);
    }
  }

  /** With distinct ids what `execute` does, for the judged calls, is what each call gets by
      itself. */
  lemma {:induction false} DistinctIsCallByCall(
    calls: seq<Call>, js: seq<(Call, Verdict)>, w: World, asked: seq<Event>,
    results: map<string, string>, events: seq<Event>, executed: seq<Call>)
    requires DistinctIds(js) && |js| == |calls|
    requires forall i :: 0 <= i < |calls| ==> js[i].0.id == calls[i].id
    requires SpecifiedForAll(calls, js, w, asked, results, events, executed)
    ensures Specified(calls, js, w, asked, results, events, executed)
  {
    RunningInOrder(js);
    LastsAreOwn(js);
    ReportsInOrder(js, js, w);
    OutputsInOrder(calls, js, w, results);
  }

  /** So it is for every batch of calls with distinct ids. */
  lemma {:induction false} DistinctBatch(
    calls: seq<Call>, decisions: map<string, Verdict>, allowlist: Option<set<string>>, w: World,
    results: map<string, string>, events: seq<Event>, executed: seq<Call>)
    requires Distinct(calls)
    requires SpecifiedForAll(calls, JudgedAll(calls, decisions, allowlist, w), w,
                             Asked(calls, decisions, allowlist), results, events, executed)
    ensures Specified(calls, JudgedAll(calls, decisions, allowlist, w), w,
                      Asked(calls, decisions, allowlist), results, events, executed)
  {
    var js := JudgedAll(calls, decisions, allowlist, w);
    JudgedIds(calls, decisions, allowlist, w);
    DistinctCalls(calls, js);
    DistinctIsCallByCall(calls, js, w, Asked(calls, decisions, allowlist), results, events, executed);
  }

  /** Whatever ids repeat, the `i`-th report has the `i`-th call itself, with its own mark, and just
      the result that the model gets for its id. */
  lemma {:induction false} ReportsMatchResults(
    calls: seq<Call>, decisions: map<string, Verdict>, allowlist: Option<set<string>>, w: World,
    results: map<string, string>, events: seq<Event>, executed: seq<Call>, i: nat)
    requires i < |calls|
    requires SpecifiedForAll(calls, JudgedAll(calls, decisions, allowlist, w), w,
                             Asked(calls, decisions, allowlist), results, events, executed)
    ensures var id := calls[i].id;
            var own := Judged(calls[i], Given(decisions, id), allowlist, w.approve(i)).0;
            && |events| >= |calls| && id in results
            && events[|events| - |calls| + i] == Report(own, results[id])
  {
    var js := JudgedAll(calls, decisions, allowlist, w);
    JudgedEach(calls, decisions, allowlist, w, i);
    assert calls[i] in calls && calls[i].id in Ids(calls);
    assert LastOutputs(js, w, results) && results.Keys == Ids(calls);
    var before := Asked(calls, decisions, allowlist) + Map(StartedOf(FirstIds(js), js), Started());
    OwnReportAt(js, js, w, i);
  }

  lemma {:induction false} OwnReportAt(
    some: seq<(Call, Verdict)>, js: seq<(Call, Verdict)>, w: World, i: nat)
    requires i < |some|
    ensures OwnReports(some, js, w)[i] == OwnReport(some[i], js, w)
  {
    if i < |some| - 1 {
      OwnReportAt(some[..|some| - 1], js, w, i);
    }
  }

  /** A tool runs exactly when its call is in the restricted set and the decision on it is to
      let it pass, to warn, or to ask and the answer was yes; every other decision, allowing
      ones included, only produces a text. */
  lemma {:induction false} RunsExactlyWhen(
    call: Call, v: Verdict, allowlist: Option<set<string>>, approved: bool)
    ensures Runs(Judged(call, v, allowlist, approved).1) <==>
              && Allowed(call, allowlist)
              && (v.Pass? || (v.Ruled? && v.decision.action.WARN?) || (NeedsApproval(v) && approved))
    ensures v.Ruled? && v.decision.action.ALLOW? ==>
              !Runs(Judged(call, v, allowlist, approved).1)
  {
  }
}
