/** The tool spans of the telemetry plugin (qi_agent/plugins/builtin/telemetry_otel.py and
    _telemetry_otel_support.py): one queue per turn and one bucket per turn and step hold the same
    open spans. */
module Telemetry {
  import opened Basics

  /** A pending span; `id` tells span objects apart. */
  datatype Span = Span(turn: int, step: int, id: nat)

  type Spans = map<(int, int), seq<Span>>
  type Queue = map<int, seq<Span>>

  datatype State = State(spans: Spans, queue: Queue)

  const FRESH := State(map[], map[])

  function At<K, V>(m: map<K, seq<V>>, key: K): seq<V> { if key in m then m[key] else [] }

  /** `remove`: the first occurrence, if there is one. */
  function Removed(xs: seq<Span>, x: Span): seq<Span> {
    if xs == [] then [] else if xs[0] == x then xs[1..] else [xs[0]] + Removed(xs[1..], x)
  }

  function Stored<K, V>(m: map<K, seq<V>>, key: K, xs: seq<V>): map<K, seq<V>> {
    if xs == [] then m - {key} else m[key := xs]
  }

  function Called(s: State, x: Span): State {
    State(s.spans[(x.turn, x.step) := At(s.spans, (x.turn, x.step)) + [x]],
          s.queue[x.turn := At(s.queue, x.turn) + [x]])
  }

  /** The turn that a result belongs to; turn 0 stands for an unknown one. */
  function TurnKey(turn: int, turnNo: Option<int>): int {
    if turn != 0 then turn else if turnNo.Some? then turnNo.value else 0
  }

  /** Taking the record out of both indexes and leaving no empty list behind. */
  function Forgotten(s: State, r: Span): State {
    State(Stored(s.spans, (r.turn, r.step), Removed(At(s.spans, (r.turn, r.step)), r)),
          Stored(s.queue, r.turn, Removed(At(s.queue, r.turn), r)))
  }

  /** The span to end: the oldest of the turn, else the oldest of the exact turn and step. */
  function Ended(s: State, turn: int, step: int, turnNo: Option<int>): (State, Option<Span>) {
    var key := TurnKey(turn, turnNo);
    var waiting, bucket := At(s.queue, key), At(s.spans, (turn, step));
    if waiting != [] then
      (Forgotten(s.(queue := s.queue[key := waiting[1..]]), waiting[0]), Some(waiting[0]))
    else if bucket != [] then
      (Forgotten(s.(spans := s.spans[(turn, step) := bucket[1..]]), bucket[0]), Some(bucket[0]))
    else (s, None)
  }

  // ---- The plugin's indexes -----------------------------------------------------------------------

  class TelemetryPlugin {
    var toolSpans: Spans
    var toolQueue: Queue
    var turnNo: Option<int>

    ghost function Now(): State reads this`toolSpans, this`toolQueue { State(toolSpans, toolQueue) }

    constructor ()
      ensures Now() == FRESH && turnNo == None
    {
      toolSpans, toolQueue, turnNo := map[], map[], None;
    }

    method OnToolCall(x: Span)
      requires Inv(Now()) && x !in At(toolQueue, x.turn)
      modifies this`toolSpans, this`toolQueue
      ensures Now() == Called(old(Now()), x) && Inv(Now())
    {
      CallKeepsInv(Now(), x);
      var key := (x.turn, x.step);
      if key !in toolSpans {
        toolSpans := toolSpans[key := []];
      }
      toolSpans := toolSpans[key := toolSpans[key] + [x]];
      if x.turn !in toolQueue {
        toolQueue := toolQueue[x.turn := []];
      }
      toolQueue := toolQueue[x.turn := toolQueue[x.turn] + [x]];
    }

    method OnToolResult(turn: int, step: int) returns (record: Option<Span>)
      requires Inv(Now())
      modifies this`toolSpans, this`toolQueue
      ensures (Now(), record) == Ended(old(Now()), turn, step, turnNo) && Inv(Now())
    {
      ResultKeepsInv(Now(), turn, step, turnNo);
      record := None;
      var turnKey := if turn != 0 then turn else if turnNo.Some? then turnNo.value else 0;
      if turnKey in toolQueue && toolQueue[turnKey] != [] {
        record := Some(toolQueue[turnKey][0]);
        toolQueue := toolQueue[turnKey := toolQueue[turnKey][1..]];
      } else if (turn, step) in toolSpans && toolSpans[(turn, step)] != [] {
        record := Some(toolSpans[(turn, step)][0]);
        toolSpans := toolSpans[(turn, step) := toolSpans[(turn, step)][1..]];
      }
      if record.Some? {
        var exactKey := (record.value.turn, record.value.step);
        var exactBucket := Removed(At(toolSpans, exactKey), record.value);
        var turnBucket := Removed(At(toolQueue, record.value.turn), record.value);
        toolQueue := Stored(toolQueue, record.value.turn, turnBucket);
        toolSpans := Stored(toolSpans, exactKey, exactBucket);
      }
    }
  }

  // ---- The two indexes agree -----------------------------------------------------------------

  function InStep(step: int): Span -> bool { (x: Span) => x.step == step }

  ghost predicate NoDuplicates(xs: seq<Span>) {
    xs == [] || (xs[0] !in xs[1..] && NoDuplicates(xs[1..]))
  }

  /** The queue of a turn holds distinct spans of that turn, and every bucket of the turn is the
      queue restricted to its step, in the same order. */
  ghost predicate TurnOk(s: State, t: int) {
    && NoDuplicates(At(s.queue, t))
    && (forall x :: x in At(s.queue, t) ==> x.turn == t)
    && forall k :: At(s.spans, (t, k)) == Filter(At(s.queue, t), InStep(k))
  }

  ghost predicate Inv(s: State) {
    && (forall t :: t in s.queue ==> s.queue[t] != [])
    && (forall key :: key in s.spans ==> s.spans[key] != [])
    && forall t :: TurnOk(s, t)
  }

  lemma {:induction false} AppendNoDuplicate(xs: seq<Span>, x: Span)
    requires NoDuplicates(xs) && x !in xs
    ensures NoDuplicates(xs + [x])
  {
    if xs == [] {
      assert xs + [x] == [x] && [x][1..] == [];
    } else {
      AppendNoDuplicate(xs[1..], x);
      assert (xs + [x])[1..] == xs[1..] + [x];
    }
  }

  lemma {:induction false} FilterSnoc(xs: seq<Span>, x: Span, k: int)
    ensures Filter(xs + [x], InStep(k)) == Filter(xs, InStep(k)) + if x.step == k then [x] else []
  {
    FilterConcat(xs, [x], InStep(k));
    assert [x][1..] == [] && Filter([x][1..], InStep(k)) == [];
    assert Filter([x], InStep(k)) == if x.step == k then [x] else [];
  }

  lemma {:induction false} CallKeepsInv(s: State, x: Span)
    requires Inv(s) && x !in At(s.queue, x.turn)
    ensures Inv(Called(s, x))
  {
    var u := Called(s, x);
    forall t
      ensures TurnOk(u, t)
    {
      assert TurnOk(s, t);
      if t == x.turn {
        CallKeepsTurn(s, x);
      }
    }
  }

  lemma {:induction false} CallKeepsTurn(s: State, x: Span)
    requires TurnOk(s, x.turn) && x !in At(s.queue, x.turn)
    ensures TurnOk(Called(s, x), x.turn)
  {
    var u := Called(s, x);
    var q := At(s.queue, x.turn);
    AppendNoDuplicate(q, x);
    forall k
      ensures At(u.spans, (x.turn, k)) == Filter(q + [x], InStep(k))
    {
      FilterSnoc(q, x, k);
      assert At(s.spans, (x.turn, k)) == Filter(q, InStep(k));
      assert Filter(q, InStep(k)) + [] == Filter(q, InStep(k));
    }
  }

  lemma {:induction false} RemovedParts(xs: seq<Span>, x: Span)
    requires NoDuplicates(xs)
    ensures NoDuplicates(Removed(xs, x))
    ensures forall y :: y in Removed(xs, x) <==> y in xs && y != x
  {
    if xs != [] {
      assert xs == [xs[0]] + xs[1..];
      RemovedParts(xs[1..], x);
      if xs[0] != x {
        assert ([xs[0]] + Removed(xs[1..], x))[1..] == Removed(xs[1..], x);
      }
    }
  }

  lemma {:induction false} RemovedAbsent(xs: seq<Span>, x: Span)
    requires x !in xs
    ensures Removed(xs, x) == xs
  {
    if xs != [] {
      RemovedAbsent(xs[1..], x);
    }
  }

  /** Removing from the queue and removing from a bucket of it come to the same. */
  lemma {:induction false} FilterRemoved(xs: seq<Span>, x: Span, k: int)
    requires NoDuplicates(xs)
    ensures Filter(Removed(xs, x), InStep(k))
         == if x.step == k then Removed(Filter(xs, InStep(k)), x) else Filter(xs, InStep(k))
  {
    if xs != [] {
      var y, later := xs[0], xs[1..];
      var rest := Filter(later, InStep(k));
      FilterRemoved(later, x, k);
      assert Filter(xs, InStep(k)) == (if y.step == k then [y] else []) + rest;
      if y == x {
        FilterHolds(later, InStep(k));
        RemovedAbsent(rest, x);
        assert x.step == k ==> ([x] + rest)[1..] == rest;
      } else {
        assert Removed(xs, x) == [y] + Removed(later, x);
        if y.step == k {
          var f := [y] + rest;
          assert f[0] == y && f[1..] == rest;
          assert Removed(f, x) == [y] + Removed(rest, x);
        } else {
          assert Filter(xs, InStep(k)) == rest;
          assert Filter([y] + Removed(later, x), InStep(k)) == Filter(Removed(later, x), InStep(k));
        }
      }
    }
  }

  datatype Event = Call(span: Span) | Result(turn: int, step: int, turnNo: Option<int>)

  /** A result without a turn, when no span of the plugin's turn waits, takes the oldest of its step
      among the spans of turn 0, although the oldest of them all is of another step. */
  predicate Overtakes(s: State, e: Event) {
    && e.Result? && e.turn == 0
    && At(s.queue, TurnKey(e.turn, e.turnNo)) == []
    && (0, e.step) in s.spans && s.spans[(0, e.step)] != []
    && At(s.queue, 0) != [] && At(s.queue, 0)[0].step != e.step
  }

  /** Whichever index the record came from, it leaves both. */
  lemma {:induction false} ResultForgets(s: State, turn: int, step: int, turnNo: Option<int>)
    requires Inv(s)
    ensures var (u, record) := Ended(s, turn, step, turnNo);
            if record.None? then u == s
            else u == Forgotten(s, record.value) && record.value in At(s.queue, record.value.turn)
                 && (At(s.queue, record.value.turn)[0] == record.value
                     <==> !(turn == 0 && Overtakes(s, Result(turn, step, turnNo))))
                 && (Overtakes(s, Result(turn, step, turnNo)) ==> record.value.turn == 0)
    ensures Overtakes(s, Result(turn, step, turnNo)) ==> Ended(s, turn, step, turnNo).1.Some?
  {
    var (u, record) := Ended(s, turn, step, turnNo);
    var key := TurnKey(turn, turnNo);
    var waiting, bucket := At(s.queue, key), At(s.spans, (turn, step));
    assert TurnOk(s, key) && TurnOk(s, turn);
    if waiting != [] {
      var r := waiting[0];
      assert r in waiting && r.turn == key;
      RemovedAbsent(waiting[1..], r);
      assert Removed(waiting, r) == waiting[1..];
    } else if bucket != [] {
      var r := bucket[0];
      FilterHolds(At(s.queue, turn), InStep(step));
      assert r in bucket;
      assert turn == 0;
      FilterNoDuplicates(At(s.queue, turn), InStep(step));
      RemovedAbsent(bucket[1..], r);
      assert Removed(bucket, r) == bucket[1..];
      OldestOfStep(At(s.queue, turn), step);
    }
  }

  lemma {:induction false} OldestOfStep(xs: seq<Span>, step: int)
    requires Filter(xs, InStep(step)) != []
    ensures xs != [] && (Filter(xs, InStep(step))[0] == xs[0] <==> xs[0].step == step)
  {
    FilterHolds(xs, InStep(step));
    assert Filter(xs, InStep(step))[0] in Filter(xs, InStep(step));
  }

  lemma {:induction false} FilterNoDuplicates(xs: seq<Span>, p: Span -> bool)
    requires NoDuplicates(xs)
    ensures NoDuplicates(Filter(xs, p))
  {
    if xs != [] {
      FilterNoDuplicates(xs[1..], p);
      FilterHolds(xs[1..], p);
      var rest := Filter(xs[1..], p);
      assert Filter(xs, p) == (if p(xs[0]) then [xs[0]] else []) + rest;
      if p(xs[0]) {
        assert ([xs[0]] + rest)[1..] == rest;
      } else {
        assert Filter(xs, p) == rest;
      }
    }
  }

  lemma {:induction false} ForgettingKeepsTurn(s: State, r: Span)
    requires TurnOk(s, r.turn)
    ensures TurnOk(Forgotten(s, r), r.turn)
  {
    var u := Forgotten(s, r);
    var q := At(s.queue, r.turn);
    RemovedParts(q, r);
    assert At(u.queue, r.turn) == Removed(q, r);
    forall k
      ensures At(u.spans, (r.turn, k)) == Filter(Removed(q, r), InStep(k))
    {
      FilterRemoved(q, r, k);
      assert At(s.spans, (r.turn, k)) == Filter(q, InStep(k));
    }
  }

  lemma {:induction false} ForgettingKeepsInv(s: State, r: Span)
    requires Inv(s)
    ensures Inv(Forgotten(s, r))
  {
    var u := Forgotten(s, r);
    forall t
      ensures TurnOk(u, t)
    {
      assert TurnOk(s, t);
      if t == r.turn {
        ForgettingKeepsTurn(s, r);
      }
    }
  }

  lemma {:induction false} ResultKeepsInv(s: State, turn: int, step: int, turnNo: Option<int>)
    requires Inv(s)
    ensures Inv(Ended(s, turn, step, turnNo).0)
  {
    ResultForgets(s, turn, step, turnNo);
    var record := Ended(s, turn, step, turnNo).1;
    if record.Some? {
      ForgettingKeepsInv(s, record.value);
    }
  }

  // ---- Over every run -------------------------------------------------------------------------

  function Step(s: State, e: Event): (State, Option<Span>) {
    match e
    case Call(x) => (Called(s, x), None)
    case Result(turn, step, turnNo) => Ended(s, turn, step, turnNo)
  }

  /** The state after the events and the spans ended on the way, in order. */
  function Run(s: State, events: seq<Event>): (State, seq<Span>)
    decreases events
  {
    if events == [] then (s, [])
    else
      var (u, record) := Step(s, events[0]);
      var (end, closed) := Run(u, events[1..]);
      (end, (if record.Some? then [record.value] else []) + closed)
  }

  function Opened(events: seq<Event>): seq<Span> {
    if events == [] then []
    else (if events[0].Call? then [events[0].span] else []) + Opened(events[1..])
  }

  function OfTurn(t: int): Span -> bool { (x: Span) => x.turn == t }

  /** Every call opens a span object of its own. */
  ghost predicate OwnSpans(s: State, events: seq<Event>) {
    && NoDuplicates(Opened(events))
    && forall x :: x in Opened(events) ==> x !in At(s.queue, x.turn)
  }

  lemma {:induction false} OwnSpansNext(s: State, events: seq<Event>)
    requires Inv(s) && events != [] && OwnSpans(s, events)
    ensures events[0].Call? ==> events[0].span !in At(s.queue, events[0].span.turn)
    ensures OwnSpans(Step(s, events[0]).0, events[1..])
  {
    var e, later := events[0], Opened(events[1..]);
    if e.Call? {
      assert Opened(events) == [e.span] + later;
      assert Opened(events)[0] == e.span && Opened(events)[1..] == later;
    } else {
      assert Opened(events) == later;
      ResultForgets(s, e.turn, e.step, e.turnNo);
      var record := Step(s, e).1;
      if record.Some? {
        assert TurnOk(s, record.value.turn);
        RemovedParts(At(s.queue, record.value.turn), record.value);
      }
    }
  }

  lemma {:induction false} StepKeepsInv(s: State, e: Event)
    requires Inv(s) && (e.Call? ==> e.span !in At(s.queue, e.span.turn))
    ensures Inv(Step(s, e).0)
  {
    match e
    case Call(x) => CallKeepsInv(s, x);
    case Result(turn, step, turnNo) => ResultKeepsInv(s, turn, step, turnNo);
  }

  function EndedNow(s: State, e: Event, t: int): seq<Span> {
    var record := Step(s, e).1;
    if record.Some? && record.value.turn == t then [record.value] else []
  }

  function BegunNow(e: Event, t: int): seq<Span> {
    if e.Call? && e.span.turn == t then [e.span] else []
  }

  lemma {:induction false} ResultOnTurn(s: State, e: Event, t: int)
    requires Inv(s) && e.Result? && (t == 0 ==> !Overtakes(s, e))
    ensures EndedNow(s, e, t) + At(Step(s, e).0.queue, t) == At(s.queue, t)
  {
    var record := Step(s, e).1;
    var q := At(s.queue, t);
    ResultForgets(s, e.turn, e.step, e.turnNo);
    if record.Some? {
      if record.value.turn == t {
        assert Removed(q, q[0]) == q[1..] && q == [q[0]] + q[1..];
      } else {
        assert [] + q == q;
      }
    } else {
      assert [] + q == q;
    }
  }

  /** One step seen from the queue of one turn: a call of the turn appends, ending a span of the
      turn takes the oldest, and everything else leaves the queue alone. */
  lemma {:induction false} StepOnTurn(s: State, e: Event, t: int)
    requires Inv(s) && (t == 0 ==> !Overtakes(s, e))
    ensures EndedNow(s, e, t) + At(Step(s, e).0.queue, t) == At(s.queue, t) + BegunNow(e, t)
  {
    match e
    case Call(x) =>
      assert [] + At(Step(s, e).0.queue, t) == At(Step(s, e).0.queue, t);
    case Result(_, _, _) =>
      ResultOnTurn(s, e, t);
      assert At(s.queue, t) + [] == At(s.queue, t);
  }

  predicate NoneOvertakes(s: State, events: seq<Event>)
    decreases events
  {
    events == [] || (!Overtakes(s, events[0]) && NoneOvertakes(Step(s, events[0]).0, events[1..]))
  }

  /** The spans ended for a turn, in order, and those still queued are the spans queued at the start
      and those opened since. */
  ghost predicate InOrder(s: State, events: seq<Event>, t: int) {
    var (end, closed) := Run(s, events);
    Filter(closed, OfTurn(t)) + At(end.queue, t)
      == At(s.queue, t) + Filter(Opened(events), OfTurn(t))
  }

  /** Over every run of calls and results of any turns and steps, the spans of a turn end in the
      order in which they were opened; for turn 0, which stands for an unknown turn, exactly when no
      result overtakes. */
  lemma {:induction false} FirstInFirstOut(s: State, events: seq<Event>, t: int)
    requires Inv(s) && OwnSpans(s, events)
    ensures Inv(Run(s, events).0)
    ensures InOrder(s, events, t) <==> t != 0 || NoneOvertakes(s, events)
    decreases events
  {
    if events == [] {
      assert At(s.queue, t) + [] == At(s.queue, t) && [] + At(s.queue, t) == At(s.queue, t);
    } else {
      var e, later := events[0], events[1..];
      OwnSpansNext(s, events);
      StepKeepsInv(s, e);
      FirstInFirstOut(Step(s, e).0, later, t);
      OrderSplits(s, events, t);
      if t == 0 && Overtakes(s, e) {
        OvertakingShows(s, events);
      } else {
        StepOnTurn(s, e, t);
        OrderContinues(s, events, t);
      }
    }
  }

  lemma {:induction false} OrderSplits(s: State, events: seq<Event>, t: int)
    requires events != []
    ensures var e, later := events[0], events[1..];
            && Filter(Run(s, events).1, OfTurn(t))
               == EndedNow(s, e, t) + Filter(Run(Step(s, e).0, later).1, OfTurn(t))
            && Filter(Opened(events), OfTurn(t))
               == BegunNow(e, t) + Filter(Opened(later), OfTurn(t))
  {
    var e, later := events[0], events[1..];
    var record := Step(s, e).1;
    var ended := if record.Some? then [record.value] else [];
    var begun := if e.Call? then [e.span] else [];
    FilterConcat(ended, Run(Step(s, e).0, later).1, OfTurn(t));
    FilterConcat(begun, Opened(later), OfTurn(t));
  }

  lemma {:induction false} OrderContinues(s: State, events: seq<Event>, t: int)
    requires events != []
    requires EndedNow(s, events[0], t) + At(Step(s, events[0]).0.queue, t)
          == At(s.queue, t) + BegunNow(events[0], t)
    ensures InOrder(s, events, t) <==> InOrder(Step(s, events[0]).0, events[1..], t)
  {
    var e, later := events[0], events[1..];
    var u := Step(s, e).0;
    OrderSplits(s, events, t);
    Rearranged(EndedNow(s, e, t), Filter(Run(u, later).1, OfTurn(t)), At(Run(u, later).0.queue, t),
               At(u.queue, t), At(s.queue, t), BegunNow(e, t), Filter(Opened(later), OfTurn(t)));
  }

  lemma {:induction false} Rearranged(
    ended: seq<Span>, closed: seq<Span>, end: seq<Span>, mid: seq<Span>, start: seq<Span>,
    begun: seq<Span>, later: seq<Span>)
    requires ended + mid == start + begun
    ensures (ended + closed) + end == start + (begun + later) <==> closed + end == mid + later
  {
    assert (ended + closed) + end == ended + (closed + end);
    assert start + (begun + later) == (start + begun) + later == ended + (mid + later);
    var n := |ended|;
    assert (ended + (closed + end))[n..] == closed + end;
    assert (ended + (mid + later))[n..] == mid + later;
  }

  /** A span that overtakes stands where the oldest one should. */
  lemma {:induction false} OvertakingShows(s: State, events: seq<Event>)
    requires Inv(s) && events != [] && Overtakes(s, events[0])
    ensures !InOrder(s, events, 0)
  {
    var e, later := events[0], events[1..];
    ResultForgets(s, e.turn, e.step, e.turnNo);
    OrderSplits(s, events, 0);
    var closed := Filter(Run(Step(s, e).0, later).1, OfTurn(0));
    var record := Step(s, e).1;
    var left := (EndedNow(s, e, 0) + closed) + At(Run(s, events).0.queue, 0);
    assert left[0] == record.value != At(s.queue, 0)[0];
    assert (At(s.queue, 0) + Filter(Opened(events), OfTurn(0)))[0] == At(s.queue, 0)[0];
  }

  // ---- A batch of calls and its results ---------------------------------------------------------

  function Calls(xs: seq<Span>): seq<Event> { Map(xs, (x: Span) => Call(x)) }

  lemma {:induction false} BucketsFollowQueues(s: State, u: State)
    requires Inv(s) && Inv(u)
    requires forall t :: At(s.queue, t) == At(u.queue, t)
    ensures s == u
  {
    forall t
      ensures t in s.queue <==> t in u.queue
    {
      assert At(s.queue, t) == At(u.queue, t);
    }
    forall t | t in s.queue
      ensures s.queue[t] == u.queue[t]
    {
      assert At(s.queue, t) == At(u.queue, t);
    }
    forall key: (int, int)
      ensures At(s.spans, key) == At(u.spans, key)
      ensures key in s.spans <==> key in u.spans
    {
      var (t, k) := key;
      assert TurnOk(s, t) && TurnOk(u, t);
      assert At(s.spans, (t, k)) == At(u.spans, (t, k));
    }
    forall key | key in s.spans
      ensures s.spans[key] == u.spans[key]
    {
      assert At(s.spans, key) == At(u.spans, key);
    }
    assert s.spans == u.spans && s.queue == u.queue;
  }

  function CalledAll(s: State, xs: seq<Span>): State
    decreases xs
  {
    if xs == [] then s else CalledAll(Called(s, xs[0]), xs[1..])
  }

  lemma {:induction false} OpenBatch(s: State, xs: seq<Span>)
    requires Inv(s) && OwnSpans(s, Calls(xs))
    ensures Run(s, Calls(xs)) == (CalledAll(s, xs), []) && Inv(CalledAll(s, xs))
    decreases xs
  {
    var events := Calls(xs);
    if xs == [] {
      assert events == [];
    } else {
      var x, later := xs[0], xs[1..];
      assert events[0] == Call(x) && events[1..] == Calls(later);
      OwnSpansNext(s, events);
      CallKeepsInv(s, x);
      OpenBatch(Called(s, x), later);
      assert Run(Called(s, x), events[1..]) == (CalledAll(s, xs), []);
      assert Step(s, events[0]) == (Called(s, x), None);
      var none: seq<Span> := [];
      assert none + Run(Called(s, x), events[1..]).1 == none;
    }
  }

  lemma {:induction false} CalledAllAt(s: State, xs: seq<Span>, t: int, other: int)
    requires forall x :: x in xs ==> x.turn == t
    ensures At(CalledAll(s, xs).queue, other) == At(s.queue, other) + if other == t then xs else []
    decreases xs
  {
    var q := At(s.queue, other);
    if xs == [] {
      assert q + [] == q;
    } else {
      var x, later := xs[0], xs[1..];
      CalledAllAt(Called(s, x), later, t, other);
      if other == t {
        assert (q + [x]) + later == q + xs;
      } else {
        assert (q + []) + [] == q + [];
      }
    }
  }

  ghost predicate ResultsOf(t: int, results: seq<Event>) {
    forall i :: 0 <= i < |results| ==> results[i].Result? && results[i].turn == t
  }

  lemma {:induction false} CloseBatch(s: State, results: seq<Event>, t: int)
    requires Inv(s) && t != 0 && ResultsOf(t, results) && |results| == |At(s.queue, t)|
    ensures Run(s, results).1 == At(s.queue, t) && Inv(Run(s, results).0)
    ensures forall other :: At(Run(s, results).0.queue, other)
                            == if other == t then [] else At(s.queue, other)
    decreases results
  {
    if results != [] {
      var e := results[0];
      var q := At(s.queue, t);
      var (u, record) := Step(s, e);
      ResultForgets(s, e.turn, e.step, e.turnNo);
      assert record == Some(q[0]) && q[0] in q;
      ForgettingKeepsInv(s, q[0]);
      assert At(u.queue, t) == q[1..];
      CloseBatch(u, results[1..], t);
      assert q == [q[0]] + q[1..];
    }
  }

  /** A batch of tool calls and then its results, in call order: the i-th result ends the span that
      the i-th call opened, whatever steps the results carry, and both indexes are as before. */
  lemma {:induction false} BatchEndsItsOwnSpans(s: State, xs: seq<Span>, results: seq<Event>, t: int)
    requires Inv(s) && OwnSpans(s, Calls(xs)) && t != 0 && At(s.queue, t) == []
    requires (forall x :: x in xs ==> x.turn == t) && ResultsOf(t, results) && |results| == |xs|
    ensures Run(Run(s, Calls(xs)).0, results) == (s, xs)
  {
    OpenBatch(s, xs);
    CalledAllAt(s, xs, t, t);
    var mid := Run(s, Calls(xs)).0;
    assert At(s.queue, t) + xs == xs;
    CloseBatch(mid, results, t);
    var end := Run(mid, results).0;
    forall other
      ensures At(end.queue, other) == At(s.queue, other)
    {
      CalledAllAt(s, xs, t, other);
    }
    BucketsFollowQueues(end, s);
  }
}
