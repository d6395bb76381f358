/** The browser's client (qi_agent/web/frontend/src/ws.ts): calls waiting for their replies, socket
    generations, and reconnecting with growing delays. The browser may deliver any event at any
    time; timers and promises are part of the state. */
module WsClient {
  import opened Basics

  const INITIAL_RECONNECT_DELAY: nat := 1000
  const MAX_RECONNECT_DELAY: nat := 30000
  const MAX_RECONNECT_ATTEMPTS: nat := 8

  datatype ReadyState = CONNECTING | OPEN | CLOSING | CLOSED
  datatype Status = Connected | Reconnecting | Disconnected

  /** Why a call's promise was settled: its reply came, its time ran out, or the connection went. */
  datatype Cause = Reply | TimedOut | Lost
  datatype Settlement = Settlement(id: nat, cause: Cause)

  /** Calls: the pending table in insertion order, the timeouts that are running, and every
      settlement so far. */
  datatype Calls = Calls(nextId: nat, pending: seq<nat>, timeouts: set<nat>, settled: seq<Settlement>)

  /** Reconnecting: the timer held, the timers the browser is running, and the delays scheduled
      since the last reset. */
  datatype Retry = Retry(
    timer: Option<nat>, nextTimer: nat, running: set<nat>,
    delay: nat, attempts: nat, exceeded: bool, waits: seq<nat>)

  datatype Promise = Waiting | Resolved | Rejected

  /** The promise of `connect`: the one held, whether it can still be settled, and all there were. */
  datatype Opening = Opening(held: Option<nat>, unsettled: bool, promises: seq<Promise>)

  /** The socket held, named by the generation in which it was opened, and how the client stands. */
  datatype Link = Link(
    ws: Option<nat>, generation: nat, sockets: nat,
    disposed: bool, shouldReconnect: bool, status: Status)

  datatype State = State(calls: Calls, retry: Retry, opening: Opening, link: Link)

  const FRESH := State(
    Calls(1, [], {}, []), Retry(None, 0, {}, INITIAL_RECONNECT_DELAY, 0, false, []),
    Opening(None, false, []), Link(None, 0, 0, false, true, Disconnected))

  // ---- Calls --------------------------------------------------------------------------------

  function IdsOf(settled: seq<Settlement>): seq<nat> { Map(settled, (x: Settlement) => x.id) }

  function Dropped(pending: seq<nat>, id: nat): seq<nat> {
    if pending == [] then []
    else if pending[0] == id then pending[1..]
    else [pending[0]] + Dropped(pending[1..], id)
  }

  function Issue(c: Calls): Calls {
    c.(nextId := c.nextId + 1, pending := c.pending + [c.nextId], timeouts := c.timeouts + {c.nextId})
  }

  function Settle(c: Calls, id: nat, cause: Cause): Calls {
    if id !in c.pending then c.(timeouts := c.timeouts - if cause == TimedOut then {id} else {})
    else c.(pending := Dropped(c.pending, id), timeouts := c.timeouts - {id},
            settled := c.settled + [Settlement(id, cause)])
  }

  /** A timeout that is not running cannot fire. */
  function TimeOut(c: Calls, id: nat): Calls {
    if id in c.timeouts then Settle(c, id, TimedOut) else c
  }

  function Losses(pending: seq<nat>): seq<Settlement> {
    Map(pending, (id: nat) => Settlement(id, Lost))
  }

  function RejectAll(c: Calls): Calls {
    c.(pending := [], timeouts := c.timeouts - (set id | id in c.pending),
       settled := c.settled + Losses(c.pending))
  }

  // ---- Reconnecting ---------------------------------------------------------------------------

  function ClearTimer(r: Retry): Retry {
    match r.timer
    case None => r
    case Some(t) => r.(timer := None, running := r.running - {t})
  }

  function Reset(r: Retry): Retry {
    ClearTimer(r).(delay := INITIAL_RECONNECT_DELAY, attempts := 0, exceeded := false, waits := [])
  }

  function Schedule(r: Retry): Retry {
    var q := ClearTimer(r);
    q.(timer := Some(q.nextTimer), nextTimer := q.nextTimer + 1, running := q.running + {q.nextTimer},
       delay := Min(q.delay * 2, MAX_RECONNECT_DELAY), waits := q.waits + [q.delay])
  }

  // ---- The promise of connect -----------------------------------------------------------------

  function Promised(o: Opening): Opening {
    if o.held.Some? then o
    else Opening(Some(|o.promises|), true, o.promises + [Waiting])
  }

  /** A promise that can still be settled is held. */
  predicate Settleable(o: Opening) {
    o.unsettled ==> o.held.Some? && o.held.value < |o.promises|
  }

  function Resolve(o: Opening): Opening {
    if o.unsettled && Settleable(o)
    then Opening(o.held, false, o.promises[o.held.value := Resolved])
    else o
  }

  function Reject(o: Opening): Opening {
    if o.unsettled && Settleable(o)
    then Opening(None, false, o.promises[o.held.value := Rejected])
    else o
  }

  // ---- Events -------------------------------------------------------------------------------

  /** What may happen: the page calls the client, the browser reports on a socket or a timer. A
      message carries the id it replies to, if it is a reply of the client's protocol version. */
  datatype Event =
    | Connect(ready: ReadyState)
    | Dispose
    | Call(ready: ReadyState)
    | CallTimesOut(id: nat)
    | SocketOpened(generation: nat)
    | SocketMessage(generation: nat, reply: Option<nat>)
    | SocketClosed(generation: nat, code: nat)
    | TimerFires(timer: nat)

  function OpenSocket(s: State): State {
    var l := s.link;
    if l.disposed then s
    else
      s.(retry := ClearTimer(s.retry),
         link := Link(Some(l.generation + 1), l.generation + 1, l.sockets + 1,
                      l.disposed, l.shouldReconnect, Reconnecting))
  }

  function WithStatus(s: State, status: Status): State { s.(link := s.link.(status := status)) }

  function Prepared(s: State): State {
    State(s.calls, if s.retry.exceeded then Reset(s.retry) else s.retry, Promised(s.opening),
          s.link.(shouldReconnect := true))
  }

  function OnConnect(s: State, ready: ReadyState): State {
    if s.link.disposed then s
    else if s.link.ws.None? || ready == CLOSED then OpenSocket(Prepared(s))
    else if ready == CONNECTING then WithStatus(Prepared(s), Reconnecting)
    else if ready == OPEN then
      var t := Prepared(s);
      WithStatus(t.(opening := Resolve(t.opening)), Connected)
    else Prepared(s)
  }

  /** Nobody is left waiting. */
  function Abandoned(s: State): State {
    State(RejectAll(s.calls), s.retry, Reject(s.opening), s.link.(status := Disconnected))
  }

  /** The generation moves on, so that the socket's last events are stale. */
  function Unplugged(s: State): State {
    var l := s.link;
    s.(link := Link(None, if l.ws.Some? then l.generation + 1 else l.generation,
                    l.sockets, l.disposed, l.shouldReconnect, l.status))
  }

  function Stopped(s: State): State {
    s.(retry := ClearTimer(s.retry), link := s.link.(disposed := true, shouldReconnect := false))
  }

  function OnDispose(s: State): State { Unplugged(Abandoned(Stopped(s))) }

  function OnCall(s: State, ready: ReadyState): State {
    if s.link.ws.None? || ready != OPEN then s else s.(calls := Issue(s.calls))
  }

  function OnOpened(s: State, generation: nat): State {
    if generation != s.link.generation || s.link.disposed then s
    else
      State(s.calls, Reset(s.retry), Resolve(s.opening), s.link.(status := Connected))
  }

  function OnMessage(s: State, generation: nat, reply: Option<nat>): State {
    if generation != s.link.generation || reply.None? then s
    else s.(calls := Settle(s.calls, reply.value, Reply))
  }

  predicate AuthFailed(code: nat) { code == 4401 || code == 4403 }

  function GaveUp(s: State): State {
    State(s.calls, ClearTimer(s.retry.(exceeded := true)), Reject(s.opening),
          s.link.(shouldReconnect := false, status := Disconnected))
  }

  /** Another attempt, or the end of them. */
  function Retried(s: State): State {
    var r := s.retry.(attempts := s.retry.attempts + 1);
    if r.attempts >= MAX_RECONNECT_ATTEMPTS then GaveUp(s.(retry := r))
    else
      State(s.calls, Schedule(r), s.opening, s.link.(status := Reconnecting))
  }

  function OnClosed(s: State, generation: nat, code: nat): State {
    if generation != s.link.generation then s
    else if AuthFailed(code) then
      Abandoned(s.(retry := Reset(s.retry), link := s.link.(ws := None, shouldReconnect := false)))
    else
      var t := s.(link := s.link.(ws := None), calls := RejectAll(s.calls));
      if s.link.disposed || !s.link.shouldReconnect then WithStatus(t, Disconnected) else Retried(t)
  }

  function OnTimer(s: State, timer: nat): State {
    if timer !in s.retry.running then s
    else
      var t := s.(retry := s.retry.(timer := None, running := s.retry.running - {timer}));
      if !s.link.disposed && s.link.shouldReconnect then OpenSocket(t) else t
  }

  function Step(s: State, e: Event): State {
    match e
    case Connect(ready) => OnConnect(s, ready)
    case Dispose => OnDispose(s)
    case Call(ready) => OnCall(s, ready)
    case CallTimesOut(id) => s.(calls := TimeOut(s.calls, id))
    case SocketOpened(g) => OnOpened(s, g)
    case SocketMessage(g, reply) => OnMessage(s, g, reply)
    case SocketClosed(g, code) => OnClosed(s, g, code)
    case TimerFires(timer) => OnTimer(s, timer)
  }

  function Run(s: State, events: seq<Event>): State
    decreases events
  {
    if events == [] then s else Run(Step(s, events[0]), events[1..])
  }

  // ---- Each call is settled at most once ------------------------------------------------------

  /** Every id issued so far is pending once or settled once, and no other id is either; exactly
      the pending calls have a timeout running. */
  ghost predicate CallsOk(c: Calls) {
    && (forall id :: multiset(c.pending)[id] + multiset(IdsOf(c.settled))[id]
                     == if 1 <= id < c.nextId then 1 else 0)
    && (forall id :: id in c.timeouts <==> id in c.pending)
    && c.nextId >= 1
  }

  lemma {:induction false} DroppedOnce(pending: seq<nat>, id: nat)
    requires id in pending
    ensures multiset(pending) == multiset(Dropped(pending, id)) + multiset{id}
  {
    assert pending == [pending[0]] + pending[1..];
    if pending[0] != id {
      DroppedOnce(pending[1..], id);
    }
  }

  lemma {:induction false} SettleKeeps(c: Calls, id: nat, cause: Cause)
    requires CallsOk(c)
    ensures CallsOk(Settle(c, id, cause))
  {
    if id in c.pending {
      var left := Dropped(c.pending, id);
      DroppedOnce(c.pending, id);
      assert IdsOf(c.settled + [Settlement(id, cause)]) == IdsOf(c.settled) + [id];
      MultisetConcat(IdsOf(c.settled), [id]);
      assert multiset(c.pending)[id] == 1;
      forall x
        ensures x in left <==> x in c.pending && x != id
      {
        assert x in left <==> x in multiset(left);
        assert x in c.pending <==> x in multiset(c.pending);
      }
    }
  }

  lemma {:induction false} RejectKeeps(c: Calls)
    requires CallsOk(c)
    ensures CallsOk(RejectAll(c))
  {
    assert IdsOf(c.settled + Losses(c.pending)) == IdsOf(c.settled) + c.pending;
    MultisetConcat(IdsOf(c.settled), c.pending);
  }

  // ---- Delays ---------------------------------------------------------------------------------

  function Pow2(k: nat): nat { if k == 0 then 1 else 2 * Pow2(k - 1) }

  /** The delay after `k` reconnects scheduled since the last reset. */
  function Backoff(k: nat): nat { Min(INITIAL_RECONNECT_DELAY * Pow2(k), MAX_RECONNECT_DELAY) }

  function Total(waits: seq<nat>): nat {
    if waits == [] then 0 else Total(waits[..|waits| - 1]) + waits[|waits| - 1]
  }

  ghost predicate RetryOk(r: Retry) {
    && r.running == (if r.timer.Some? then {r.timer.value} else {})
    && (r.timer.Some? ==> r.timer.value < r.nextTimer)
    && r.attempts <= MAX_RECONNECT_ATTEMPTS
    && (r.exceeded <==> r.attempts == MAX_RECONNECT_ATTEMPTS)
    && |r.waits| == Min(r.attempts, MAX_RECONNECT_ATTEMPTS - 1)
    && r.delay == Backoff(|r.waits|)
    && forall i :: 0 <= i < |r.waits| ==> r.waits[i] == Backoff(i)
  }

  /** All the waiting between two resets. */
  lemma {:induction false} TotalWaiting(waits: seq<nat>)
    requires |waits| <= MAX_RECONNECT_ATTEMPTS - 1
    requires forall i :: 0 <= i < |waits| ==> waits[i] == Backoff(i)
    ensures Total(waits) == match |waits|
                            case 0 => 0
                            case 1 => 1000
                            case 2 => 3000
                            case 3 => 7000
                            case 4 => 15000
                            case 5 => 31000
                            case 6 => 61000
                            case _ => 91000
  {
    if waits != [] {
      var k := |waits| - 1;
      TotalWaiting(waits[..k]);
    }
  }

  // ---- What every event keeps -----------------------------------------------------------------

  ghost predicate OpeningOk(o: Opening) {
    && (o.unsettled ==> o.held.Some?)
    && (o.held.Some? ==>
          o.held.value < |o.promises|
          && o.promises[o.held.value] == if o.unsettled then Waiting else Resolved)
    && forall i :: 0 <= i < |o.promises| && o.held != Some(i) ==> o.promises[i] != Waiting
  }

  ghost predicate Inv(s: State) {
    && CallsOk(s.calls)
    && RetryOk(s.retry)
    && OpeningOk(s.opening)
    && (s.link.ws.Some? ==> s.link.ws.value == s.link.generation)
    && (s.retry.timer.Some? ==> s.link.ws.None?)
    && (s.retry.exceeded ==> !s.link.shouldReconnect)
    && (s.link.disposed ==> Released(s))
  }

  /** Nothing is pending, no timer runs, no socket is held and nobody waits to be connected. */
  ghost predicate Released(s: State) {
    && s.link.disposed && !s.link.shouldReconnect
    && s.calls.pending == [] && s.retry.timer.None? && s.link.ws.None? && !s.opening.unsettled
    && s.link.status == Disconnected
  }

  lemma {:induction false} RetryKept(r: Retry)
    requires RetryOk(r)
    ensures RetryOk(ClearTimer(r)) && RetryOk(Reset(r))
    ensures r.attempts + 1 < MAX_RECONNECT_ATTEMPTS ==> RetryOk(Schedule(r.(attempts := r.attempts + 1)))
    ensures r.attempts + 1 == MAX_RECONNECT_ATTEMPTS
            ==> RetryOk(ClearTimer(r.(attempts := r.attempts + 1, exceeded := true)))
  {
  }

  lemma {:induction false} OpeningKept(o: Opening)
    requires OpeningOk(o)
    ensures OpeningOk(Promised(o)) && OpeningOk(Resolve(o)) && OpeningOk(Reject(o))
    ensures OpeningOk(Resolve(Promised(o)))
  {
  }

  lemma {:induction false} ConnectKeepsInv(s: State, ready: ReadyState)
    requires Inv(s)
    ensures Inv(OnConnect(s, ready))
  {
    RetryKept(s.retry);
    RetryKept(Reset(s.retry));
    OpeningKept(s.opening);
  }

  lemma {:induction false} DisposeKeepsInv(s: State)
    requires Inv(s)
    ensures Inv(OnDispose(s))
  {
    RetryKept(s.retry);
    OpeningKept(s.opening);
    RejectKeeps(s.calls);
  }

  lemma {:induction false} ClosedKeepsInv(s: State, generation: nat, code: nat)
    requires Inv(s)
    ensures Inv(OnClosed(s, generation, code))
  {
    RetryKept(s.retry);
    OpeningKept(s.opening);
    RejectKeeps(s.calls);
  }

  lemma {:induction false} CallKeepsInv(s: State, ready: ReadyState)
    requires Inv(s)
    ensures Inv(OnCall(s, ready))
  {
  }

  lemma {:induction false} TimeOutKeepsInv(s: State, id: nat)
    requires Inv(s)
    ensures Inv(s.(calls := TimeOut(s.calls, id)))
  {
    SettleKeeps(s.calls, id, TimedOut);
  }

  lemma {:induction false} MessageKeepsInv(s: State, g: nat, reply: Option<nat>)
    requires Inv(s)
    ensures Inv(OnMessage(s, g, reply))
  {
    if reply.Some? {
      SettleKeeps(s.calls, reply.value, Reply);
    }
  }

  lemma {:induction false} StepKeepsInv(s: State, e: Event)
    requires Inv(s)
    ensures Inv(Step(s, e))
  {
    match e
    case Connect(ready) => ConnectKeepsInv(s, ready);
    case Dispose => DisposeKeepsInv(s);
    case Call(ready) => CallKeepsInv(s, ready);
    case CallTimesOut(id) => TimeOutKeepsInv(s, id);
    case SocketOpened(g) =>
    case SocketMessage(g, reply) => MessageKeepsInv(s, g, reply);
    case SocketClosed(g, code) => ClosedKeepsInv(s, g, code);
    case TimerFires(timer) =>
  }

  /** Settlements are final and generations only grow. */
  lemma {:induction false} StepGrows(s: State, e: Event)
    ensures s.calls.settled <= Step(s, e).calls.settled
    ensures s.link.generation <= Step(s, e).link.generation
  {
  }

  lemma {:induction false} RunKeepsInv(s: State, events: seq<Event>)
    requires Inv(s)
    ensures Inv(Run(s, events))
    ensures s.calls.settled <= Run(s, events).calls.settled
    decreases events
  {
    if events != [] {
      StepKeepsInv(s, events[0]);
      StepGrows(s, events[0]);
      RunKeepsInv(Step(s, events[0]), events[1..]);
    }
  }

  // ---- Over every sequence of events ----------------------------------------------------------

  lemma {:induction false} NoneTwice(c: Calls)
    requires CallsOk(c)
    ensures forall i, j :: 0 <= i < j < |c.settled| ==> c.settled[i].id != c.settled[j].id
    ensures forall id :: 1 <= id < c.nextId
                         <==> id in c.pending || exists i :: 0 <= i < |c.settled| && c.settled[i].id == id
    ensures forall i :: 0 <= i < |c.settled| ==> c.settled[i].id !in c.pending
  {
    var ids := IdsOf(c.settled);
    forall i, j | 0 <= i < j < |ids|
      ensures ids[i] != ids[j]
    {
      var before := ids[..j];
      assert ids[i] == before[i] && ids[i] in multiset(before);
      assert ids == before + [ids[j]] + ids[j + 1..];
      assert multiset(ids) == multiset(before) + multiset{ids[j]} + multiset(ids[j + 1..]);
      assert multiset(ids)[ids[i]] <= 1;
    }
    forall id
      ensures id in ids <==> exists i :: 0 <= i < |c.settled| && c.settled[i].id == id
    {
      if id in ids {
        var i :| 0 <= i < |ids| && ids[i] == id;
        assert c.settled[i].id == id;
      }
    }
    forall id
      ensures (id in ids <==> id in multiset(ids)) && (id in c.pending <==> id in multiset(c.pending))
    {
    }
    forall i | 0 <= i < |c.settled|
      ensures c.settled[i].id !in c.pending
    {
      assert ids[i] in multiset(ids);
    }
  }

  /** Each call is settled at most once, and until then it is pending; at most one reconnect timer
      runs, and only while no socket is held; attempts and delays stay within their bounds. */
  lemma {:induction false} EveryRunIsSafe(events: seq<Event>)
    ensures var s := Run(FRESH, events);
            && (forall i, j :: 0 <= i < j < |s.calls.settled|
                               ==> s.calls.settled[i].id != s.calls.settled[j].id)
            && (forall i :: 0 <= i < |s.calls.settled| ==> s.calls.settled[i].id !in s.calls.pending)
            && (forall id :: id in s.calls.timeouts <==> id in s.calls.pending)
            && |s.retry.running| <= 1 && (s.link.ws.Some? ==> s.retry.running == {})
            && s.retry.attempts <= MAX_RECONNECT_ATTEMPTS
            && (s.retry.attempts == MAX_RECONNECT_ATTEMPTS ==> !s.link.shouldReconnect)
            && s.retry.delay == Backoff(|s.retry.waits|)
            && Total(s.retry.waits) <= 91000
  {
    assert IdsOf([]) == [];
    assert Pow2(0) == 1;
    RunKeepsInv(FRESH, events);
    var s := Run(FRESH, events);
    NoneTwice(s.calls);
    TotalWaiting(s.retry.waits);
  }

  lemma {:induction false} DisposedStep(s: State, e: Event)
    requires Inv(s) && s.link.disposed
    ensures Step(s, e).link.disposed && Step(s, e).link.sockets == s.link.sockets
    ensures Step(s, e).calls == s.calls
  {
  }

  /** Once disposed, nothing is ever pending or running again and no socket opens. */
  lemma {:induction false} DisposedForGood(s: State, events: seq<Event>)
    requires Inv(s) && s.link.disposed
    ensures Released(Run(s, events)) && Run(s, events).retry.running == {}
    ensures Run(s, events).link.sockets == s.link.sockets
    ensures Run(s, events).calls == s.calls
    decreases events
  {
    if events != [] {
      StepKeepsInv(s, events[0]);
      DisposedStep(s, events[0]);
      DisposedForGood(Step(s, events[0]), events[1..]);
    }
  }

  function From(e: Event): Option<nat> {
    match e
    case SocketOpened(g) => Some(g)
    case SocketMessage(g, _) => Some(g)
    case SocketClosed(g, _) => Some(g)
    case _ => None
  }

  function NotFrom(g: nat): Event -> bool { e => From(e) != Some(g) }

  /** A socket that was replaced can say what it likes, at any time: the run is the same without
      it. */
  lemma {:induction false} ReplacedSocketsDoNotMatter(s: State, events: seq<Event>, g: nat)
    requires g < s.link.generation
    ensures Run(s, Filter(events, NotFrom(g))) == Run(s, events)
    decreases events
  {
    if events != [] {
      var e, later := events[0], events[1..];
      StepGrows(s, e);
      ReplacedSocketsDoNotMatter(Step(s, e), later, g);
      if NotFrom(g)(e) {
        var kept := Filter(events, NotFrom(g));
        assert kept == [e] + Filter(later, NotFrom(g));
        assert kept[0] == e && kept[1..] == Filter(later, NotFrom(g));
      } else {
        assert Filter(events, NotFrom(g)) == Filter(later, NotFrom(g));
        assert Step(s, e) == s;
      }
    }
  }

  /** A reply settles the call that it names, if that call waits and the socket is the current one,
      and touches no other call. */
  lemma {:induction false} ReplySettlesItsCall(s: State, g: nat, id: nat)
    requires Inv(s)
    ensures var t := Step(s, SocketMessage(g, Some(id)));
            && t.calls.settled == s.calls.settled
                 + (if g == s.link.generation && id in s.calls.pending then [Settlement(id, Reply)] else [])
            && (forall other :: other != id ==> (other in t.calls.pending <==> other in s.calls.pending))
            && (g == s.link.generation ==> id !in t.calls.pending)
  {
    if g == s.link.generation {
      SettleKeeps(s.calls, id, Reply);
      if id in s.calls.pending {
        DroppedOnce(s.calls.pending, id);
        var left := Dropped(s.calls.pending, id);
        assert multiset(s.calls.pending)[id] == 1;
        forall other
          ensures other in left <==> other in s.calls.pending && other != id
        {
          assert other in left <==> other in multiset(left);
          assert other in s.calls.pending <==> other in multiset(s.calls.pending);
        }
      }
    }
  }

  lemma {:induction false} ResolvedStep(s: State, e: Event)
    requires OpeningOk(s.opening) && s.opening.held.Some? && !s.opening.unsettled
    ensures Step(s, e).opening == s.opening
  {
  }

  /** Once the first promise of `connect` is resolved it is never replaced: every later `connect`
      returns that same resolved promise, also after the connection was lost, while it is being
      retried, and after the attempts ran out. */
  lemma {:induction false} ResolvedPromiseIsKept(s: State, events: seq<Event>)
    requires Inv(s) && s.opening.held.Some? && !s.opening.unsettled
    ensures Run(s, events).opening == s.opening
    decreases events
  {
    if events != [] {
      StepKeepsInv(s, events[0]);
      ResolvedStep(s, events[0]);
      ResolvedPromiseIsKept(Step(s, events[0]), events[1..]);
    }
  }

  /** The promise that `connect` returns is resolved by the time it returns. */
  predicate ReturnsResolved(s: State, ready: ReadyState) {
    var o := OnConnect(s, ready).opening;
    o.held.Some? && o.held.value < |o.promises| && o.promises[o.held.value] == Resolved
  }

  /** The socket is open, as the browser tells. */
  predicate IsOpen(s: State, ready: ReadyState) { s.link.ws.Some? && ready == OPEN }

  predicate ResolvedBefore(s: State) { s.opening.held.Some? && !s.opening.unsettled }

  /** `connect` returns a resolved promise exactly when an earlier one was resolved or the socket is
      open. So a resolved promise tells the truth about the socket exactly when none was resolved
      before or the socket is open; after the first connection it says nothing any more. */
  lemma {:induction false} ConnectIsTruthfulExactlyWhen(s: State, ready: ReadyState)
    requires Inv(s) && !s.link.disposed
    ensures ReturnsResolved(s, ready) <==> ResolvedBefore(s) || IsOpen(s, ready)
    ensures (ReturnsResolved(s, ready) ==> IsOpen(s, ready))
            <==> !ResolvedBefore(s) || IsOpen(s, ready)
  {
    OpeningKept(s.opening);
    OpeningKept(Promised(s.opening));
    var o := Promised(s.opening);
    assert o.held.Some? && (o.unsettled <==> !ResolvedBefore(s));
  }

  /** After any run in which a socket opened for a waiting `connect` and, at whatever later time, is
      lost for whatever reason, the next `connect` returns a resolved promise while it is only
      opening a new socket. */
  lemma {:induction false} ConnectCanResolveWhileClosed(
    s: State, between: seq<Event>, code: nat, ready: ReadyState)
    requires Inv(s) && s.opening.held.Some? && !s.link.disposed
    ensures var t := Run(Step(s, SocketOpened(s.link.generation)), between);
            var lost := Step(t, SocketClosed(t.link.generation, code));
            !lost.link.disposed ==>
              && lost.link.ws.None? && ReturnsResolved(lost, ready) && !IsOpen(lost, ready)
              && OnConnect(lost, ready).link.status == Reconnecting
  {
    var u := Step(s, SocketOpened(s.link.generation));
    StepKeepsInv(s, SocketOpened(s.link.generation));
    RunKeepsInv(u, between);
    ResolvedPromiseIsKept(u, between);
    LostAfterResolved(Run(u, between), code, ready);
  }

  lemma {:induction false} LostAfterResolved(t: State, code: nat, ready: ReadyState)
    requires Inv(t) && ResolvedBefore(t)
    ensures var lost := Step(t, SocketClosed(t.link.generation, code));
            !lost.link.disposed ==>
              && lost.link.ws.None? && ReturnsResolved(lost, ready) && !IsOpen(lost, ready)
              && OnConnect(lost, ready).link.status == Reconnecting
  {
    var e := SocketClosed(t.link.generation, code);
    StepKeepsInv(t, e);
    ResolvedStep(t, e);
    var lost := Step(t, e);
    if !lost.link.disposed {
      ConnectIsTruthfulExactlyWhen(lost, ready);
    }
  }

  // ---- The client -----------------------------------------------------------------------------

  class WsClient {
    var ws: Option<nat>
    var nextId: nat
    var pending: seq<nat>
    var reconnectTimer: Option<nat>
    var reconnectDelayMs: nat
    var reconnectAttempts: nat
    var openPromise: Option<nat>
    var openSettlers: bool
    var generation: nat
    var disposed: bool
    var shouldReconnect: bool
    var reconnectLimitExceeded: bool
    var status: Status

    // The browser's side: timeouts and timers that run, promises and their outcomes.
    var timeouts: set<nat>
    var settled: seq<Settlement>
    var nextTimer: nat
    var timers: set<nat>
    var waits: seq<nat>
    var promises: seq<Promise>
    var sockets: nat

    ghost function CallsNow(): Calls
      reads this`nextId, this`pending, this`timeouts, this`settled
    {
      Calls(nextId, pending, timeouts, settled)
    }

    ghost function RetryNow(): Retry
      reads this`reconnectTimer, this`nextTimer, this`timers, this`reconnectDelayMs,
            this`reconnectAttempts, this`reconnectLimitExceeded, this`waits
    {
      Retry(reconnectTimer, nextTimer, timers, reconnectDelayMs, reconnectAttempts,
            reconnectLimitExceeded, waits)
    }

    ghost function OpeningNow(): Opening
      reads this`openPromise, this`openSettlers, this`promises
    {
      Opening(openPromise, openSettlers, promises)
    }

    ghost function LinkNow(): Link
      reads this`ws, this`generation, this`sockets, this`disposed, this`shouldReconnect, this`status
    {
      Link(ws, generation, sockets, disposed, shouldReconnect, status)
    }

    ghost function Now(): State
      reads this
    {
      State(CallsNow(), RetryNow(), OpeningNow(), LinkNow())
    }

    constructor ()
      ensures Now() == FRESH
    {
      ws, nextId, pending, reconnectTimer := None, 1, [], None;
      reconnectDelayMs, reconnectAttempts := INITIAL_RECONNECT_DELAY, 0;
      openPromise, openSettlers, generation := None, false, 0;
      disposed, shouldReconnect, reconnectLimitExceeded, status := false, true, false, Disconnected;
      timeouts, settled, nextTimer, timers, waits, promises, sockets := {}, [], 0, {}, [], [], 0;
    }

    method ClearReconnectTimer()
      modifies this
      ensures Now() == old(Now()).(retry := ClearTimer(old(RetryNow())))
    {
      if reconnectTimer.Some? {
        timers := timers - {reconnectTimer.value};
        reconnectTimer := None;
      }
    }

    method ResetReconnectState()
      modifies this
      ensures Now() == old(Now()).(retry := Reset(old(RetryNow())))
    {
      ClearReconnectTimer();
      reconnectDelayMs := INITIAL_RECONNECT_DELAY;
      reconnectAttempts := 0;
      reconnectLimitExceeded := false;
      waits := [];
    }

    method ScheduleReconnect()
      modifies this
      ensures Now() == old(Now()).(retry := Schedule(old(RetryNow())))
    {
      ClearReconnectTimer();
      waits := waits + [reconnectDelayMs];
      reconnectTimer := Some(nextTimer);
      timers := timers + {nextTimer};
      nextTimer := nextTimer + 1;
      reconnectDelayMs := Min(reconnectDelayMs * 2, MAX_RECONNECT_DELAY);
    }

    method RejectPending()
      modifies this`pending, this`timeouts, this`settled
      ensures Now() == old(Now()).(calls := RejectAll(old(CallsNow())))
    {
      var n := 0;
      while n < |pending|
        invariant n <= |pending| && pending == old(pending)
        invariant settled == old(settled) + Losses(pending[..n])
        invariant timeouts == old(timeouts) - (set id | id in pending[..n])
      {
        assert pending[..n + 1] == pending[..n] + [pending[n]];
        timeouts := timeouts - {pending[n]};
        settled := settled + [Settlement(pending[n], Lost)];
        n := n + 1;
      }
      assert pending[..n] == pending;
      pending := [];
    }

    method RemovePending(id: nat)
      modifies this`pending
      ensures Now() == old(Now()).(calls := old(CallsNow()).(pending := Dropped(old(pending), id)))
    {
      var n := 0;
      while n < |pending| && pending[n] != id
        invariant n <= |pending| && Dropped(pending, id) == pending[..n] + Dropped(pending[n..], id)
      {
        n := n + 1;
      }
      if n < |pending| {
        assert Dropped(pending[n..], id) == pending[n + 1..];
        pending := pending[..n] + pending[n + 1..];
      } else {
        assert pending[n..] == [] && pending[..n] == pending;
      }
    }

    /** A pending call gets its outcome and waits for no timeout any more. */
    method SettleCall(id: nat, cause: Cause)
      requires id in pending
      modifies this`pending, this`timeouts, this`settled
      ensures Now() == old(Now()).(calls := Settle(old(CallsNow()), id, cause))
    {
      RemovePending(id);
      timeouts := timeouts - {id};
      settled := settled + [Settlement(id, cause)];
    }

    method ResolveOpenPromise()
      requires Settleable(OpeningNow())
      modifies this
      ensures Now() == old(Now()).(opening := Resolve(old(OpeningNow())))
    {
      if openSettlers {
        promises := promises[openPromise.value := Resolved];
        openSettlers := false;
      }
    }

    method RejectOpenPromise()
      requires Settleable(OpeningNow())
      modifies this
      ensures Now() == old(Now()).(opening := Reject(old(OpeningNow())))
    {
      if openSettlers {
        promises := promises[openPromise.value := Rejected];
        openSettlers, openPromise := false, None;
      }
    }

    method OpenSocketNow()
      modifies this
      ensures Now() == OpenSocket(old(Now()))
    {
      if disposed {
        return;
      }
      ClearReconnectTimer();
      status := Reconnecting;
      sockets := sockets + 1;
      generation := generation + 1;
      ws := Some(generation);
    }

    method Prepare()
      modifies this
      ensures Now() == Prepared(old(Now()))
    {
      shouldReconnect := true;
      if reconnectLimitExceeded {
        ResetReconnectState();
      }
      if openPromise.None? {
        openPromise, openSettlers := Some(|promises|), true;
        promises := promises + [Waiting];
      }
    }

    method Abandon()
      requires Settleable(OpeningNow())
      modifies this
      ensures Now() == Abandoned(old(Now()))
    {
      RejectOpenPromise();
      RejectPending();
      status := Disconnected;
    }

    method Unplug()
      modifies this`ws, this`generation
      ensures Now() == Unplugged(old(Now()))
    {
      if ws.Some? {
        generation := generation + 1;
        ws := None;
      }
    }

    /** The promise that is returned, unless the client was disposed and a rejected one is. */
    method Connect(ready: ReadyState) returns (promise: Option<nat>)
      requires Settleable(OpeningNow())
      modifies this
      ensures Now() == OnConnect(old(Now()), ready)
      ensures promise == if old(disposed) then None else openPromise
      ensures !old(disposed) ==> promise.Some?
    {
      if disposed {
        return None;
      }
      Prepare();
      if ws.None? || ready == CLOSED {
        OpenSocketNow();
      } else if ready == CONNECTING {
        status := Reconnecting;
      } else if ready == OPEN {
        status := Connected;
        ResolveOpenPromise();
      }
      promise := openPromise;
    }

    method Dispose()
      requires Settleable(OpeningNow())
      modifies this
      ensures Now() == OnDispose(old(Now()))
    {
      disposed := true;
      shouldReconnect := false;
      ClearReconnectTimer();
      assert Now() == Stopped(old(Now()));
      Abandon();
      Unplug();
    }

    /** The id sent, or none when the call is rejected at once. */
    method Call(ready: ReadyState) returns (id: Option<nat>)
      requires Inv(Now())
      modifies this
      ensures Now() == OnCall(old(Now()), ready) && Inv(Now())
      ensures id == if ws.Some? && ready == OPEN then Some(old(nextId)) else None
      ensures id.Some? ==> id.value !in old(pending) && id.value !in IdsOf(settled)
    {
      CallKeepsInv(Now(), ready);
      if ws.None? || ready != OPEN {
        return None;
      }
      assert nextId !in multiset(pending) && nextId !in multiset(IdsOf(settled));
      id := Some(nextId);
      nextId := nextId + 1;
      timeouts := timeouts + {id.value};
      pending := pending + [id.value];
    }

    method CallTimesOut(id: nat)
      requires Inv(Now()) && id in timeouts
      modifies this
      ensures Now() == old(Now()).(calls := TimeOut(old(CallsNow()), id)) && Inv(Now())
    {
      TimeOutKeepsInv(Now(), id);
      timeouts := timeouts - {id};
      if id !in pending {
        return;
      }
      SettleCall(id, TimedOut);
    }

    method SocketOpened(current: nat)
      requires Settleable(OpeningNow())
      modifies this
      ensures Now() == OnOpened(old(Now()), current)
    {
      if current != generation || disposed {
        return;
      }
      ResetReconnectState();
      status := Connected;
      ResolveOpenPromise();
    }

    method SocketMessage(current: nat, reply: Option<nat>)
      requires Inv(Now())
      modifies this
      ensures Now() == OnMessage(old(Now()), current, reply) && Inv(Now())
    {
      MessageKeepsInv(Now(), current, reply);
      if current != generation || reply.None? {
        return;
      }
      if reply.value !in pending {
        return;
      }
      SettleCall(reply.value, Reply);
    }

    method SocketClosed(current: nat, code: nat)
      requires Settleable(OpeningNow())
      modifies this
      ensures Now() == OnClosed(old(Now()), current, code)
    {
      if current != generation {
        return;
      }
      ws := None;
      if code == 4401 || code == 4403 {
        shouldReconnect := false;
        ResetReconnectState();
        Abandon();
        return;
      }
      RejectPending();
      if disposed || !shouldReconnect {
        status := Disconnected;
        return;
      }
      RetryOrGiveUp();
    }

    method GiveUp()
      requires Settleable(OpeningNow())
      modifies this
      ensures Now() == GaveUp(old(Now()))
    {
      shouldReconnect := false;
      reconnectLimitExceeded := true;
      ClearReconnectTimer();
      RejectOpenPromise();
      status := Disconnected;
    }

    method RetryOrGiveUp()
      requires Settleable(OpeningNow())
      modifies this
      ensures Now() == Retried(old(Now()))
    {
      reconnectAttempts := reconnectAttempts + 1;
      if reconnectAttempts >= MAX_RECONNECT_ATTEMPTS {
        GiveUp();
        return;
      }
      status := Reconnecting;
      ScheduleReconnect();
    }

    method TimerFires(timer: nat)
      requires Inv(Now()) && timer in timers
      modifies this
      ensures Now() == OnTimer(old(Now()), timer) && Inv(Now())
    {
      timers := timers - {timer};
      reconnectTimer := None;
      if !disposed && shouldReconnect {
        OpenSocketNow();
      }
    }
  }
}
