/** The event bus (qi_agent/events.py): listeners by priority, rewriting in a waterfall, and the
    first decision of a bail. */
module Events {
  import opened Basics

  /** A registered handler; larger priorities run first. */
  datatype Listener = Listener(handler: nat, priority: int)

  function Of(priority: int): Listener -> bool { (l: Listener) => l.priority == priority }

  predicate Descending(ls: seq<Listener>) {
    |ls| <= 1 || (ls[0].priority >= ls[1].priority && Descending(ls[1..]))
  }

  lemma {:induction false} HeadIsHighest(ls: seq<Listener>)
    requires Descending(ls)
    ensures forall l :: l in ls ==> ls[0].priority >= l.priority
  {
    if |ls| > 1 {
      HeadIsHighest(ls[1..]);
    }
  }

  /** After every listener of the same or a larger priority. */
  function Inserted(ls: seq<Listener>, l: Listener): seq<Listener> {
    if ls == [] || ls[0].priority < l.priority then [l] + ls else [ls[0]] + Inserted(ls[1..], l)
  }

  /** What a stable sort by falling priority makes of a registration order. */
  function Sorted(ls: seq<Listener>): seq<Listener> {
    if ls == [] then [] else Inserted(Sorted(ls[..|ls| - 1]), ls[|ls| - 1])
  }

  // ---- The order of the listeners -------------------------------------------------------------

  lemma {:induction false} InsertedOrder(ls: seq<Listener>, l: Listener)
    requires Descending(ls)
    ensures Descending(Inserted(ls, l))
    ensures multiset(Inserted(ls, l)) == multiset(ls) + multiset{l}
  {
    if ls != [] && ls[0].priority >= l.priority {
      var head, rest := ls[0], Inserted(ls[1..], l);
      InsertedOrder(ls[1..], l);
      assert ls == [head] + ls[1..];
      assert ([head] + rest)[1..] == rest;
    } else {
      assert ([l] + ls)[1..] == ls;
    }
  }

  lemma {:induction false} InsertedHere(ls: seq<Listener>, l: Listener, p: int)
    requires Descending(ls) && (ls == [] || ls[0].priority < l.priority)
    ensures Filter([l] + ls, Of(p)) == Filter(ls, Of(p)) + if l.priority == p then [l] else []
  {
    HeadIsHighest(ls);
    if l.priority == p {
      FilterNone(ls, Of(p));
    } else {
      assert Filter(ls, Of(p)) + [] == Filter(ls, Of(p)) == [] + Filter(ls, Of(p));
    }
  }

  lemma {:induction false} InsertedFilter(ls: seq<Listener>, l: Listener, p: int)
    requires Descending(ls)
    ensures Filter(Inserted(ls, l), Of(p)) == Filter(ls, Of(p)) + if l.priority == p then [l] else []
  {
    if ls == [] || ls[0].priority < l.priority {
      InsertedHere(ls, l, p);
    } else {
      var tail := ls[1..];
      InsertedFilter(tail, l, p);
      assert ls == [ls[0]] + tail;
      var head := if ls[0].priority == p then [ls[0]] else [];
      var last := if l.priority == p then [l] else [];
      assert head + (Filter(tail, Of(p)) + last) == (head + Filter(tail, Of(p))) + last;
    }
  }

  lemma {:induction false} FilterSnoc(ls: seq<Listener>, l: Listener, p: int)
    ensures Filter(ls + [l], Of(p)) == Filter(ls, Of(p)) + if l.priority == p then [l] else []
  {
    FilterConcat(ls, [l], Of(p));
    assert [l] + [] == [l];
  }

  /** Two lists hold the same listeners of each priority, in the same order. */
  ghost predicate SameWithinPriorities(a: seq<Listener>, b: seq<Listener>) {
    forall p :: Filter(a, Of(p)) == Filter(b, Of(p))
  }

  lemma {:induction false} SortedOrder(ls: seq<Listener>)
    ensures Descending(Sorted(ls)) && multiset(Sorted(ls)) == multiset(ls)
  {
    if ls != [] {
      var init, l := ls[..|ls| - 1], ls[|ls| - 1];
      SortedOrder(init);
      InsertedOrder(Sorted(init), l);
      LastApart(ls);
      assert Sorted(ls) == Inserted(Sorted(init), l);
    }
  }

  lemma {:induction false} LastApart(ls: seq<Listener>)
    requires ls != []
    ensures multiset(ls) == multiset(ls[..|ls| - 1]) + multiset{ls[|ls| - 1]}
  {
    assert ls == ls[..|ls| - 1] + [ls[|ls| - 1]];
  }

  lemma {:induction false} FilterLast(ls: seq<Listener>, p: int)
    requires ls != []
    ensures var l := ls[|ls| - 1];
            Filter(ls, Of(p)) == Filter(ls[..|ls| - 1], Of(p)) + if l.priority == p then [l] else []
  {
    FilterSnoc(ls[..|ls| - 1], ls[|ls| - 1], p);
    assert ls == ls[..|ls| - 1] + [ls[|ls| - 1]];
  }

  lemma {:induction false} SortedFilter(ls: seq<Listener>, p: int)
    ensures Filter(Sorted(ls), Of(p)) == Filter(ls, Of(p))
  {
    if ls != [] {
      var init, l := ls[..|ls| - 1], ls[|ls| - 1];
      SortedFilter(init, p);
      FilterLast(ls, p);
      SortedOrder(init);
      var sorted := Sorted(init);
      InsertedFilter(sorted, l, p);
      assert Sorted(ls) == Inserted(sorted, l);
    }
  }

  /** The order is by falling priority, and among listeners of one priority by registration. */
  lemma {:induction false} SortedIsStable(ls: seq<Listener>)
    ensures Descending(Sorted(ls)) && multiset(Sorted(ls)) == multiset(ls)
    ensures SameWithinPriorities(Sorted(ls), ls)
  {
    SortedOrder(ls);
    forall p
      ensures Filter(Sorted(ls), Of(p)) == Filter(ls, Of(p))
    {
      SortedFilter(ls, p);
    }
  }

  lemma {:induction false} HeadsAgree(a: seq<Listener>, b: seq<Listener>)
    requires a != [] && b != [] && Descending(a) && Descending(b) && SameWithinPriorities(a, b)
    ensures a[0] == b[0]
  {
    HeadIsHighest(a);
    HeadIsHighest(b);
    var p, q := a[0].priority, b[0].priority;
    FilterHolds(b, Of(p));
    FilterHolds(a, Of(q));
    assert a[0] == Filter(a, Of(p))[0] && Filter(a, Of(p)) == Filter(b, Of(p));
    assert b[0] == Filter(b, Of(q))[0] && Filter(a, Of(q)) == Filter(b, Of(q));
    assert a[0] in b && b[0] in a;
  }

  lemma {:induction false} TailsAgree(x: Listener, a: seq<Listener>, b: seq<Listener>, p: int)
    requires Filter([x] + a, Of(p)) == Filter([x] + b, Of(p))
    ensures Filter(a, Of(p)) == Filter(b, Of(p))
  {
    var head := if x.priority == p then [x] else [];
    assert (head + Filter(a, Of(p)))[|head|..] == Filter(a, Of(p));
    assert (head + Filter(b, Of(p)))[|head|..] == Filter(b, Of(p));
  }

  /** No other order is by falling priority and keeps each priority's registrations in order. */
  lemma {:induction false} OrderIsUnique(a: seq<Listener>, b: seq<Listener>)
    requires Descending(a) && Descending(b) && SameWithinPriorities(a, b)
    ensures a == b
  {
    if a == [] || b == [] {
      EmptyTogether(a, b);
    } else {
      HeadsAgree(a, b);
      assert a == [a[0]] + a[1..] && b == [a[0]] + b[1..];
      forall p
        ensures Filter(a[1..], Of(p)) == Filter(b[1..], Of(p))
      {
        assert Filter(a, Of(p)) == Filter(b, Of(p));
        TailsAgree(a[0], a[1..], b[1..], p);
      }
      OrderIsUnique(a[1..], b[1..]);
    }
  }

  lemma {:induction false} EmptyTogether(a: seq<Listener>, b: seq<Listener>)
    requires SameWithinPriorities(a, b)
    ensures a == [] <==> b == []
  {
    var p := if a != [] then a[0].priority else if b != [] then b[0].priority else 0;
    assert Filter(a, Of(p)) == Filter(b, Of(p));
  }

  /** Plugins of different priorities can be registered in any order: two registration orders that
      agree on each priority, and no others, give the same listeners. */
  lemma {:induction false} RegistrationOrderWithinPriorities(a: seq<Listener>, b: seq<Listener>)
    ensures Sorted(a) == Sorted(b) <==> SameWithinPriorities(a, b)
  {
    SortedIsStable(a);
    SortedIsStable(b);
    if SameWithinPriorities(a, b) {
      SameThroughSorting(a, b);
    } else {
      var p :| Filter(a, Of(p)) != Filter(b, Of(p));
      assert Filter(Sorted(a), Of(p)) == Filter(a, Of(p));
      assert Filter(Sorted(b), Of(p)) == Filter(b, Of(p));
    }
  }

  lemma {:induction false} SameThroughSorting(a: seq<Listener>, b: seq<Listener>)
    requires SameWithinPriorities(a, b)
    ensures Sorted(a) == Sorted(b)
  {
    SortedIsStable(a);
    SortedIsStable(b);
    forall p
      ensures Filter(Sorted(a), Of(p)) == Filter(Sorted(b), Of(p))
    {
      assert Filter(Sorted(a), Of(p)) == Filter(a, Of(p));
      assert Filter(Sorted(b), Of(p)) == Filter(b, Of(p));
    }
    OrderIsUnique(Sorted(a), Sorted(b));
  }

  /** Sorting again after each registration, as the bus does, is sorting once at the end. */
  lemma {:induction false} SortedAgain(ls: seq<Listener>, l: Listener)
    ensures Sorted(Sorted(ls) + [l]) == Sorted(ls + [l])
  {
    SortedIsStable(ls);
    forall p
      ensures Filter(Sorted(ls) + [l], Of(p)) == Filter(ls + [l], Of(p))
    {
      FilterSnoc(Sorted(ls), l, p);
      FilterSnoc(ls, l, p);
    }
    SameThroughSorting(Sorted(ls) + [l], ls + [l]);
  }

  // ---- Dispatch --------------------------------------------------------------------------------

  function Folded<D>(ls: seq<Listener>, data: D, run: (nat, D) -> D): D {
    if ls == [] then data
    else run(ls[|ls| - 1].handler, Folded(ls[..|ls| - 1], data, run))
  }

  class EventBus {
    var listeners: map<string, seq<Listener>>
    ghost var registered: map<string, seq<Listener>>

    ghost function RegisteredFor(event: string): seq<Listener> reads this`registered {
      if event in registered then registered[event] else []
    }

    function ListenersOf(event: string): seq<Listener> reads this`listeners {
      if event in listeners then listeners[event] else []
    }

    ghost predicate Valid() reads this {
      forall event :: ListenersOf(event) == Sorted(RegisteredFor(event))
    }

    constructor ()
      ensures Valid() && registered == map[]
    {
      listeners, registered := map[], map[];
    }

    method On(event: string, handler: nat, priority: int)
      requires Valid()
      modifies this
      ensures Valid()
      ensures registered
           == old(registered)[event := old(RegisteredFor(event)) + [Listener(handler, priority)]]
    {
      var l := Listener(handler, priority);
      assert ListenersOf(event) == Sorted(RegisteredFor(event));
      SortedAgain(RegisteredFor(event), l);
      listeners := listeners[event := Sorted(ListenersOf(event) + [l])];
      registered := registered[event := RegisteredFor(event) + [l]];
      forall other
        ensures ListenersOf(other) == Sorted(RegisteredFor(other))
      {
        assert old(ListenersOf(other)) == Sorted(old(RegisteredFor(other)));
      }
    }

    method Waterfall<D>(event: string, input: D, run: (nat, D) -> D) returns (data: D)
      requires Valid()
      ensures data == Folded(Sorted(RegisteredFor(event)), input, run)
    {
      var ls := ListenersOf(event);
      data := input;
      for i := 0 to |ls|
        invariant data == Folded(ls[..i], input, run)
      {
        assert ls[..i + 1][..i] == ls[..i];
        data := run(ls[i].handler, data);
      }
      assert ls[..|ls|] == ls;
    }

    /** The first decision by falling priority; later listeners are not asked. */
    method Bail<R>(event: string, run: nat -> Option<R>) returns (result: Option<R>, asked: seq<Listener>)
      requires Valid()
      ensures asked <= Sorted(RegisteredFor(event))
      ensures forall i :: 0 <= i < |asked| - 1 ==> run(asked[i].handler).None?
      ensures result.Some? ==> asked != [] && result == run(asked[|asked| - 1].handler)
      ensures result.None? ==> asked == Sorted(RegisteredFor(event))
                               && forall l :: l in asked ==> run(l.handler).None?
    {
      var ls := ListenersOf(event);
      for i := 0 to |ls|
        invariant forall k :: 0 <= k < i ==> run(ls[k].handler).None?
      {
        result := run(ls[i].handler);
        if result.Some? {
          return result, ls[..i + 1];
        }
      }
      return None, ls;
    }
  }
}
