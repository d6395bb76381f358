/** One agent's mailbox: taking mail of one type while the dispatcher keeps delivering
    (qi_agent/agents/mailbox.py, qi_agent/context/context.py). */
module Mailbox {
  import opened Basics
  import Transcript
  import AgentLoop

  datatype Kind = MESSAGE | STEER | RESULT | NOTIFY | NACK

  /** What a letter carries: text, or the account of a failed delivery. */
  datatype Payload = Text(text: string) | Returned(id: nat, kind: Kind, target: string)

  datatype Mail = Mail(id: nat, sender: string, target: string, kind: Kind, data: Payload)

  function IsKind(kind: Kind): Mail -> bool { (m: Mail) => m.kind == kind }

  function IsOther(kind: Kind): Mail -> bool { (m: Mail) => m.kind != kind }

  /** What the dispatcher puts into the inbox just before its `n`-th operation. */
  function ArrivalAt(arrivals: seq<seq<Mail>>, n: nat): seq<Mail> {
    if n < |arrivals| then arrivals[n] else []
  }

  function From(arrivals: seq<seq<Mail>>, n: nat): seq<seq<Mail>> {
    if n < |arrivals| then arrivals[n..] else []
  }

  function Upto(arrivals: seq<seq<Mail>>, n: nat): seq<Mail> {
    Flatten(if n < |arrivals| then arrivals[..n] else arrivals)
  }

  /** The letters put back, each behind what arrived before it. */
  function Woven(rest: seq<Mail>, arrivals: seq<seq<Mail>>, n: nat): seq<Mail> {
    if rest == [] then []
    else ArrivalAt(arrivals, n) + [rest[0]] + Woven(rest[1..], arrivals, n + 1)
  }

  lemma {:induction false} ArrivalSplits(arrivals: seq<seq<Mail>>, n: nat)
    ensures Upto(arrivals, n + 1) == Upto(arrivals, n) + ArrivalAt(arrivals, n)
    ensures Flatten(From(arrivals, n)) == ArrivalAt(arrivals, n) + Flatten(From(arrivals, n + 1))
  {
    if n < |arrivals| {
      assert arrivals[..n + 1] == arrivals[..n] + [arrivals[n]];
      FlattenConcat(arrivals[..n], [arrivals[n]]);
      assert Flatten([arrivals[n]]) == arrivals[n];
      assert n + 1 < |arrivals| || arrivals[..n + 1] == arrivals;
      assert arrivals[n..] == [arrivals[n]] + From(arrivals, n + 1);
    }
  }

  lemma {:induction false} WovenSnoc(
    rest: seq<Mail>, m: Mail, arrivals: seq<seq<Mail>>, n: nat)
    ensures Woven(rest + [m], arrivals, n)
         == Woven(rest, arrivals, n) + (ArrivalAt(arrivals, n + |rest|) + [m])
    decreases |rest|
  {
    var all := rest + [m];
    if rest == [] {
      assert all[0] == m && all[1..] == [] && Woven(all[1..], arrivals, n + 1) == [];
    } else {
      assert all[0] == rest[0] && all[1..] == rest[1..] + [m];
      WovenSnoc(rest[1..], m, arrivals, n + 1);
      var front, last := ArrivalAt(arrivals, n) + [rest[0]], ArrivalAt(arrivals, n + |rest|) + [m];
      var woven := Woven(rest[1..], arrivals, n + 1);
      assert front + (woven + last) == (front + woven) + last;
    }
  }

  lemma {:induction false} ArrivalsJoin(
    start: seq<Mail>, arrivals: seq<seq<Mail>>, n: nat, read: seq<Mail>, inbox: seq<Mail>)
    requires read + inbox == start + Upto(arrivals, n)
    ensures read + (inbox + ArrivalAt(arrivals, n)) == start + Upto(arrivals, n + 1)
    ensures Flatten(From(arrivals, n)) == ArrivalAt(arrivals, n) + Flatten(From(arrivals, n + 1))
  {
    ArrivalSplits(arrivals, n);
    var now := ArrivalAt(arrivals, n);
    ConcatThree(read, inbox, now);
    ConcatThree(start, Upto(arrivals, n), now);
  }

  lemma {:induction false} ReadOne(read: seq<Mail>, inbox: seq<Mail>, kind: Kind)
    requires inbox != []
    ensures var m := inbox[0];
            && (read + [m]) + inbox[1..] == read + inbox
            && Filter(read + [m], IsKind(kind))
               == Filter(read, IsKind(kind)) + (if m.kind == kind then [m] else [])
            && Filter(read + [m], IsOther(kind))
               == Filter(read, IsOther(kind)) + (if m.kind == kind then [] else [m])
  {
    var m := inbox[0];
    assert [m][1..] == [] && Filter([m][1..], IsKind(kind)) == [] == Filter([m][1..], IsOther(kind));
    FilterConcat(read, [m], IsKind(kind));
    FilterConcat(read, [m], IsOther(kind));
  }

  class AgentMailbox {
    const owner: string
    var bound: bool
    var inbox: seq<Mail>

    constructor (owner: string)
      ensures this.owner == owner && !bound && inbox == []
    {
      this.owner := owner;
      bound, inbox := false, [];
    }

    /** `drain_by_type` against a dispatcher that does not take the lock: `arrivals[n]` reaches
        the inbox before the `n`-th queue operation. `gets` counts the reads, the last of which
        found the inbox empty. */
    method DrainByType(kind: Kind, arrivals: seq<seq<Mail>>)
      returns (picked: seq<Mail>, ghost gets: nat)
      modifies this`inbox
      ensures gets > 0
      ensures Drained(kind, old(inbox), arrivals, gets, picked, inbox)
    {
      picked := [];
      var rest: seq<Mail> := [];
      var n := 0;
      ghost var read: seq<Mail> := [];
      while true
        invariant n >= 0 && read + inbox == old(inbox) + Upto(arrivals, n)
        invariant picked == Filter(read, IsKind(kind)) && rest == Filter(read, IsOther(kind))
        decreases |inbox| + |Flatten(From(arrivals, n))|
      {
        ArrivalsJoin(old(inbox), arrivals, n, read, inbox);
        inbox := inbox + ArrivalAt(arrivals, n);
        n := n + 1;
        if inbox == [] {
          assert read == old(inbox) + Upto(arrivals, n);
          break;
        }
        var m := inbox[0];
        ReadOne(read, inbox, kind);
        inbox, read := inbox[1..], read + [m];
        if m.kind == kind {
          picked := picked + [m];
        } else {
          rest := rest + [m];
        }
      }
      gets := n;
      PutBack(rest, arrivals, n);
    }

    method PutBack(rest: seq<Mail>, arrivals: seq<seq<Mail>>, n: nat)
      requires inbox == []
      modifies this`inbox
      ensures inbox == Woven(rest, arrivals, n)
    {
      for i := 0 to |rest|
        invariant inbox == Woven(rest[..i], arrivals, n)
      {
        assert rest[..i + 1] == rest[..i] + [rest[i]];
        WovenSnoc(rest[..i], rest[i], arrivals, n);
        inbox := inbox + (ArrivalAt(arrivals, n + i) + [rest[i]]);
      }
      assert rest[..|rest|] == rest;
    }

    /** `consume_mailbox`: the messages, then the steering, as at most one user message.
        `between` is the inbox after the first drain. */
    method ConsumeMailbox(
      messages: seq<Transcript.Message>, first: seq<seq<Mail>>, second: seq<seq<Mail>>)
      returns (result: seq<Transcript.Message>, posted: seq<Mail>, steering: seq<Mail>,
               ghost between: seq<Mail>, ghost g1: nat, ghost g2: nat)
      modifies this`inbox
      ensures result == AgentLoop.WithMail(messages, Pieces(posted, steering))
      ensures Drained(MESSAGE, old(inbox), first, g1, posted, between)
      ensures Drained(STEER, between, second, g2, steering, inbox)
    {
      posted, g1 := DrainByType(MESSAGE, first);
      between := inbox;
      steering, g2 := DrainByType(STEER, second);
      var pieces := Pieces(posted, steering);
      result := messages;
      if pieces != [] {
        result := messages + [Transcript.UserMessage(AgentLoop.Join(pieces, " | "))];
      }
    }
  }

  /** The outcome of one drain: what it picked and the inbox it leaves. */
  ghost predicate Drained(
    kind: Kind, start: seq<Mail>, arrivals: seq<seq<Mail>>, gets: nat,
    picked: seq<Mail>, left: seq<Mail>)
  {
    && picked == Filter(start + Upto(arrivals, gets), IsKind(kind))
    && left == Woven(Filter(start + Upto(arrivals, gets), IsOther(kind)), arrivals, gets)
  }

  function DataText(m: Mail): string { if m.data.Text? then m.data.text else "" }

  function Pieces(posted: seq<Mail>, steering: seq<Mail>): seq<string> {
    Map(posted, (m: Mail) => "[消息投递] " + DataText(m)) +
    Map(steering, (m: Mail) => "[引导] " + DataText(m))
  }

  // ---- What a drain keeps ------------------------------------------------------------------

  function Count(s: seq<Mail>, x: Mail): nat {
    if s == [] then 0 else (if s[0] == x then 1 else 0) + Count(s[1..], x)
  }

  lemma {:induction false} CountIsMultiplicity(s: seq<Mail>, x: Mail)
    ensures Count(s, x) == multiset(s)[x]
  {
    if s != [] {
      CountIsMultiplicity(s[1..], x);
      assert s == [s[0]] + s[1..];
    }
  }

  lemma {:induction false} CountConcat(a: seq<Mail>, b: seq<Mail>, x: Mail)
    ensures Count(a + b, x) == Count(a, x) + Count(b, x)
  {
    CountIsMultiplicity(a, x);
    CountIsMultiplicity(b, x);
    CountIsMultiplicity(a + b, x);
  }

  lemma {:induction false} WovenCounts(rest: seq<Mail>, arrivals: seq<seq<Mail>>, n: nat, x: Mail)
    ensures Count(Upto(arrivals, n), x) + Count(Woven(rest, arrivals, n), x)
         == Count(rest, x) + Count(Upto(arrivals, n + |rest|), x)
    decreases |rest|
  {
    if rest != [] {
      WovenCounts(rest[1..], arrivals, n + 1, x);
      ArrivalSplits(arrivals, n);
      var now, later := ArrivalAt(arrivals, n), Woven(rest[1..], arrivals, n + 1);
      CountConcat(Upto(arrivals, n), now, x);
      CountConcat(now + [rest[0]], later, x);
      CountConcat(now, [rest[0]], x);
      CountConcat([rest[0]], rest[1..], x);
      assert rest == [rest[0]] + rest[1..] && n + |rest| == n + 1 + |rest[1..]|;
    }
  }

  lemma {:induction false} WovenConserves(rest: seq<Mail>, arrivals: seq<seq<Mail>>, n: nat)
    ensures multiset(Upto(arrivals, n)) + multiset(Woven(rest, arrivals, n))
         == multiset(rest) + multiset(Upto(arrivals, n + |rest|))
  {
    forall x
      ensures (multiset(Upto(arrivals, n)) + multiset(Woven(rest, arrivals, n)))[x]
           == (multiset(rest) + multiset(Upto(arrivals, n + |rest|)))[x]
    {
      WovenCounts(rest, arrivals, n, x);
      CountIsMultiplicity(Upto(arrivals, n), x);
      CountIsMultiplicity(Woven(rest, arrivals, n), x);
      CountIsMultiplicity(rest, x);
      CountIsMultiplicity(Upto(arrivals, n + |rest|), x);
    }
  }

  lemma {:induction false} UptoIsPart(arrivals: seq<seq<Mail>>, n: nat)
    ensures multiset(Upto(arrivals, n)) <= multiset(Flatten(arrivals))
    ensures n >= |arrivals| ==> Upto(arrivals, n) == Flatten(arrivals)
  {
    if n < |arrivals| {
      assert arrivals == arrivals[..n] + arrivals[n..];
      FlattenConcat(arrivals[..n], arrivals[n..]);
    }
  }

  /** Under any interleaving a drain neither loses nor duplicates a letter: what it picked and
      what the inbox holds afterwards are what was there and what arrived meanwhile. */
  lemma {:induction false} DrainConserves(
    kind: Kind, start: seq<Mail>, arrivals: seq<seq<Mail>>, gets: nat,
    picked: seq<Mail>, left: seq<Mail>)
    requires Drained(kind, start, arrivals, gets, picked, left)
    ensures var rest := Filter(start + Upto(arrivals, gets), IsOther(kind));
            multiset(picked) + multiset(left)
            == multiset(start) + multiset(Upto(arrivals, gets + |rest|))
    ensures multiset(picked) + multiset(left) <= multiset(start) + multiset(Flatten(arrivals))
  {
    var read := start + Upto(arrivals, gets);
    var rest := Filter(read, IsOther(kind));
    KindsPartition(read, kind);
    WovenConserves(rest, arrivals, gets);
    UptoIsPart(arrivals, gets + |rest|);
    MultisetConcat(start, Upto(arrivals, gets));
    MultisetCancel(multiset(picked), multiset(left), multiset(Upto(arrivals, gets)),
                   multiset(start), multiset(rest), multiset(Upto(arrivals, gets + |rest|)));
    MultisetBelow(multiset(picked), multiset(left), multiset(start),
                  multiset(Upto(arrivals, gets + |rest|)), multiset(Flatten(arrivals)));
  }

  /** The one user message of a pre-step holds all the messages, in arrival order, and then
      all the steering; whatever else was in the inbox is still there. */
  lemma {:induction false} ConsumeTakesMessagesThenSteering(
    start: seq<Mail>, first: seq<seq<Mail>>, g1: nat, posted: seq<Mail>, between: seq<Mail>,
    second: seq<seq<Mail>>, g2: nat, steering: seq<Mail>, left: seq<Mail>)
    requires Drained(MESSAGE, start, first, g1, posted, between)
    requires Drained(STEER, between, second, g2, steering, left)
    ensures |Pieces(posted, steering)| == |posted| + |steering|
    ensures forall m :: m in posted ==> m.kind == MESSAGE
    ensures forall m :: m in steering ==> m.kind == STEER
    ensures Filter(start, IsKind(MESSAGE)) <= posted && Filter(between, IsKind(STEER)) <= steering
    ensures forall m :: m in start && m.kind == STEER ==> m in steering
  {
    PickedAreOldestFirst(start, first, MESSAGE, g1);
    PickedAreOldestFirst(between, second, STEER, g2);
    FilterHolds(start + Upto(first, g1), IsOther(MESSAGE));
    WovenContains(Filter(start + Upto(first, g1), IsOther(MESSAGE)), first, g1);
    FilterHolds(between, IsKind(STEER));
  }

  lemma {:induction false} WovenContains(rest: seq<Mail>, arrivals: seq<seq<Mail>>, n: nat)
    ensures forall m :: m in rest ==> m in Woven(rest, arrivals, n)
  {
    if rest != [] {
      WovenContains(rest[1..], arrivals, n + 1);
      assert rest == [rest[0]] + rest[1..];
    }
  }

  /** Neither of the two drains of a pre-step loses or duplicates a letter. */
  lemma {:induction false} ConsumeConserves(
    start: seq<Mail>, first: seq<seq<Mail>>, g1: nat, posted: seq<Mail>, between: seq<Mail>,
    second: seq<seq<Mail>>, g2: nat, steering: seq<Mail>, left: seq<Mail>)
    requires Drained(MESSAGE, start, first, g1, posted, between)
    requires Drained(STEER, between, second, g2, steering, left)
    ensures multiset(posted) + multiset(steering) + multiset(left)
         <= multiset(start) + multiset(Flatten(first)) + multiset(Flatten(second))
  {
    DrainConserves(MESSAGE, start, first, g1, posted, between);
    DrainConserves(STEER, between, second, g2, steering, left);
    ChainBelow(multiset(posted), multiset(between), multiset(start) + multiset(Flatten(first)),
               multiset(steering), multiset(left), multiset(Flatten(second)));
  }

  lemma {:induction false} ChainBelow(
    p: multiset<Mail>, b: multiset<Mail>, s: multiset<Mail>,
    q: multiset<Mail>, l: multiset<Mail>, w: multiset<Mail>)
    requires p + b <= s && q + l <= b + w
    ensures p + q + l <= s + w
  {
    forall x
      ensures (p + q + l)[x] <= (s + w)[x]
    {
      assert (p + b)[x] <= s[x] && (q + l)[x] <= (b + w)[x];
    }
  }

  lemma {:induction false} KindsPartition(ms: seq<Mail>, kind: Kind)
    ensures multiset(Filter(ms, IsKind(kind))) + multiset(Filter(ms, IsOther(kind))) == multiset(ms)
  {
    if ms != [] {
      KindsPartition(ms[1..], kind);
      assert ms == [ms[0]] + ms[1..];
    }
  }

  /** The picked letters are of the asked type, in arrival order, and include every such
      letter that was in the inbox at the start. */
  lemma {:induction false} PickedAreOldestFirst(
    start: seq<Mail>, arrivals: seq<seq<Mail>>, kind: Kind, gets: nat)
    ensures var picked := Filter(start + Upto(arrivals, gets), IsKind(kind));
            && picked == Filter(start, IsKind(kind)) + Filter(Upto(arrivals, gets), IsKind(kind))
            && forall m :: m in picked ==> m.kind == kind
  {
    FilterConcat(start, Upto(arrivals, gets), IsKind(kind));
    FilterHolds(start + Upto(arrivals, gets), IsKind(kind));
  }

  /** What arrives between the re-puts, each lot before its own. */
  function Between(arrivals: seq<seq<Mail>>, n: nat, count: nat): seq<Mail>
    decreases count
  {
    if count == 0 then [] else ArrivalAt(arrivals, n) + Between(arrivals, n + 1, count - 1)
  }

  ghost predicate Quiet(arrivals: seq<seq<Mail>>, n: nat, count: nat) {
    forall i :: n <= i < n + count ==> ArrivalAt(arrivals, i) == []
  }

  lemma {:induction false} QuietIsSilence(arrivals: seq<seq<Mail>>, n: nat, count: nat)
    requires Quiet(arrivals, n, count)
    ensures Between(arrivals, n, count) == []
    decreases count
  {
    if count > 0 {
      QuietIsSilence(arrivals, n + 1, count - 1);
    }
  }

  /** The letters put back stay in front of everything that arrives during the re-puts, and so in
      the order in which all of them arrived, exactly when nothing arrives before any of the
      re-puts; what arrives after the last one does not matter. Letters are distinct, so none of
      those put back arrives again. */
  lemma {:induction false} RePutKeepsOrder(rest: seq<Mail>, arrivals: seq<seq<Mail>>, n: nat)
    requires forall m :: m in rest ==> m !in Between(arrivals, n, |rest|)
    ensures Woven(rest, arrivals, n) == rest + Between(arrivals, n, |rest|)
            <==> Quiet(arrivals, n, |rest|)
    decreases |rest|
  {
    if rest != [] {
      var now, tail := ArrivalAt(arrivals, n), rest[1..];
      var later, woven := Between(arrivals, n + 1, |tail|), Woven(tail, arrivals, n + 1);
      assert Between(arrivals, n, |rest|) == now + later;
      forall m | m in tail
        ensures m !in later
      {
        assert m in rest;
      }
      RePutKeepsOrder(tail, arrivals, n + 1);
      if now == [] {
        assert Woven(rest, arrivals, n) == [rest[0]] + woven;
        assert rest + (now + later) == [rest[0]] + (tail + later);
        assert ([rest[0]] + woven)[1..] == woven && ([rest[0]] + (tail + later))[1..] == tail + later;
        assert now + later == later;
      } else {
        assert Woven(rest, arrivals, n)[0] == now[0];
        assert now[0] in Between(arrivals, n, |rest|) && rest[0] in rest;
        assert (rest + (now + later))[0] == rest[0] != now[0];
        assert ArrivalAt(arrivals, n) != [];
      }
    }
  }

  /** The letters of other types keep their order when nothing is put between the re-puts. */
  lemma {:induction false} QuietRePutKeepsOrder(rest: seq<Mail>, arrivals: seq<seq<Mail>>, n: nat)
    requires Quiet(arrivals, n, |rest|)
    ensures Woven(rest, arrivals, n) == rest
  {
    QuietIsSilence(arrivals, n, |rest|);
    RePutKeepsOrder(rest, arrivals, n);
    assert rest + [] == rest;
  }

  function Among(rest: seq<Mail>): Mail -> bool { (m: Mail) => m in rest }

  /** Among themselves they keep their order in any case. */
  lemma {:induction false} RePutKeepsOwnOrder(
    rest: seq<Mail>, all: seq<Mail>, arrivals: seq<seq<Mail>>, n: nat)
    requires forall m :: m in rest ==> m in all
    requires forall m :: m in Between(arrivals, n, |rest|) ==> m !in all
    ensures Filter(Woven(rest, arrivals, n), Among(all)) == rest
    decreases |rest|
  {
    if rest != [] {
      var now, tail := ArrivalAt(arrivals, n), rest[1..];
      var woven := Woven(tail, arrivals, n + 1);
      assert Between(arrivals, n, |rest|) == now + Between(arrivals, n + 1, |tail|);
      forall m | m in Between(arrivals, n + 1, |tail|)
        ensures m !in all
      {
        assert m in Between(arrivals, n, |rest|);
      }
      forall m | m in now
        ensures !Among(all)(m)
      {
        assert m in Between(arrivals, n, |rest|);
      }
      RePutKeepsOwnOrder(tail, all, arrivals, n + 1);
      FilterNone(now, Among(all));
      FilterAll([rest[0]], Among(all));
      FilterConcat(now + [rest[0]], woven, Among(all));
      FilterConcat(now, [rest[0]], Among(all));
      assert rest == [] + [rest[0]] + tail;
    }
  }

  /** With a put in between they may not stay in front: any letter that arrives between two re-puts
      overtakes all those put back later. */
  lemma {:induction false} RePutCanReorder(first: seq<Mail>, b: Mail, later: seq<Mail>, c: Mail, n: nat)
    ensures var arrivals := seq(n + |first| + 1, i requires 0 <= i => if i == n + |first| then [c] else []);
            Woven(first + [b] + later, arrivals, n) == first + [c] + [b] + later
  {
    var arrivals := seq(n + |first| + 1, i requires 0 <= i => if i == n + |first| then [c] else []);
    WovenConcat(first, [b] + later, arrivals, n);
    ConcatThree(first, [b], later);
    QuietRePutKeepsOrder(first, arrivals, n);
    QuietRePutKeepsOrder(later, arrivals, n + |first| + 1);
    assert ([b] + later)[0] == b && ([b] + later)[1..] == later;
    assert ArrivalAt(arrivals, n + |first|) == [c];
    ConcatThree(first, [c] + [b], later);
    ConcatThree(first, [c], [b]);
  }

  lemma {:induction false} WovenConcat(
    a: seq<Mail>, b: seq<Mail>, arrivals: seq<seq<Mail>>, n: nat)
    ensures Woven(a + b, arrivals, n) == Woven(a, arrivals, n) + Woven(b, arrivals, n + |a|)
    decreases |a|
  {
    if a == [] {
      assert a + b == b;
    } else {
      assert (a + b)[0] == a[0] && (a + b)[1..] == a[1..] + b;
      WovenConcat(a[1..], b, arrivals, n + 1);
      var head := ArrivalAt(arrivals, n) + [a[0]];
      var x, y := Woven(a[1..], arrivals, n + 1), Woven(b, arrivals, n + |a|);
      assert head + (x + y) == (head + x) + y;
    }
  }
}
