/** The post office (qi_agent/agents/mailbox.py, Dispatcher): one central queue, a routing
    table, and a thread that delivers; every interleaving of its critical sections with sends,
    registrations and cancellations. `B` is the type of mailboxes. */
module PostOffice {
  import opened Basics
  import opened Mailbox

  /** The letter in the dispatcher's hand, and how far its delivery has got. */
  datatype Hand<B> =
    | Idle
    | Holding(mail: Mail)
    | Found(mail: Mail, box: B)
    | Missing(mail: Mail)
    | Returning(mail: Mail)

  /** `sent` is everything ever put into the central queue, in order; letter `i` has id `i`.
      `puts` are the deliveries into inboxes, in order. */
  datatype State<B> = State(
    sent: seq<Mail>, central: seq<Mail>, hand: Hand<B>, routes: map<string, B>,
    puts: seq<(B, Mail)>, undeliverable: seq<Mail>)

  datatype Step<B> =
    | Send(sender: string, target: string, kind: Kind, text: string)
    | Register(owner: string, box: B)
    | Unregister(owner: string)
    | Get
    | Lookup
    | Settle
    | Return

  function Initial<B>(): State<B> { State([], [], Idle, map[], [], []) }

  /** A letter enters the central queue under the next free id. */
  function Posted<B>(s: State<B>, sender: string, target: string, kind: Kind, data: Payload)
    : State<B>
  {
    var m := Mail(|s.sent|, sender, target, kind, data);
    s.(sent := s.sent + [m], central := s.central + [m])
  }

  function Receipt(m: Mail): Payload { Returned(m.id, m.kind, m.target) }

  /** A step that is not enabled changes nothing. `Settle` is the put into the inbox found, or
      the entry in the audit list; `Return` sends the receipt for a letter just audited. */
  function Next<B>(s: State<B>, step: Step<B>): State<B> {
    match step
    case Send(sender, target, kind, text) => Posted(s, sender, target, kind, Text(text))
    case Register(owner, box) => s.(routes := s.routes[owner := box])
    case Unregister(owner) => s.(routes := s.routes - {owner})
    case Get =>
      if s.hand.Idle? && s.central != [] then
        s.(hand := Holding(s.central[0]), central := s.central[1..])
      else s
    case Lookup =>
      if s.hand.Holding? then
        var m := s.hand.mail;
        s.(hand := if m.target in s.routes then Found(m, s.routes[m.target]) else Missing(m))
      else s
    case Settle =>
      if s.hand.Found? then
        s.(hand := Idle, puts := s.puts + [(s.hand.box, s.hand.mail)])
      else if s.hand.Missing? then
        s.(hand := if s.hand.mail.kind == NACK then Idle else Returning(s.hand.mail),
           undeliverable := s.undeliverable + [s.hand.mail])
      else s
    case Return =>
      if s.hand.Returning? then
        Posted(s.(hand := Idle), "dispatcher", s.hand.mail.sender, NACK, Receipt(s.hand.mail))
      else s
  }

  function RunFrom<B>(s: State<B>, steps: seq<Step<B>>): State<B> {
    if steps == [] then s else Next(RunFrom(s, steps[..|steps| - 1]), steps[|steps| - 1])
  }

  // ---- Where every letter is -----------------------------------------------------------------

  function Mails<B>(puts: seq<(B, Mail)>): seq<Mail> { Map(puts, (p: (B, Mail)) => p.1) }

  /** The letter taken from the queue and not yet settled. */
  function InHand<B>(s: State<B>): seq<Mail> {
    if s.hand.Idle? || s.hand.Returning? then [] else [s.hand.mail]
  }

  /** How many letters have been settled. */
  function Settled<B>(s: State<B>): int { |s.sent| - |s.central| - |InHand(s)| }

  ghost predicate Numbered(ms: seq<Mail>) { forall i :: 0 <= i < |ms| ==> ms[i].id == i }

  ghost predicate AscendingBelow(ms: seq<Mail>, n: int) {
    && (forall i :: 0 <= i < |ms| ==> ms[i].id < n)
    && forall i, j :: 0 <= i < j < |ms| ==> ms[i].id < ms[j].id
  }

  /** The letters that had a failed delivery reported, or are about to. */
  function Bounced<B>(s: State<B>): seq<Mail> { Filter(s.undeliverable, IsOther(NACK)) }

  function IsReceipt(m: Mail): bool { m.data.Returned? }

  function Receipts<B>(s: State<B>): seq<Mail> { Filter(s.sent, IsReceipt) }

  predicate ReceiptFor(r: Mail, m: Mail) {
    r.kind == NACK && r.sender == "dispatcher" && r.target == m.sender && r.data == Receipt(m)
  }

  ghost predicate QueueInv<B>(s: State<B>) {
    && Numbered(s.sent)
    && Settled(s) >= 0
    && s.central == s.sent[Settled(s) + |InHand(s)|..]
    && (InHand(s) != [] ==> s.sent[Settled(s)] == InHand(s)[0])
  }

  ghost predicate PlaceInv<B>(s: State<B>)
    requires QueueInv(s)
  {
    DealtInto(Mails(s.puts), s.undeliverable, Dealt(s))
  }

  /** Dealing letters numbered from zero to two heaps keeps both in order. */
  ghost predicate DealtInto(p: seq<Mail>, u: seq<Mail>, dealt: seq<Mail>) {
    && multiset(p) + multiset(u) == multiset(dealt)
    && AscendingBelow(p, |dealt|) && AscendingBelow(u, |dealt|)
  }

  ghost predicate ReceiptInv<B>(s: State<B>) {
    && |Bounced(s)| == |Receipts(s)| + (if s.hand.Returning? then 1 else 0)
    && (s.hand.Returning? ==> Bounced(s)[|Bounced(s)| - 1] == s.hand.mail)
    && forall i :: 0 <= i < |Receipts(s)| ==> ReceiptFor(Receipts(s)[i], Bounced(s)[i])
  }

  ghost predicate Inv<B>(s: State<B>) { QueueInv(s) && PlaceInv(s) && ReceiptInv(s) }

  predicate Settles<B>(s: State<B>, step: Step<B>) {
    step.Settle? && (s.hand.Found? || s.hand.Missing?)
  }

  /** The letters settled so far. */
  function Dealt<B>(s: State<B>): seq<Mail>
    requires QueueInv(s)
  {
    s.sent[..Settled(s)]
  }

  lemma {:induction false} QueuePosted<B>(
    s: State<B>, sender: string, target: string, kind: Kind, data: Payload)
    requires QueueInv(s)
    ensures var t := Posted(s, sender, target, kind, data);
            QueueInv(t) && Settled(t) == Settled(s) && Dealt(t) == Dealt(s)
  {
    var t := Posted(s, sender, target, kind, data);
    var k := Settled(s) + |InHand(s)|;
    assert t.sent[k..] == s.sent[k..] + [t.sent[|s.sent|]];
  }

  lemma {:induction false} QueueSettle<B>(s: State<B>)
    requires QueueInv(s) && Settles(s, Settle)
    ensures var t := Next(s, Settle);
            && QueueInv(t) && Settled(t) == Settled(s) + 1
            && Dealt(t) == Dealt(s) + [s.hand.mail] && s.hand.mail.id == Settled(s)
  {
    var d := Settled(s);
    assert InHand(s) == [s.hand.mail];
    assert InHand(Next(s, Settle)) == [];
    assert s.sent[..d + 1] == s.sent[..d] + [s.sent[d]];
  }

  /** Only settling moves the boundary, by the letter in hand. */
  lemma {:induction false} QueueNext<B>(s: State<B>, step: Step<B>)
    requires QueueInv(s)
    ensures QueueInv(Next(s, step))
    ensures Settles(s, step) ==> s.hand.mail.id == Settled(s)
    ensures Settled(Next(s, step)) == Settled(s) + if Settles(s, step) then 1 else 0
    ensures Dealt(Next(s, step)) == Dealt(s) + if Settles(s, step) then [s.hand.mail] else []
  {
    assert Dealt(s) + [] == Dealt(s);
    match step {
      case Send(sender, target, kind, text) => QueuePosted(s, sender, target, kind, Text(text));
      case Get =>
      case Settle =>
        if Settles(s, step) {
          QueueSettle(s);
        }
      case Return =>
        if s.hand.Returning? {
          var i := s.(hand := Idle);
          assert InHand(i) == InHand(s);
          QueuePosted(i, "dispatcher", s.hand.mail.sender, NACK, Receipt(s.hand.mail));
        }
      case Lookup =>
        if s.hand.Holding? {
          assert InHand(Next(s, step)) == InHand(s);
        }
      case _ =>
    }
  }

  lemma {:induction false} DealOne(p: seq<Mail>, u: seq<Mail>, dealt: seq<Mail>, m: Mail)
    requires DealtInto(p, u, dealt) && m.id == |dealt|
    ensures DealtInto(p + [m], u, dealt + [m]) && DealtInto(p, u + [m], dealt + [m])
  {
    assert AscendingBelow(p + [m], |dealt| + 1) && AscendingBelow(u + [m], |dealt| + 1);
  }

  lemma {:induction false} PlaceNext<B>(s: State<B>, step: Step<B>)
    requires QueueInv(s) && PlaceInv(s)
    ensures QueueInv(Next(s, step)) && PlaceInv(Next(s, step))
  {
    QueueNext(s, step);
    if Settles(s, step) {
      SettleDeals(s, Dealt(s));
    } else {
      assert Dealt(s) + [] == Dealt(s);
    }
  }

  lemma {:induction false} MailsSnoc<B>(puts: seq<(B, Mail)>, box: B, m: Mail)
    ensures Mails(puts + [(box, m)]) == Mails(puts) + [m]
  {
  }

  lemma {:induction false} SettleDeals<B>(s: State<B>, dealt: seq<Mail>)
    requires Settles(s, Settle) && s.hand.mail.id == |dealt|
    requires DealtInto(Mails(s.puts), s.undeliverable, dealt)
    ensures var t := Next(s, Settle);
            DealtInto(Mails(t.puts), t.undeliverable, dealt + [s.hand.mail])
  {
    DealOne(Mails(s.puts), s.undeliverable, dealt, s.hand.mail);
    if s.hand.Found? {
      MailsSnoc(s.puts, s.hand.box, s.hand.mail);
    }
  }

  lemma {:induction false} ReceiptsKeepInv<B>(s: State<B>, step: Step<B>)
    requires ReceiptInv(s)
    ensures ReceiptInv(Next(s, step))
  {
    var t := Next(s, step);
    match step {
      case Send(sender, target, kind, text) =>
        FilterConcat(s.sent, [Mail(|s.sent|, sender, target, kind, Text(text))], IsReceipt);
      case Settle =>
        if s.hand.Missing? {
          FilterConcat(s.undeliverable, [s.hand.mail], IsOther(NACK));
        }
      case Return =>
        if s.hand.Returning? {
          var r := Mail(|s.sent|, "dispatcher", s.hand.mail.sender, NACK, Receipt(s.hand.mail));
          FilterConcat(s.sent, [r], IsReceipt);
          assert Receipts(t) == Receipts(s) + [r];
        }
      case _ =>
    }
  }

  lemma {:induction false} NextKeepsInv<B>(s: State<B>, step: Step<B>)
    requires Inv(s)
    ensures Inv(Next(s, step))
  {
    ReceiptsKeepInv(s, step);
    PlaceNext(s, step);
  }

  lemma {:induction false} RunKeepsInv<B>(s: State<B>, steps: seq<Step<B>>)
    requires Inv(s)
    ensures Inv(RunFrom(s, steps))
  {
    if steps != [] {
      RunKeepsInv(s, steps[..|steps| - 1]);
      NextKeepsInv(RunFrom(s, steps[..|steps| - 1]), steps[|steps| - 1]);
    }
  }

  lemma {:induction false} NumberedOnce(ms: seq<Mail>, m: Mail)
    requires Numbered(ms) && m in ms
    ensures multiset(ms)[m] == 1
  {
    var i := m.id;
    var before, after := ms[..i], ms[i + 1..];
    assert ms == before + [m] + after;
    assert m !in before && m !in after;
  }

  /** Over every interleaving each letter ever sent, receipts included, is in exactly one
      place: waiting in the central queue, in the dispatcher's hand, put into one inbox, or
      undeliverable; inboxes are filled in the order of the central queue; and the
      undeliverable letters other than receipts are answered one to one, in order, by receipts
      to their senders, the last possibly still to be sent. */
  lemma {:induction false} EveryLetterInOnePlace<B>(steps: seq<Step<B>>)
    ensures var s := RunFrom<B>(Initial(), steps);
            && multiset(s.central) + multiset(InHand(s)) + multiset(Mails(s.puts))
               + multiset(s.undeliverable) == multiset(s.sent)
            && (forall m :: m in s.sent ==> multiset(s.sent)[m] == 1)
            && (forall i, j :: 0 <= i < j < |s.puts| ==> s.puts[i].1.id < s.puts[j].1.id)
            && |Bounced(s)| == |Receipts(s)| + (if s.hand.Returning? then 1 else 0)
            && forall i :: 0 <= i < |Receipts(s)| ==> ReceiptFor(Receipts(s)[i], Bounced(s)[i])
  {
    var s := RunFrom<B>(Initial(), steps);
    RunKeepsInv<B>(Initial(), steps);
    PlacesAddUp(s);
    forall m | m in s.sent
      ensures multiset(s.sent)[m] == 1
    {
      NumberedOnce(s.sent, m);
    }
    assert forall i :: 0 <= i < |s.puts| ==> Mails(s.puts)[i] == s.puts[i].1;
  }

  lemma {:induction false} PlacesAddUp<B>(s: State<B>)
    requires QueueInv(s) && PlaceInv(s)
    ensures multiset(s.central) + multiset(InHand(s)) + multiset(Mails(s.puts))
              + multiset(s.undeliverable) == multiset(s.sent)
  {
    SentSoFar(s);
  }

  lemma {:induction false} SentSoFar<B>(s: State<B>)
    requires QueueInv(s)
    ensures s.sent == Dealt(s) + InHand(s) + s.central
  {
  }

  // ---- A target that stays registered ----------------------------------------------------------

  function IsFor(target: string): Mail -> bool { (m: Mail) => m.target == target }

  ghost predicate AllInto<B>(puts: seq<(B, Mail)>, target: string, box: B) {
    forall p :: p in puts && p.1.target == target ==> p.0 == box
  }

  /** Since `s0`, the settled letters for the target are the puts for it, all into its box. */
  ghost predicate Serves<B>(s0: State<B>, s: State<B>, target: string, box: B) {
    && QueueInv(s0) && QueueInv(s) && 0 <= Settled(s0) <= Settled(s)
    && s0.puts <= s.puts && s0.undeliverable <= s.undeliverable
    && target in s.routes && s.routes[target] == box
    && (InHand(s) != [] && s.hand.mail.target == target ==>
          s.hand.Holding? || (s.hand.Found? && s.hand.box == box))
    && Served(s.puts[|s0.puts|..], s.sent[Settled(s0)..Settled(s)], target, box)
  }

  /** Of the letters dealt, those for the target were put into its box, in order. */
  ghost predicate Served<B>(puts: seq<(B, Mail)>, dealt: seq<Mail>, target: string, box: B) {
    && AllInto(puts, target, box)
    && Filter(Mails(puts), IsFor(target)) == Filter(dealt, IsFor(target))
  }

  predicate LeavesRoute<B>(step: Step<B>, target: string) {
    !(step.Register? && step.owner == target) && !(step.Unregister? && step.owner == target)
  }

  lemma {:induction false} FilterOne(ms: seq<Mail>, m: Mail, target: string)
    ensures Filter(ms + [m], IsFor(target))
         == if IsFor(target)(m) then Filter(ms, IsFor(target)) + [m] else Filter(ms, IsFor(target))
  {
    FilterConcat(ms, [m], IsFor(target));
    assert [m][1..] == [] && Filter([m][1..], IsFor(target)) == [];
    assert Filter(ms, IsFor(target)) + [] == Filter(ms, IsFor(target));
  }

  lemma {:induction false} ServeOne<B>(
    puts: seq<(B, Mail)>, dealt: seq<Mail>, m: Mail, into: B, target: string, box: B)
    requires Served(puts, dealt, target, box)
    ensures (m.target == target ==> into == box) ==>
              Served(puts + [(into, m)], dealt + [m], target, box)
    ensures m.target != target ==> Served(puts, dealt + [m], target, box)
  {
    FilterOne(dealt, m, target);
    FilterOne(Mails(puts), m, target);
    MailsSnoc(puts, into, m);
  }

  /** What settling adds to the letters dealt since `from`. */
  lemma {:induction false} SettledGrows<B>(s: State<B>, from: int)
    requires QueueInv(s) && Settles(s, Settle) && 0 <= from <= Settled(s)
    ensures var t := Next(s, Settle);
            && QueueInv(t) && Settled(t) == Settled(s) + 1
            && t.sent[from..Settled(t)] == s.sent[from..Settled(s)] + [s.hand.mail]
            && InHand(t) == []
  {
    QueueSettle(s);
    var d := Settled(s);
    assert s.sent[d] == InHand(s)[0] == s.hand.mail;
    assert s.sent[from..d + 1] == s.sent[from..d] + [s.sent[d]];
  }

  lemma {:induction false} SettleServes<B>(s0: State<B>, s: State<B>, target: string, box: B)
    requires Serves(s0, s, target, box) && Settles(s, Settle)
    ensures Serves(s0, Next(s, Settle), target, box)
  {
    var t, n, from, m := Next(s, Settle), |s0.puts|, Settled(s0), s.hand.mail;
    SettledGrows(s, from);
    assert InHand(s) == [m];
    if s.hand.Found? {
      ServeOne(s.puts[n..], s.sent[from..Settled(s)], m, s.hand.box, target, box);
      assert t.puts[n..] == s.puts[n..] + [(s.hand.box, m)];
    } else {
      ServeOne(s.puts[n..], s.sent[from..Settled(s)], m, box, target, box);
    }
  }

  lemma {:induction false} NextServes<B>(
    s0: State<B>, s: State<B>, step: Step<B>, target: string, box: B)
    requires Serves(s0, s, target, box) && Inv(s) && LeavesRoute(step, target)
    ensures Serves(s0, Next(s, step), target, box)
  {
    QueueNext(s, step);
    var t := Next(s, step);
    var from := Settled(s0);
    if Settles(s, step) {
      SettleServes(s0, s, target, box);
    } else {
      assert t.sent[from..Settled(t)] == s.sent[from..Settled(s)];
    }
  }

  /** While a target stays registered to one mailbox, whatever else is registered, cancelled
      or sent, the letters for it all go into that mailbox, in central-queue order. */
  lemma {:induction false} RegisteredTargetIsServed<B>(
    s0: State<B>, steps: seq<Step<B>>, target: string, box: B)
    requires Inv(s0) && target in s0.routes && s0.routes[target] == box
    requires InHand(s0) != [] && s0.hand.mail.target == target ==>
               s0.hand.Holding? || (s0.hand.Found? && s0.hand.box == box)
    requires forall step :: step in steps ==> LeavesRoute(step, target)
    ensures Serves(s0, RunFrom(s0, steps), target, box)
  {
    RunKeepsInv(s0, steps);
    if steps == [] {
      assert s0.puts[|s0.puts|..] == [];
    } else {
      RunKeepsInv(s0, steps[..|steps| - 1]);
      RegisteredTargetIsServed(s0, steps[..|steps| - 1], target, box);
      NextServes(s0, RunFrom(s0, steps[..|steps| - 1]), steps[|steps| - 1], target, box);
    }
  }

  // ---- Draining ----------------------------------------------------------------------------------

  /** Two for a letter that may still cause a receipt, one for a receipt. */
  function Load(ms: seq<Mail>): nat {
    if ms == [] then 0 else (if ms[0].kind == NACK then 1 else 2) + Load(ms[1..])
  }

  lemma {:induction false} LoadConcat(a: seq<Mail>, b: seq<Mail>)
    ensures Load(a + b) == Load(a) + Load(b)
  {
    if a == [] {
      assert a + b == b;
    } else {
      assert (a + b)[1..] == a[1..] + b;
      LoadConcat(a[1..], b);
    }
  }

  /** One whole delivery, with the routing table being whatever it is at the lookup. */
  function Delivery<B>(s: State<B>, routes: map<string, B>): State<B> {
    Next(Next(Next(Next(s, Get).(routes := routes), Lookup), Settle), Return)
  }

  lemma {:induction false} DeliveryLightens<B>(s: State<B>, routes: map<string, B>)
    requires s.hand.Idle? && s.central != []
    ensures var t := Delivery(s, routes);
            t.hand.Idle? && Load(t.central) < Load(s.central)
  {
    var m := s.central[0];
    var r := Mail(|s.sent|, "dispatcher", m.sender, NACK, Receipt(m));
    LoadConcat(s.central[1..], [r]);
  }

  /** With no new sends the dispatcher empties the queue, whatever happens to the routes. */
  function DeliverAll<B>(s: State<B>, routes: nat -> map<string, B>, n: nat): (t: State<B>)
    requires s.hand.Idle?
    ensures t.hand.Idle? && t.central == []
    decreases Load(s.central)
  {
    if s.central == [] then s
    else
      DeliveryLightens(s, routes(n));
      DeliverAll(Delivery(s, routes(n)), routes, n + 1)
  }

  // ---- The dispatcher object -----------------------------------------------------------------

  class Dispatcher {
    var central: seq<Mail>
    var routes: map<string, AgentMailbox>
    var undeliverable: seq<Mail>
    var hand: Hand<AgentMailbox>
    var nextId: nat
    ghost var sent: seq<Mail>
    ghost var puts: seq<(AgentMailbox, Mail)>

    ghost function View(): State<AgentMailbox>
      reads this
    {
      State(sent, central, hand, routes, puts, undeliverable)
    }

    ghost predicate Valid()
      reads this
    {
      nextId == |sent| && Inv(View())
    }

    constructor ()
      ensures Valid() && View() == Initial()
    {
      central, routes, undeliverable, hand, nextId := [], map[], [], Idle, 0;
      sent, puts := [], [];
    }

    method Register(mailbox: AgentMailbox)
      requires Valid()
      modifies this, mailbox`bound
      ensures Valid() && View() == Next(old(View()), Step.Register(mailbox.owner, mailbox))
      ensures mailbox.bound
    {
      NextKeepsInv(View(), Step.Register(mailbox.owner, mailbox));
      mailbox.bound := true;
      routes := routes[mailbox.owner := mailbox];
    }

    method Unregister(owner: string)
      requires Valid()
      modifies this, (if owner in routes then {routes[owner]} else {})`bound
      ensures Valid() && View() == Next(old(View()), Step.Unregister(owner))
      ensures owner in old(routes) ==> !old(routes)[owner].bound
    {
      NextKeepsInv(View(), Step.Unregister(owner));
      if owner in routes {
        routes[owner].bound := false;
      }
      routes := routes - {owner};
    }

    method Put(sender: string, target: string, kind: Kind, data: Payload)
      requires nextId == |sent|
      modifies this
      ensures nextId == |sent|
      ensures View() == Posted(old(View()), sender, target, kind, data)
    {
      var m := Mail(nextId, sender, target, kind, data);
      nextId := nextId + 1;
      central := central + [m];
      sent := sent + [m];
    }

    /** An agent's own `send`: refused while its mailbox is not bound to the central queue. */
    method SendFrom(mailbox: AgentMailbox, sender: string, target: string, kind: Kind, text: string)
      returns (ok: bool)
      requires Valid()
      modifies this
      ensures Valid() && ok == mailbox.bound
      ensures View() == if ok then Next(old(View()), Send(sender, target, kind, text)) else old(View())
    {
      if !mailbox.bound {
        return false;
      }
      NextKeepsInv(View(), Send(sender, target, kind, text));
      Put(sender, target, kind, Text(text));
      ok := true;
    }

    method TakeNext() returns (got: bool)
      requires Valid()
      modifies this
      ensures Valid() && View() == Next(old(View()), Get)
      ensures got == (old(hand).Idle? && old(central) != [])
    {
      NextKeepsInv(View(), Get);
      if !hand.Idle? || central == [] {
        return false;
      }
      hand := Holding(central[0]);
      central := central[1..];
      assert View() == Next(old(View()), Get);
      got := true;
    }

    method LookUp()
      requires Valid()
      modifies this
      ensures Valid() && View() == Next(old(View()), Lookup)
    {
      NextKeepsInv(View(), Lookup);
      if hand.Holding? {
        var m := hand.mail;
        hand := if m.target in routes then Found(m, routes[m.target]) else Missing(m);
      }
    }

    /** The put into the inbox found, or the entry in the audit list. */
    method SettleLetter()
      requires Valid()
      modifies this, (if hand.Found? then {hand.box} else {})`inbox
      ensures Valid() && View() == Next(old(View()), Settle)
      ensures old(hand).Found? ==>
                old(hand).box.inbox == old(hand.box.inbox) + [old(hand).mail]
    {
      NextKeepsInv(View(), Settle);
      if hand.Found? {
        var m, box := hand.mail, hand.box;
        box.inbox := box.inbox + [m];
        puts := puts + [(box, m)];
        hand := Idle;
        assert View() == Next(old(View()), Settle);
      } else if hand.Missing? {
        var m := hand.mail;
        undeliverable := undeliverable + [m];
        hand := if m.kind == NACK then Idle else Returning(m);
        assert View() == Next(old(View()), Settle);
      }
    }

    method SendReceipt()
      requires Valid()
      modifies this
      ensures Valid() && View() == Next(old(View()), Return)
    {
      NextKeepsInv(View(), Return);
      if hand.Returning? {
        var m := hand.mail;
        hand := Idle;
        Put("dispatcher", m.sender, NACK, Receipt(m));
      }
    }
  }
}
