/** Each client's map of its subscriptions against the shared index, over every interleaving
    of subscribe, unsubscribe and close. Every locked section is one step. */
module Bookkeeping {
  import opened TopicLevels
  import opened TriePlaces
  import opened SubscriptionTrie

  /** Where a client's worker stands. A subscribe takes three sections per topic: the old
      subscription goes, the new one enters the index, and then the client's map. */
  datatype Phase =
    | Idle
    | InPacket
    | Inserting(topic: string, sub: Subscription)
    | Recording(topic: string, sub: Subscription)

  /** The routines inside Close: past the status test, and past setting the status. The test
      holds no lock, so several may pass it. */
  datatype Closing = Closing(tests: nat, marks: nat)

  datatype Client = Client(subMap: map<string, Subscription>, disconnected: bool, cleaned: bool, phase: Phase, closing: Closing)

  /** The index (as the calls made on it and the flat list they amount to), the clients, the
      number of subscription objects made so far, the subscriptions recorded for a client after
      its clean-up had run, and whether an ignored Unsubscribe ever failed. */
  datatype Broker = Broker(ops: seq<Op>, flat: Flat, clients: map<nat, Client>, made: nat,
                           orphans: set<Subscription>, failed: bool)

  datatype Step =
    | Connect(c: nat)
    | StartPacket(c: nat)
    | Begin(c: nat, topic: string, qos: nat)     // first section of one subscribe topic
    | Enter(c: nat)                              // second section: the index
    | Record(c: nat)                             // third section: the client's map
    | Unsubscribe(c: nat, topic: string)
    | EndPacket(c: nat)
    | Malformed(c: nat)                          // an invalid packet: disconnected, not cleaned up
    | CloseTest(c: nat)                          // possibly by another routine
    | CloseMark(c: nat)
    | Close(c: nat, order: seq<Subscription>)    // the clean-up

  ghost predicate Lists(order: seq<Subscription>, m: map<string, Subscription>) {
    && (forall i, j | 0 <= i < j < |order| :: order[i] != order[j])
    && (forall x :: x in order <==> x in m.Values)
  }

  ghost predicate Enabled(b: Broker, step: Step) {
    match step
    case Connect(c) => c !in b.clients
    case StartPacket(c) => c in b.clients && b.clients[c].phase.Idle? && !b.clients[c].disconnected
    case Begin(c, _, _) => c in b.clients && b.clients[c].phase.InPacket?
    case Enter(c) => c in b.clients && b.clients[c].phase.Inserting?
    case Record(c) => c in b.clients && b.clients[c].phase.Recording?
    case Unsubscribe(c, _) => c in b.clients && b.clients[c].phase.InPacket?
    case EndPacket(c) => c in b.clients && b.clients[c].phase.InPacket?
    case Malformed(c) => c in b.clients && b.clients[c].phase.Idle?
    case CloseTest(c) => c in b.clients && !b.clients[c].disconnected
    case CloseMark(c) => c in b.clients && b.clients[c].closing.tests > 0
    case Close(c, order) => c in b.clients && b.clients[c].closing.marks > 0 && Lists(order, b.clients[c].subMap)
  }

  ghost function SetClient(b: Broker, c: nat, cl: Client): Broker {
    b.(clients := b.clients[c := cl])
  }

  ghost function Call(b: Broker, op: Op): Broker {
    b.(ops := b.ops + [op], flat := FlatApply(b.flat, op))
  }

  /** An Unsubscribe whose error is ignored. */
  ghost function Drop(b: Broker, x: Subscription): Broker {
    var ok := Levels(x.topic).Some? && Entry(Place(x.topic), x) in b.flat;
    Call(b, Unsub(x.topic, Some(x))).(failed := b.failed || !ok, orphans := b.orphans - {x})
  }

  ghost function DropAll(b: Broker, order: seq<Subscription>): Broker
    decreases |order|
  {
    if order == [] then b else Drop(DropAll(b, order[..|order| - 1]), order[|order| - 1])
  }

  /** The subscription on a topic goes from the index and from the client's map. */
  ghost function Forget(b: Broker, c: nat, topic: string): Broker
    requires c in b.clients
  {
    var cl := b.clients[c];
    if topic !in cl.subMap then b
    else SetClient(Drop(b, cl.subMap[topic]), c, cl.(subMap := cl.subMap - {topic}))
  }

  ghost function NewSub(b: Broker, c: nat, t: Target, qos: nat): Subscription {
    Subscription(b.made, c, t.filter, qos, t.share, t.group)
  }

  ghost function Next(b: Broker, step: Step): Broker
    requires Enabled(b, step)
  {
    match step
    case Connect(c) => SetClient(b, c, NEW_CLIENT)
    case StartPacket(c) => SetClient(b, c, b.clients[c].(phase := InPacket))
    case Begin(c, topic, qos) =>
      (match ParseTarget(topic)
       case None => b
       case Some(t) =>
         var b1 := Forget(b, c, topic);
         SetClient(b1, c, b1.clients[c].(phase := Inserting(topic, NewSub(b, c, t, qos)))).(made := b.made + 1))
    case Enter(c) =>
      var ph := b.clients[c].phase;
      var op := Sub(ph.sub.topic, ph.sub.qos, Some(ph.sub));
      SetClient(Call(b, op), c, b.clients[c].(phase := if Accepts(op) then Recording(ph.topic, ph.sub) else InPacket))
    case Record(c) =>
      var cl := b.clients[c];
      SetClient(b, c, cl.(subMap := cl.subMap[cl.phase.topic := cl.phase.sub], phase := InPacket))
        .(orphans := if cl.cleaned then b.orphans + {cl.phase.sub} else b.orphans)
    case Unsubscribe(c, topic) => Forget(b, c, topic)
    case EndPacket(c) => SetClient(b, c, b.clients[c].(phase := Idle))
    case Malformed(c) => SetClient(b, c, b.clients[c].(disconnected := true))
    case Close(c, order) =>
      var b1 := DropAll(b, order);
      SetClient(b1, c, Cleaned(b.clients[c]))
    case CloseTest(c) => SetClient(b, c, Tested(b.clients[c]))
    case CloseMark(c) => SetClient(b, c, Marked(b.clients[c]))
  }

  const NEW_CLIENT := Client(map[], false, false, Idle, Closing(0, 0))

  function Tested(cl: Client): Client {
    cl.(closing := cl.closing.(tests := cl.closing.tests + 1))
  }

  function Marked(cl: Client): Client
    requires cl.closing.tests > 0
  {
    cl.(disconnected := true, closing := Closing(cl.closing.tests - 1, cl.closing.marks + 1))
  }

  function Cleaned(cl: Client): Client
    requires cl.closing.marks > 0
  {
    cl.(cleaned := true, closing := cl.closing.(marks := cl.closing.marks - 1))
  }

  const EMPTY_BROKER := Broker([], map[], map[], 0, {}, false)

  ghost predicate IsRun(bs: seq<Broker>, steps: seq<Step>) {
    && |bs| == |steps| + 1 && bs[0] == EMPTY_BROKER
    && forall i | 0 <= i < |steps| :: Enabled(bs[i], steps[i]) && bs[i + 1] == Next(bs[i], steps[i])
  }

  // ---------- who holds what ----------

  /** The client's map holds the subscription, or is about to. */
  ghost predicate HeldBy(cl: Client, x: Subscription) {
    || (!cl.cleaned && x in cl.subMap.Values)
    || (cl.phase.Recording? && cl.phase.sub == x)
  }

  ghost predicate Held(b: Broker, x: Subscription) {
    x in b.orphans || (x.client in b.clients && HeldBy(b.clients[x.client], x))
  }

  ghost predicate ClientOk(b: Broker, c: nat, cl: Client) {
    && (cl.cleaned || cl.closing.marks > 0 ==> cl.disconnected)
    && (forall t | t in cl.subMap ::
          cl.subMap[t].client == c && cl.subMap[t].ref < b.made && Levels(cl.subMap[t].topic).Some?)
    && (forall t, u | t in cl.subMap && u in cl.subMap && t != u :: cl.subMap[t] != cl.subMap[u])
    && (cl.phase.Inserting? || cl.phase.Recording? ==>
          && cl.phase.sub.client == c && cl.phase.sub.ref < b.made
          && cl.phase.sub !in cl.subMap.Values && cl.phase.sub !in b.orphans && cl.phase.topic !in cl.subMap)
    && (cl.phase.Recording? ==> Levels(cl.phase.sub.topic).Some?)
  }

  ghost predicate ClientsOk(b: Broker) {
    && (forall c | c in b.clients :: ClientOk(b, c, b.clients[c]))
    && (forall x | x in b.orphans ::
          x.ref < b.made && x.client in b.clients && b.clients[x.client].cleaned && Levels(x.topic).Some?)
  }

  /** The index holds exactly the subscriptions that are held, each at its filter's place. */
  ghost predicate FlatOk(b: Broker) {
    forall e :: e in b.flat <==> Levels(e.sub.topic).Some? && e.at == Place(e.sub.topic) && Held(b, e.sub)
  }

  ghost predicate Inv(b: Broker) {
    ClientsOk(b) && FlatOk(b)
  }

  /** Only who holds a subscription matters to the index. */
  lemma SameHolders(b: Broker, d: Broker)
    requires FlatOk(b) && d.flat == b.flat && forall x :: Held(d, x) <==> Held(b, x)
    ensures FlatOk(d)
  {
  }

  lemma OneLess(b: Broker, d: Broker, x: Subscription)
    requires FlatOk(b) && Levels(x.topic).Some? && d.flat == b.flat - {Entry(Place(x.topic), x)}
    requires forall y :: Held(d, y) <==> Held(b, y) && y != x
    ensures FlatOk(d)
  {
  }

  /** One client changes; the others are as well off as before. */
  lemma OthersOk(b: Broker, d: Broker, c: nat)
    requires ClientsOk(b) && c in d.clients && ClientOk(d, c, d.clients[c])
    requires d.clients == b.clients[c := d.clients[c]] && d.made >= b.made
    requires forall x | x in d.orphans :: x in b.orphans || (x.client == c && x.ref < d.made && d.clients[c].cleaned && Levels(x.topic).Some?)
    requires c in b.clients && b.clients[c].cleaned ==> d.clients[c].cleaned
    ensures ClientsOk(d)
  {
    forall k | k in d.clients && k != c
      ensures ClientOk(d, k, d.clients[k])
    {
      assert ClientOk(b, k, b.clients[k]);
    }
  }

  lemma ForgetHolders(b: Broker, c: nat, topic: string)
    requires ClientsOk(b) && c in b.clients && topic in b.clients[c].subMap && b.clients[c].phase.InPacket?
    ensures var x := b.clients[c].subMap[topic];
            forall y :: Held(Forget(b, c, topic), y) <==> Held(b, y) && y != x
  {
    var cl := b.clients[c];
    var x, m := cl.subMap[topic], cl.subMap - {topic};
    assert ClientOk(b, c, cl);
    forall y
      ensures y in m.Values <==> y in cl.subMap.Values && y != x
    {
      if y in cl.subMap.Values && y != x {
        var t :| t in cl.subMap && cl.subMap[t] == y;
        assert t in m && m[t] == y;
      }
    }
  }

  lemma ForgetClients(b: Broker, c: nat, topic: string)
    requires ClientsOk(b) && c in b.clients && b.clients[c].phase.InPacket?
    ensures ClientsOk(Forget(b, c, topic))
  {
    var d := Forget(b, c, topic);
    assert ClientOk(b, c, b.clients[c]);
    OthersOk(b, d, c);
  }

  lemma ForgetKeeps(b: Broker, c: nat, topic: string)
    requires Inv(b) && c in b.clients && b.clients[c].phase.InPacket?
    ensures Inv(Forget(b, c, topic))
    ensures !b.clients[c].cleaned ==> Forget(b, c, topic).failed == b.failed
  {
    ForgetClients(b, c, topic);
    if topic in b.clients[c].subMap {
      ForgetHolders(b, c, topic);
      var x := b.clients[c].subMap[topic];
      assert ClientOk(b, c, b.clients[c]);
      OneLess(b, Forget(b, c, topic), x);
      if !b.clients[c].cleaned {
        assert x in b.clients[c].subMap.Values;
        assert Held(b, x);
        assert Entry(Place(x.topic), x) in b.flat;
      }
    }
  }

  /** Steps that change neither the index nor who holds what. */
  predicate Quiet(step: Step) {
    step.Connect? || step.StartPacket? || step.EndPacket? || step.Malformed? || step.CloseTest? || step.CloseMark?
  }

  lemma QuietClients(b: Broker, step: Step)
    requires ClientsOk(b) && Enabled(b, step) && Quiet(step)
    ensures ClientsOk(Next(b, step))
  {
    assert step.c in b.clients ==> ClientOk(b, step.c, b.clients[step.c]);
    OthersOk(b, Next(b, step), step.c);
  }

  lemma QuietHolders(b: Broker, step: Step)
    requires Enabled(b, step) && Quiet(step)
    ensures forall x :: Held(Next(b, step), x) <==> Held(b, x)
  {
  }

  lemma QuietKeeps(b: Broker, step: Step)
    requires Inv(b) && Enabled(b, step) && Quiet(step)
    ensures Inv(Next(b, step))
  {
    QuietClients(b, step);
    QuietHolders(b, step);
    SameHolders(b, Next(b, step));
  }

  lemma BeginKeeps(b: Broker, c: nat, topic: string, qos: nat)
    requires Inv(b) && Enabled(b, Begin(c, topic, qos))
    ensures Inv(Next(b, Begin(c, topic, qos)))
    ensures !b.clients[c].cleaned ==> Next(b, Begin(c, topic, qos)).failed == b.failed
  {
    if ParseTarget(topic).Some? {
      ForgetKeeps(b, c, topic);
      var d := Forget(b, c, topic);
      var x := NewSub(b, c, ParseTarget(topic).value, qos);
      AnnounceKeeps(d, c, topic, x);
      assert Next(b, Begin(c, topic, qos)) == SetClient(d, c, d.clients[c].(phase := Inserting(topic, x))).(made := d.made + 1);
    }
  }

  /** A fresh subscription object is about to enter the index. */
  lemma AnnounceKeeps(b: Broker, c: nat, topic: string, x: Subscription)
    requires Inv(b) && c in b.clients && b.clients[c].phase.InPacket? && topic !in b.clients[c].subMap
    requires x.ref == b.made && x.client == c
    ensures Inv(SetClient(b, c, b.clients[c].(phase := Inserting(topic, x))).(made := b.made + 1))
  {
    var d := SetClient(b, c, b.clients[c].(phase := Inserting(topic, x))).(made := b.made + 1);
    assert ClientOk(b, c, b.clients[c]);
    OthersOk(b, d, c);
    SameHolders(b, d);
  }

  lemma EnterClients(b: Broker, c: nat)
    requires ClientsOk(b) && Enabled(b, Enter(c))
    ensures ClientsOk(Next(b, Enter(c)))
  {
    assert ClientOk(b, c, b.clients[c]);
    OthersOk(b, Next(b, Enter(c)), c);
  }

  lemma EnterHolders(b: Broker, c: nat)
    requires ClientsOk(b) && Enabled(b, Enter(c))
    ensures var d, x := Next(b, Enter(c)), b.clients[c].phase.sub;
            && (forall y | y != x :: Held(d, y) <==> Held(b, y)) && !Held(b, x)
            && (Held(d, x) <==> Accepts(Sub(x.topic, x.qos, Some(x))))
  {
    assert ClientOk(b, c, b.clients[c]);
  }

  lemma OneMoreHeld(b: Broker, d: Broker, x: Subscription)
    requires FlatOk(b) && Levels(x.topic).Some? && d.flat == b.flat[Entry(Place(x.topic), x) := x.qos]
    requires forall y :: Held(d, y) <==> Held(b, y) || y == x
    ensures FlatOk(d)
  {
  }

  lemma EnterKeeps(b: Broker, c: nat)
    requires Inv(b) && Enabled(b, Enter(c))
    ensures Inv(Next(b, Enter(c)))
  {
    var d, x := Next(b, Enter(c)), b.clients[c].phase.sub;
    EnterClients(b, c);
    EnterHolders(b, c);
    if Accepts(Sub(x.topic, x.qos, Some(x))) {
      OneMoreHeld(b, d, x);
    } else {
      SameHolders(b, d);
    }
  }

  lemma ValuesWith(m: map<string, Subscription>, t: string, x: Subscription)
    requires t !in m
    ensures forall y :: y in m[t := x].Values <==> y in m.Values || y == x
  {
    var n := m[t := x];
    assert n[t] == x;
    forall y | y in m.Values
      ensures y in n.Values
    {
      var u :| u in m && m[u] == y;
      assert n[u] == y;
    }
  }

  lemma RecordClient(b: Broker, c: nat)
    requires ClientsOk(b) && Enabled(b, Record(c))
    ensures ClientOk(Next(b, Record(c)), c, Next(b, Record(c)).clients[c])
  {
    assert ClientOk(b, c, b.clients[c]);
  }

  lemma RecordHolders(b: Broker, c: nat)
    requires ClientsOk(b) && Enabled(b, Record(c))
    ensures forall y :: Held(Next(b, Record(c)), y) <==> Held(b, y)
  {
    var cl := b.clients[c];
    assert ClientOk(b, c, cl);
    ValuesWith(cl.subMap, cl.phase.topic, cl.phase.sub);
  }

  lemma RecordKeeps(b: Broker, c: nat)
    requires Inv(b) && Enabled(b, Record(c))
    ensures Inv(Next(b, Record(c)))
  {
    RecordHolders(b, c);
    RecordClient(b, c);
    assert ClientOk(b, c, b.clients[c]);
    OthersOk(b, Next(b, Record(c)), c);
    SameHolders(b, Next(b, Record(c)));
  }

  lemma {:induction false} DropAllOrphans(b: Broker, order: seq<Subscription>)
    ensures var d := DropAll(b, order);
            d.clients == b.clients && d.made == b.made && d.orphans == b.orphans - (set x | x in order)
    decreases |order|
  {
    if order != [] {
      var init, last := order[..|order| - 1], order[|order| - 1];
      DropAllOrphans(b, init);
      assert forall x :: x in order <==> x in init || x == last;
    }
  }

  lemma {:induction false} DropAllFlat(b: Broker, order: seq<Subscription>)
    requires forall x | x in order :: Levels(x.topic).Some?
    ensures forall e :: e in DropAll(b, order).flat <==> e in b.flat && !(e.sub in order && e.at == Place(e.sub.topic))
    decreases |order|
  {
    if order != [] {
      var init, last := order[..|order| - 1], order[|order| - 1];
      DropAllFlat(b, init);
      assert forall x :: x in order <==> x in init || x == last;
    }
  }

  lemma DropAllEffect(b: Broker, order: seq<Subscription>)
    requires forall x | x in order :: Levels(x.topic).Some?
    ensures var d := DropAll(b, order);
            && d.clients == b.clients && d.made == b.made && d.orphans == b.orphans - (set x | x in order)
            && (forall e :: e in d.flat <==> e in b.flat && !(e.sub in order && e.at == Place(e.sub.topic)))
  {
    DropAllOrphans(b, order);
    DropAllFlat(b, order);
  }

  lemma {:induction false} DropAllFails(b: Broker, order: seq<Subscription>)
    requires forall x | x in order :: Levels(x.topic).Some?
    requires forall i, j | 0 <= i < j < |order| :: order[i] != order[j]
    ensures DropAll(b, order).failed <==> b.failed || exists x | x in order :: Entry(Place(x.topic), x) !in b.flat
    decreases |order|
  {
    if order != [] {
      var init, last := order[..|order| - 1], order[|order| - 1];
      DropAllFails(b, init);
      DropAllFlat(b, init);
      assert last !in init;
      assert forall x :: x in order <==> x in init || x == last;
    }
  }

  lemma CloseOwn(b: Broker, c: nat, order: seq<Subscription>)
    requires ClientsOk(b) && Enabled(b, Close(c, order))
    ensures forall x | x in order :: Levels(x.topic).Some? && x.client == c
  {
    var cl := b.clients[c];
    assert ClientOk(b, c, cl);
    forall x | x in order
      ensures Levels(x.topic).Some? && x.client == c
    {
      var t :| t in cl.subMap && cl.subMap[t] == x;
    }
  }

  lemma CloseClients(b: Broker, c: nat, order: seq<Subscription>)
    requires ClientsOk(b) && Enabled(b, Close(c, order))
    ensures ClientsOk(Next(b, Close(c, order)))
  {
    var d := Next(b, Close(c, order));
    DropAllOrphans(b, order);
    assert ClientOk(b, c, b.clients[c]);
    assert ClientOk(d, c, d.clients[c]);
    OthersOk(b, d, c);
  }

  lemma CloseHeld(b: Broker, c: nat, order: seq<Subscription>)
    requires ClientsOk(b) && Enabled(b, Close(c, order))
    ensures forall y :: Held(Next(b, Close(c, order)), y) <==> Held(b, y) && y !in order
  {
    assert ClientOk(b, c, b.clients[c]);
    DropAllOrphans(b, order);
  }

  lemma ManyLess(b: Broker, d: Broker, order: seq<Subscription>)
    requires FlatOk(b) && forall x | x in order :: Levels(x.topic).Some?
    requires forall e :: e in d.flat <==> e in b.flat && !(e.sub in order && e.at == Place(e.sub.topic))
    requires forall y :: Held(d, y) <==> Held(b, y) && y !in order
    ensures FlatOk(d)
  {
  }

  lemma CloseKeeps(b: Broker, c: nat, order: seq<Subscription>)
    requires Inv(b) && Enabled(b, Close(c, order))
    ensures Inv(Next(b, Close(c, order)))
    ensures Next(b, Close(c, order)).orphans <= b.orphans
  {
    CloseClients(b, c, order);
    CloseOwn(b, c, order);
    DropAllEffect(b, order);
    CloseHeld(b, c, order);
    ManyLess(b, Next(b, Close(c, order)), order);
  }

  /** A clean-up meets an error exactly when another has run and left something in the map
      that was recorded before it. */
  lemma CloseFails(b: Broker, c: nat, order: seq<Subscription>)
    requires Inv(b) && Enabled(b, Close(c, order))
    ensures Next(b, Close(c, order)).failed <==>
            b.failed || (b.clients[c].cleaned && exists x | x in b.clients[c].subMap.Values :: x !in b.orphans)
  {
    var cl := b.clients[c];
    CloseOwn(b, c, order);
    DropAllFails(b, order);
    assert ClientOk(b, c, cl);
    forall x | x in order
      ensures Entry(Place(x.topic), x) in b.flat <==> x in b.orphans || !cl.cleaned
    {
      assert x in cl.subMap.Values;
      assert Held(b, x) <==> x in b.orphans || !cl.cleaned;
    }
  }

  lemma StepKeeps(b: Broker, step: Step)
    requires Inv(b) && Enabled(b, step)
    ensures Inv(Next(b, step))
  {
    match step
    case Connect(_) => QuietKeeps(b, step);
    case StartPacket(_) => QuietKeeps(b, step);
    case EndPacket(_) => QuietKeeps(b, step);
    case Malformed(_) => QuietKeeps(b, step);
    case CloseTest(_) => QuietKeeps(b, step);
    case CloseMark(_) => QuietKeeps(b, step);
    case Begin(c, topic, qos) => BeginKeeps(b, c, topic, qos);
    case Enter(c) => EnterKeeps(b, c);
    case Record(c) => RecordKeeps(b, c);
    case Unsubscribe(c, topic) => ForgetKeeps(b, c, topic);
    case Close(c, order) => CloseKeeps(b, c, order);
  }

  // ---------- the calls behind the list ----------

  // ---------- what the sections of a packet amount to ----------

  /** The first section of a subscribe: the subscription that the topic replaces is gone from
      map and index, and the one it asks for is made; a malformed shared topic changes nothing. */
  lemma BeginIs(b: Broker, c: nat, topic: string, qos: nat)
    requires Inv(b) && Enabled(b, Begin(c, topic, qos))
    ensures var d := Next(b, Begin(c, topic, qos));
            match ParseTarget(topic)
            case None => d == b
            case Some(t) =>
              var x := Subscription(b.made, c, t.filter, qos, t.share, t.group);
              && d.clients == b.clients[c := b.clients[c].(subMap := b.clients[c].subMap - {topic}, phase := Inserting(topic, x))]
              && d.flat == FlatWithout(b, c, topic) && d.made == b.made + 1
  {
    if ParseTarget(topic).Some? {
      var b1 := Forget(b, c, topic);
      var x := NewSub(b, c, ParseTarget(topic).value, qos);
      ForgottenIs(b, c, topic);
      SetTwice(b, b1, c, b1.clients[c].(phase := Inserting(topic, x)));
    }
  }

  lemma SetTwice(b: Broker, b1: Broker, c: nat, cl: Client)
    requires c in b1.clients && b1.clients == b.clients[c := b1.clients[c]]
    ensures SetClient(b1, c, cl).clients == b.clients[c := cl]
  {
  }

  /** The second: it enters the index at its filter's place with its QoS, or is refused for a
      malformed filter or a QoS above 2; the client's map is not touched. */
  lemma EnterIs(b: Broker, c: nat)
    requires Enabled(b, Enter(c))
    ensures var d, cl, x := Next(b, Enter(c)), b.clients[c], b.clients[c].phase.sub;
            if Levels(x.topic).Some? && x.qos <= 2
            then d.flat == b.flat[Entry(Place(x.topic), x) := x.qos] && d.clients == b.clients[c := cl.(phase := Recording(cl.phase.topic, x))]
            else d.flat == b.flat && d.clients == b.clients[c := cl.(phase := InPacket)]
  {
  }

  /** The third: it is in the client's map under the topic as the client wrote it. */
  lemma RecordIs(b: Broker, c: nat)
    requires Enabled(b, Record(c))
    ensures var d, cl := Next(b, Record(c)), b.clients[c];
            && d.flat == b.flat && d.clients == b.clients[c := d.clients[c]]
            && d.clients[c].subMap == cl.subMap[cl.phase.topic := cl.phase.sub] && d.clients[c].phase == InPacket
  {
  }

  /** The index without the entry of the client's subscription on the topic. */
  ghost function FlatWithout(b: Broker, c: nat, topic: string): Flat
    requires c in b.clients
  {
    var m := b.clients[c].subMap;
    map e | e in b.flat && !(topic in m && e.sub == m[topic]) :: b.flat[e]
  }

  /** Forgetting a topic takes its subscription out of the map and the index, and no other. */
  lemma ForgottenIs(b: Broker, c: nat, topic: string)
    requires Inv(b) && c in b.clients && b.clients[c].phase.InPacket?
    ensures var d := Forget(b, c, topic);
            && d.clients == b.clients[c := b.clients[c].(subMap := b.clients[c].subMap - {topic})]
            && d.flat == FlatWithout(b, c, topic) && d.made == b.made
  {
    var cl := b.clients[c];
    if topic in cl.subMap {
      OneEntry(b, c, topic);
      OneOut(b, c, topic, Entry(Place(cl.subMap[topic].topic), cl.subMap[topic]));
    } else {
      assert cl.subMap - {topic} == cl.subMap;
      assert b.clients[c := cl] == b.clients;
      assert FlatWithout(b, c, topic) == b.flat;
    }
  }

  lemma OneEntry(b: Broker, c: nat, topic: string)
    requires Inv(b) && c in b.clients && topic in b.clients[c].subMap
    ensures var x := b.clients[c].subMap[topic];
            Levels(x.topic).Some? && forall e | e in b.flat && e.sub == x :: e == Entry(Place(x.topic), x)
  {
    assert ClientOk(b, c, b.clients[c]);
  }

  lemma OneOut(b: Broker, c: nat, topic: string, x: Entry)
    requires c in b.clients && topic in b.clients[c].subMap && x.sub == b.clients[c].subMap[topic]
    requires forall e | e in b.flat && e.sub == x.sub :: e == x
    ensures FlatWithout(b, c, topic) == b.flat - {x}
  {
  }

  lemma {:induction false} DropAllValues(b: Broker, order: seq<Subscription>)
    ensures var d := DropAll(b, order); forall e | e in d.flat :: e in b.flat && d.flat[e] == b.flat[e]
    decreases |order|
  {
    if order != [] {
      DropAllValues(b, order[..|order| - 1]);
    }
  }

  /** A clean-up takes every subscription of the client's map out of the index, and no other. */
  lemma CloseIs(b: Broker, c: nat, order: seq<Subscription>)
    requires Inv(b) && Enabled(b, Close(c, order))
    ensures var d := Next(b, Close(c, order));
            && (forall e :: e in d.flat <==> e in b.flat && e.sub !in b.clients[c].subMap.Values)
            && (forall e | e in d.flat :: d.flat[e] == b.flat[e])
            && (forall k | k in b.clients && k != c :: k in d.clients && d.clients[k] == b.clients[k])
  {
    CloseOwn(b, c, order);
    DropAllEffect(b, order);
    DropAllValues(b, order);
    forall e | e in b.flat
      ensures e.at == Place(e.sub.topic)
    {
    }
  }


  lemma {:induction false} DropAllCalls(b: Broker, order: seq<Subscription>)
    requires b.flat == FlatRun(b.ops)
    ensures DropAll(b, order).flat == FlatRun(DropAll(b, order).ops)
    decreases |order|
  {
    if order != [] {
      var init, last := order[..|order| - 1], order[|order| - 1];
      DropAllCalls(b, init);
      CallKeeps(DropAll(b, init), Unsub(last.topic, Some(last)));
    }
  }

  lemma CallKeeps(b: Broker, op: Op)
    requires b.flat == FlatRun(b.ops)
    ensures Call(b, op).flat == FlatRun(Call(b, op).ops)
  {
    var ops := b.ops + [op];
    assert ops[..|ops| - 1] == b.ops;
  }

  lemma StepCalls(b: Broker, step: Step)
    requires Enabled(b, step) && b.flat == FlatRun(b.ops)
    ensures Next(b, step).flat == FlatRun(Next(b, step).ops)
  {
    match step
    case Enter(c) =>
      var x := b.clients[c].phase.sub;
      CallKeeps(b, Sub(x.topic, x.qos, Some(x)));
    case Begin(c, topic, _) =>
      if topic in b.clients[c].subMap {
        var x := b.clients[c].subMap[topic];
        CallKeeps(b, Unsub(x.topic, Some(x)));
      }
    case Unsubscribe(c, topic) =>
      if topic in b.clients[c].subMap {
        var x := b.clients[c].subMap[topic];
        CallKeeps(b, Unsub(x.topic, Some(x)));
      }
    case Close(c, order) => DropAllCalls(b, order);
    case _ =>
  }

  /** In every reachable state the trie holds exactly: the values of the maps of the clients
      not yet cleaned up, the one subscription a worker is about to record, and the ones
      recorded after a clean-up. */
  lemma {:induction false} RunAgrees(bs: seq<Broker>, steps: seq<Step>)
    requires IsRun(bs, steps)
    ensures var b := bs[|steps|];
            Inv(b) && forall e :: Live(Run(b.ops), e) <==>
                                  Levels(e.sub.topic).Some? && e.at == Place(e.sub.topic) && Held(b, e.sub)
    decreases |steps|
  {
    RunKeepsInv(bs, steps);
    RunRefinesFlat(bs[|steps|].ops);
  }

  lemma {:induction false} RunKeepsInv(bs: seq<Broker>, steps: seq<Step>)
    requires IsRun(bs, steps)
    ensures Inv(bs[|steps|]) && bs[|steps|].flat == FlatRun(bs[|steps|].ops)
    decreases |steps|
  {
    if steps != [] {
      var n := |steps| - 1;
      assert IsRun(bs[..n + 1], steps[..n]);
      RunKeepsInv(bs[..n + 1], steps[..n]);
      StepKeeps(bs[n], steps[n]);
      StepCalls(bs[n], steps[n]);
    }
  }

  // ---------- closes that respect packets ----------

  /** No close takes effect inside the handling of one of that client's packets, and no two
      clean up after the same client. */
  ghost predicate PacketAtomic(bs: seq<Broker>, steps: seq<Step>)
    requires IsRun(bs, steps)
  {
    forall i | 0 <= i < |steps| :: RespectsPackets(bs[i], steps[i])
  }

  ghost predicate RespectsPackets(b: Broker, step: Step) {
    && (step.CloseMark? && step.c in b.clients ==> b.clients[step.c].phase.Idle?)
    && (step.Close? && step.c in b.clients ==> b.clients[step.c].phase.Idle? && !b.clients[step.c].cleaned)
  }

  /** A worker inside a packet serves a connected client. */
  ghost predicate Calm(b: Broker) {
    b.orphans == {} && !b.failed && Served(b)
  }

  /** Nobody inside a packet is cut off. */
  ghost predicate Served(b: Broker) {
    forall c | c in b.clients && !b.clients[c].phase.Idle? :: !b.clients[c].disconnected && !b.clients[c].cleaned
  }

  lemma StepServes(b: Broker, step: Step)
    requires ClientsOk(b) && Served(b) && Enabled(b, step) && RespectsPackets(b, step)
    ensures Served(Next(b, step))
  {
    match step
    case StartPacket(c) => assert ClientOk(b, c, b.clients[c]);
    case Close(c, order) => DropAllOrphans(b, order);
    case _ =>
  }

  lemma StepStaysCalm(b: Broker, step: Step)
    requires Inv(b) && Calm(b) && Enabled(b, step) && RespectsPackets(b, step)
    ensures Calm(Next(b, step))
  {
    StepServes(b, step);
    StepFails(b, step);
    if step.Close? {
      CloseKeeps(b, step.c, step.order);
    }
  }

  /** Then no ignored Unsubscribe ever fails, the trie holds exactly what the maps of the
      clients not cleaned up hold (and what a worker is about to record there), and a
      cleaned-up client has nothing left in it. */
  lemma {:induction false} PacketAtomicAgrees(bs: seq<Broker>, steps: seq<Step>)
    requires IsRun(bs, steps) && PacketAtomic(bs, steps)
    ensures var b := bs[|steps|];
            && Calm(b)
            && (forall e :: Live(Run(b.ops), e) <==>
                            && Levels(e.sub.topic).Some? && e.at == Place(e.sub.topic)
                            && e.sub.client in b.clients && HeldBy(b.clients[e.sub.client], e.sub))
            && (forall e | Live(Run(b.ops), e) :: !b.clients[e.sub.client].cleaned)
    decreases |steps|
  {
    RunAgrees(bs, steps);
    PacketAtomicCalm(bs, steps);
  }

  lemma {:induction false} PacketAtomicCalm(bs: seq<Broker>, steps: seq<Step>)
    requires IsRun(bs, steps) && PacketAtomic(bs, steps)
    ensures Calm(bs[|steps|])
    decreases |steps|
  {
    if steps != [] {
      var n := |steps| - 1;
      assert IsRun(bs[..n + 1], steps[..n]);
      PacketAtomicCalm(bs[..n + 1], steps[..n]);
      RunKeepsInv(bs[..n + 1], steps[..n]);
      StepStaysCalm(bs[n], steps[n]);
    }
  }

  /** No subscription is recorded for a client whose clean-up has already run. */
  ghost predicate NoLateRecord(bs: seq<Broker>, steps: seq<Step>)
    requires IsRun(bs, steps)
  {
    forall i | 0 <= i < |steps| && steps[i].Record? :: !bs[i].clients[steps[i].c].cleaned
  }

  /** The trie holds only what a map of a client not cleaned up holds or is about to hold. */
  ghost predicate NothingStray(b: Broker) {
    forall e | Live(Run(b.ops), e) :: e.sub.client in b.clients && HeldBy(b.clients[e.sub.client], e.sub)
  }

  lemma {:induction false} NoLateRecordNoOrphan(bs: seq<Broker>, steps: seq<Step>)
    requires IsRun(bs, steps) && NoLateRecord(bs, steps)
    ensures bs[|steps|].orphans == {}
    decreases |steps|
  {
    if steps != [] {
      var n := |steps| - 1;
      assert IsRun(bs[..n + 1], steps[..n]);
      NoLateRecordNoOrphan(bs[..n + 1], steps[..n]);
      if steps[n].Close? {
        RunKeepsInv(bs[..n + 1], steps[..n]);
        CloseKeeps(bs[n], steps[n].c, steps[n].order);
      }
    }
  }

  lemma LateRecordStrays(b: Broker, c: nat)
    requires Inv(b) && b.flat == FlatRun(b.ops) && Enabled(b, Record(c)) && b.clients[c].cleaned
    ensures !NothingStray(Next(b, Record(c)))
  {
    var x := b.clients[c].phase.sub;
    assert ClientOk(b, c, b.clients[c]);
    assert Held(b, x);
    RunRefinesFlat(b.ops);
    assert Live(Run(b.ops), Entry(Place(x.topic), x));
  }

  /** Exactly when the maps account for the whole trie: the trie holds nothing else in any
      state of a run if and only if no subscription was recorded after a clean-up. */
  lemma StrayIffLateRecord(bs: seq<Broker>, steps: seq<Step>)
    requires IsRun(bs, steps)
    ensures (forall i | 0 <= i < |bs| :: NothingStray(bs[i])) <==> NoLateRecord(bs, steps)
  {
    forall i | 0 <= i < |bs|
      ensures IsRun(bs[..i + 1], steps[..i])
      ensures NoLateRecord(bs, steps) ==> NothingStray(bs[i])
    {
      assert IsRun(bs[..i + 1], steps[..i]);
      RunAgrees(bs[..i + 1], steps[..i]);
      if NoLateRecord(bs, steps) {
        NoLateRecordNoOrphan(bs[..i + 1], steps[..i]);
      }
    }
    if !NoLateRecord(bs, steps) {
      var i :| 0 <= i < |steps| && steps[i].Record? && bs[i].clients[steps[i].c].cleaned;
      assert IsRun(bs[..i + 1], steps[..i]);
      RunKeepsInv(bs[..i + 1], steps[..i]);
      LateRecordStrays(bs[i], steps[i].c);
      assert !NothingStray(bs[i + 1]);
    }
  }

  // ---------- ignored errors ----------

  /** The section that drops a topic, or a second clean-up, meets in the map of a client whose
      clean-up has run a subscription that was recorded before it. */
  ghost predicate MeetsCleaned(b: Broker, step: Step) {
    && step.c in b.clients && b.clients[step.c].cleaned
    && if step.Close? then exists x | x in b.clients[step.c].subMap.Values :: x !in b.orphans
       else
         && ((step.Begin? && ParseTarget(step.topic).Some?) || step.Unsubscribe?)
         && step.topic in b.clients[step.c].subMap && b.clients[step.c].subMap[step.topic] !in b.orphans
  }

  lemma ForgetFails(b: Broker, c: nat, topic: string)
    requires Inv(b) && c in b.clients && b.clients[c].phase.InPacket?
    ensures Forget(b, c, topic).failed <==>
            || b.failed
            || (topic in b.clients[c].subMap && b.clients[c].cleaned && b.clients[c].subMap[topic] !in b.orphans)
  {
    if topic in b.clients[c].subMap {
      var x := b.clients[c].subMap[topic];
      assert ClientOk(b, c, b.clients[c]);
      assert x in b.clients[c].subMap.Values;
      assert Held(b, x) <==> x in b.orphans || !b.clients[c].cleaned;
      assert Entry(Place(x.topic), x) in b.flat <==> Held(b, x);
    }
  }

  lemma StepFails(b: Broker, step: Step)
    requires Inv(b) && Enabled(b, step)
    ensures Next(b, step).failed <==> b.failed || MeetsCleaned(b, step)
  {
    match step
    case Begin(c, topic, _) => ForgetFails(b, c, topic);
    case Unsubscribe(c, topic) => ForgetFails(b, c, topic);
    case Close(c, order) => CloseFails(b, c, order);
    case _ =>
  }

  /** Exactly when an Unsubscribe has failed in a run, ignored by a handler or logged by a
      close: a topic was unsubscribed or subscribed again that a client's map still held from
      before its clean-up, or a second clean-up found such a topic. */
  lemma FailedIff(bs: seq<Broker>, steps: seq<Step>)
    requires IsRun(bs, steps)
    ensures bs[|steps|].failed <==> exists i :: 0 <= i < |steps| && MeetsCleaned(bs[i], steps[i])
  {
    FailedUpTo(bs, steps, |steps|);
  }

  lemma {:induction false} FailedUpTo(bs: seq<Broker>, steps: seq<Step>, m: nat)
    requires IsRun(bs, steps) && m <= |steps|
    ensures bs[m].failed <==> exists i :: 0 <= i < m && MeetsCleaned(bs[i], steps[i])
  {
    if m > 0 {
      FailedUpTo(bs, steps, m - 1);
      FailedAt(bs, steps, m - 1);
    }
  }

  lemma FailedAt(bs: seq<Broker>, steps: seq<Step>, i: nat)
    requires IsRun(bs, steps) && i < |steps|
    ensures bs[i + 1].failed <==> bs[i].failed || MeetsCleaned(bs[i], steps[i])
  {
    InvAt(bs, steps, i);
    StepFails(bs[i], steps[i]);
  }

  lemma InvAt(bs: seq<Broker>, steps: seq<Step>, m: nat)
    requires IsRun(bs, steps) && m <= |steps|
    ensures Inv(bs[m])
  {
    assert IsRun(bs[..m + 1], steps[..m]);
    RunKeepsInv(bs[..m + 1], steps[..m]);
  }

  // ---------- clients disconnected by an invalid packet ----------

  ghost predicate HasClosed(steps: seq<Step>, c: nat) {
    exists i :: 0 <= i < |steps| && steps[i].Close? && steps[i].c == c
  }

  /** What a step does to a client's standing. */
  lemma StepStanding(b: Broker, step: Step, c: nat)
    requires Enabled(b, step) && c in Next(b, step).clients
    ensures var d := Next(b, step);
            if c !in b.clients then !d.clients[c].cleaned && step.Connect?
            else d.clients[c].cleaned <==> b.clients[c].cleaned || (step.Close? && step.c == c)
  {
    if step.Close? {
      DropAllOrphans(b, step.order);
    }
  }

  lemma {:induction false} Unknown(bs: seq<Broker>, steps: seq<Step>, c: nat)
    requires IsRun(bs, steps) && c !in bs[|steps|].clients
    ensures !HasClosed(steps, c)
    decreases |steps|
  {
    if steps != [] {
      var n := |steps| - 1;
      assert IsRun(bs[..n + 1], steps[..n]);
      if steps[n].Close? {
        DropAllOrphans(bs[n], steps[n].order);
      }
      assert c !in bs[n].clients;
      Unknown(bs[..n + 1], steps[..n], c);
      OneMore(steps, c);
    }
  }

  lemma OneMore(steps: seq<Step>, c: nat)
    requires steps != []
    ensures var init, last := steps[..|steps| - 1], steps[|steps| - 1];
            HasClosed(steps, c) <==> HasClosed(init, c) || (last.Close? && last.c == c)
  {
    var n := |steps| - 1;
    assert forall i | 0 <= i < n :: steps[..n][i] == steps[i];
    if HasClosed(steps[..n], c) {
      var i :| 0 <= i < n && steps[..n][i].Close? && steps[..n][i].c == c;
      assert steps[i].Close?;
    }
  }

  lemma {:induction false} Standing(bs: seq<Broker>, steps: seq<Step>, c: nat)
    requires IsRun(bs, steps) && c in bs[|steps|].clients
    ensures bs[|steps|].clients[c].cleaned <==> HasClosed(steps, c)
    decreases |steps|
  {
    if steps != [] {
      var n := |steps| - 1;
      assert IsRun(bs[..n + 1], steps[..n]);
      StepStanding(bs[n], steps[n], c);
      OneMore(steps, c);
      if c in bs[n].clients {
        Standing(bs[..n + 1], steps[..n], c);
      } else {
        Unknown(bs[..n + 1], steps[..n], c);
      }
    }
  }

  ghost predicate HasEntry(b: Broker, c: nat) {
    exists e :: Live(Run(b.ops), e) && e.sub.client == c
  }

  ghost predicate HasOrphan(b: Broker, c: nat) {
    exists x :: x in b.orphans && x.client == c
  }

  /** A client has entries in the trie exactly when no clean-up of it has run and it has
      subscriptions, or something of it was recorded, or is about to be, after its clean-up. */
  lemma ClientKeepsIff(bs: seq<Broker>, steps: seq<Step>, c: nat)
    requires IsRun(bs, steps) && c in bs[|steps|].clients
    ensures var b := bs[|steps|];
            HasEntry(b, c) <==>
            || (!HasClosed(steps, c) && b.clients[c].subMap != map[])
            || HasOrphan(b, c) || b.clients[c].phase.Recording?
  {
    var b := bs[|steps|];
    var cl := b.clients[c];
    RunAgrees(bs, steps);
    Standing(bs, steps, c);
    assert ClientOk(b, c, cl);
    if !cl.cleaned && cl.subMap != map[] {
      var t :| t in cl.subMap;
      assert Held(b, cl.subMap[t]);
      assert Live(Run(b.ops), Entry(Place(cl.subMap[t].topic), cl.subMap[t]));
    }
    if HasOrphan(b, c) {
      var x :| x in b.orphans && x.client == c;
      assert Held(b, x);
      assert Live(Run(b.ops), Entry(Place(x.topic), x));
    }
    if cl.phase.Recording? {
      assert Held(b, cl.phase.sub);
      assert Live(Run(b.ops), Entry(Place(cl.phase.sub.topic), cl.phase.sub));
    }
  }

  /** Disconnected by an invalid packet, outside any packet, with no close on its way. */
  ghost predicate Abandoned(cl: Client) {
    Refused(cl) && cl.phase.Idle?
  }

  ghost predicate Refused(cl: Client) {
    cl.disconnected && !cl.cleaned && cl.closing == Closing(0, 0)
  }

  ghost predicate AbandonedOk(b: Broker) {
    forall c | c in b.clients && Refused(b.clients[c]) :: Abandoned(b.clients[c])
  }

  lemma StepAbandons(b: Broker, step: Step, c: nat)
    requires AbandonedOk(b) && Enabled(b, step)
    ensures AbandonedOk(Next(b, step))
    ensures c in b.clients && Abandoned(b.clients[c]) ==> c in Next(b, step).clients && Next(b, step).clients[c] == b.clients[c]
  {
    if step.Close? {
      DropAllOrphans(b, step.order);
    }
  }

  lemma {:induction false} RunAbandons(bs: seq<Broker>, steps: seq<Step>, i: nat)
    requires IsRun(bs, steps) && i < |bs|
    ensures AbandonedOk(bs[i])
  {
    if i > 0 {
      RunAbandons(bs, steps, i - 1);
      StepAbandons(bs[i - 1], steps[i - 1], 0);
    }
  }

  /** Such a client stays as it is for ever: no later close passes the test. */
  lemma {:induction false} RefusedIsForever(bs: seq<Broker>, steps: seq<Step>, c: nat, i: nat, j: nat)
    requires IsRun(bs, steps) && i <= j < |bs| && c in bs[i].clients
    requires Refused(bs[i].clients[c])
    ensures c in bs[j].clients && bs[j].clients[c] == bs[i].clients[c]
    decreases j
  {
    RunAbandons(bs, steps, i);
    if i < j {
      RefusedIsForever(bs, steps, c, i, j - 1);
      RunAbandons(bs, steps, j - 1);
      StepAbandons(bs[j - 1], steps[j - 1], c);
    }
  }

  // ---------- a close inside a subscribe ----------

  lemma Extend(bs: seq<Broker>, steps: seq<Step>, step: Step) returns (cs: seq<Broker>, more: seq<Step>)
    requires IsRun(bs, steps) && Enabled(bs[|steps|], step)
    ensures IsRun(cs, more) && |more| == |steps| + 1 && cs[|more|] == Next(bs[|steps|], step)
  {
    cs, more := bs + [Next(bs[|steps|], step)], steps + [step];
  }

  /** Client 0, inside a subscribe to "a", has entered the index and not its own map. */
  lemma HalfwaySubscribed() returns (bs: seq<Broker>, steps: seq<Step>, x: Subscription)
    ensures IsRun(bs, steps)
    ensures bs[|steps|].clients == map[0 := Client(map[], false, false, Recording("a", x), Closing(0, 0))] && bs[|steps|].orphans == {}
  {
    SepIndexUnique("a", 1);
    assert "a"[..1] == "a" && NextLevel("a") == Level("a", "") && Levels("a").Some? by {
      assert Levels("").Some?;
    }
    assert ParseTarget("a") == Some(Target(false, "", "a"));
    x := Subscription(0, 0, "a", 0, false, "");
    bs, steps := [EMPTY_BROKER], [];
    bs, steps := Extend(bs, steps, Connect(0));
    bs, steps := Extend(bs, steps, StartPacket(0));
    bs, steps := Extend(bs, steps, Begin(0, "a", 0));
    assert bs[|steps|].clients == map[0 := Client(map[], false, false, Inserting("a", x), Closing(0, 0))];
    bs, steps := Extend(bs, steps, Enter(0));
  }

  /** A close between a subscribe's entry into the trie and its entry into the map: the
      client is cleaned up, and its subscription stays in the trie. */
  lemma CloseInsideLeavesEntry() returns (bs: seq<Broker>, steps: seq<Step>)
    ensures IsRun(bs, steps) && !NoLateRecord(bs, steps)
    ensures var b := bs[|steps|];
            && 0 in b.clients && b.clients[0].cleaned && !NothingStray(b)
  {
    var x;
    bs, steps, x := HalfwaySubscribed();
    bs, steps := Extend(bs, steps, CloseTest(0));
    bs, steps := Extend(bs, steps, CloseMark(0));
    bs, steps := Extend(bs, steps, Close(0, []));
    assert bs[|steps|].clients[0] == Client(map[], true, true, Recording("a", x), Closing(0, 0));
    RunKeepsInv(bs, steps);
    LateRecordStrays(bs[|steps|], 0);
    ghost var n := |steps|;
    bs, steps := Extend(bs, steps, Record(0));
    StrayIffLateRecord(bs, steps);
    assert !NothingStray(bs[|steps|]);
  }

  /** A subscription recorded, the client closed inside the same packet, and the topic then
      unsubscribed: the ignored Unsubscribe fails. */
  lemma UnsubscribeAfterCloseFails() returns (bs: seq<Broker>, steps: seq<Step>)
    ensures IsRun(bs, steps) && bs[|steps|].failed
  {
    var x;
    bs, steps, x := HalfwaySubscribed();
    bs, steps := Extend(bs, steps, Record(0));
    assert bs[|steps|].clients[0] == Client(map["a" := x], false, false, InPacket, Closing(0, 0));
    assert bs[|steps|].orphans == {};
    bs, steps := Extend(bs, steps, CloseTest(0));
    bs, steps := CloseOne(bs, steps, x);
    RunKeepsInv(bs, steps);
    StepFails(bs[|steps|], Unsubscribe(0, "a"));
    bs, steps := Extend(bs, steps, Unsubscribe(0, "a"));
  }

  /** One routine that has passed the test goes on to clean up. */
  lemma CloseOne(bs: seq<Broker>, steps: seq<Step>, x: Subscription) returns (cs: seq<Broker>, more: seq<Step>)
    requires IsRun(bs, steps) && 0 in bs[|steps|].clients && bs[|steps|].orphans == {}
    requires bs[|steps|].clients[0].subMap == map["a" := x] && bs[|steps|].clients[0].closing.tests > 0
    ensures IsRun(cs, more) && 0 in cs[|more|].clients && cs[|more|].orphans == {} && |more| == |steps| + 2
    ensures var cl, dl := bs[|steps|].clients[0], cs[|more|].clients[0];
            dl == cl.(disconnected := true, cleaned := true, closing := cl.closing.(tests := cl.closing.tests - 1))
    ensures bs[|steps|].clients[0].cleaned ==> cs[|more|].failed
  {
    ListsOne(x);
    cs, more := Extend(bs, steps, CloseMark(0));
    var b := cs[|more|];
    DropAllOrphans(b, [x]);
    RunKeepsInv(cs, more);
    CloseFails(b, 0, [x]);
    cs, more := Extend(cs, more, Close(0, [x]));
  }

  lemma ListsOne(x: Subscription)
    ensures Lists([x], map["a" := x]) && x in map["a" := x].Values
  {
    var m := map["a" := x];
    assert m["a"] == x;
  }

  /** Two routines pass the unlocked test of Close: the clean-up of the second fails. */
  lemma DoubleCloseFails() returns (bs: seq<Broker>, steps: seq<Step>)
    ensures IsRun(bs, steps) && bs[|steps|].failed
  {
    var x;
    bs, steps, x := HalfwaySubscribed();
    bs, steps := Extend(bs, steps, Record(0));
    bs, steps := Extend(bs, steps, CloseTest(0));
    bs, steps := Extend(bs, steps, CloseTest(0));
    assert bs[|steps|].clients[0] == Client(map["a" := x], false, false, InPacket, Closing(2, 0));
    assert bs[|steps|].orphans == {};
    bs, steps := CloseOne(bs, steps, x);
    bs, steps := CloseOne(bs, steps, x);
  }
}
