/** Client and broker together, on one connection with first-in-first-out channels: every
    acknowledged publish is passed on exactly once (sections 4.3.2 and 4.3.3 of MQTT 3.1.1). */
module TwoPartyQos2 {
  import opened MessageIds
  import opened InboundQos2

  /** Publishes carry the number of the message, which is not on the wire. */
  datatype Packet =
    | Pub(id: Id, qos: nat, n: nat)
    | PubAck(id: Id)
    | Rec(id: Id)
    | Rel(id: Id)
    | Comp(id: Id)

  /** Where packets wait: publishes and PUBRELs the client has still to write, and the two
      directions of the connection. */
  datatype Chans = Chans(outbox: seq<Packet>, rels: seq<Packet>, up: seq<Packet>, down: seq<Packet>)

  /** The token waiting under an identifier: which message it is for. */
  datatype Flow = Flow(n: nat, qos: nat)

  datatype Ends = Ends(
    // client: waiting tokens and the last identifier
    index: map<Id, Flow>, last: Id,
    // broker: identifiers waiting for PUBREL, the clock, the limit
    awaiting: Awaiting, now: int, max: int,
    // history: messages accepted so far, passed on, completed, refused and dropped
    next: nat, passed: multiset<nat>, completed: set<nat>, refused: set<nat>, dropped: set<nat>)

  datatype Net = Net(ch: Chans, e: Ends)

  datatype Step =
    | Accept(qos: nat)        // a QoS 1 or 2 publish is given an identifier
    | WritePub(i: nat)        // any one of the waiting publishes reaches the wire
    | WriteRel
    | BrokerTakes
    | ClientTakes
    | Sweep                   // an expiry timer fires
    | Tick

  predicate Enabled(s: Net, step: Step) {
    match step
    case Accept(qos) => qos == 1 || qos == 2
    case WritePub(i) => i < |s.ch.outbox|
    case WriteRel => s.ch.rels != []
    case BrokerTakes => s.ch.up != []
    case ClientTakes => s.ch.down != []
    case Sweep => true
    case Tick => true
  }

  function AcceptEnds(e: Ends, id: Id, qos: nat): Ends {
    e.(index := e.index[id := Flow(e.next, qos)], last := id, next := e.next + 1)
  }

  /** What the broker answers to a packet, if anything. */
  function BrokerReply(e: Ends, p: Packet): seq<Packet> {
    match p
    case Pub(id, qos, n) =>
      if qos == 1 then [PubAck(id)] else if Judge(e.awaiting, e.max, id) == Registered then [Rec(id)] else []
    case Rel(id) => [Comp(id)]
    case _ => []
  }

  /** What the broker does with a packet. */
  function BrokerEnds(e: Ends, p: Packet): Ends {
    match p
    case Pub(id, qos, n) =>
      if qos == 1 then e.(passed := e.passed + multiset{n})
      else (
        match Judge(e.awaiting, e.max, id)
        case Registered => e.(awaiting := Register(e.awaiting, e.max, id, e.now), passed := e.passed + multiset{n})
        case InUse => e.(refused := e.refused + {n})
        case Full => e.(dropped := e.dropped + {n}))
    case Rel(id) => e.(awaiting := e.awaiting - {id})
    case _ => e
  }

  function ClientReply(p: Packet): seq<Packet> {
    if p.Rec? then [Rel(p.id)] else []
  }

  /** PUBACK and PUBCOMP complete the token and free the identifier. */
  function ClientEnds(e: Ends, p: Packet): Ends {
    if (p.PubAck? || p.Comp?) && p.id in e.index
    then e.(completed := e.completed + {e.index[p.id].n}, index := e.index - {p.id})
    else e
  }

  function Next(s: Net, step: Step): Net
    requires Enabled(s, step)
  {
    var ch, e := s.ch, s.e;
    match step
    case Accept(qos) =>
      var id := NextId(e.index.Keys, e.last);
      if id == 0 then s
      else Net(ch.(outbox := ch.outbox + [Pub(id, qos, e.next)]), AcceptEnds(e, id, qos))
    case WritePub(i) =>
      Net(ch.(outbox := ch.outbox[..i] + ch.outbox[i + 1..], up := ch.up + [ch.outbox[i]]), e)
    case WriteRel =>
      Net(ch.(rels := ch.rels[1..], up := ch.up + [ch.rels[0]]), e)
    case BrokerTakes =>
      Net(ch.(up := ch.up[1..], down := ch.down + BrokerReply(e, ch.up[0])), BrokerEnds(e, ch.up[0]))
    case ClientTakes =>
      Net(ch.(down := ch.down[1..], rels := ch.rels + ClientReply(ch.down[0])), ClientEnds(e, ch.down[0]))
    case Sweep => s.(e := e.(awaiting := Expire(e.awaiting, e.now)))
    case Tick => s.(e := e.(now := e.now + 1))
  }

  predicate Opened(s: Net) {
    && s.ch == Chans([], [], [], [])
    && s.e.index == map[] && s.e.last == 0 && s.e.awaiting == map[] && s.e.next == 0
    && s.e.passed == multiset{} && s.e.completed == s.e.refused == s.e.dropped == {}
  }

  ghost predicate IsRun(ss: seq<Net>, steps: seq<Step>) {
    && |ss| == |steps| + 1 && Opened(ss[0])
    && forall i | 0 <= i < |steps| :: Enabled(ss[i], steps[i]) && ss[i + 1] == Next(ss[i], steps[i])
  }

  /** A publish is accepted whenever an identifier is free: it gets the next number and one of
      the free identifiers, and is queued to be written. */
  lemma AcceptExact(s: Net, qos: nat)
    requires Enabled(s, Accept(qos))
    ensures var d := Next(s, Accept(qos));
            if forall i: Id | i != 0 :: i in s.e.index then d == s
            else exists id: Id | id != 0 && id !in s.e.index ::
                   && d.ch == s.ch.(outbox := s.ch.outbox + [Pub(id, qos, s.e.next)])
                   && d.e == s.e.(index := s.e.index[id := Flow(s.e.next, qos)], last := id, next := s.e.next + 1)
  {
    NextIdExact(s.e.index.Keys, s.e.last);
  }

  /** A sweep takes the identifiers that have waited 20 seconds, and nothing else. */
  lemma SweepExact(s: Net)
    ensures var d := Next(s, Sweep);
            && d == s.(e := s.e.(awaiting := d.e.awaiting))
            && (forall id :: id in d.e.awaiting <==> id in s.e.awaiting && s.e.now - s.e.awaiting[id] < 20)
            && (forall id | id in d.e.awaiting :: d.e.awaiting[id] == s.e.awaiting[id])
  {
  }

  // ---------- the channels: at most one packet per identifier ----------

  ghost predicate Typed(ch: Chans) {
    && (forall p | p in ch.outbox :: p.Pub?)
    && (forall p | p in ch.rels :: p.Rel?)
    && (forall p | p in ch.up :: p.Pub? || p.Rel?)
    && (forall p | p in ch.down :: p.PubAck? || p.Rec? || p.Comp?)
  }

  function All(ch: Chans): seq<Packet> {
    ch.outbox + ch.rels + ch.up + ch.down
  }

  ghost predicate OneEach(ps: seq<Packet>) {
    forall i, j | 0 <= i < j < |ps| :: ps[i].id != ps[j].id
  }

  ghost function Elems(ps: seq<Packet>): set<Packet> {
    set p | p in ps
  }

  ghost predicate IdFree(f: set<Packet>, id: Id) {
    forall p | p in f :: p.id != id
  }

  /** One packet more or less, wherever it stands. */
  lemma SqueezeElems(a: seq<Packet>, p: Packet, b: seq<Packet>)
    ensures Elems(a + [p] + b) == Elems(a + b) + {p}
  {
    var long, short := a + [p] + b, a + b;
    assert long[|a|] == p;
    forall q | q in short
      ensures q in long
    {
      assert q in a || q in b;
    }
  }

  lemma SqueezeOut(a: seq<Packet>, p: Packet, b: seq<Packet>)
    requires OneEach(a + [p] + b)
    ensures OneEach(a + b) && IdFree(Elems(a + b), p.id)
  {
    var long, short := a + [p] + b, a + b;
    assert forall i | 0 <= i < |short| :: short[i] == long[if i < |a| then i else i + 1];
    assert long[|a|] == p;
    forall q | q in Elems(short)
      ensures q.id != p.id
    {
      var i :| 0 <= i < |short| && short[i] == q;
    }
  }

  lemma SqueezeIn(a: seq<Packet>, p: Packet, b: seq<Packet>)
    requires OneEach(a + b) && IdFree(Elems(a + b), p.id)
    ensures OneEach(a + [p] + b)
  {
    var long, short := a + [p] + b, a + b;
    assert forall i | 0 <= i < |long| && i != |a| :: long[i] == short[if i < |a| then i else i - 1];
    assert long[|a|] == p;
    assert forall i | 0 <= i < |short| :: short[i] in Elems(short);
  }

  lemma Squeeze(a: seq<Packet>, p: Packet, b: seq<Packet>)
    ensures OneEach(a + [p] + b) <==> OneEach(a + b) && IdFree(Elems(a + b), p.id)
    ensures Elems(a + [p] + b) == Elems(a + b) + {p}
  {
    SqueezeElems(a, p, b);
    if OneEach(a + [p] + b) {
      SqueezeOut(a, p, b);
    } else if OneEach(a + b) && IdFree(Elems(a + b), p.id) {
      SqueezeIn(a, p, b);
    }
  }

  /** The channels after a packet has left are those before without that packet. */
  ghost predicate Left(ch: Chans, rest: Chans, p: Packet) {
    && OneEach(All(rest)) && Elems(All(ch)) == Elems(All(rest)) + {p} && IdFree(Elems(All(rest)), p.id)
  }

  lemma TakeOutbox(ch: Chans, i: nat)
    requires OneEach(All(ch)) && i < |ch.outbox|
    ensures Left(ch, ch.(outbox := ch.outbox[..i] + ch.outbox[i + 1..]), ch.outbox[i])
  {
    var a, b := ch.outbox[..i], ch.outbox[i + 1..] + ch.rels + ch.up + ch.down;
    assert All(ch) == a + [ch.outbox[i]] + b;
    assert All(ch.(outbox := ch.outbox[..i] + ch.outbox[i + 1..])) == a + b;
    Squeeze(a, ch.outbox[i], b);
  }

  lemma TakeRels(ch: Chans)
    requires OneEach(All(ch)) && ch.rels != []
    ensures Left(ch, ch.(rels := ch.rels[1..]), ch.rels[0])
  {
    var a, b := ch.outbox, ch.rels[1..] + ch.up + ch.down;
    assert All(ch) == a + [ch.rels[0]] + b;
    assert All(ch.(rels := ch.rels[1..])) == a + b;
    Squeeze(a, ch.rels[0], b);
  }

  lemma TakeUp(ch: Chans)
    requires OneEach(All(ch)) && ch.up != []
    ensures Left(ch, ch.(up := ch.up[1..]), ch.up[0])
  {
    var a, b := ch.outbox + ch.rels, ch.up[1..] + ch.down;
    assert All(ch) == a + [ch.up[0]] + b;
    assert All(ch.(up := ch.up[1..])) == a + b;
    Squeeze(a, ch.up[0], b);
  }

  lemma TakeDown(ch: Chans)
    requires OneEach(All(ch)) && ch.down != []
    ensures Left(ch, ch.(down := ch.down[1..]), ch.down[0])
  {
    var a, b := ch.outbox + ch.rels + ch.up, ch.down[1..];
    assert All(ch) == a + [ch.down[0]] + b;
    assert All(ch.(down := ch.down[1..])) == a + b;
    Squeeze(a, ch.down[0], b);
  }

  /** The channels after a packet has joined. */
  ghost predicate Joined(ch: Chans, more: Chans, p: Packet) {
    OneEach(All(more)) && Elems(All(more)) == Elems(All(ch)) + {p}
  }

  lemma PutOutbox(ch: Chans, p: Packet)
    requires OneEach(All(ch)) && IdFree(Elems(All(ch)), p.id)
    ensures Joined(ch, ch.(outbox := ch.outbox + [p]), p)
  {
    var b := ch.rels + ch.up + ch.down;
    assert All(ch) == ch.outbox + b;
    assert All(ch.(outbox := ch.outbox + [p])) == ch.outbox + [p] + b;
    Squeeze(ch.outbox, p, b);
  }

  lemma PutRels(ch: Chans, p: Packet)
    requires OneEach(All(ch)) && IdFree(Elems(All(ch)), p.id)
    ensures Joined(ch, ch.(rels := ch.rels + [p]), p)
  {
    var a, b := ch.outbox + ch.rels, ch.up + ch.down;
    assert All(ch) == a + b;
    assert All(ch.(rels := ch.rels + [p])) == a + [p] + b;
    Squeeze(a, p, b);
  }

  lemma PutUp(ch: Chans, p: Packet)
    requires OneEach(All(ch)) && IdFree(Elems(All(ch)), p.id)
    ensures Joined(ch, ch.(up := ch.up + [p]), p)
  {
    var a := ch.outbox + ch.rels + ch.up;
    assert All(ch) == a + ch.down;
    assert All(ch.(up := ch.up + [p])) == a + [p] + ch.down;
    Squeeze(a, p, ch.down);
  }

  lemma PutDown(ch: Chans, p: Packet)
    requires OneEach(All(ch)) && IdFree(Elems(All(ch)), p.id)
    ensures Joined(ch, ch.(down := ch.down + [p]), p)
  {
    assert All(ch) == All(ch) + [];
    assert All(ch.(down := ch.down + [p])) == All(ch) + [p] + [];
    Squeeze(All(ch), p, []);
  }

  // ---------- the two ends and the packets between them ----------

  /** How far the flow of a travelling packet has got. */
  ghost predicate PacketOk(e: Ends, p: Packet) {
    && p.id in e.index
    && var f := e.index[p.id];
       match p
       case Pub(id, qos, n) => f == Flow(n, qos) && n !in e.passed && n !in e.dropped && id !in e.awaiting
       case PubAck(id) => f.qos == 1 && e.passed[f.n] == 1 && id !in e.awaiting
       case Rec(id) => f.qos == 2 && e.passed[f.n] == 1
       case Rel(id) => f.qos == 2 && e.passed[f.n] == 1
       case Comp(id) => f.qos == 2 && e.passed[f.n] == 1 && id !in e.awaiting
  }

  ghost predicate FlightOk(e: Ends, f: set<Packet>) {
    && (forall p | p in f :: PacketOk(e, p))
    // an identifier waits for PUBREL only while a PUBREC or PUBREL is under way
    && (forall id | id in e.awaiting :: Rec(id) in f || Rel(id) in f)
  }

  ghost predicate Busy(f: set<Packet>, id: Id) {
    !IdFree(f, id)
  }

  ghost predicate TokensOk(e: Ends, f: set<Packet>) {
    && (forall id | id in e.index :: e.index[id].n < e.next && e.index[id].n !in e.completed && (e.index[id].qos == 1 || e.index[id].qos == 2))
    && (forall i, j | i in e.index && j in e.index && i != j :: e.index[i].n != e.index[j].n)
    && (forall id | id in e.index && e.index[id].n !in e.dropped :: Busy(f, id))
  }

  ghost predicate Pending(e: Ends, n: nat) {
    exists id :: id in e.index && e.index[id].n == n
  }

  ghost predicate HistoryOk(e: Ends) {
    && (forall n :: e.passed[n] <= 1) && (forall n | n in e.passed :: n < e.next)
    && (forall n | n in e.completed :: e.passed[n] == 1)
    && (forall n | n in e.dropped :: n !in e.passed && n < e.next)
    && e.refused == {}
    && (forall n: nat | n < e.next :: n in e.completed || n in e.dropped || Pending(e, n))
  }

  ghost predicate EndsOk(e: Ends, f: set<Packet>) {
    FlightOk(e, f) && TokensOk(e, f) && HistoryOk(e)
  }

  lemma AcceptFlight(e: Ends, f: set<Packet>, id: Id, qos: nat)
    requires EndsOk(e, f) && id !in e.index
    ensures IdFree(f, id) && FlightOk(AcceptEnds(e, id, qos), f + {Pub(id, qos, e.next)})
  {
    var t := AcceptEnds(e, id, qos);
    assert forall p | p in f :: PacketOk(e, p);
    assert id !in e.awaiting;
    assert PacketOk(t, Pub(id, qos, e.next));
  }

  lemma AcceptTokens(e: Ends, f: set<Packet>, id: Id, qos: nat)
    requires TokensOk(e, f) && HistoryOk(e) && id !in e.index && (qos == 1 || qos == 2)
    ensures TokensOk(AcceptEnds(e, id, qos), f + {Pub(id, qos, e.next)})
  {
    var t, p := AcceptEnds(e, id, qos), Pub(id, qos, e.next);
    var g := f + {p};
    forall i | i in t.index && t.index[i].n !in t.dropped
      ensures Busy(g, i)
    {
      if i == id {
        assert p in g;
      } else {
        assert Busy(f, i);
        var q :| q in f && q.id == i;
        assert q in g;
      }
    }
    assert e.next !in e.completed;
  }

  lemma AcceptHistory(e: Ends, id: Id, qos: nat)
    requires HistoryOk(e) && id !in e.index
    ensures HistoryOk(AcceptEnds(e, id, qos))
  {
    var t := AcceptEnds(e, id, qos);
    assert t.index[id].n == e.next;
    forall n | Pending(e, n)
      ensures Pending(t, n)
    {
      var i :| i in e.index && e.index[i].n == n;
      assert t.index[i].n == n;
    }
  }

  /** The rest of the traffic, and the packet taken out of it. */
  ghost predicate Split(e: Ends, rest: set<Packet>, p: Packet) {
    EndsOk(e, rest + {p}) && IdFree(rest, p.id)
  }

  /** What a handler must do to the flow of its own packet, and to no other, for the rest of
      the traffic to stay in order. */
  ghost predicate Only(e: Ends, t: Ends, id: Id) {
    && (forall i | i != id :: (i in e.index <==> i in t.index) && (i in e.index ==> e.index[i] == t.index[i]))
    && (forall i | i != id :: i in e.awaiting <==> i in t.awaiting)
    && id in e.index
    && (forall n: nat | n != e.index[id].n :: e.passed[n] == t.passed[n] && (n in e.dropped <==> n in t.dropped))
  }

  lemma RestUntouched(e: Ends, t: Ends, rest: set<Packet>, p: Packet, r: set<Packet>)
    requires Split(e, rest, p) && Only(e, t, p.id)
    requires forall q | q in r :: PacketOk(t, q)
    requires p.id in t.awaiting ==> Rec(p.id) in r || Rel(p.id) in r
    ensures FlightOk(t, rest + r)
  {
    assert p in rest + {p} && PacketOk(e, p);
    forall q | q in rest
      ensures PacketOk(t, q)
    {
      assert q in rest + {p} && PacketOk(e, q);
      assert q.id != p.id && e.index[q.id].n != e.index[p.id].n;
    }
  }

  lemma BrokerFlight(e: Ends, rest: set<Packet>, p: Packet)
    requires Split(e, rest, p) && (p.Pub? || p.Rel?)
    ensures FlightOk(BrokerEnds(e, p), rest + Elems(BrokerReply(e, p)))
  {
    assert p in rest + {p} && PacketOk(e, p);
    RestUntouched(e, BrokerEnds(e, p), rest, p, Elems(BrokerReply(e, p)));
  }

  lemma BrokerTokens(e: Ends, rest: set<Packet>, p: Packet)
    requires TokensOk(e, rest + {p}) && PacketOk(e, p) && (p.Pub? || p.Rel?)
    ensures TokensOk(BrokerEnds(e, p), rest + Elems(BrokerReply(e, p)))
  {
    var t, g := BrokerEnds(e, p), rest + Elems(BrokerReply(e, p));
    assert t.index == e.index && t.next == e.next && t.completed == e.completed;
    forall id | id in t.index && t.index[id].n !in t.dropped
      ensures Busy(g, id)
    {
      assert Busy(rest + {p}, id);
      if id == p.id {
        assert BrokerReply(e, p)[0] in g;
      } else {
        var q :| q in rest + {p} && q.id == id;
        assert q in g;
      }
    }
  }

  lemma BrokerHistory(e: Ends, p: Packet)
    requires HistoryOk(e) && PacketOk(e, p) && e.index[p.id].n < e.next && e.index[p.id].n !in e.completed && (p.Pub? || p.Rel?)
    ensures HistoryOk(BrokerEnds(e, p))
  {
    var t := BrokerEnds(e, p);
    assert t.index == e.index && t.next == e.next && t.completed == e.completed;
    assert forall n | Pending(e, n) :: Pending(t, n);
  }

  lemma ClientFlight(e: Ends, rest: set<Packet>, p: Packet)
    requires Split(e, rest, p) && (p.PubAck? || p.Comp? || p.Rec?)
    ensures FlightOk(ClientEnds(e, p), rest + Elems(ClientReply(p)))
  {
    assert p in rest + {p} && PacketOk(e, p);
    RestUntouched(e, ClientEnds(e, p), rest, p, Elems(ClientReply(p)));
  }

  lemma ClientTokens(e: Ends, rest: set<Packet>, p: Packet)
    requires Split(e, rest, p) && (p.PubAck? || p.Comp? || p.Rec?)
    ensures TokensOk(ClientEnds(e, p), rest + Elems(ClientReply(p)))
  {
    var t, g := ClientEnds(e, p), rest + Elems(ClientReply(p));
    assert p in rest + {p} && PacketOk(e, p);
    forall id | id in t.index && t.index[id].n !in t.dropped
      ensures Busy(g, id)
    {
      assert Busy(rest + {p}, id);
      if id == p.id {
        assert ClientReply(p)[0] in g;
      } else {
        var q :| q in rest + {p} && q.id == id;
        assert q in g;
      }
    }
  }

  lemma ClientHistory(e: Ends, rest: set<Packet>, p: Packet)
    requires Split(e, rest, p) && (p.PubAck? || p.Comp? || p.Rec?)
    ensures HistoryOk(ClientEnds(e, p))
  {
    assert p in rest + {p} && PacketOk(e, p);
    var t := ClientEnds(e, p);
    forall n | Pending(e, n)
      ensures n in t.completed || Pending(t, n)
    {
      var i :| i in e.index && e.index[i].n == n;
      assert i != p.id ==> i in t.index && t.index[i].n == n;
    }
  }

  // ---------- whole runs ----------

  ghost predicate Inv(s: Net) {
    Typed(s.ch) && OneEach(All(s.ch)) && EndsOk(s.e, Elems(All(s.ch)))
  }

  lemma AcceptStep(s: Net, qos: nat)
    requires Inv(s) && (qos == 1 || qos == 2)
    ensures Inv(Next(s, Accept(qos)))
  {
    NextIdExact(s.e.index.Keys, s.e.last);
    var id := NextId(s.e.index.Keys, s.e.last);
    if id != 0 {
      var f := Elems(All(s.ch));
      AcceptFlight(s.e, f, id, qos);
      AcceptTokens(s.e, f, id, qos);
      AcceptHistory(s.e, id, qos);
      PutOutbox(s.ch, Pub(id, qos, s.e.next));
    }
  }

  lemma WriteStep(s: Net, step: Step)
    requires Inv(s) && Enabled(s, step) && (step.WritePub? || step.WriteRel?)
    ensures Inv(Next(s, step))
  {
    if step.WritePub? {
      var i := step.i;
      TakeOutbox(s.ch, i);
      PutUp(s.ch.(outbox := s.ch.outbox[..i] + s.ch.outbox[i + 1..]), s.ch.outbox[i]);
    } else {
      TakeRels(s.ch);
      PutUp(s.ch.(rels := s.ch.rels[1..]), s.ch.rels[0]);
    }
  }

  lemma BrokerKeeps(e: Ends, rest: set<Packet>, p: Packet)
    requires Split(e, rest, p) && (p.Pub? || p.Rel?)
    ensures EndsOk(BrokerEnds(e, p), rest + Elems(BrokerReply(e, p)))
  {
    assert p in rest + {p} && PacketOk(e, p);
    BrokerFlight(e, rest, p);
    BrokerTokens(e, rest, p);
    BrokerHistory(e, p);
  }

  lemma ClientKeeps(e: Ends, rest: set<Packet>, p: Packet)
    requires Split(e, rest, p) && (p.PubAck? || p.Comp? || p.Rec?)
    ensures EndsOk(ClientEnds(e, p), rest + Elems(ClientReply(p)))
  {
    ClientFlight(e, rest, p);
    ClientTokens(e, rest, p);
    ClientHistory(e, rest, p);
  }

  /** At most one packet in answer, with the same identifier. */
  predicate Answers(reply: seq<Packet>, id: Id) {
    reply == [] || (|reply| == 1 && reply[0].id == id)
  }

  lemma AnswerDown(ch: Chans, reply: seq<Packet>, id: Id)
    requires OneEach(All(ch)) && IdFree(Elems(All(ch)), id) && Answers(reply, id)
    ensures var more := ch.(down := ch.down + reply);
            OneEach(All(more)) && Elems(All(more)) == Elems(All(ch)) + Elems(reply)
  {
    if reply == [] {
      assert ch.down + reply == ch.down;
    } else {
      assert reply == [reply[0]];
      PutDown(ch, reply[0]);
      assert Elems(reply) == {reply[0]};
    }
  }

  lemma AnswerRels(ch: Chans, reply: seq<Packet>, id: Id)
    requires OneEach(All(ch)) && IdFree(Elems(All(ch)), id) && Answers(reply, id)
    ensures var more := ch.(rels := ch.rels + reply);
            OneEach(All(more)) && Elems(All(more)) == Elems(All(ch)) + Elems(reply)
  {
    if reply == [] {
      assert ch.rels + reply == ch.rels;
    } else {
      assert reply == [reply[0]];
      PutRels(ch, reply[0]);
      assert Elems(reply) == {reply[0]};
    }
  }

  lemma BrokerTyped(ch: Chans, e: Ends)
    requires Typed(ch) && ch.up != []
    ensures Typed(ch.(up := ch.up[1..], down := ch.down + BrokerReply(e, ch.up[0])))
    ensures ch.up[0].Pub? || ch.up[0].Rel?
    ensures Answers(BrokerReply(e, ch.up[0]), ch.up[0].id)
  {
    assert ch.up[0] in ch.up;
  }

  lemma ClientTyped(ch: Chans)
    requires Typed(ch) && ch.down != []
    ensures Typed(ch.(down := ch.down[1..], rels := ch.rels + ClientReply(ch.down[0])))
    ensures ch.down[0].PubAck? || ch.down[0].Rec? || ch.down[0].Comp?
  {
    assert ch.down[0] in ch.down;
  }

  lemma BrokerStep(s: Net)
    requires Inv(s) && s.ch.up != []
    ensures Inv(Next(s, BrokerTakes))
  {
    var p, ch := s.ch.up[0], s.ch.(up := s.ch.up[1..]);
    BrokerTyped(s.ch, s.e);
    TakeUp(s.ch);
    assert Split(s.e, Elems(All(ch)), p);
    BrokerKeeps(s.e, Elems(All(ch)), p);
    AnswerDown(ch, BrokerReply(s.e, p), p.id);
    assert Next(s, BrokerTakes).ch == ch.(down := ch.down + BrokerReply(s.e, p));
  }

  lemma ClientStep(s: Net)
    requires Inv(s) && s.ch.down != []
    ensures Inv(Next(s, ClientTakes))
  {
    var p, ch := s.ch.down[0], s.ch.(down := s.ch.down[1..]);
    ClientTyped(s.ch);
    TakeDown(s.ch);
    assert Split(s.e, Elems(All(ch)), p);
    ClientKeeps(s.e, Elems(All(ch)), p);
    AnswerRels(ch, ClientReply(p), p.id);
    assert Next(s, ClientTakes).ch == ch.(rels := ch.rels + ClientReply(p));
  }

  lemma ClockStep(s: Net, step: Step)
    requires Inv(s) && (step.Sweep? || step.Tick?)
    ensures Inv(Next(s, step))
  {
    var t := Next(s, step);
    assert forall p | PacketOk(s.e, p) :: PacketOk(t.e, p);
    assert forall n | Pending(s.e, n) :: Pending(t.e, n);
  }

  lemma {:induction false} RunKeepsInv(ss: seq<Net>, steps: seq<Step>, i: nat)
    requires IsRun(ss, steps) && i < |ss|
    ensures Inv(ss[i])
  {
    if i > 0 {
      RunKeepsInv(ss, steps, i - 1);
      var s, step := ss[i - 1], steps[i - 1];
      match step
      case Accept(qos) => AcceptStep(s, qos);
      case WritePub(_) => WriteStep(s, step);
      case WriteRel => WriteStep(s, step);
      case BrokerTakes => BrokerStep(s);
      case ClientTakes => ClientStep(s);
      case Sweep => ClockStep(s, step);
      case Tick => ClockStep(s, step);
    }
  }

  /** In every run, a publish whose token was completed was passed on exactly once, none was
      passed on twice, and no identifier given out again was refused as still in use,
      whatever the expiry timers do. */
  lemma CompletedMeansPassedOnce(ss: seq<Net>, steps: seq<Step>, i: nat)
    requires IsRun(ss, steps) && i < |ss|
    ensures forall n | n in ss[i].e.completed :: ss[i].e.passed[n] == 1
    ensures forall n :: ss[i].e.passed[n] <= 1
    ensures ss[i].e.refused == {}
  {
    RunKeepsInv(ss, steps, i);
  }

  /** Once nothing is under way, every accepted publish has been passed on once and its token
      completed, except those the broker dropped because too many were waiting. */
  lemma QuietMeansSettled(ss: seq<Net>, steps: seq<Step>, i: nat, n: nat)
    requires IsRun(ss, steps) && i < |ss| && All(ss[i].ch) == [] && n < ss[i].e.next
    ensures n in ss[i].e.dropped || (n in ss[i].e.completed && ss[i].e.passed[n] == 1)
  {
    RunKeepsInv(ss, steps, i);
    var e := ss[i].e;
    if Pending(e, n) {
      var id :| id in e.index && e.index[id].n == n;
      assert IdFree(Elems(All(ss[i].ch)), id);
    }
  }

  // ---------- drops ----------

  /** What is dropped in a step, and why: a QoS 2 publish at a broker with a maximum, while as
      many identifiers wait. */
  lemma StepDrops(s: Net, step: Step)
    requires Enabled(s, step)
    ensures Next(s, step).e.max == s.e.max
    ensures forall n | n in Next(s, step).e.dropped && n !in s.e.dropped ::
              && step.BrokerTakes? && s.ch.up[0].Pub? && s.ch.up[0].qos != 1 && s.ch.up[0].n == n
              && s.e.max != 0 && |s.e.awaiting| >= s.e.max
  {
    if step.BrokerTakes? && s.ch.up[0].Pub? {
      JudgeExact(s.e.awaiting, s.e.max, s.ch.up[0].id);
    }
  }

  lemma {:induction false} MaxFixed(ss: seq<Net>, steps: seq<Step>, i: nat)
    requires IsRun(ss, steps) && i < |ss|
    ensures ss[i].e.max == ss[0].e.max
  {
    if i > 0 {
      MaxFixed(ss, steps, i - 1);
      StepDrops(ss[i - 1], steps[i - 1]);
    }
  }

  /** Without a maximum nothing is ever dropped. */
  lemma {:induction false} NoMaxNoDrop(ss: seq<Net>, steps: seq<Step>, i: nat)
    requires IsRun(ss, steps) && i < |ss| && ss[0].e.max == 0
    ensures ss[i].e.dropped == {}
  {
    if i > 0 {
      NoMaxNoDrop(ss, steps, i - 1);
      MaxFixed(ss, steps, i - 1);
      StepDrops(ss[i - 1], steps[i - 1]);
    }
  }

  /** So once nothing is under way, every accepted publish was passed on exactly once and its
      token completed. */
  lemma QuietMeansPassedOn(ss: seq<Net>, steps: seq<Step>, i: nat, n: nat)
    requires IsRun(ss, steps) && i < |ss| && ss[0].e.max == 0 && All(ss[i].ch) == [] && n < ss[i].e.next
    ensures n in ss[i].e.completed && ss[i].e.passed[n] == 1
  {
    NoMaxNoDrop(ss, steps, i);
    QuietMeansSettled(ss, steps, i, n);
  }

  /** And with one, a publish is dropped only while that many identifiers wait for PUBREL. */
  lemma {:induction false} DroppedWhileFull(ss: seq<Net>, steps: seq<Step>, i: nat, n: nat) returns (k: nat)
    requires IsRun(ss, steps) && i < |ss| && n in ss[i].e.dropped
    ensures k < i && ss[0].e.max != 0 && |ss[k].e.awaiting| >= ss[0].e.max && steps[k].BrokerTakes?
    ensures ss[k].ch.up != [] && ss[k].ch.up[0].Pub? && ss[k].ch.up[0].n == n
  {
    StepDrops(ss[i - 1], steps[i - 1]);
    if n in ss[i - 1].e.dropped {
      k := DroppedWhileFull(ss, steps, i - 1, n);
    } else {
      k := i - 1;
      MaxFixed(ss, steps, k);
    }
  }
}
