/** The client's message store: its keys, the rules for what goes in and out of it, and the
    two walks over it, one that reserves identifiers and one that sends again. */
module ClientStore {
  import opened TopicLevels
  import opened MessageIds

  // ---------- keys ----------

  function Digit(d: nat): char
    requires d < 10
  {
    '0' + d as char
  }

  predicate AllDigits(s: string) {
    forall i | 0 <= i < |s| :: '0' <= s[i] <= '9'
  }

  function Decimal(n: nat): (s: string)
    ensures s != "" && AllDigits(s)
  {
    if n < 10 then [Digit(n)] else Decimal(n / 10) + [Digit(n % 10)]
  }

  function DigitsValue(s: string): nat
    requires AllDigits(s)
  {
    if s == "" then 0 else DigitsValue(s[..|s| - 1]) * 10 + (s[|s| - 1] - '0') as nat
  }

  /** Parsing an unsigned decimal of 16 bits. */
  function ParseId(s: string): Option<Id> {
    if s == "" || !AllDigits(s) then None
    else if DigitsValue(s) > MID_MAX then None
    else Some(DigitsValue(s))
  }

  function InboundKey(id: Id): string { "i." + Decimal(id) }

  function OutboundKey(id: Id): string { "o." + Decimal(id) }

  function MIDFromKey(key: string): Option<Id>
    requires |key| >= 2
  {
    ParseId(key[2..])
  }

  predicate IsKeyOutbound(key: string) {
    |key| >= 2 && key[..2] == "o."
  }

  lemma {:induction false} DecimalValue(n: nat)
    ensures DigitsValue(Decimal(n)) == n
  {
    var s := Decimal(n);
    if n >= 10 {
      DecimalValue(n / 10);
      assert s[..|s| - 1] == Decimal(n / 10);
    } else {
      assert s[..0] == "";
    }
  }

  /** The keys carry their identifier and their direction, so no two identifiers and no two
      directions share a key. */
  lemma KeysRoundTrip(id: Id)
    ensures MIDFromKey(OutboundKey(id)) == Some(id) && MIDFromKey(InboundKey(id)) == Some(id)
    ensures IsKeyOutbound(OutboundKey(id)) && !IsKeyOutbound(InboundKey(id))
    ensures OutboundKey(id)[..2] == "o." && InboundKey(id)[..2] == "i."
  {
    DecimalValue(id);
    assert OutboundKey(id)[2..] == Decimal(id) && InboundKey(id)[2..] == Decimal(id);
    assert OutboundKey(id)[..2] == "o." && InboundKey(id)[..2] == "i.";
    assert "o."[0] != "i."[0];
  }

  lemma KeysDistinct(i: Id, j: Id)
    ensures OutboundKey(i) == OutboundKey(j) <==> i == j
    ensures InboundKey(i) == InboundKey(j) <==> i == j
    ensures OutboundKey(i) != InboundKey(j)
  {
    KeysRoundTrip(i);
    KeysRoundTrip(j);
  }

  // ---------- what is stored ----------

  datatype PacketKind =
    PUBLISH | PUBACK | PUBREC | PUBREL | PUBCOMP | SUBSCRIBE | SUBACK | UNSUBSCRIBE | UNSUBACK | OTHER

  /** A packet as the store sees it; `qos` are the QoS bits of its fixed header, and `body`
      stands for everything else. */
  datatype Packet = Packet(kind: PacketKind, qos: nat, id: Id, body: nat)

  /** The QoS a packet reports about itself: fixed for the subscription packets. */
  function DetailsQos(m: Packet): nat {
    match m.kind
    case SUBSCRIBE | UNSUBSCRIBE => 1
    case SUBACK | UNSUBACK | OTHER => 0
    case _ => m.qos
  }

  type Messages = map<string, Packet>

  /** What sending a packet does to the store. */
  function PersistOut(s: Messages, m: Packet): Messages {
    match DetailsQos(m)
    case 0 => if m.kind == PUBACK || m.kind == PUBCOMP then s - {InboundKey(m.id)} else s
    case 1 =>
      if m.kind == PUBLISH || m.kind == PUBREL || m.kind == SUBSCRIBE || m.kind == UNSUBSCRIBE
      then s[OutboundKey(m.id) := m] else s
    case 2 => if m.kind == PUBLISH then s[OutboundKey(m.id) := m] else s
    case _ => s
  }

  /** What receiving a packet does to the store. */
  function PersistIn(s: Messages, m: Packet): Messages {
    match DetailsQos(m)
    case 0 =>
      if m.kind == PUBACK || m.kind == SUBACK || m.kind == UNSUBACK || m.kind == PUBCOMP
      then s - {OutboundKey(m.id)} else s
    case 1 => if m.kind == PUBLISH || m.kind == PUBREL then s[InboundKey(m.id) := m] else s
    case 2 => if m.kind == PUBLISH then s[InboundKey(m.id) := m] else s
    case _ => s
  }

  /** The packets that end an identifier's use. */
  predicate IsAck(m: Packet) {
    m.kind == PUBACK || m.kind == PUBCOMP || m.kind == SUBACK || m.kind == UNSUBACK
  }

  /** Receiving removes an outbound message only as the acknowledgement of its own
      identifier, and never adds or changes one. */
  lemma PersistInOutbound(s: Messages, m: Packet, i: Id)
    ensures OutboundKey(i) in PersistIn(s, m) <==>
            OutboundKey(i) in s && !(IsAck(m) && m.id == i && (m.kind == PUBACK || m.kind == PUBCOMP ==> m.qos == 0))
    ensures OutboundKey(i) in PersistIn(s, m) ==> PersistIn(s, m)[OutboundKey(i)] == s[OutboundKey(i)]
  {
    KeysDistinct(i, m.id);
  }

  /** Acknowledging a received packet never touches an outbound message. */
  lemma PersistOutAcks(s: Messages, m: Packet, i: Id)
    requires IsAck(m)
    ensures OutboundKey(i) in PersistOut(s, m) <==> OutboundKey(i) in s
    ensures OutboundKey(i) in s ==> PersistOut(s, m)[OutboundKey(i)] == s[OutboundKey(i)]
  {
    KeysDistinct(i, m.id);
  }

  /** The packets kept until they are acknowledged, when sent. */
  predicate KeptOut(m: Packet) {
    || (m.kind == PUBLISH && (m.qos == 1 || m.qos == 2))
    || (m.kind == PUBREL && m.qos == 1)
    || m.kind == SUBSCRIBE || m.kind == UNSUBSCRIBE
  }

  /** The packets kept until they are answered, when received. */
  predicate KeptIn(m: Packet) {
    (m.kind == PUBLISH && (m.qos == 1 || m.qos == 2)) || (m.kind == PUBREL && m.qos == 1)
  }

  /** Sending stores what waits for an acknowledgement under its own identifier, the packet
      itself, and leaves every other outbound message as it was. */
  lemma PersistOutOutbound(s: Messages, m: Packet, i: Id)
    ensures OutboundKey(i) in PersistOut(s, m) <==> OutboundKey(i) in s || (KeptOut(m) && m.id == i)
    ensures OutboundKey(i) in PersistOut(s, m) ==>
              PersistOut(s, m)[OutboundKey(i)] == if KeptOut(m) && m.id == i then m else s[OutboundKey(i)]
  {
    KeysDistinct(i, m.id);
  }

  /** Sending removes an inbound message only as the last answer to its own identifier. */
  lemma PersistOutInbound(s: Messages, m: Packet, i: Id)
    ensures InboundKey(i) in PersistOut(s, m) <==>
            InboundKey(i) in s && !((m.kind == PUBACK || m.kind == PUBCOMP) && m.qos == 0 && m.id == i)
    ensures InboundKey(i) in PersistOut(s, m) ==> PersistOut(s, m)[InboundKey(i)] == s[InboundKey(i)]
  {
    KeysDistinct(i, m.id);
    KeysDistinct(m.id, i);
  }

  /** Receiving stores what waits for an answer under its own identifier, and leaves every
      other inbound message as it was. */
  lemma PersistInInbound(s: Messages, m: Packet, i: Id)
    ensures InboundKey(i) in PersistIn(s, m) <==> InboundKey(i) in s || (KeptIn(m) && m.id == i)
    ensures InboundKey(i) in PersistIn(s, m) ==>
              PersistIn(s, m)[InboundKey(i)] == if KeptIn(m) && m.id == i then m else s[InboundKey(i)]
  {
    KeysDistinct(i, m.id);
    KeysDistinct(m.id, i);
  }

  // ---------- the store object ----------

  class MemoryStore {
    var messages: Messages
    var isOpen: bool

    constructor ()
      ensures messages == map[] && !isOpen
    {
      messages, isOpen := map[], false;
    }

    method Open()
      modifies this
      ensures isOpen && messages == old(messages)
    {
      isOpen := true;
    }

    method Close()
      modifies this
      ensures !isOpen && messages == old(messages)
    {
      isOpen := false;
    }

    method Put(key: string, m: Packet)
      modifies this
      ensures isOpen == old(isOpen)
      ensures messages == if isOpen then old(messages)[key := m] else old(messages)
    {
      if !isOpen {
        return;
      }
      messages := messages[key := m];
    }

    method Get(key: string) returns (m: Option<Packet>)
      ensures m == if isOpen && key in messages then Some(messages[key]) else None
    {
      if !isOpen || key !in messages {
        return None;
      }
      return Some(messages[key]);
    }

    /** All keys, each once, in no particular order. */
    method All() returns (keys: seq<string>)
      ensures forall k :: k in keys <==> isOpen && k in messages
      ensures forall i, j | 0 <= i < j < |keys| :: keys[i] != keys[j]
    {
      keys := [];
      if !isOpen {
        return;
      }
      var todo := messages.Keys;
      while todo != {}
        invariant todo <= messages.Keys
        invariant forall k :: k in keys <==> k in messages && k !in todo
        invariant forall i, j | 0 <= i < j < |keys| :: keys[i] != keys[j]
      {
        var k :| k in todo;
        keys, todo := keys + [k], todo - {k};
      }
    }

    method Del(key: string)
      modifies this
      ensures isOpen == old(isOpen)
      ensures messages == if isOpen then old(messages) - {key} else old(messages)
    {
      if !isOpen {
        return;
      }
      if key in messages {
        messages := messages - {key};
      }
    }

    method PersistOutbound(m: Packet)
      modifies this
      ensures isOpen == old(isOpen)
      ensures messages == if isOpen then PersistOut(old(messages), m) else old(messages)
    {
      match DetailsQos(m)
      case 0 =>
        if m.kind == PUBACK || m.kind == PUBCOMP {
          Del(InboundKey(m.id));
        }
      case 1 =>
        if m.kind == PUBLISH || m.kind == PUBREL || m.kind == SUBSCRIBE || m.kind == UNSUBSCRIBE {
          Put(OutboundKey(m.id), m);
        }
      case 2 =>
        if m.kind == PUBLISH {
          Put(OutboundKey(m.id), m);
        }
      case _ =>
    }

    method PersistInbound(m: Packet)
      modifies this
      ensures isOpen == old(isOpen)
      ensures messages == if isOpen then PersistIn(old(messages), m) else old(messages)
    {
      match DetailsQos(m)
      case 0 =>
        if m.kind == PUBACK || m.kind == SUBACK || m.kind == UNSUBACK || m.kind == PUBCOMP {
          Del(OutboundKey(m.id));
        }
      case 1 =>
        if m.kind == PUBLISH || m.kind == PUBREL {
          Put(InboundKey(m.id), m);
        }
      case 2 =>
        if m.kind == PUBLISH {
          Put(InboundKey(m.id), m);
        }
      case _ =>
    }
  }

  // ---------- the two walks ----------

  /** The identifiers in use, each with the kind of its token, and the last one issued. */
  datatype Table = Table(index: map<Id, Kind>, last: Id)

  function ClaimIn(t: Table, kind: Kind, id: Id): Table {
    Table(t.index[id := kind], if id > t.last then id else t.last)
  }

  /** One key of the reserving walk: only publishes count, in either direction. */
  function ReserveOne(s: Messages, t: Table, key: string): Table {
    if key in s && s[key].kind == PUBLISH then ClaimIn(t, PlaceHolder, s[key].id) else t
  }

  function ReserveKeys(s: Messages, t: Table, keys: seq<string>): Table {
    if keys == [] then t else ReserveOne(s, ReserveKeys(s, t, keys[..|keys| - 1]), keys[|keys| - 1])
  }

  datatype Resumed = Resumed(messages: Messages, table: Table)

  /** One key of the resending walk, without resumed subscriptions. */
  function ResumeOne(r: Resumed, key: string): Resumed {
    if key !in r.messages then r
    else
      var m := r.messages[key];
      if IsKeyOutbound(key) then
        match m.kind
        case PUBLISH => r.(table := ClaimIn(r.table, Publish, m.id))
        case PUBREL => r
        case _ => r.(messages := r.messages - {key})
      else if m.kind == PUBREL then r
      else r.(messages := r.messages - {key})
  }

  /** Where the walk hands a packet: to the connection, or to the client's own incoming queue. */
  datatype Handed = ToBroker(m: Packet) | ToIncoming(m: Packet)

  /** What the walk hands on for a key, if anything. */
  function ResumeSends(s: Messages, key: string): seq<Handed> {
    if key !in s then []
    else if IsKeyOutbound(key) then
      if s[key].kind == PUBLISH || s[key].kind == PUBREL then [ToBroker(s[key])] else []
    else if s[key].kind == PUBREL then [ToIncoming(s[key])] else []
  }

  function ResumeKeys(r: Resumed, keys: seq<string>): Resumed {
    if keys == [] then r else ResumeOne(ResumeKeys(r, keys[..|keys| - 1]), keys[|keys| - 1])
  }

  function ResumeSent(r: Resumed, keys: seq<string>): seq<Handed> {
    if keys == [] then []
    else
      var init := keys[..|keys| - 1];
      ResumeSent(r, init) + ResumeSends(ResumeKeys(r, init).messages, keys[|keys| - 1])
  }

  /** Outbound publishes sit under their own identifier. */
  ghost predicate OutboundOk(s: Messages) {
    forall i: Id | OutboundKey(i) in s :: s[OutboundKey(i)].kind == PUBLISH && s[OutboundKey(i)].id == i
  }

  /** After the reserving walk every stored publish has its identifier in use, and nothing
      in use before was given up. */
  lemma {:induction false} ReserveClaims(s: Messages, t: Table, keys: seq<string>)
    ensures var u := ReserveKeys(s, t, keys);
            && (forall k | k in keys && k in s && s[k].kind == PUBLISH ::
                  s[k].id in u.index && u.index[s[k].id] == PlaceHolder && s[k].id <= u.last)
            && (forall i | i in t.index :: i in u.index && (u.index[i] == t.index[i] || u.index[i] == PlaceHolder))
            && t.last <= u.last
  {
    if keys != [] {
      ReserveClaims(s, t, keys[..|keys| - 1]);
    }
  }

  /** The reserving walk takes no other identifier: what changed is held for a stored publish. */
  lemma {:induction false} ReserveOnly(s: Messages, t: Table, keys: seq<string>, i: Id)
    ensures var u := ReserveKeys(s, t, keys);
            && (i in u.index ==> (i in t.index && u.index[i] == t.index[i]) || StoredPublish(s, keys, i))
            && (u.last == t.last || StoredPublish(s, keys, u.last))
  {
    if keys != [] {
      var init := keys[..|keys| - 1];
      ReserveOnly(s, t, init, i);
      MoreStored(s, init, keys);
      var k := keys[|keys| - 1];
      if k in s && s[k].kind == PUBLISH {
        assert StoredPublish(s, keys, s[k].id);
      }
    }
  }

  ghost predicate StoredPublish(s: Messages, keys: seq<string>, i: Id) {
    exists k | k in keys :: k in s && s[k].kind == PUBLISH && s[k].id == i
  }

  lemma MoreStored(s: Messages, init: seq<string>, keys: seq<string>)
    requires init <= keys
    ensures forall i | StoredPublish(s, init, i) :: StoredPublish(s, keys, i)
  {
  }

  /** A resent key keeps every outbound publish, and puts the key's own identifier in use. */
  lemma ResumeOneKeeps(r: Resumed, key: string, i: Id)
    requires OutboundOk(r.messages)
    ensures var q := ResumeOne(r, key);
            && OutboundOk(q.messages)
            && (OutboundKey(i) in r.messages <==> OutboundKey(i) in q.messages)
            && (OutboundKey(i) in r.messages ==> q.messages[OutboundKey(i)] == r.messages[OutboundKey(i)])
            && (OutboundKey(i) in r.messages && OutboundKey(i) == key ==> i in q.table.index && q.table.index[i] == Publish)
            && (i in r.table.index ==> i in q.table.index && (q.table.index[i] == r.table.index[i] || q.table.index[i] == Publish))
  {
    KeysRoundTrip(i);
  }

  /** The whole walk keeps every outbound publish and puts the identifiers of those it
      passed in use. */
  lemma {:induction false} ResumeClaims(r: Resumed, keys: seq<string>, i: Id)
    requires OutboundOk(r.messages)
    ensures var q := ResumeKeys(r, keys);
            && OutboundOk(q.messages)
            && (OutboundKey(i) in r.messages <==> OutboundKey(i) in q.messages)
            && (OutboundKey(i) in r.messages ==> q.messages[OutboundKey(i)] == r.messages[OutboundKey(i)])
            && (OutboundKey(i) in r.messages && OutboundKey(i) in keys ==> i in q.table.index && q.table.index[i] == Publish)
  {
    if keys != [] {
      var init := keys[..|keys| - 1];
      ResumeClaims(r, init, i);
      ResumeOneKeeps(ResumeKeys(r, init), keys[|keys| - 1], i);
    }
  }

  /** What the walk leaves in the store: every PUBREL, and the outbound publishes. */
  predicate Survives(key: string, m: Packet) {
    m.kind == PUBREL || (m.kind == PUBLISH && IsKeyOutbound(key))
  }

  /** The walk over any keys keeps the messages that survive and those it did not reach, as
      they were, and drops the rest. */
  lemma {:induction false} ResumeLeaves(r: Resumed, keys: seq<string>, k: string)
    ensures var q := ResumeKeys(r, keys).messages;
            && (k in q <==> k in r.messages && (k in keys ==> Survives(k, r.messages[k])))
            && (k in q ==> q[k] == r.messages[k])
  {
    if keys != [] {
      ResumeLeaves(r, keys[..|keys| - 1], k);
      ResumeLeaves(r, keys[..|keys| - 1], keys[|keys| - 1]);
    }
  }

  /** The keys of a walk for which it hands a packet on. */
  ghost function Survivors(s: Messages, keys: seq<string>): set<string> {
    set k | k in keys && k in s && Survives(k, s[k])
  }

  ghost function HandedFor(s: Messages, k: string): Handed
    requires k in s
  {
    if IsKeyOutbound(k) then ToBroker(s[k]) else ToIncoming(s[k])
  }

  /** The packets of these keys, each once, and nothing else. */
  ghost predicate HandsOn(s: Messages, keys: set<string>, sent: seq<Handed>)
    requires forall k | k in keys :: k in s
  {
    && (forall k | k in keys :: HandedFor(s, k) in sent)
    && (forall h | h in sent :: exists k :: k in keys && h == HandedFor(s, k))
    && |sent| == |keys|
  }

  /** The walk hands on, of the messages it passes, every outbound publish and PUBREL to the
      connection and every inbound PUBREL to the incoming queue, each once, and nothing else. */
  lemma {:induction false} ResumeSendsAll(r: Resumed, keys: seq<string>)
    requires forall i, j | 0 <= i < j < |keys| :: keys[i] != keys[j]
    ensures HandsOn(r.messages, Survivors(r.messages, keys), ResumeSent(r, keys))
  {
    if keys != [] {
      var init, k := keys[..|keys| - 1], keys[|keys| - 1];
      ResumeSendsAll(r, init);
      SentStep(r, keys);
      assert keys == init + [k];
      GrowHandsOn(r.messages, init, k, ResumeSent(r, init));
    }
  }

  /** The packet of a surviving key, and nothing for the others. */
  ghost function HandedIf(s: Messages, k: string): seq<Handed> {
    if k in s && Survives(k, s[k]) then [HandedFor(s, k)] else []
  }

  lemma SentStep(r: Resumed, keys: seq<string>)
    requires keys != []
    ensures ResumeSent(r, keys) == ResumeSent(r, keys[..|keys| - 1]) + HandedIf(r.messages, keys[|keys| - 1])
  {
    ResumeLeaves(r, keys[..|keys| - 1], keys[|keys| - 1]);
  }

  lemma GrowHandsOn(s: Messages, init: seq<string>, k: string, sent: seq<Handed>)
    requires HandsOn(s, Survivors(s, init), sent) && k !in init
    ensures HandsOn(s, Survivors(s, init + [k]), sent + HandedIf(s, k))
  {
    SurvivorsGrow(s, init, k);
    if k in s && Survives(k, s[k]) {
      HandsOnMore(s, Survivors(s, init), sent, k);
    } else {
      assert sent + [] == sent;
    }
  }

  lemma HandsOnMore(s: Messages, keys: set<string>, sent: seq<Handed>, k: string)
    requires (forall k | k in keys :: k in s) && HandsOn(s, keys, sent) && k in s && k !in keys
    ensures HandsOn(s, keys + {k}, sent + [HandedFor(s, k)])
  {
    forall h | h in sent + [HandedFor(s, k)]
      ensures exists j :: j in keys + {k} && h == HandedFor(s, j)
    {
      if h in sent {
        var j :| j in keys && h == HandedFor(s, j);
        assert j in keys + {k};
      } else {
        assert k in keys + {k};
      }
    }
  }

  lemma SurvivorsGrow(s: Messages, init: seq<string>, k: string)
    requires k !in init
    ensures k !in Survivors(s, init)
    ensures Survivors(s, init + [k]) == Survivors(s, init) + if k in s && Survives(k, s[k]) then {k} else {}
  {
  }

  /** With every key passed, each stored outbound publish and PUBREL is sent again. */
  lemma ResumeSendsStored(r: Resumed, keys: seq<string>, i: Id)
    requires forall i, j | 0 <= i < j < |keys| :: keys[i] != keys[j]
    requires OutboundKey(i) in r.messages && OutboundKey(i) in keys
    requires r.messages[OutboundKey(i)].kind == PUBLISH || r.messages[OutboundKey(i)].kind == PUBREL
    ensures ToBroker(r.messages[OutboundKey(i)]) in ResumeSent(r, keys)
  {
    KeysRoundTrip(i);
    ResumeSendsAll(r, keys);
    assert OutboundKey(i) in Survivors(r.messages, keys);
  }

  /** What a walk over every stored key hands on and leaves. */
  lemma WalkedAll(r: Resumed, keys: seq<string>)
    requires forall i, j | 0 <= i < j < |keys| :: keys[i] != keys[j]
    requires forall k :: k in keys <==> k in r.messages
    ensures forall k | k in r.messages && Survives(k, r.messages[k]) :: HandedFor(r.messages, k) in ResumeSent(r, keys)
    ensures ResumeKeys(r, keys).messages == map k | k in r.messages && Survives(k, r.messages[k]) :: r.messages[k]
  {
    ResumeSendsAll(r, keys);
    forall k | k in r.messages && Survives(k, r.messages[k])
      ensures HandedFor(r.messages, k) in ResumeSent(r, keys)
    {
      assert k in Survivors(r.messages, keys);
    }
    WalkLeaves(r, keys);
  }

  lemma WalkLeaves(r: Resumed, keys: seq<string>)
    requires forall k :: k in keys <==> k in r.messages
    ensures ResumeKeys(r, keys).messages == map k | k in r.messages && Survives(k, r.messages[k]) :: r.messages[k]
  {
    forall k
      ensures k in ResumeKeys(r, keys).messages <==> k in r.messages && Survives(k, r.messages[k])
      ensures k in ResumeKeys(r, keys).messages ==> ResumeKeys(r, keys).messages[k] == r.messages[k]
    {
      ResumeLeaves(r, keys, k);
    }
  }

  // ---------- the walks as loops ----------

  /** The index by the kind of token. */
  ghost function Kinds(s: Ids): Table
    requires IdsOk(s)
  {
    Table(map i | i in s.index :: s.tokens[s.index[i]].kind, s.last)
  }

  lemma ClaimKinds(s: Ids, t: nat, token: Token, id: Id)
    requires IdsOk(s) && t !in s.tokens
    ensures var u := Claim(s.(tokens := s.tokens[t := token]), t, id);
            IdsOk(u) && Kinds(u) == ClaimIn(Kinds(s), token.kind, id) && u.tokens.Keys == s.tokens.Keys + {t}
  {
    var r := s.(tokens := s.tokens[t := token]);
    var u := Claim(r, t, id);
    ClaimedTokens(r, t, id);
    KindsMoved(s, u, t, token, id);
  }

  lemma KindsMoved(s: Ids, u: Ids, t: nat, token: Token, id: Id)
    requires IdsOk(s) && t !in s.tokens && u.index == s.index[id := t] && u.tokens.Keys == s.tokens.Keys + {t}
    requires u.tokens[t].kind == token.kind && forall x | x in s.tokens :: u.tokens[x].kind == s.tokens[x].kind
    requires u.last == if id > s.last then id else s.last
    ensures IdsOk(u) && Kinds(u) == ClaimIn(Kinds(s), token.kind, id)
  {
    forall i | i in u.index
      ensures u.index[i] in u.tokens
      ensures u.tokens[u.index[i]].kind == if i == id then token.kind else s.tokens[s.index[i]].kind
    {
      assert i == id || (i in s.index && s.index[i] in s.tokens);
    }
    SameKinds(Kinds(u).index, Kinds(s).index[id := token.kind]);
  }

  lemma SameKinds(a: map<Id, Kind>, b: map<Id, Kind>)
    requires a.Keys == b.Keys && forall i | i in a :: a[i] == b[i]
    ensures a == b
  {
  }

  /** A claim moves one identifier, and changes the kind of no token. */
  lemma ClaimedTokens(r: Ids, t: nat, id: Id)
    ensures var u := Claim(r, t, id);
            && u.index == r.index[id := t] && u.tokens.Keys == r.tokens.Keys
            && (forall x | x in r.tokens :: u.tokens[x].kind == r.tokens[x].kind)
            && u.last == if id > r.last then id else r.last
  {
  }

  class StoredSession {
    const store: MemoryStore
    const table: MessageIdTable
    var made: nat

    constructor (store: MemoryStore, table: MessageIdTable)
      requires table.State() == Ids(map[], 0, map[])
      ensures this.store == store && this.table == table && Valid()
    {
      this.store, this.table, this.made := store, table, 0;
    }

    ghost predicate Valid()
      reads this, table
    {
      IdsOk(table.State()) && forall t | t in table.tokens :: t < made
    }

    /** A new token takes over the identifier. */
    method ClaimFor(kind: Kind, id: Id)
      requires Valid()
      modifies this, table
      ensures Valid() && Kinds(table.State()) == ClaimIn(old(Kinds(table.State())), kind, id)
    {
      var token := Token(kind, false, None);
      ClaimKinds(table.State(), made, token, id);
      table.tokens := table.tokens[made := token];
      table.ClaimID(made, id);
      made := made + 1;
    }

    method ReserveStoredPublishIDs(cleanSession: bool) returns (keys: seq<string>)
      requires Valid()
      modifies this, table
      ensures Valid()
      ensures forall k :: k in keys <==> !cleanSession && store.isOpen && k in store.messages
      ensures Kinds(table.State()) == ReserveKeys(store.messages, old(Kinds(table.State())), keys)
    {
      keys := [];
      if cleanSession {
        return;
      }
      keys := store.All();
      for i := 0 to |keys|
        invariant Valid()
        invariant Kinds(table.State()) == ReserveKeys(store.messages, old(Kinds(table.State())), keys[..i])
      {
        assert keys[..i + 1][..i] == keys[..i];
        var packet := store.Get(keys[i]);
        if packet.Some? && packet.value.kind == PUBLISH {
          ClaimFor(PlaceHolder, packet.value.id);
        }
      }
      assert keys[..|keys|] == keys;
    }

    /** One round of the resending loop. */
    method ResumeKey(key: string) returns (sent: seq<Handed>)
      requires Valid() && store.isOpen
      modifies this, store, table
      ensures Valid() && store.isOpen
      ensures Resumed(store.messages, Kinds(table.State())) == ResumeOne(old(Resumed(store.messages, Kinds(table.State()))), key)
      ensures sent == old(ResumeSends(store.messages, key))
    {
      sent := [];
      var packet := store.Get(key);
      if packet == None {
        return;
      }
      if IsKeyOutbound(key) {
        match packet.value.kind
        case PUBREL => sent := [ToBroker(packet.value)];
        case PUBLISH =>
          ClaimFor(Publish, packet.value.id);
          sent := [ToBroker(packet.value)];
        case _ => store.Del(key);
      } else if packet.value.kind == PUBREL {
        sent := [ToIncoming(packet.value)];
      } else {
        store.Del(key);
      }
    }

    /** The resending loop. The connection takes `quota` packets before it is stopped; the
        walk ends there, after the claim and before the send. */
    method Resume(quota: nat) returns (sent: seq<Handed>, ghost keys: seq<string>, ghost done: nat)
      requires Valid() && store.isOpen
      modifies this, store, table
      ensures Valid() && store.isOpen && done <= |keys|
      ensures forall k :: k in keys <==> k in old(store.messages)
      ensures Resumed(store.messages, Kinds(table.State())) ==
              ResumeKeys(old(Resumed(store.messages, Kinds(table.State()))), keys[..done])
      ensures done < |keys| ==> |sent| == quota
      ensures sent <= ResumeSent(old(Resumed(store.messages, Kinds(table.State()))), keys[..done])
      ensures |sent| < quota ==> sent == ResumeSent(old(Resumed(store.messages, Kinds(table.State()))), keys)
      ensures |sent| < quota ==>
        && (forall k | k in old(store.messages) && Survives(k, old(store.messages)[k]) :: HandedFor(old(store.messages), k) in sent)
        && store.messages == map k | k in old(store.messages) && Survives(k, old(store.messages)[k]) :: old(store.messages)[k]
    {
      var all := store.All();
      keys, sent := all, [];
      ghost var r := Resumed(store.messages, Kinds(table.State()));
      for i := 0 to |all|
        invariant Valid() && store.isOpen
        invariant Resumed(store.messages, Kinds(table.State())) == ResumeKeys(r, all[..i])
        invariant sent == ResumeSent(r, all[..i]) && |sent| <= quota
      {
        assert all[..i + 1][..i] == all[..i];
        var out := ResumeKey(all[i]);
        if out != [] && |sent| == quota {
          done := i + 1;
          return;
        }
        sent := sent + out;
      }
      done := |all|;
      assert all[..|all|] == all;
      WalkedAll(r, all);
    }
  }
}
