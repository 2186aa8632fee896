/** Accepted publishes across reconnects of a persistent session: a client whose session is
    not clean and which does not resume subscriptions. Publish, Connect and Disconnect may be
    called by any number of routines at any time; every locked section is one step. */
module NoLoss {
  import opened TopicLevels
  import opened MessageIds
  import opened ClientStore

  datatype Options = Options(autoReconnect: bool, connectRetry: bool)

  datatype Status = Disconnected | Connecting | Reconnecting | Connected

  /** The connection and the resume that goes with it. `full` says that the walk has met an
      open store and the same index from its start on. */
  datatype Link =
    | NoConn
    | Fresh                                     // workers run, resume has not looked at the store yet
    | Resuming(todo: seq<string>, full: bool)
    | Settled

  /** A Connect call before it dials: it has opened the store, or walks over the stored keys to
      reserve their identifiers. */
  datatype Walk = Opened | Walking(todo: seq<string>, full: bool)

  /** The status, the connection, the Connect calls that have not dialled yet, and how many
      routines are: trying to connect for Connect, or to reconnect; about to stop the workers
      for Disconnect; waiting for stopped workers, for Disconnect or after a loss; and about to
      close the store for Disconnect. */
  datatype Conn = Conn(status: Status, link: Link, walks: map<nat, Walk>, firsts: nat, again: nat,
                       leaving: nat, userStops: nat, lostStops: nat, closing: nat)

  /** A Publish call between its sections. */
  datatype Call = Checked | Issued(id: Id)

  /** `owed` are the accepted publishes not yet acknowledged, with their identifiers;
      `claimed` says that the stored identifiers were put in use since the index was last
      emptied; `odd` are identifiers with a stored message that were freed without it: by an
      acknowledgement that carries QoS bits or meets a closed store, or before the message was
      stored; `used` are the numbers of all publishes ever seen. */
  datatype Session = Session(conn: Conn, isOpen: bool, messages: Messages, table: Table,
                             calls: map<nat, Call>, owed: map<nat, Id>, claimed: bool, odd: set<Id>, used: set<nat>)

  datatype Step =
    | Check(n: nat)
    | TakeId(n: nat)
    | Persist(n: nat, qos: nat)
    | SubIssue(kind: Kind)
    | Receive(m: Packet)
    | SendAck(m: Packet)
    | Open(w: nat)                   // Connect opens the store
    | WalkStart(w: nat, keys: seq<string>)
    | WalkNext(w: nat)
    | Dial(w: nat)                   // and starts to connect
    | FirstFails                     // an attempt for Connect fails: the store is closed
    | AgainStops                     // a reconnect gives up
    | Up(first: bool)
    | ResumeStart(keys: seq<string>)
    | ResumeNext
    | StrayResume(key: string)       // a resume that outlives its connection
    | Lost
    | Disconnect
    | UserStop
    | StopCleans                     // Disconnect empties the index
    | StopCloses                     // and closes the store
    | LostStops

  /** Publishing is possible: connected, or on the way with the option to queue. */
  predicate Accepting(o: Options, s: Status) {
    || s == Connected
    || (o.autoReconnect && (s == Reconnecting || s == Connected))
    || (o.connectRetry && s == Connecting)
  }

  /** The keys a walk gets to see. */
  ghost predicate ListsKeys(s: Session, keys: seq<string>) {
    forall k :: k in keys <==> s.isOpen && k in s.messages
  }

  ghost predicate Enabled(o: Options, s: Session, step: Step) {
    match step
    case Check(n) => n !in s.used && Accepting(o, s.conn.status)
    case TakeId(n) => n in s.calls && s.calls[n].Checked?
    case Persist(n, qos) => n in s.calls && s.calls[n].Issued? && 1 <= qos <= 2
    case SubIssue(kind) => kind == Subscribe || kind == Unsubscribe
    case Receive(m) => !s.conn.link.NoConn? || s.conn.userStops + s.conn.lostStops > 0
    case SendAck(m) => m.kind == PUBACK || m.kind == PUBCOMP
    case Open(w) => w !in s.conn.walks && (o.connectRetry ==> s.conn.status == Disconnected)
    case WalkStart(w, keys) => o.connectRetry && w in s.conn.walks && s.conn.walks[w].Opened? && ListsKeys(s, keys)
    case WalkNext(w) => w in s.conn.walks && s.conn.walks[w].Walking? && s.conn.walks[w].todo != []
    case Dial(w) =>
      w in s.conn.walks && if s.conn.walks[w].Opened? then !o.connectRetry else s.conn.walks[w].todo == []
    case FirstFails => s.conn.firsts > 0 && (o.connectRetry ==> s.conn.status != Connecting)
    case AgainStops => s.conn.again > 0 && s.conn.status == Disconnected
    case Up(first) => if first then s.conn.firsts > 0 else s.conn.again > 0 && s.conn.status != Disconnected
    case ResumeStart(keys) => s.conn.link.Fresh? && ListsKeys(s, keys)
    case ResumeNext => s.conn.link.Resuming?
    case StrayResume(_) => s.isOpen
    case Lost => !s.conn.link.NoConn?
    case Disconnect => true
    case UserStop => s.conn.leaving > 0
    case StopCleans => s.conn.userStops > 0
    case StopCloses => s.conn.closing > 0
    case LostStops => s.conn.lostStops > 0
  }

  function WithoutSubs(t: Table): Table {
    t.(index := map i | i in t.index && Holds(t, i) :: t.index[i])
  }

  /** The identifier is in use by a publish. */
  predicate Holds(t: Table, i: Id) {
    i in t.index && (t.index[i] == Publish || t.index[i] == PlaceHolder)
  }

  /** The next identifier is given to a token of the kind, if there is one. */
  function Taken(t: Table, kind: Kind): Table {
    var id := NextId(t.index.Keys, t.last);
    if id == 0 then t else Table(t.index[id := kind], id)
  }

  function Acked(s: Session, m: Packet): Session {
    if !IsAck(m) then s
    else
      s.(table := s.table.(index := s.table.index - {m.id}),
         owed := map n | n in s.owed && s.owed[n] != m.id :: s.owed[n],
         odd := if OutboundKey(m.id) in s.messages then s.odd + {m.id} else s.odd - {m.id})
  }

  /** The store takes the publish, if it is open. */
  function Stored(s: Session, id: Id, n: nat, qos: nat): Session {
    if !s.isOpen then s
    else
      s.(messages := PersistOut(s.messages, Packet(PUBLISH, qos, id, n)),
         odd := if Holds(s.table, id) then s.odd - {id} else s.odd + {id})
  }

  function Walked(s: Session, key: string): Session {
    var r := ResumeOne(Resumed(s.messages, s.table), key);
    s.(messages := r.messages, table := r.table)
  }

  /** The connection is up: the workers start, unless others run already. */
  function WorkersStart(c: Conn, first: bool): Conn
    requires if first then c.firsts > 0 else c.again > 0
  {
    var d := if first then c.(firsts := c.firsts - 1) else c.(again := c.again - 1);
    if c.link.NoConn? then d.(status := Connected, link := Fresh) else d
  }

  /** Stopped workers are through after a loss. */
  function AfterLoss(o: Options, c: Conn): Conn
    requires c.lostStops > 0
  {
    var d := c.(lostStops := c.lostStops - 1);
    if o.autoReconnect && (c.status == Reconnecting || c.status == Connected)
    then d.(status := Reconnecting, again := c.again + 1)
    else d.(status := Disconnected)
  }

  ghost function Next(o: Options, s: Session, step: Step): Session
    requires Enabled(o, s, step)
  {
    var c := s.conn;
    match step
    case Check(n) => s.(calls := s.calls[n := Checked], used := s.used + {n})
    case TakeId(n) =>
      var id := NextId(s.table.index.Keys, s.table.last);
      s.(table := Taken(s.table, Publish), calls := if id == 0 then s.calls - {n} else s.calls[n := Issued(id)])
    case Persist(n, qos) =>
      Stored(s.(owed := s.owed[n := s.calls[n].id], calls := s.calls - {n}), s.calls[n].id, n, qos)
    case SubIssue(kind) => s.(table := Taken(s.table, kind))
    case Receive(m) => Acked(s.(messages := if s.isOpen then PersistIn(s.messages, m) else s.messages), m)
    case SendAck(m) => s.(messages := if s.isOpen then PersistOut(s.messages, m.(qos := 0)) else s.messages)
    case WalkNext(w) =>
      var todo := c.walks[w].todo;
      if !s.isOpen then SetWalk(s, w, Walking(todo[1..], false))
      else SetWalk(s, w, c.walks[w].(todo := todo[1..])).(table := ReserveOne(s.messages, s.table, todo[0]))
    case Dial(w) =>
      s.(conn := c.(status := Connecting, firsts := c.firsts + 1, walks := c.walks - {w}),
         claimed := s.claimed || (c.walks[w].Walking? && c.walks[w].full))
    case ResumeNext =>
      if c.link.todo == [] then s.(conn := c.(link := Settled), claimed := s.claimed || c.link.full)
      else if !s.isOpen then s.(conn := c.(link := Resuming(c.link.todo[1..], false)))
      else Walked(s.(conn := c.(link := Resuming(c.link.todo[1..], c.link.full))), c.link.todo[0])
    case StrayResume(key) => Walked(s, key)
    case StopCleans =>
      s.(table := s.table.(index := map[]), claimed := false,
         conn := c.(userStops := c.userStops - 1, closing := c.closing + 1,
                    link := if c.link.Resuming? then c.link.(full := false) else c.link,
                    walks := map w | w in c.walks :: if c.walks[w].Walking? then c.walks[w].(full := false) else Opened))
    case LostStops => s.(table := WithoutSubs(s.table), conn := AfterLoss(o, c))
    case _ =>
      s.(conn := NextConn(o, s, step), isOpen := step.Open? || (s.isOpen && !step.FirstFails? && !step.StopCloses?))
  }

  function SetWalk(s: Session, w: nat, x: Walk): Session {
    s.(conn := s.conn.(walks := s.conn.walks[w := x]))
  }

  /** Steps that move the connection, and at most open or close the store. */
  predicate MovesConnection(step: Step) {
    || step.Open? || step.WalkStart? || step.FirstFails? || step.AgainStops? || step.Up? || step.ResumeStart? || step.Lost?
    || step.Disconnect? || step.UserStop? || step.StopCloses?
  }

  ghost function NextConn(o: Options, s: Session, step: Step): Conn
    requires Enabled(o, s, step) && MovesConnection(step)
  {
    var c := s.conn;
    match step
    case Open(w) => c.(walks := c.walks[w := Opened])
    case WalkStart(w, keys) => c.(walks := c.walks[w := Walking(keys, s.isOpen)])
    case FirstFails => c.(status := Disconnected, firsts := c.firsts - 1)
    case AgainStops => c.(again := c.again - 1)
    case Up(first) => WorkersStart(c, first)
    case ResumeStart(keys) => c.(link := Resuming(keys, s.isOpen))
    case Lost => c.(link := NoConn, lostStops := c.lostStops + 1)
    case Disconnect => c.(status := Disconnected, leaving := c.leaving + 1)
    case UserStop =>
      if c.link.NoConn? then c.(leaving := c.leaving - 1)
      else c.(link := NoConn, leaving := c.leaving - 1, userStops := c.userStops + 1)
    case StopCloses => c.(closing := c.closing - 1)
  }

  const UNCONNECTED := Conn(Disconnected, NoConn, map[], 0, 0, 0, 0, 0, 0)

  ghost predicate IsRun(o: Options, ss: seq<Session>, steps: seq<Step>) {
    && |ss| == |steps| + 1 && Initial(ss[0])
    && forall i | 0 <= i < |steps| :: Enabled(o, ss[i], steps[i]) && ss[i + 1] == Next(o, ss[i], steps[i])
  }

  /** A new client on a store that may hold an earlier client's publishes. */
  ghost predicate Initial(s: Session) {
    && s.conn == UNCONNECTED && !s.isOpen && s.table == Table(map[], 0)
    && s.calls == map[] && !s.claimed && s.odd == {}
    && NothingLost(s) && OutboundOk(s.messages) && NumbersOk(s)
  }

  // ---------- what holds in every run ----------

  /** Every accepted publish not yet acknowledged is stored under its own identifier. */
  ghost predicate NothingLost(s: Session) {
    forall n | n in s.owed :: IsStored(s.messages, s.owed[n], n)
  }

  ghost predicate IsStored(m: Messages, id: Id, n: nat) {
    && OutboundKey(id) in m && m[OutboundKey(id)].kind == PUBLISH
    && m[OutboundKey(id)].id == id && m[OutboundKey(id)].body == n
  }

  /** A publish whose call is still under way is neither accepted nor stored. */
  ghost predicate NumbersOk(s: Session) {
    && s.calls.Keys <= s.used && s.owed.Keys <= s.used && s.calls.Keys !! s.owed.Keys
    && forall i: Id | OutboundKey(i) in s.messages ::
         s.messages[OutboundKey(i)].body in s.used && s.messages[OutboundKey(i)].body !in s.calls
  }

  ghost predicate Waiting(s: Session, i: Id) {
    OutboundKey(i) in s.messages && i !in s.odd
  }

  /** Stored identifiers are in use once claimed; while resuming, those already passed are. */
  ghost predicate HeldOk(s: Session) {
    && (s.claimed ==> forall i | Waiting(s, i) :: Holds(s.table, i))
    && (s.conn.link.Resuming? && s.conn.link.full ==>
          forall i | Waiting(s, i) :: OutboundKey(i) in s.conn.link.todo || Holds(s.table, i))
    && (forall w | w in s.conn.walks && FullWalk(s.conn.walks[w]) :: WalkOk(s, s.conn.walks[w]))
  }

  predicate FullWalk(x: Walk) {
    x.Walking? && x.full
  }

  /** Every stored identifier is still to come in the walk, or in use. */
  ghost predicate WalkOk(s: Session, x: Walk)
    requires x.Walking?
  {
    forall i | Waiting(s, i) :: OutboundKey(i) in x.todo || Holds(s.table, i)
  }

  ghost predicate OddOk(s: Session) {
    forall i | i in s.odd :: OutboundKey(i) in s.messages
  }

  ghost predicate Base(s: Session) {
    OutboundOk(s.messages) && NumbersOk(s) && HeldOk(s) && OddOk(s)
  }

  /** The same outbound messages. */
  ghost predicate SameOutbound(m: Messages, d: Messages) {
    forall i: Id ::
      (OutboundKey(i) in d <==> OutboundKey(i) in m) && (OutboundKey(i) in d ==> d[OutboundKey(i)] == m[OutboundKey(i)])
  }

  /** The outbound messages after a received packet. */
  ghost predicate OutboundAfter(s: Messages, m: Packet, d: Messages) {
    forall i: Id ::
      && (OutboundKey(i) in d <==> OutboundKey(i) in s && !(IsAck(m) && m.id == i && DetailsQos(m) == 0))
      && (OutboundKey(i) in d ==> d[OutboundKey(i)] == s[OutboundKey(i)])
  }

  /** The outbound messages after a publish was stored. */
  ghost predicate OutboundWith(s: Messages, id: Id, p: Packet, d: Messages) {
    forall i: Id ::
      && (OutboundKey(i) in d <==> OutboundKey(i) in s || i == id)
      && (OutboundKey(i) in d ==> d[OutboundKey(i)] == if i == id then p else s[OutboundKey(i)])
  }

  lemma PersistInAfter(s: Messages, m: Packet)
    ensures OutboundAfter(s, m, PersistIn(s, m))
  {
    forall i: Id
      ensures OutboundKey(i) in PersistIn(s, m) <==> OutboundKey(i) in s && !(IsAck(m) && m.id == i && DetailsQos(m) == 0)
      ensures OutboundKey(i) in PersistIn(s, m) ==> PersistIn(s, m)[OutboundKey(i)] == s[OutboundKey(i)]
    {
      PersistInOutbound(s, m, i);
    }
  }

  lemma SendAckSame(s: Messages, m: Packet)
    requires m.kind == PUBACK || m.kind == PUBCOMP
    ensures SameOutbound(s, PersistOut(s, m))
  {
    forall i: Id
      ensures OutboundKey(i) in PersistOut(s, m) <==> OutboundKey(i) in s
      ensures OutboundKey(i) in s ==> PersistOut(s, m)[OutboundKey(i)] == s[OutboundKey(i)]
    {
      PersistOutAcks(s, m, i);
    }
  }

  lemma StoredWith(s: Messages, p: Packet)
    requires p.kind == PUBLISH && 1 <= p.qos <= 2
    ensures OutboundWith(s, p.id, p, PersistOut(s, p))
  {
    forall i: Id
      ensures OutboundKey(i) == OutboundKey(p.id) <==> i == p.id
    {
      KeysDistinct(i, p.id);
    }
  }

  lemma ResumeSame(r: Resumed, key: string)
    requires OutboundOk(r.messages)
    ensures SameOutbound(r.messages, ResumeOne(r, key).messages)
    ensures forall i | Holds(r.table, i) :: Holds(ResumeOne(r, key).table, i)
    ensures forall i: Id | OutboundKey(i) in r.messages && OutboundKey(i) == key :: Holds(ResumeOne(r, key).table, i)
  {
    forall i: Id
      ensures OutboundKey(i) in ResumeOne(r, key).messages <==> OutboundKey(i) in r.messages
      ensures OutboundKey(i) in r.messages ==> ResumeOne(r, key).messages[OutboundKey(i)] == r.messages[OutboundKey(i)]
      ensures Holds(r.table, i) ==> Holds(ResumeOne(r, key).table, i)
      ensures OutboundKey(i) in r.messages && OutboundKey(i) == key ==> Holds(ResumeOne(r, key).table, i)
    {
      ResumeOneKeeps(r, key, i);
    }
  }

  /** What a step does to the outbound messages. */
  lemma StepOutbound(o: Options, s: Session, step: Step)
    requires OutboundOk(s.messages) && Enabled(o, s, step)
    ensures var d := Next(o, s, step);
            if step.Receive? && s.isOpen then OutboundAfter(s.messages, step.m, d.messages)
            else if step.Persist? && s.isOpen then
              var id := s.calls[step.n].id;
              OutboundWith(s.messages, id, Packet(PUBLISH, step.qos, id, step.n), d.messages)
            else SameOutbound(s.messages, d.messages)
  {
    match step
    case Receive(m) => PersistInAfter(s.messages, m);
    case Persist(n, qos) => StoredWith(s.messages, Packet(PUBLISH, qos, s.calls[n].id, n));
    case SendAck(m) => SendAckSame(s.messages, m.(qos := 0));
    case ResumeNext =>
      if s.conn.link.todo != [] {
        ResumeSame(Resumed(s.messages, s.table), s.conn.link.todo[0]);
      }
    case StrayResume(key) => ResumeSame(Resumed(s.messages, s.table), key);
    case _ =>
  }

  lemma OutboundKept(o: Options, s: Session, step: Step)
    requires OutboundOk(s.messages) && Enabled(o, s, step)
    ensures OutboundOk(Next(o, s, step).messages)
  {
    StepOutbound(o, s, step);
  }

  /** Who is under way and who is accepted after a step. */
  ghost predicate Moved(s: Session, d: Session, step: Step) {
    CallsMoved(s, d, step) && OwedMoved(s, d, step)
  }

  ghost predicate CallsMoved(s: Session, d: Session, step: Step) {
    && s.used <= d.used && d.used <= s.used + (if step.Check? then {step.n} else {})
    && d.calls.Keys <= s.calls.Keys + (if step.Check? then {step.n} else {})
    && (step.Check? ==> step.n !in s.used && step.n in d.used)
  }

  ghost predicate OwedMoved(s: Session, d: Session, step: Step) {
    && d.owed.Keys <= s.owed.Keys + (if step.Persist? then {step.n} else {})
    && (step.Persist? ==> step.n in s.calls && step.n !in d.calls)
  }

  /** What a step of the connection leaves alone. */
  lemma ConnFrame(o: Options, s: Session, step: Step)
    requires Enabled(o, s, step) && MovesConnection(step)
    ensures var d := Next(o, s, step); d == s.(conn := d.conn, isOpen := d.isOpen)
  {
  }

  lemma StepMovesCalls(o: Options, s: Session, step: Step)
    requires Enabled(o, s, step)
    ensures CallsMoved(s, Next(o, s, step), step)
  {
    if MovesConnection(step) {
      ConnFrame(o, s, step);
    }
  }

  lemma StepMovesOwed(o: Options, s: Session, step: Step)
    requires Enabled(o, s, step)
    ensures OwedMoved(s, Next(o, s, step), step)
  {
    if MovesConnection(step) {
      ConnFrame(o, s, step);
    }
  }

  lemma NumbersKept(o: Options, s: Session, step: Step)
    requires OutboundOk(s.messages) && NumbersOk(s) && Enabled(o, s, step)
    ensures NumbersOk(Next(o, s, step))
  {
    StepOutbound(o, s, step);
    StepMovesCalls(o, s, step);
    StepMovesOwed(o, s, step);
    NumbersFrame(s, Next(o, s, step), step);
  }

  lemma NumbersFrame(s: Session, d: Session, step: Step)
    requires NumbersOk(s) && Moved(s, d, step)
    requires forall i: Id | OutboundKey(i) in d.messages ::
               || (OutboundKey(i) in s.messages && d.messages[OutboundKey(i)].body == s.messages[OutboundKey(i)].body)
               || (step.Persist? && d.messages[OutboundKey(i)].body == step.n)
    ensures NumbersOk(d)
  {
  }

  lemma OddKept(o: Options, s: Session, step: Step)
    requires OutboundOk(s.messages) && OddOk(s) && Enabled(o, s, step)
    ensures OddOk(Next(o, s, step))
  {
    StepOutbound(o, s, step);
    if !step.Persist? && !step.Receive? {
      OwedUnmoved(o, s, step);
    }
  }

  lemma HeldFrame(s: Session, d: Session)
    requires HeldOk(s) && d.claimed == s.claimed && d.conn.link == s.conn.link && d.conn.walks == s.conn.walks
    requires forall i | Waiting(d, i) :: Waiting(s, i) || Holds(d.table, i)
    requires forall i | Waiting(d, i) :: Holds(s.table, i) ==> Holds(d.table, i)
    ensures HeldOk(d)
  {
  }

  lemma TakenHolds(t: Table, kind: Kind)
    ensures forall i | Holds(t, i) :: Holds(Taken(t, kind), i)
  {
    NextIdExact(t.index.Keys, t.last);
  }

  lemma TakeHeld(s: Session, d: Session, kind: Kind)
    requires HeldOk(s) && d.claimed == s.claimed && d.conn == s.conn && d.messages == s.messages && d.odd == s.odd
    requires d.table == Taken(s.table, kind)
    ensures HeldOk(d)
  {
    TakenHolds(s.table, kind);
    assert forall i | Waiting(d, i) :: Waiting(s, i);
    HeldFrame(s, d);
  }

  lemma PersistHeld(o: Options, s: Session, n: nat, qos: nat)
    requires OutboundOk(s.messages) && HeldOk(s) && Enabled(o, s, Persist(n, qos))
    ensures HeldOk(Next(o, s, Persist(n, qos)))
  {
    StepOutbound(o, s, Persist(n, qos));
    var d := Next(o, s, Persist(n, qos));
    assert forall i | Waiting(d, i) :: Waiting(s, i) || Holds(d.table, i);
    HeldFrame(s, d);
  }

  lemma ReceiveHeld(o: Options, s: Session, m: Packet)
    requires OutboundOk(s.messages) && HeldOk(s) && Enabled(o, s, Receive(m))
    ensures HeldOk(Next(o, s, Receive(m)))
  {
    StepOutbound(o, s, Receive(m));
    var d := Next(o, s, Receive(m));
    assert forall i | Waiting(d, i) :: Waiting(s, i) && !(IsAck(m) && m.id == i);
    assert forall i | Holds(s.table, i) && !(IsAck(m) && m.id == i) :: Holds(d.table, i);
    HeldFrame(s, d);
  }

  lemma SendAckHeld(o: Options, s: Session, m: Packet)
    requires OutboundOk(s.messages) && HeldOk(s) && Enabled(o, s, SendAck(m))
    ensures HeldOk(Next(o, s, SendAck(m)))
  {
    StepOutbound(o, s, SendAck(m));
    var d := Next(o, s, SendAck(m));
    assert forall i | Waiting(d, i) :: Waiting(s, i);
    HeldFrame(s, d);
  }

  lemma ReserveHolds(m: Messages, t: Table, key: string)
    requires OutboundOk(m)
    ensures forall i | Holds(t, i) :: Holds(ReserveOne(m, t, key), i)
    ensures forall i: Id | OutboundKey(i) in m && OutboundKey(i) == key :: Holds(ReserveOne(m, t, key), i)
  {
  }

  /** The walks that matter after a step are as far as before, or further. */
  lemma WalksFrame(s: Session, d: Session)
    requires HeldOk(s)
    requires forall i | Waiting(d, i) :: Waiting(s, i)
    requires forall i | Holds(s.table, i) :: Holds(d.table, i)
    requires forall w | w in d.conn.walks && FullWalk(d.conn.walks[w]) ::
               && w in s.conn.walks && FullWalk(s.conn.walks[w])
               && forall i | Waiting(s, i) && OutboundKey(i) in s.conn.walks[w].todo ::
                    OutboundKey(i) in d.conn.walks[w].todo || Holds(d.table, i)
    ensures forall w | w in d.conn.walks && FullWalk(d.conn.walks[w]) :: WalkOk(d, d.conn.walks[w])
  {
    forall w | w in d.conn.walks && FullWalk(d.conn.walks[w])
      ensures WalkOk(d, d.conn.walks[w])
    {
      assert WalkOk(s, s.conn.walks[w]);
    }
  }

  lemma WalkHeld(o: Options, s: Session, w: nat)
    requires OutboundOk(s.messages) && HeldOk(s) && Enabled(o, s, WalkNext(w))
    ensures HeldOk(Next(o, s, WalkNext(w)))
  {
    var d, todo := Next(o, s, WalkNext(w)), s.conn.walks[w].todo;
    ReserveHolds(s.messages, s.table, todo[0]);
    assert todo == [todo[0]] + todo[1..];
    assert forall i | Waiting(d, i) :: Waiting(s, i);
    assert forall i | Holds(s.table, i) :: Holds(d.table, i);
    WalksFrame(s, d);
  }

  lemma DialHeld(o: Options, s: Session, w: nat)
    requires HeldOk(s) && Enabled(o, s, Dial(w))
    ensures HeldOk(Next(o, s, Dial(w)))
  {
    var d := Next(o, s, Dial(w));
    assert forall i | Waiting(d, i) :: Waiting(s, i);
    WalksFrame(s, d);
    assert FullWalk(s.conn.walks[w]) ==> WalkOk(s, s.conn.walks[w]);
  }

  lemma WalkStartHeld(o: Options, s: Session, w: nat, keys: seq<string>)
    requires HeldOk(s) && Enabled(o, s, WalkStart(w, keys))
    ensures HeldOk(Next(o, s, WalkStart(w, keys)))
  {
    var d := Next(o, s, WalkStart(w, keys));
    assert forall i | Waiting(d, i) :: Waiting(s, i);
    forall v | v in d.conn.walks && FullWalk(d.conn.walks[v])
      ensures WalkOk(d, d.conn.walks[v])
    {
      if v != w {
        assert WalkOk(s, s.conn.walks[v]);
      }
    }
  }

  lemma ResumeHeld(o: Options, s: Session)
    requires OutboundOk(s.messages) && HeldOk(s) && Enabled(o, s, ResumeNext)
    ensures HeldOk(Next(o, s, ResumeNext))
  {
    var d := Next(o, s, ResumeNext);
    var todo := s.conn.link.todo;
    if todo != [] {
      ResumeSame(Resumed(s.messages, s.table), todo[0]);
      assert todo == [todo[0]] + todo[1..];
    }
    assert forall i | Waiting(d, i) :: Waiting(s, i);
    assert forall i | Holds(s.table, i) :: Holds(d.table, i);
    WalksFrame(s, d);
  }

  lemma StrayHeld(o: Options, s: Session, key: string)
    requires OutboundOk(s.messages) && HeldOk(s) && Enabled(o, s, StrayResume(key))
    ensures HeldOk(Next(o, s, StrayResume(key)))
  {
    var d := Next(o, s, StrayResume(key));
    ResumeSame(Resumed(s.messages, s.table), key);
    assert forall i | Waiting(d, i) :: Waiting(s, i);
    HeldFrame(s, d);
  }

  lemma LinkHeld(o: Options, s: Session, step: Step)
    requires HeldOk(s) && Enabled(o, s, step) && (step.Check? || MovesConnection(step)) && !step.WalkStart?
    ensures HeldOk(Next(o, s, step))
  {
    var d := Next(o, s, step);
    if MovesConnection(step) {
      ConnFrame(o, s, step);
    }
    assert forall i | Waiting(d, i) :: Waiting(s, i);
    WalksFrame(s, d);
  }

  lemma StopHeld(o: Options, s: Session, step: Step)
    requires HeldOk(s) && Enabled(o, s, step) && (step.StopCleans? || step.LostStops?)
    ensures HeldOk(Next(o, s, step))
  {
    var d := Next(o, s, step);
    assert forall i | Waiting(d, i) :: Waiting(s, i);
    if step.LostStops? {
      assert forall i | Holds(s.table, i) :: Holds(d.table, i);
      WalksFrame(s, d);
    }
  }

  lemma HeldKept(o: Options, s: Session, step: Step)
    requires OutboundOk(s.messages) && HeldOk(s) && Enabled(o, s, step)
    ensures HeldOk(Next(o, s, step))
  {
    match step
    case TakeId(_) => TakeHeld(s, Next(o, s, step), Publish);
    case SubIssue(kind) => TakeHeld(s, Next(o, s, step), kind);
    case Persist(n, qos) => PersistHeld(o, s, n, qos);
    case Receive(m) => ReceiveHeld(o, s, m);
    case SendAck(m) => SendAckHeld(o, s, m);
    case WalkStart(w, keys) => WalkStartHeld(o, s, w, keys);
    case WalkNext(w) => WalkHeld(o, s, w);
    case Dial(w) => DialHeld(o, s, w);
    case ResumeNext => ResumeHeld(o, s);
    case StrayResume(key) => StrayHeld(o, s, key);
    case StopCleans => StopHeld(o, s, step);
    case LostStops => StopHeld(o, s, step);
    case _ => LinkHeld(o, s, step);
  }

  lemma StepKeepsBase(o: Options, s: Session, step: Step)
    requires Base(s) && Enabled(o, s, step)
    ensures Base(Next(o, s, step))
  {
    OutboundKept(o, s, step);
    NumbersKept(o, s, step);
    OddKept(o, s, step);
    HeldKept(o, s, step);
  }

  /** In every run, whatever the options and however the calls interleave. */
  lemma {:induction false} RunKeepsBase(o: Options, ss: seq<Session>, steps: seq<Step>, i: nat)
    requires IsRun(o, ss, steps) && i < |ss|
    ensures Base(ss[i])
  {
    if i > 0 {
      RunKeepsBase(o, ss, steps, i - 1);
      StepKeepsBase(o, ss[i - 1], steps[i - 1]);
    }
  }

  // ---------- exactly when nothing is lost ----------

  lemma ReceiveLosesNothing(o: Options, s: Session, m: Packet)
    requires OutboundOk(s.messages) && NothingLost(s) && Enabled(o, s, Receive(m))
    ensures NothingLost(Next(o, s, Receive(m)))
  {
    StepOutbound(o, s, Receive(m));
  }

  lemma SameOwed(s: Session, d: Session)
    requires NothingLost(s) && d.owed == s.owed && SameOutbound(s.messages, d.messages)
    ensures NothingLost(d)
  {
  }

  lemma OwedUnmoved(o: Options, s: Session, step: Step)
    requires Enabled(o, s, step) && !step.Persist? && !step.Receive?
    ensures Next(o, s, step).owed == s.owed && Next(o, s, step).odd == s.odd
  {
    if MovesConnection(step) {
      ConnFrame(o, s, step);
    }
  }

  /** Only storing a publish can lose one. */
  lemma OwedKept(o: Options, s: Session, step: Step)
    requires OutboundOk(s.messages) && NothingLost(s) && Enabled(o, s, step) && !step.Persist?
    ensures NothingLost(Next(o, s, step))
  {
    if step.Receive? {
      ReceiveLosesNothing(o, s, step.m);
    } else {
      StepOutbound(o, s, step);
      OwedUnmoved(o, s, step);
      SameOwed(s, Next(o, s, step));
    }
  }

  /** Storing a publish loses it or an earlier one, unless the store is open and the
      identifier is owed to no other. */
  lemma PersistLosesIff(o: Options, s: Session, n: nat, qos: nat)
    requires OutboundOk(s.messages) && NumbersOk(s) && NothingLost(s) && Enabled(o, s, Persist(n, qos))
    ensures NothingLost(Next(o, s, Persist(n, qos))) <==> s.isOpen && s.calls[n].id !in s.owed.Values
  {
    var id := s.calls[n].id;
    var d := Next(o, s, Persist(n, qos));
    StepOutbound(o, s, Persist(n, qos));
    assert d.owed[n] == id;
    if id in s.owed.Values {
      var k :| k in s.owed && s.owed[k] == id;
      assert d.owed[k] == id;
    } else {
      assert forall k | k in s.owed :: s.owed[k] in s.owed.Values;
    }
  }

  /** The store is open, and the identifier being stored under is owed to no other publish. */
  ghost predicate SafeToStore(s: Session, step: Step) {
    step.Persist? && step.n in s.calls && s.calls[step.n].Issued? ==> s.isOpen && s.calls[step.n].id !in s.owed.Values
  }

  lemma {:induction false} SafeStoresKeepAll(o: Options, ss: seq<Session>, steps: seq<Step>, m: nat)
    requires IsRun(o, ss, steps) && m <= |steps|
    requires forall i | 0 <= i < m :: SafeToStore(ss[i], steps[i])
    ensures NothingLost(ss[m])
  {
    if m > 0 {
      var n := m - 1;
      SafeStoresKeepAll(o, ss, steps, n);
      RunKeepsBase(o, ss, steps, n);
      assert Enabled(o, ss[n], steps[n]) && SafeToStore(ss[n], steps[n]);
      if steps[n].Persist? {
        PersistLosesIff(o, ss[n], steps[n].n, steps[n].qos);
      } else {
        OwedKept(o, ss[n], steps[n]);
      }
    }
  }

  lemma {:induction false} FirstUnsafe(ss: seq<Session>, steps: seq<Step>, j: nat) returns (k: nat)
    requires |ss| == |steps| + 1 && j < |steps| && !SafeToStore(ss[j], steps[j])
    ensures k <= j && !SafeToStore(ss[k], steps[k]) && forall i | 0 <= i < k :: SafeToStore(ss[i], steps[i])
    decreases j
  {
    if i :| 0 <= i < j && !SafeToStore(ss[i], steps[i]) {
      k := FirstUnsafe(ss, steps, i);
    } else {
      k := j;
    }
  }

  /** Over every run, with any options and any interleaving of calls, connections and
      acknowledgements: each accepted publish is stored under its own identifier until an
      acknowledgement carrying it arrives, if and only if every publish meets an open store
      and an identifier that is owed to no other. */
  lemma NothingLostIff(o: Options, ss: seq<Session>, steps: seq<Step>)
    requires IsRun(o, ss, steps)
    ensures (forall i | 0 <= i < |ss| :: NothingLost(ss[i])) <==> (forall i | 0 <= i < |steps| :: SafeToStore(ss[i], steps[i]))
  {
    if forall i | 0 <= i < |steps| :: SafeToStore(ss[i], steps[i]) {
      forall i | 0 <= i < |ss|
        ensures NothingLost(ss[i])
      {
        SafeStoresKeepAll(o, ss, steps, i);
      }
    } else {
      var j :| 0 <= j < |steps| && !SafeToStore(ss[j], steps[j]);
      var k := FirstUnsafe(ss, steps, j);
      SafeStoresKeepAll(o, ss, steps, k);
      RunKeepsBase(o, ss, steps, k);
      assert Enabled(o, ss[k], steps[k]);
      PersistLosesIff(o, ss[k], steps[k].n, steps[k].qos);
      assert !NothingLost(ss[k + 1]);
    }
  }

  // ---------- what the sections do ----------

  /** The identifiers in use after a step: a Disconnect gives up all of them, a loss those of
      subscribe and unsubscribe tokens, an acknowledgement its own; a publish, a subscribe or an
      unsubscribe takes a free one, if there is any; the walks only take more. */
  lemma IndexAfter(o: Options, s: Session, step: Step)
    requires Enabled(o, s, step)
    ensures var t, u := s.table, Next(o, s, step).table;
            match step
            case StopCleans => u.index == map[]
            case LostStops =>
              && (forall i :: i in u.index <==> i in t.index && t.index[i] in {Publish, PlaceHolder})
              && (forall i | i in u.index :: u.index[i] == t.index[i])
            case Receive(m) => u.index == if m.kind in {PUBACK, PUBCOMP, SUBACK, UNSUBACK} then t.index - {m.id} else t.index
            case TakeId(_) => TakesOne(t, u, Publish)
            case SubIssue(kind) => TakesOne(t, u, kind)
            case WalkNext(_) => t.index.Keys <= u.index.Keys
            case ResumeNext => t.index.Keys <= u.index.Keys
            case StrayResume(_) => t.index.Keys <= u.index.Keys
            case _ => u == t
  {
    if MovesConnection(step) {
      ConnFrame(o, s, step);
    } else if step.TakeId? || step.SubIssue? {
      TakenIsOne(s.table, if step.TakeId? then Publish else step.kind);
    } else if step.WalkNext? || step.ResumeNext? || step.StrayResume? {
      WalksTakeMore(o, s, step);
    }
  }

  lemma TakenIsOne(t: Table, kind: Kind)
    ensures TakesOne(t, Taken(t, kind), kind)
  {
    NextIdExact(t.index.Keys, t.last);
  }

  lemma WalksTakeMore(o: Options, s: Session, step: Step)
    requires Enabled(o, s, step) && (step.WalkNext? || step.ResumeNext? || step.StrayResume?)
    ensures s.table.index.Keys <= Next(o, s, step).table.index.Keys
  {
  }

  ghost predicate TakesOne(t: Table, u: Table, kind: Kind) {
    if forall i: Id | i != 0 :: i in t.index then u == t
    else exists i: Id :: i != 0 && i !in t.index && u.index == t.index[i := kind] && u.last == i
  }

  /** The status after a step: a loss with AutoReconnect starts to reconnect, unless the user has
      disconnected; Disconnect and a failed Connect end it; workers that start make it connected. */
  lemma StatusAfter(o: Options, s: Session, step: Step)
    requires Enabled(o, s, step)
    ensures var c, d := s.conn, Next(o, s, step).conn;
            match step
            case LostStops =>
              if o.autoReconnect && c.status in {Reconnecting, Connected}
              then d.status == Reconnecting && d.again == c.again + 1 else d.status == Disconnected && d.again == c.again
            case Disconnect => d.status == Disconnected
            case FirstFails => d.status == Disconnected
            case Dial(_) => d.status == Connecting && d.firsts == c.firsts + 1
            case Up(_) => if c.link.NoConn? then d.status == Connected && d.link == Fresh else d.status == c.status && d.link == c.link
            case _ => d.status == c.status
  {
  }

  // ---------- what is owed ----------

  /** The step brings the acknowledgement of the identifier. */
  predicate Acknowledges(step: Step, id: Id) {
    step.Receive? && step.m.kind in {PUBACK, PUBCOMP, SUBACK, UNSUBACK} && step.m.id == id
  }

  lemma OwedStep(o: Options, s: Session, step: Step, n: nat)
    requires Enabled(o, s, step)
    ensures var d := Next(o, s, step);
            && (n in d.owed <==> (step.Persist? && step.n == n) || (n in s.owed && !Acknowledges(step, s.owed[n])))
            && (n in d.owed ==> d.owed[n] == if step.Persist? && step.n == n then s.calls[n].id else s.owed[n])
  {
    if !step.Persist? && !step.Receive? {
      OwedUnmoved(o, s, step);
    }
  }

  /** Over every run: a publish is owed from the step that accepts it, under the identifier it
      was given, until an acknowledgement with that identifier arrives, whatever else happens. */
  lemma {:induction false} OwedUntilAcked(o: Options, ss: seq<Session>, steps: seq<Step>, j: nat, i: nat, n: nat, id: Id)
    requires IsRun(o, ss, steps) && j < i < |ss| && steps[j].Persist? && steps[j].n == n
    requires n in ss[j].calls && ss[j].calls[n] == Issued(id)
    requires forall k | j < k < i :: !Acknowledges(steps[k], id)
    ensures n in ss[i].owed && ss[i].owed[n] == id
    decreases i
  {
    var s, step := ss[i - 1], steps[i - 1];
    assert Enabled(o, s, step);
    OwedStep(o, s, step, n);
    if j < i - 1 {
      OwedUntilAcked(o, ss, steps, j, i - 1, n, id);
      RunKeepsBase(o, ss, steps, i - 1);
    }
  }

  /** And the other way: what is owed was there at the start or was accepted, and its
      acknowledgement has not come since. */
  lemma {:induction false} OwedWasAccepted(o: Options, ss: seq<Session>, steps: seq<Step>, i: nat, n: nat) returns (j: nat)
    requires IsRun(o, ss, steps) && i < |ss| && n in ss[i].owed && n !in ss[0].owed
    ensures j < i && steps[j].Persist? && steps[j].n == n && n in ss[j].calls && ss[j].calls[n] == Issued(ss[i].owed[n])
    ensures forall k | j < k < i :: !Acknowledges(steps[k], ss[i].owed[n])
    decreases i
  {
    var s, step := ss[i - 1], steps[i - 1];
    assert Enabled(o, s, step);
    OwedStep(o, s, step, n);
    if step.Persist? && step.n == n {
      j := i - 1;
    } else {
      j := OwedWasAccepted(o, ss, steps, i - 1, n);
    }
  }

  // ---------- sent again on every connection ----------

  /** What the resume of the current connection has not reached yet. */
  function Todo(l: Link): seq<string> {
    if l.Resuming? then l.todo else []
  }

  predicate Walks(l: Link) {
    l.Resuming? || l.Settled?
  }

  /** The step takes the key off the resume's list. */
  predicate Passes(s: Session, step: Step, key: string) {
    step.ResumeNext? && s.conn.link.Resuming? && s.conn.link.todo != [] && s.conn.link.todo[0] == key
  }

  /** A connection that walks started to in this step, or walked before it. */
  ghost predicate WalksOn(l: Link, step: Step, m: Link) {
    if step.ResumeStart? then Todo(m) == step.keys
    else Walks(l) && Todo(m) == if Todo(l) != [] && step.ResumeNext? then Todo(l)[1..] else Todo(l)
  }

  lemma ConnLink(o: Options, s: Session, step: Step)
    requires Enabled(o, s, step) && MovesConnection(step) && Walks(Next(o, s, step).conn.link)
    ensures WalksOn(s.conn.link, step, Next(o, s, step).conn.link)
  {
  }

  lemma LinkStep(o: Options, s: Session, step: Step)
    requires Enabled(o, s, step) && Walks(Next(o, s, step).conn.link)
    ensures WalksOn(s.conn.link, step, Next(o, s, step).conn.link)
  {
    if MovesConnection(step) {
      ConnLink(o, s, step);
    }
  }

  /** The resume that a connection is in, or has settled with, started on it at step j, and
      has passed every key it started with that is not still to come. */
  ghost predicate StartedAt(ss: seq<Session>, steps: seq<Step>, j: nat, i: nat) {
    && j < i < |ss| == |steps| + 1 && steps[j].ResumeStart?
    && (forall k | j < k <= i :: Walks(ss[k].conn.link))
    && forall key | key in steps[j].keys :: key in Todo(ss[i].conn.link) || PassedIn(ss, steps, j, i, key)
  }

  ghost predicate PassedIn(ss: seq<Session>, steps: seq<Step>, j: nat, i: nat, key: string)
    requires j < i < |ss| == |steps| + 1
  {
    exists k | j < k < i :: Passes(ss[k], steps[k], key)
  }

  lemma {:induction false} ResumeStarted(o: Options, ss: seq<Session>, steps: seq<Step>, i: nat) returns (j: nat)
    requires IsRun(o, ss, steps) && i < |ss| && Walks(ss[i].conn.link)
    ensures StartedAt(ss, steps, j, i)
    decreases i
  {
    var s, step := ss[i - 1], steps[i - 1];
    assert Enabled(o, s, step) && ss[i] == Next(o, s, step);
    LinkStep(o, s, step);
    if step.ResumeStart? {
      j := i - 1;
    } else {
      j := ResumeStarted(o, ss, steps, i - 1);
      forall key | key in steps[j].keys
        ensures key in Todo(ss[i].conn.link) || PassedIn(ss, steps, j, i, key)
      {
        if key in Todo(s.conn.link) {
          TodoShrinks(Todo(s.conn.link), key);
          if key !in Todo(ss[i].conn.link) {
            assert Passes(ss[i - 1], steps[i - 1], key);
          }
        } else {
          var k :| j < k < i - 1 && Passes(ss[k], steps[k], key);
        }
      }
    }
  }

  lemma TodoShrinks(todo: seq<string>, key: string)
    requires key in todo
    ensures key in todo[1..] || key == todo[0]
  {
  }

  /** The step sends the publish n on the connection. */
  ghost predicate Resends(s: Session, step: Step, n: nat) {
    && step.ResumeNext? && s.isOpen && Todo(s.conn.link) != []
    && var out := ResumeSends(s.messages, Todo(s.conn.link)[0]);
       |out| == 1 && out[0].ToBroker? && out[0].m.kind == PUBLISH && out[0].m.body == n
  }

  /** The publish stays owed from j to i, with nothing lost and the store open. */
  ghost predicate OwedThrough(ss: seq<Session>, j: nat, i: nat, n: nat)
    requires j <= i < |ss| && n in ss[j].owed
  {
    forall k | j <= k <= i :: ss[k].isOpen && n in ss[k].owed && ss[k].owed[n] == ss[j].owed[n] && NothingLost(ss[k])
  }

  /** Over every run: no connection settles before it has gone through a resume of its own, and
      every publish that was owed all through that resume, with the store open and nothing lost,
      was sent again by it. */
  lemma ResentBeforeSettled(o: Options, ss: seq<Session>, steps: seq<Step>, i: nat) returns (j: nat)
    requires IsRun(o, ss, steps) && i < |ss| && ss[i].conn.link.Settled?
    ensures StartedAt(ss, steps, j, i)
    ensures forall n | n in ss[j].owed && OwedThrough(ss, j, i, n) :: exists k | j < k < i :: Resends(ss[k], steps[k], n)
  {
    j := ResumeStarted(o, ss, steps, i);
    forall n | n in ss[j].owed && OwedThrough(ss, j, i, n)
      ensures exists k | j < k < i :: Resends(ss[k], steps[k], n)
    {
      var key := OutboundKey(ss[j].owed[n]);
      assert Enabled(o, ss[j], steps[j]) && ListsKeys(ss[j], steps[j].keys);
      assert IsStored(ss[j].messages, ss[j].owed[n], n);
      assert key in steps[j].keys;
      var k :| j < k < i && Passes(ss[k], steps[k], key);
      KeysRoundTrip(ss[j].owed[n]);
      assert IsStored(ss[k].messages, ss[k].owed[n], n);
      assert Resends(ss[k], steps[k], n);
    }
  }

  // ---------- the identifiers given out ----------

  /** Once the stored identifiers are claimed, the allocator hands out one with a message
      under it if and only if that message outlived its identifier. */
  lemma IssuedIdStoredIff(o: Options, ss: seq<Session>, steps: seq<Step>, i: nat)
    requires IsRun(o, ss, steps) && i < |ss| && ss[i].claimed
    ensures var s := ss[i];
            var id := NextId(s.table.index.Keys, s.table.last);
            id != 0 ==> (OutboundKey(id) in s.messages <==> id in s.odd)
  {
    var s := ss[i];
    var id := NextId(s.table.index.Keys, s.table.last);
    RunKeepsBase(o, ss, steps, i);
    NextIdExact(s.table.index.Keys, s.table.last);
    assert Waiting(s, id) ==> Holds(s.table, id);
  }

  /** How a message outlives its identifier. */
  ghost predicate Outlives(s: Session, step: Step) {
    || (step.Receive? && IsAck(step.m) && (DetailsQos(step.m) != 0 || !s.isOpen) && OutboundKey(step.m.id) in s.messages)
    || (step.Persist? && step.n in s.calls && s.calls[step.n].Issued? && s.isOpen && !Holds(s.table, s.calls[step.n].id))
  }

  lemma StepOdd(o: Options, s: Session, step: Step)
    requires OutboundOk(s.messages) && Enabled(o, s, step)
    requires !Outlives(s, step) && s.odd == {}
    ensures Next(o, s, step).odd == {}
  {
    StepOutbound(o, s, step);
    if !step.Persist? && !step.Receive? {
      OwedUnmoved(o, s, step);
    }
  }

  lemma {:induction false} NoneOdd(o: Options, ss: seq<Session>, steps: seq<Step>, m: nat)
    requires IsRun(o, ss, steps) && m <= |steps| && forall i | 0 <= i < m :: !Outlives(ss[i], steps[i])
    ensures ss[m].odd == {}
  {
    if m > 0 {
      NoneOdd(o, ss, steps, m - 1);
      RunKeepsBase(o, ss, steps, m - 1);
      assert Enabled(o, ss[m - 1], steps[m - 1]);
      StepOdd(o, ss[m - 1], steps[m - 1]);
    }
  }

  /** So it never does in a run without acknowledgements with QoS bits for a stored message
      and without a publish stored after its identifier was freed. */
  lemma IssuedIdIsNotStored(o: Options, ss: seq<Session>, steps: seq<Step>, i: nat)
    requires IsRun(o, ss, steps) && i < |ss| && ss[i].claimed
    requires forall k | 0 <= k < i :: !Outlives(ss[k], steps[k])
    ensures var s := ss[i];
            var id := NextId(s.table.index.Keys, s.table.last);
            id != 0 ==> OutboundKey(id) !in s.messages
  {
    NoneOdd(o, ss, steps, i);
    IssuedIdStoredIff(o, ss, steps, i);
  }

  // ---------- what callers and options can do for it ----------

  /** Some Connect call is about to put the stored identifiers in use. */
  ghost predicate Reserving(c: Conn) {
    exists w :: w in c.walks && (c.walks[w].Opened? || c.walks[w].full)
  }

  /** The store is open to calls: no Disconnect has emptied the index and not yet closed it. */
  predicate OpenToCalls(s: Session) {
    s.isOpen && s.conn.closing == 0
  }

  lemma RetryStep(o: Options, s: Session, step: Step)
    requires o.connectRetry && (OpenToCalls(s) ==> s.claimed || Reserving(s.conn)) && Enabled(o, s, step)
    ensures var d := Next(o, s, step); OpenToCalls(d) ==> d.claimed || Reserving(d.conn)
  {
    var d := Next(o, s, step);
    if step.Open? {
      assert d.conn.walks[step.w].Opened?;
    } else if OpenToCalls(s) && !s.claimed {
      var w :| w in s.conn.walks && (s.conn.walks[w].Opened? || s.conn.walks[w].full);
      assert OpenToCalls(d) && w in d.conn.walks ==> d.conn.walks[w].Opened? || d.conn.walks[w].full;
    }
  }

  lemma {:induction false} RetryRun(o: Options, ss: seq<Session>, steps: seq<Step>, i: nat)
    requires IsRun(o, ss, steps) && o.connectRetry && i < |ss|
    ensures OpenToCalls(ss[i]) ==> ss[i].claimed || Reserving(ss[i].conn)
  {
    if i > 0 {
      RetryRun(o, ss, steps, i - 1);
      RetryStep(o, ss[i - 1], steps[i - 1]);
    }
  }

  /** With ConnectRetry every stored identifier is in use whenever the store is open and no
      Connect or Disconnect is at work on it, but for those whose message outlived them. */
  lemma RetryClaimsFirst(o: Options, ss: seq<Session>, steps: seq<Step>, i: nat)
    requires IsRun(o, ss, steps) && o.connectRetry && i < |ss|
    ensures OpenToCalls(ss[i]) && ss[i].conn.walks == map[] ==>
      ss[i].claimed && forall id: Id | OutboundKey(id) in ss[i].messages && id !in ss[i].odd :: Holds(ss[i].table, id)
  {
    RetryRun(o, ss, steps, i);
    RunKeepsBase(o, ss, steps, i);
    assert forall id | Waiting(ss[i], id) :: ss[i].claimed ==> Holds(ss[i].table, id);
  }

  /** The store is open when Publish is called, with no Connect or Disconnect at work on it; it
      is not closed, nor the index emptied, under the call; and no acknowledgement arrives for
      an identifier whose publish has not been stored yet. */
  ghost predicate Orderly(s: Session, step: Step) {
    && (step.Check? ==> OpenToCalls(s) && s.conn.walks == map[])
    && (step.FirstFails? || step.StopCleans? || step.StopCloses? ==> s.calls == map[])
    && (step.Receive? && IsAck(step.m) ==> forall n | n in s.calls && s.calls[n].Issued? :: s.calls[n].id != step.m.id)
  }

  /** Stored identifiers are claimed before any new publish gets one. */
  ghost predicate ClaimsFirst(s: Session, step: Step) {
    step.TakeId? ==> s.claimed
  }

  ghost predicate OrderlyRun(ss: seq<Session>, steps: seq<Step>)
    requires |ss| == |steps| + 1
  {
    forall i | 0 <= i < |steps| :: Orderly(ss[i], steps[i])
  }

  ghost predicate ClaimsFirstRun(ss: seq<Session>, steps: seq<Step>)
    requires |ss| == |steps| + 1
  {
    forall i | 0 <= i < |steps| :: ClaimsFirst(ss[i], steps[i])
  }

  /** A call that has its identifier has it for itself. */
  ghost predicate CallsOk(s: Session) {
    && (forall n | n in s.calls && s.calls[n].Issued? ::
          s.claimed && Holds(s.table, s.calls[n].id) && s.calls[n].id !in s.owed.Values)
    && (forall n, k | n in s.calls && k in s.calls && n != k && s.calls[n].Issued? && s.calls[k].Issued? ::
          s.calls[n].id != s.calls[k].id)
  }

  /** What is owed has its message and its identifier together. */
  ghost predicate OwedHeld(s: Session) {
    NothingLost(s) && forall n | n in s.owed :: s.owed[n] !in s.odd
  }

  ghost predicate OpenForCalls(o: Options, s: Session) {
    s.calls != map[] ==> OpenToCalls(s) && (o.connectRetry ==> s.claimed)
  }

  ghost predicate Inv(o: Options, s: Session) {
    Base(s) && OwedHeld(s) && CallsOk(s) && OpenForCalls(o, s)
  }

  lemma CallsFrame(s: Session, d: Session)
    requires CallsOk(s) && d.calls == s.calls && (s.claimed ==> d.claimed) && d.owed.Values <= s.owed.Values
    requires forall n | n in s.calls && s.calls[n].Issued? :: Holds(s.table, s.calls[n].id) ==> Holds(d.table, s.calls[n].id)
    ensures CallsOk(d)
  {
  }

  lemma TakeIdCalls(o: Options, s: Session, n: nat)
    requires Inv(o, s) && Enabled(o, s, TakeId(n)) && s.claimed
    ensures CallsOk(Next(o, s, TakeId(n)))
  {
    var id := NextId(s.table.index.Keys, s.table.last);
    NextIdExact(s.table.index.Keys, s.table.last);
    forall k | k in s.owed
      ensures s.owed[k] in s.table.index
    {
      assert IsStored(s.messages, s.owed[k], k);
      assert Waiting(s, s.owed[k]);
    }
    var d := Next(o, s, TakeId(n));
    assert forall i | Holds(s.table, i) :: Holds(d.table, i);
  }

  lemma PersistCalls(o: Options, s: Session, n: nat, qos: nat)
    requires CallsOk(s) && Enabled(o, s, Persist(n, qos))
    ensures CallsOk(Next(o, s, Persist(n, qos)))
  {
    var d := Next(o, s, Persist(n, qos));
    assert forall v | v in d.owed.Values :: v in s.owed.Values || v == s.calls[n].id;
  }

  lemma ReceiveCalls(o: Options, s: Session, m: Packet)
    requires CallsOk(s) && Enabled(o, s, Receive(m)) && Orderly(s, Receive(m))
    ensures CallsOk(Next(o, s, Receive(m)))
  {
    var d := Next(o, s, Receive(m));
    assert forall k | k in d.owed :: k in s.owed && d.owed[k] == s.owed[k];
    assert d.owed.Values <= s.owed.Values;
    CallsFrame(s, d);
  }

  /** Nothing that claims identifiers gives one up. */
  lemma ClaimsHold(o: Options, s: Session, step: Step)
    requires OutboundOk(s.messages) && Enabled(o, s, step)
    requires step.WalkNext? || step.ResumeNext? || step.StrayResume? || step.SubIssue?
    ensures forall i | Holds(s.table, i) :: Holds(Next(o, s, step).table, i)
  {
    match step
    case WalkNext(w) => ReserveHolds(s.messages, s.table, s.conn.walks[w].todo[0]);
    case SubIssue(kind) => TakenHolds(s.table, kind);
    case StrayResume(key) => ResumeSame(Resumed(s.messages, s.table), key);
    case ResumeNext =>
      if s.conn.link.todo != [] {
        ResumeSame(Resumed(s.messages, s.table), s.conn.link.todo[0]);
      }
  }

  lemma ClaimCalls(o: Options, s: Session, step: Step)
    requires OutboundOk(s.messages) && CallsOk(s) && Enabled(o, s, step)
    requires step.WalkNext? || step.ResumeNext? || step.StrayResume? || step.SubIssue?
    ensures CallsOk(Next(o, s, step))
  {
    ClaimsHold(o, s, step);
    CallsFrame(s, Next(o, s, step));
  }

  lemma CallsKept(o: Options, s: Session, step: Step)
    requires Inv(o, s) && Enabled(o, s, step) && Orderly(s, step) && ClaimsFirst(s, step)
    ensures CallsOk(Next(o, s, step))
  {
    match step
    case TakeId(n) => TakeIdCalls(o, s, n);
    case Persist(n, qos) => PersistCalls(o, s, n, qos);
    case Receive(m) => ReceiveCalls(o, s, m);
    case WalkNext(_) => ClaimCalls(o, s, step);
    case ResumeNext => ClaimCalls(o, s, step);
    case StrayResume(_) => ClaimCalls(o, s, step);
    case SubIssue(_) => ClaimCalls(o, s, step);
    case Check(_) => CheckCalls(o, s, step);
    case _ => OtherCalls(o, s, step);
  }

  lemma CheckCalls(o: Options, s: Session, step: Step)
    requires CallsOk(s) && Enabled(o, s, step) && step.Check?
    ensures CallsOk(Next(o, s, step))
  {
  }

  /** Steps that issue nothing, free nothing and claim nothing. */
  lemma OtherCalls(o: Options, s: Session, step: Step)
    requires CallsOk(s) && Enabled(o, s, step) && Orderly(s, step)
    requires MovesConnection(step) || step.StopCleans? || step.LostStops? || step.Dial? || step.SendAck?
    ensures CallsOk(Next(o, s, step))
  {
    var d := Next(o, s, step);
    if MovesConnection(step) {
      ConnFrame(o, s, step);
    }
    if !step.StopCleans? {
      assert forall i | Holds(s.table, i) :: Holds(d.table, i);
      CallsFrame(s, d);
    }
  }

  /** Only an acknowledgement makes an identifier odd, and then it is no longer owed. */
  lemma OddNotOwed(o: Options, s: Session, step: Step)
    requires (forall n | n in s.owed :: s.owed[n] !in s.odd) && Enabled(o, s, step) && !step.Persist?
    ensures var d := Next(o, s, step); forall n | n in d.owed :: d.owed[n] !in d.odd
  {
    if !step.Receive? {
      OwedUnmoved(o, s, step);
    }
  }

  lemma OwedHeldKept(o: Options, s: Session, step: Step)
    requires Inv(o, s) && Enabled(o, s, step)
    ensures OwedHeld(Next(o, s, step))
  {
    if step.Persist? {
      PersistOwedHeld(o, s, step.n, step.qos);
    } else {
      OwedKept(o, s, step);
      OddNotOwed(o, s, step);
    }
  }

  lemma PersistOwedHeld(o: Options, s: Session, n: nat, qos: nat)
    requires OutboundOk(s.messages) && NumbersOk(s) && OwedHeld(s) && CallsOk(s) && OpenForCalls(o, s)
    requires Enabled(o, s, Persist(n, qos))
    ensures OwedHeld(Next(o, s, Persist(n, qos)))
  {
    PersistLosesIff(o, s, n, qos);
    assert forall k | k in s.owed :: s.owed[k] in s.owed.Values;
  }

  lemma OpenKept(o: Options, s: Session, step: Step)
    requires OpenForCalls(o, s) && Enabled(o, s, step) && Orderly(s, step)
    requires step.Check? && o.connectRetry ==> s.claimed
    ensures OpenForCalls(o, Next(o, s, step))
  {
    if MovesConnection(step) {
      ConnFrame(o, s, step);
    }
  }

  lemma StepKeeps(o: Options, s: Session, step: Step)
    requires Inv(o, s) && Enabled(o, s, step) && Orderly(s, step) && ClaimsFirst(s, step)
    requires step.Check? && o.connectRetry ==> s.claimed
    ensures Inv(o, Next(o, s, step))
  {
    StepKeepsBase(o, s, step);
    CallsKept(o, s, step);
    OwedHeldKept(o, s, step);
    OpenKept(o, s, step);
  }

  lemma {:induction false} RunKeepsInv(o: Options, ss: seq<Session>, steps: seq<Step>, i: nat)
    requires IsRun(o, ss, steps) && OrderlyRun(ss, steps) && (o.connectRetry || ClaimsFirstRun(ss, steps)) && i < |ss|
    ensures Inv(o, ss[i])
  {
    if i == 0 {
      StartsInv(o, ss[0]);
    } else {
      RunKeepsInv(o, ss, steps, i - 1);
      RunStepInv(o, ss, steps, i - 1);
    }
  }

  lemma RunStepInv(o: Options, ss: seq<Session>, steps: seq<Step>, i: nat)
    requires IsRun(o, ss, steps) && OrderlyRun(ss, steps) && (o.connectRetry || ClaimsFirstRun(ss, steps)) && i < |steps|
    requires Inv(o, ss[i])
    ensures Inv(o, ss[i + 1])
  {
    var s, step, d := ss[i], steps[i], ss[i + 1];
    assert OpenForCalls(o, s);
    MayStep(o, ss, steps, i);
    StepKeeps(o, s, step);
    assert d == Next(o, s, step);
  }

  lemma StartsInv(o: Options, s: Session)
    requires Initial(s)
    ensures Inv(o, s)
  {
  }

  lemma MayStep(o: Options, ss: seq<Session>, steps: seq<Step>, i: nat)
    requires IsRun(o, ss, steps) && OrderlyRun(ss, steps) && (o.connectRetry || ClaimsFirstRun(ss, steps)) && i < |steps|
    requires OpenForCalls(o, ss[i])
    ensures Enabled(o, ss[i], steps[i]) && ss[i + 1] == Next(o, ss[i], steps[i])
    ensures Orderly(ss[i], steps[i]) && ClaimsFirst(ss[i], steps[i])
    ensures steps[i].Check? && o.connectRetry ==> ss[i].claimed
  {
    if o.connectRetry {
      RetryClaimsFirst(o, ss, steps, i);
    }
  }

  /** A corollary: with stored identifiers claimed before a new publish gets one, as
      ConnectRetry does, orderly runs lose nothing. */
  lemma AcceptedPublishesAreKept(o: Options, ss: seq<Session>, steps: seq<Step>)
    requires IsRun(o, ss, steps) && OrderlyRun(ss, steps) && (o.connectRetry || ClaimsFirstRun(ss, steps))
    ensures forall i | 0 <= i < |ss| :: NothingLost(ss[i])
  {
    forall i | 0 <= i < |ss|
      ensures NothingLost(ss[i])
    {
      RunKeepsInv(o, ss, steps, i);
    }
  }

  // ---------- runs that lose ----------

  lemma Extend(o: Options, ss: seq<Session>, steps: seq<Step>, step: Step) returns (ts: seq<Session>, more: seq<Step>)
    requires IsRun(o, ss, steps) && ClaimsFirstRun(ss, steps) && Enabled(o, ss[|steps|], step)
    ensures IsRun(o, ts, more) && |more| == |steps| + 1 && ts[|more|] == Next(o, ss[|steps|], step)
    ensures ClaimsFirst(ss[|steps|], step) ==> ClaimsFirstRun(ts, more)
    ensures OrderlyRun(ss, steps) && Orderly(ss[|steps|], step) ==> OrderlyRun(ts, more)
  {
    ts, more := ss + [Next(o, ss[|steps|], step)], steps + [step];
  }

  /** A new client whose store holds the given publishes, accepted by an earlier one. */
  function NewClient(messages: Messages, owed: map<nat, Id>): Session {
    Session(UNCONNECTED, false, messages, Table(map[], 0), map[], owed, false, {}, owed.Keys)
  }

  /** A client that is called to publish once it has connected. */
  lemma Called(o: Options, ss: seq<Session>, steps: seq<Step>, w: nat) returns (ts: seq<Session>, more: seq<Step>)
    requires IsRun(o, ss, steps) && OrderlyRun(ss, steps) && ClaimsFirstRun(ss, steps) && Enabled(o, ss[|steps|], Dial(w))
    requires var s := ss[|steps|];
             8 !in s.used && s.isOpen && s.conn == UNCONNECTED.(walks := map[w := s.conn.walks[w]])
    ensures IsRun(o, ts, more) && OrderlyRun(ts, more) && ClaimsFirstRun(ts, more)
    ensures var s := ss[|steps|];
            ts[|more|] ==
            s.(conn := UNCONNECTED.(status := Connected, link := Fresh), calls := s.calls[8 := Checked], used := s.used + {8},
               claimed := s.claimed || (s.conn.walks[w].Walking? && s.conn.walks[w].full))
  {
    ts, more := Extend(o, ss, steps, Dial(w));
    ts, more := Extend(o, ts, more, Up(true));
    ts, more := Extend(o, ts, more, Check(8));
  }

  /** A new client that has opened its store, and with ConnectRetry listed its keys. */
  lemma OpenedFirst(o: Options, s: Session, keys: seq<string>) returns (ss: seq<Session>, steps: seq<Step>)
    requires Initial(s) && forall k :: k in keys <==> k in s.messages
    ensures IsRun(o, ss, steps) && OrderlyRun(ss, steps) && ClaimsFirstRun(ss, steps)
    ensures ss[|steps|] ==
            s.(conn := UNCONNECTED.(walks := map[0 := if o.connectRetry then Walking(keys, true) else Opened]), isOpen := true)
  {
    ss, steps := [s], [];
    ss, steps := Extend(o, ss, steps, Open(0));
    if o.connectRetry {
      ss, steps := Extend(o, ss, steps, WalkStart(0, keys));
    }
  }

  /** Without ConnectRetry: a publish made after the workers start and before resume has run
      takes identifier 1, which an earlier client's stored publish still owns, and overwrites
      it. */
  lemma EarlyPublishOverwrites() returns (o: Options, ss: seq<Session>, steps: seq<Step>)
    ensures IsRun(o, ss, steps) && OrderlyRun(ss, steps) && !NothingLost(ss[|steps|])
  {
    o := Options(true, false);
    var m := map[OutboundKey(1) := Packet(PUBLISH, 1, 1, 7)];
    OneStored(m);
    ss, steps := OpenedFirst(o, NewClient(m, map[7 := 1]), [OutboundKey(1)]);
    ss, steps := Called(o, ss, steps, 0);
    assert ss[|steps|].owed[7] == 1;
    ss, steps := TakenOver(o, ss, steps);
  }

  /** A publish takes identifier 1 while another is owed there, and is stored. */
  lemma TakenOver(o: Options, ss: seq<Session>, steps: seq<Step>) returns (ts: seq<Session>, more: seq<Step>)
    requires IsRun(o, ss, steps) && OrderlyRun(ss, steps) && ClaimsFirstRun(ss, steps) && NothingLost(ss[|steps|])
    requires var s := ss[|steps|]; s.calls == map[8 := Checked] && s.table == Table(map[], 0) && 1 in s.owed.Values
    ensures IsRun(o, ts, more) && OrderlyRun(ts, more) && !NothingLost(ts[|more|])
  {
    RunKeepsBase(o, ss, steps, |steps|);
    OwedKept(o, ss[|steps|], TakeId(8));
    FirstId();
    ts, more := Extend(o, ss, steps, TakeId(8));
    ts, more := Overwritten(o, ts, more, 8);
  }

  lemma OneStored(m: Messages)
    requires m == map[OutboundKey(1) := Packet(PUBLISH, 1, 1, 7)]
    ensures Initial(NewClient(m, map[7 := 1]))
  {
    forall i: Id
      ensures OutboundKey(i) == OutboundKey(1) <==> i == 1
    {
      KeysDistinct(i, 1);
    }
  }

  lemma Overwritten(o: Options, ss: seq<Session>, steps: seq<Step>, n: nat) returns (ts: seq<Session>, more: seq<Step>)
    requires IsRun(o, ss, steps) && OrderlyRun(ss, steps) && NothingLost(ss[|steps|])
    requires Enabled(o, ss[|steps|], Persist(n, 1)) && ss[|steps|].calls[n].id in ss[|steps|].owed.Values
    ensures IsRun(o, ts, more) && OrderlyRun(ts, more) && !NothingLost(ts[|more|])
  {
    var s := ss[|steps|];
    RunKeepsBase(o, ss, steps, |steps|);
    PersistLosesIff(o, s, n, 1);
    ts, more := OneStepOn(o, ss, steps, Persist(n, 1));
  }

  lemma OneStepOn(o: Options, ss: seq<Session>, steps: seq<Step>, step: Step) returns (ts: seq<Session>, more: seq<Step>)
    requires IsRun(o, ss, steps) && OrderlyRun(ss, steps) && Enabled(o, ss[|steps|], step) && Orderly(ss[|steps|], step)
    ensures IsRun(o, ts, more) && OrderlyRun(ts, more) && |more| == |steps| + 1 && ts[|more|] == Next(o, ss[|steps|], step)
  {
    ts, more := ss + [Next(o, ss[|steps|], step)], steps + [step];
  }

  lemma FirstId()
    ensures NextId(Table(map[], 0).index.Keys, 0) == 1
  {
    assert Candidate(0, 1) == 1;
  }

  /** With ConnectRetry: a publish that has its identifier when Disconnect closes the store is
      accepted and not stored. */
  lemma ClosedStoreDrops() returns (o: Options, ss: seq<Session>, steps: seq<Step>)
    ensures o.connectRetry && IsRun(o, ss, steps) && ClaimsFirstRun(ss, steps) && !NothingLost(ss[|steps|])
  {
    o := Options(true, true);
    var s := NewClient(map[], map[]);
    ss, steps := OpenedFirst(o, s, []);
    ss, steps := Called(o, ss, steps, 0);
    FirstId();
    ss, steps := Extend(o, ss, steps, TakeId(8));
    ss, steps := StoppedByUser(o, ss, steps);
    ss, steps := Extend(o, ss, steps, Persist(8, 1));
    assert ss[|steps|].owed[8] == 1 && ss[|steps|].messages == map[];
    assert !IsStored(ss[|steps|].messages, 1, 8);
  }

  lemma StoppedByUser(o: Options, ss: seq<Session>, steps: seq<Step>) returns (ts: seq<Session>, more: seq<Step>)
    requires IsRun(o, ss, steps) && ClaimsFirstRun(ss, steps) && ss[|steps|].conn.link.Fresh?
    ensures IsRun(o, ts, more) && ClaimsFirstRun(ts, more)
    ensures var s, d := ss[|steps|], ts[|more|];
            !d.isOpen && d.calls == s.calls && d.messages == s.messages && d.owed == s.owed
  {
    ts, more := Extend(o, ss, steps, Disconnect);
    ts, more := Extend(o, ts, more, UserStop);
    ts, more := StopCompleted(o, ts, more);
  }

  lemma StopCompleted(o: Options, ss: seq<Session>, steps: seq<Step>) returns (ts: seq<Session>, more: seq<Step>)
    requires IsRun(o, ss, steps) && ClaimsFirstRun(ss, steps) && ss[|steps|].conn.userStops > 0
    ensures IsRun(o, ts, more) && ClaimsFirstRun(ts, more)
    ensures var s, d := ss[|steps|], ts[|more|];
            !d.isOpen && d.calls == s.calls && d.messages == s.messages && d.owed == s.owed
  {
    ts, more := Extend(o, ss, steps, StopCleans);
    ts, more := Extend(o, ts, more, StopCloses);
  }

  /** An orderly run with ConnectRetry after which the allocator hands out an identifier whose
      message is stored: the acknowledgement of it carried a QoS bit. */
  lemma AckWithQosFreesStored() returns (o: Options, ss: seq<Session>, steps: seq<Step>)
    ensures o.connectRetry && IsRun(o, ss, steps) && OrderlyRun(ss, steps) && ss[|steps|].claimed
    ensures var s := ss[|steps|];
            NextId(s.table.index.Keys, s.table.last) == 1 && OutboundKey(1) in s.messages
  {
    o := Options(true, true);
    var a, b := OutboundKey(1), OutboundKey(65535);
    var m := map[a := Packet(PUBLISH, 1, 1, 7), b := Packet(PUBLISH, 1, 65535, 9)];
    KeysDistinct(1, 65535);
    TwoStored(m, a, b);
    ss, steps := AckedAfterWalk(o, NewClient(m, map[7 := 1, 9 := 65535]), a, b);
  }

  lemma AckedAfterWalk(o: Options, s: Session, a: string, b: string) returns (ss: seq<Session>, steps: seq<Step>)
    requires Initial(s) && o.connectRetry && 8 !in s.used && OutboundKey(1) in s.messages
    requires (forall k :: k in [a, b] <==> k in s.messages) && a in s.messages && b in s.messages
    requires s.messages[a].kind == PUBLISH && s.messages[b].kind == PUBLISH && s.messages[b].id == 65535
    ensures IsRun(o, ss, steps) && OrderlyRun(ss, steps) && ss[|steps|].claimed
    ensures var s := ss[|steps|];
            NextId(s.table.index.Keys, s.table.last) == 1 && OutboundKey(1) in s.messages
  {
    ss, steps := OpenedFirst(o, s, [a, b]);
    ss, steps := WalkedTwo(o, ss, steps, a, b);
    ss, steps := Called(o, ss, steps, 0);
    ss, steps := AckedWithQos(o, ss, steps);
  }

  lemma WalkedTwo(o: Options, ss: seq<Session>, steps: seq<Step>, a: string, b: string)
    returns (ts: seq<Session>, more: seq<Step>)
    requires IsRun(o, ss, steps) && OrderlyRun(ss, steps) && ClaimsFirstRun(ss, steps) && o.connectRetry
    requires var s := ss[|steps|];
             && s.isOpen && s.conn == UNCONNECTED.(walks := map[0 := Walking([a, b], true)]) && a in s.messages && b in s.messages
             && s.messages[a].kind == PUBLISH && s.messages[b].kind == PUBLISH && s.messages[b].id == 65535
    ensures IsRun(o, ts, more) && OrderlyRun(ts, more) && ClaimsFirstRun(ts, more)
    ensures var s, d := ss[|steps|], ts[|more|];
            && d == s.(conn := UNCONNECTED.(walks := map[0 := Walking([], true)]), table := d.table) && d.table.last == 65535
  {
    assert [a, b][1..] == [b] && [b][1..] == [];
    ts, more := Extend(o, ss, steps, WalkNext(0));
    ts, more := Extend(o, ts, more, WalkNext(0));
  }

  lemma AckedWithQos(o: Options, ss: seq<Session>, steps: seq<Step>) returns (ts: seq<Session>, more: seq<Step>)
    requires IsRun(o, ss, steps) && OrderlyRun(ss, steps) && ClaimsFirstRun(ss, steps)
    requires var s := ss[|steps|];
             s.claimed && s.isOpen && s.conn.link.Fresh? && s.table.last == 65535 && OutboundKey(1) in s.messages
             && forall n | n in s.calls :: s.calls[n].Checked?
    ensures IsRun(o, ts, more) && OrderlyRun(ts, more) && ts[|more|].claimed
    ensures var s := ts[|more|];
            NextId(s.table.index.Keys, s.table.last) == 1 && OutboundKey(1) in s.messages
  {
    ts, more := Extend(o, ss, steps, Receive(Packet(PUBACK, 1, 1, 0)));
    WrapsToOne(ts[|more|].table);
  }

  lemma TwoStored(m: Messages, a: string, b: string)
    requires a == OutboundKey(1) && b == OutboundKey(65535) && a != b
    requires m == map[a := Packet(PUBLISH, 1, 1, 7), b := Packet(PUBLISH, 1, 65535, 9)]
    ensures Initial(NewClient(m, map[7 := 1, 9 := 65535]))
  {
    forall i: Id
      ensures OutboundKey(i) == a <==> i == 1
      ensures OutboundKey(i) == b <==> i == 65535
    {
      KeysDistinct(i, 1);
      KeysDistinct(i, 65535);
    }
  }

  lemma WrapsToOne(t: Table)
    requires t.last == 65535 && 1 !in t.index
    ensures NextId(t.index.Keys, t.last) == 1
  {
    assert Candidate(65535, 1) == 1;
  }
}
