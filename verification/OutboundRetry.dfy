/** The broker's side of outgoing QoS 1 and 2 publishes to one client: the inflight
    elements, their acknowledgements, and the retry timer. */
module OutboundRetry {
  import opened TopicLevels
  import opened MessageIds

  const RETRY_INTERVAL := 20

  datatype Status = ToPublish | ToRelease

  /** An inflight element; `uid` stands for its address. */
  datatype Elem = Elem(uid: nat, status: Status, ts: int)

  /** A packet written, with its identifier, the element it is for, and the time. */
  datatype Sent =
    | SentPublish(id: Id, uid: nat, at: int)
    | SentPubrel(id: Id, uid: nat, at: int)
    | SentStrayPubrel(id: Id, at: int)   // answer to a PUBREC nobody waits for

  /** One local client as the broker sees it: inflight elements, the retry timer by due time,
      the clock, whether the connection is open, and what has been written to it. */
  datatype Peer = Peer(inflight: map<Id, Elem>, timer: Option<int>, now: int, open: bool, log: seq<Sent>, uids: nat)

  function Write(c: Peer, p: Sent): Peer {
    if c.open then c.(log := c.log + [p]) else c
  }

  /** Arms the timer unless it is armed. */
  function EnsureTimer(c: Peer, interval: int): Peer {
    if c.timer.Some? then c else c.(timer := Some(c.now + interval))
  }

  function Deliver(c: Peer, id: Id): Peer {
    var e := Elem(c.uids, ToPublish, c.now);
    EnsureTimer(Write(c.(inflight := c.inflight[id := e], uids := c.uids + 1), SentPublish(id, e.uid, c.now)), RETRY_INTERVAL)
  }

  function Acked(c: Peer, id: Id): Peer {
    c.(inflight := c.inflight - {id})
  }

  function Received(c: Peer, id: Id): Peer {
    if id !in c.inflight then Write(c, SentStrayPubrel(id, c.now))
    else
      var e := c.inflight[id];
      var d := if e.status == ToPublish then e.(status := ToRelease, ts := c.now) else e;
      Write(c.(inflight := c.inflight[id := d]), SentPubrel(id, d.uid, c.now))
  }

  function Age(c: Peer, id: Id): int
    requires id in c.inflight
  {
    c.now - c.inflight[id].ts
  }

  /** One element of the retry pass: an old one is sent again, a young one arms the timer. */
  function RetryOne(c: Peer, id: Id): Peer
    requires id in c.inflight
  {
    var e := c.inflight[id];
    var age := c.now - e.ts;
    if age >= RETRY_INTERVAL then
      var sent := if e.status == ToPublish then SentPublish(id, e.uid, c.now) else SentPubrel(id, e.uid, c.now);
      Write(c, sent).(inflight := c.inflight[id := e.(ts := c.now)])
    else EnsureTimer(c, RETRY_INTERVAL - if age < 0 then 0 else age)
  }

  /** The pass over the elements in a given order. */
  function RetryEach(c: Peer, order: seq<Id>): (r: Peer)
    requires forall id | id in order :: id in c.inflight
    ensures r.inflight.Keys == c.inflight.Keys
    decreases |order|
  {
    if order == [] then c else RetryOne(RetryEach(c, order[..|order| - 1]), order[|order| - 1])
  }

  ghost predicate Visits(order: seq<Id>, c: Peer) {
    && (forall i, j | 0 <= i < j < |order| :: order[i] != order[j])
    && (forall id :: id in order <==> id in c.inflight)
  }

  function Retry(c: Peer, order: seq<Id>): Peer
    requires forall id | id in order :: id in c.inflight
  {
    var d := c.(timer := None);
    if !c.open || c.inflight == map[] then d
    else EnsureTimer(RetryEach(d, order), RETRY_INTERVAL)
  }

  class OutboundPeer {
    var inflight: map<Id, Elem>
    var retryTimer: Option<int>
    var now: int
    var open: bool
    var log: seq<Sent>
    var uids: nat

    function State(): Peer
      reads this
    {
      Peer(inflight, retryTimer, now, open, log, uids)
    }

    constructor (t: int)
      ensures State() == Peer(map[], None, t, true, [], 0)
    {
      inflight, retryTimer, now, open, log, uids := map[], None, t, true, [], 0;
    }

    method WriterPacket(p: Sent)
      modifies this`log
      ensures State() == Write(old(State()), p)
    {
      if open {
        log := log + [p];
      }
    }

    method EnsureRetryTimer(interval: int)
      modifies this`retryTimer
      ensures State() == EnsureTimer(old(State()), interval)
    {
      if retryTimer.Some? {
        return;
      }
      retryTimer := Some(now + interval);
    }

    method Publish(id: Id)
      modifies this
      ensures State() == Deliver(old(State()), id)
    {
      var e := Elem(uids, ToPublish, now);
      inflight, uids := inflight[id := e], uids + 1;
      WriterPacket(SentPublish(id, e.uid, now));
      EnsureRetryTimer(RETRY_INTERVAL);
    }

    method ProcessPubrec(id: Id)
      modifies this
      ensures State() == Received(old(State()), id)
    {
      if id in inflight {
        var e := inflight[id];
        if e.status == ToPublish {
          e := e.(status := ToRelease, ts := now);
        }
        inflight := inflight[id := e];
        WriterPacket(SentPubrel(id, e.uid, now));
      } else {
        WriterPacket(SentStrayPubrel(id, now));
      }
    }

    method ResendOne(id: Id)
      requires id in inflight
      modifies this
      ensures State() == RetryOne(old(State()), id)
    {
      var e := inflight[id];
      var age := now - e.ts;
      if age >= RETRY_INTERVAL {
        if e.status == ToPublish {
          WriterPacket(SentPublish(id, e.uid, now));
        } else {
          WriterPacket(SentPubrel(id, e.uid, now));
        }
        inflight := inflight[id := e.(ts := now)];
      } else {
        if age < 0 {
          age := 0;
        }
        EnsureRetryTimer(RETRY_INTERVAL - age);
      }
    }

    /** The retry pass, elements in whatever order the map yields them. */
    method RetryDelivery() returns (ghost order: seq<Id>)
      modifies this
      ensures Visits(order, old(State())) && State() == Retry(old(State()), order)
    {
      ghost var start := State().(timer := None);
      retryTimer := None;
      order := [];
      var todo := inflight.Keys;
      if !open || |todo| == 0 {
        order := Listing(inflight.Keys);
        return;
      }
      while todo != {}
        invariant todo <= start.inflight.Keys
        invariant forall i, j | 0 <= i < j < |order| :: order[i] != order[j]
        invariant forall id :: id in order <==> id in start.inflight && id !in todo
        invariant State() == RetryEach(start, order)
      {
        var id :| id in todo;
        todo := todo - {id};
        ghost var longer := order + [id];
        assert longer[..|longer| - 1] == order;
        ResendOne(id);
        order := longer;
      }
      EnsureRetryTimer(RETRY_INTERVAL);
    }
  }

  lemma Listing(s: set<Id>) returns (order: seq<Id>)
    ensures forall i, j | 0 <= i < j < |order| :: order[i] != order[j]
    ensures forall id :: id in order <==> id in s
  {
    if s == {} {
      order := [];
    } else {
      var x :| x in s;
      var rest := Listing(s - {x});
      order := rest + [x];
    }
  }

  // ---------- whole runs ----------

  datatype Step =
    | Send(id: Id)              // a QoS 1 or 2 publish for this client
    | Puback(id: Id)
    | Pubrec(id: Id)
    | Pubcomp(id: Id)
    | Fire(order: seq<Id>)      // the retry timer
    | Wait(k: nat)              // time passes
    | Close

  ghost predicate Enabled(c: Peer, step: Step) {
    match step
    case Fire(order) => c.timer.Some? && c.timer.value <= c.now && Visits(order, c)
    case _ => true
  }

  ghost function Next(c: Peer, step: Step): Peer
    requires Enabled(c, step)
  {
    match step
    case Send(id) => Deliver(c, id)
    case Puback(id) => Acked(c, id)
    case Pubrec(id) => Received(c, id)
    case Pubcomp(id) => Acked(c, id)
    case Fire(order) => Retry(c, order)
    case Wait(k) => c.(now := c.now + k)
    case Close => c.(open := false)
  }

  predicate Fresh(c: Peer) {
    c.inflight == map[] && c.timer == None && c.open && c.log == [] && c.uids == 0
  }

  ghost predicate IsRun(cs: seq<Peer>, steps: seq<Step>) {
    && |cs| == |steps| + 1 && Fresh(cs[0])
    && forall i | 0 <= i < |steps| :: Enabled(cs[i], steps[i]) && cs[i + 1] == Next(cs[i], steps[i])
  }

  // ---------- every element is retried in time ----------

  /** The timer fires when due: time does not pass beyond it. */
  ghost predicate OnTime(cs: seq<Peer>, steps: seq<Step>)
    requires |cs| == |steps| + 1
  {
    forall i | 0 <= i < |steps| && steps[i].Wait? && cs[i].timer.Some? :: cs[i].now + steps[i].k <= cs[i].timer.value
  }

  ghost predicate Timely(c: Peer) {
    && (forall id | id in c.inflight :: c.inflight[id].ts <= c.now)
    && (c.timer.Some? ==> c.now <= c.timer.value <= c.now + RETRY_INTERVAL)
    && (c.open && c.inflight != map[] ==>
          && c.timer.Some?
          && forall id | id in c.inflight :: c.timer.value - c.inflight[id].ts < 2 * RETRY_INTERVAL)
  }

  /** What the pass does, whatever the order. */
  lemma {:induction false} RetryEachEffect(c: Peer, order: seq<Id>)
    requires c.timer == None && forall id | id in c.inflight :: c.inflight[id].ts <= c.now
    requires forall id | id in order :: id in c.inflight
    ensures var r := RetryEach(c, order);
            && r.now == c.now && r.open == c.open && r.inflight.Keys == c.inflight.Keys
            && (r.timer.Some? ==> c.now < r.timer.value <= c.now + RETRY_INTERVAL)
            && (forall id | id in c.inflight ::
                  r.inflight[id] == if id in order && Age(c, id) >= RETRY_INTERVAL
                                    then c.inflight[id].(ts := c.now) else c.inflight[id])
    decreases |order|
  {
    if order != [] {
      var init, last := order[..|order| - 1], order[|order| - 1];
      RetryEachEffect(c, init);
      assert forall id :: id in order <==> id in init || id == last;
      RetryOneEffect(RetryEach(c, init), last);
    }
  }

  lemma RetryOneEffect(c: Peer, id: Id)
    requires id in c.inflight && c.inflight[id].ts <= c.now && (c.timer.Some? ==> c.now < c.timer.value <= c.now + RETRY_INTERVAL)
    ensures var r := RetryOne(c, id);
            && r.now == c.now && r.open == c.open && r.inflight.Keys == c.inflight.Keys
            && (r.timer.Some? ==> c.now < r.timer.value <= c.now + RETRY_INTERVAL)
            && (forall k | k in c.inflight ::
                  r.inflight[k] == if k == id && Age(c, id) >= RETRY_INTERVAL then c.inflight[k].(ts := c.now) else c.inflight[k])
  {
  }

  lemma RetryKeepsTimely(c: Peer, order: seq<Id>)
    requires Timely(c) && Visits(order, c)
    ensures Timely(Retry(c, order))
  {
    if c.open && c.inflight != map[] {
      RetryEachEffect(c.(timer := None), order);
    }
  }

  lemma StepKeepsTimely(c: Peer, step: Step)
    requires Timely(c) && Enabled(c, step)
    requires step.Wait? && c.timer.Some? ==> c.now + step.k <= c.timer.value
    ensures Timely(Next(c, step))
  {
    if step.Fire? {
      RetryKeepsTimely(c, step.order);
    }
  }

  /** For an open connection whose timer fires on time: a timer is armed whenever something
      is inflight, and every element was last sent less than two intervals ago, whatever
      order the passes take. */
  lemma {:induction false} RetryBound(cs: seq<Peer>, steps: seq<Step>, i: nat)
    requires IsRun(cs, steps) && OnTime(cs, steps) && i < |cs|
    ensures Timely(cs[i])
    ensures cs[i].open && cs[i].inflight != map[] ==> cs[i].timer.Some?
    ensures forall id | id in cs[i].inflight && cs[i].open :: 0 <= Age(cs[i], id) < 2 * RETRY_INTERVAL
  {
    if i > 0 {
      RetryBound(cs, steps, i - 1);
      StepKeepsTimely(cs[i - 1], steps[i - 1]);
    }
  }

  /** A pass that meets the youngest element first leaves another one waiting. */
  lemma YoungestFirst(c: Peer)
    requires c == Peer(map[1 := Elem(0, ToPublish, 0), 2 := Elem(1, ToPublish, 1), 3 := Elem(2, ToPublish, 20)],
                       Some(20), 20, true, c.log, 3)
    ensures Visits([3, 2, 1], c)
    ensures var r := Retry(c, [3, 2, 1]);
            r.now == 20 && r.open && r.timer == Some(40) && r.inflight.Keys == {1, 2, 3} && r.inflight[2].ts == 1
  {
    var s := c.(timer := None);
    var order: seq<Id> := [3, 2, 1];
    assert order[..2] == [3, 2] && [3, 2][..1] == [3] && [3][..0] == [];
    assert RetryEach(s, [3]) == s.(timer := Some(40));
    assert RetryEach(s, [3, 2]) == s.(timer := Some(40));
    assert RetryEach(s, order) == RetryOne(s.(timer := Some(40)), 1);
  }

  /** A run goes on by one step. */
  lemma GoOn(cs: seq<Peer>, steps: seq<Step>, step: Step) returns (ds: seq<Peer>, ts: seq<Step>)
    requires IsRun(cs, steps) && OnTime(cs, steps)
    requires var c := cs[|cs| - 1];
             Enabled(c, step) && (step.Wait? && c.timer.Some? ==> c.now + step.k <= c.timer.value)
    ensures IsRun(ds, ts) && OnTime(ds, ts) && ds[|ds| - 1] == Next(cs[|cs| - 1], step)
  {
    ds, ts := cs + [Next(cs[|cs| - 1], step)], steps + [step];
  }

  /** Three elements, sent at seconds 0, 1 and 20, with the first timer due. */
  lemma ThreeSent() returns (cs: seq<Peer>, steps: seq<Step>)
    ensures IsRun(cs, steps) && OnTime(cs, steps)
    ensures var c := cs[|cs| - 1];
            c == Peer(map[1 := Elem(0, ToPublish, 0), 2 := Elem(1, ToPublish, 1), 3 := Elem(2, ToPublish, 20)],
                      Some(20), 20, true, c.log, 3)
  {
    cs, steps := [Peer(map[], None, 0, true, [], 0)], [];
    cs, steps := GoOn(cs, steps, Send(1));
    cs, steps := GoOn(cs, steps, Wait(1));
    cs, steps := GoOn(cs, steps, Send(2));
    cs, steps := GoOn(cs, steps, Wait(19));
    cs, steps := GoOn(cs, steps, Send(3));
  }

  /** The bound is reached: an element can wait for two intervals less a second. */
  lemma BoundIsTight() returns (cs: seq<Peer>, steps: seq<Step>)
    ensures IsRun(cs, steps) && OnTime(cs, steps)
    ensures var c := cs[|cs| - 1]; c.open && 2 in c.inflight && Age(c, 2) == 2 * RETRY_INTERVAL - 1
  {
    cs, steps := ThreeSent();
    YoungestFirst(cs[|cs| - 1]);
    cs, steps := GoOn(cs, steps, Fire([3, 2, 1]));
    cs, steps := GoOn(cs, steps, Wait(20));
  }

  // ---------- PUBLISH, then PUBREL ----------

  predicate IsRel(s: Sent, uid: nat) {
    s.SentPubrel? && s.uid == uid
  }

  predicate IsPub(s: Sent, uid: nat) {
    s.SentPublish? && s.uid == uid
  }

  /** For no element is a PUBLISH written after one of its PUBRELs. */
  ghost predicate PhaseOrder(log: seq<Sent>) {
    forall i, j, uid: nat | 0 <= i < j < |log| && IsRel(log[i], uid) :: !IsPub(log[j], uid)
  }

  ghost predicate Phased(c: Peer) {
    && PhaseOrder(c.log)
    && (forall id | id in c.inflight :: c.inflight[id].uid < c.uids)
    && (forall id, k | id in c.inflight && k in c.inflight && id != k :: c.inflight[id].uid != c.inflight[k].uid)
    && (forall i, uid: nat | 0 <= i < |c.log| && IsRel(c.log[i], uid) :: uid < c.uids)
    && (forall i, id | 0 <= i < |c.log| && id in c.inflight && IsRel(c.log[i], c.inflight[id].uid) ::
          c.inflight[id].status == ToRelease)
  }

  lemma RetryOneKeepsPhased(c: Peer, id: Id)
    requires Phased(c) && id in c.inflight
    ensures Phased(RetryOne(c, id))
  {
  }

  lemma {:induction false} RetryEachKeepsPhased(c: Peer, order: seq<Id>)
    requires Phased(c) && forall id | id in order :: id in c.inflight
    ensures Phased(RetryEach(c, order))
    decreases |order|
  {
    if order != [] {
      RetryEachKeepsPhased(c, order[..|order| - 1]);
      RetryOneKeepsPhased(RetryEach(c, order[..|order| - 1]), order[|order| - 1]);
    }
  }

  lemma ReceivedKeepsPhased(c: Peer, id: Id)
    requires Phased(c)
    ensures Phased(Received(c, id))
  {
  }

  lemma StepKeepsPhased(c: Peer, step: Step)
    requires Phased(c) && Enabled(c, step)
    ensures Phased(Next(c, step))
  {
    match step
    case Fire(order) =>
      if c.open && c.inflight != map[] {
        RetryEachKeepsPhased(c.(timer := None), order);
      }
    case Pubrec(id) => ReceivedKeepsPhased(c, id);
    case Send(id) => DeliverKeepsPhased(c, id);
    case _ =>
  }

  lemma DeliverKeepsPhased(c: Peer, id: Id)
    requires Phased(c)
    ensures Phased(Deliver(c, id))
  {
  }

  /** For each inflight element the broker writes some PUBLISHes and then only PUBRELs, under
      any mix of acknowledgements, duplicate PUBRECs, retries and reused identifiers. */
  lemma {:induction false} PublishesBeforeReleases(cs: seq<Peer>, steps: seq<Step>, i: nat)
    requires IsRun(cs, steps) && i < |cs|
    ensures Phased(cs[i]) && PhaseOrder(cs[i].log)
  {
    if i > 0 {
      PublishesBeforeReleases(cs, steps, i - 1);
      StepKeepsPhased(cs[i - 1], steps[i - 1]);
    }
  }

  // ---------- what is written ----------

  /** The element waits for as long as the interval. */
  predicate IsDue(c: Peer, id: Id) {
    id in c.inflight && c.now - c.inflight[id].ts >= 20
  }

  /** The packet is for the element, and of its phase. */
  predicate IsFor(p: Sent, id: Id, e: Elem) {
    match e.status
    case ToPublish => p.SentPublish? && p.id == id && p.uid == e.uid
    case ToRelease => p.SentPubrel? && p.id == id && p.uid == e.uid
  }

  /** Exactly one packet, written now, for each element of the order that is due, by its phase
      before the pass; and none for any other. */
  ghost predicate WritesDue(c: Peer, order: seq<Id>, out: seq<Sent>) {
    && (forall k | 0 <= k < |out| :: out[k].at == c.now && out[k].id in order && IsDue(c, out[k].id)
                                     && IsFor(out[k], out[k].id, c.inflight[out[k].id]))
    && (forall id | id in order && IsDue(c, id) :: exists k | 0 <= k < |out| :: out[k].id == id)
    && (forall j, k | 0 <= j < k < |out| :: out[j].id != out[k].id)
  }

  lemma WritesMore(c: Peer, init: seq<Id>, last: Id, out: seq<Sent>, p: Sent)
    requires WritesDue(c, init, out) && last !in init && IsDue(c, last)
    requires p.at == c.now && p.id == last && IsFor(p, last, c.inflight[last])
    ensures WritesDue(c, init + [last], out + [p])
  {
    var more := out + [p];
    assert more[|out|] == p;
    forall id | id in init + [last] && IsDue(c, id)
      ensures exists k | 0 <= k < |more| :: more[k].id == id
    {
      if id != last {
        var k :| 0 <= k < |out| && out[k].id == id;
        assert more[k].id == id;
      }
    }
  }

  lemma WritesNoMore(c: Peer, init: seq<Id>, last: Id, out: seq<Sent>)
    requires WritesDue(c, init, out) && !IsDue(c, last)
    ensures WritesDue(c, init + [last], out)
  {
  }

  lemma Regroup(a: seq<Sent>, b: seq<Sent>, p: Sent)
    ensures a + b + [p] == a + (b + [p])
  {
  }

  lemma RetryOneWrites(c: Peer, id: Id)
    requires c.open && id in c.inflight
    ensures var r := RetryOne(c, id);
            if IsDue(c, id) then
              && |r.log| == |c.log| + 1 && r.log == c.log + [r.log[|c.log|]]
              && r.log[|c.log|].id == id && r.log[|c.log|].at == c.now && IsFor(r.log[|c.log|], id, c.inflight[id])
            else r.log == c.log
  {
  }

  lemma OneMoreWrites(c: Peer, mid: Peer, init: seq<Id>, last: Id, out: seq<Sent>) returns (more: seq<Sent>)
    requires mid.log == c.log + out && WritesDue(c, init, out) && last !in init
    requires mid.open && mid.now == c.now && last in c.inflight && last in mid.inflight && mid.inflight[last] == c.inflight[last]
    ensures RetryOne(mid, last).log == c.log + more && WritesDue(c, init + [last], more)
  {
    RetryOneWrites(mid, last);
    if IsDue(c, last) {
      var p := RetryOne(mid, last).log[|mid.log|];
      WritesMore(c, init, last, out, p);
      Regroup(c.log, out, p);
      more := out + [p];
    } else {
      WritesNoMore(c, init, last, out);
      more := out;
    }
  }

  lemma RetryOneSkips(c: Peer, id: Id, last: Id)
    requires id in c.inflight && last in c.inflight && last != id
    ensures var r := RetryOne(c, id);
            r.open == c.open && r.now == c.now && last in r.inflight && r.inflight[last] == c.inflight[last]
  {
  }

  lemma {:induction false} RetryEachSkips(c: Peer, init: seq<Id>, last: Id)
    requires (forall id | id in init :: id in c.inflight) && last in c.inflight && last !in init
    ensures var mid := RetryEach(c, init);
            mid.open == c.open && mid.now == c.now && last in mid.inflight && mid.inflight[last] == c.inflight[last]
    decreases |init|
  {
    if init != [] {
      RetryEachSkips(c, init[..|init| - 1], last);
      RetryOneSkips(RetryEach(c, init[..|init| - 1]), init[|init| - 1], last);
    }
  }

  lemma {:induction false} RetryEachWrites(c: Peer, order: seq<Id>) returns (out: seq<Sent>)
    requires c.open
    requires forall id | id in order :: id in c.inflight
    requires forall i, j | 0 <= i < j < |order| :: order[i] != order[j]
    ensures RetryEach(c, order).log == c.log + out && WritesDue(c, order, out)
    decreases |order|
  {
    if order == [] {
      out := [];
      assert c.log + [] == c.log;
    } else {
      var init, last := order[..|order| - 1], order[|order| - 1];
      out := RetryEachWrites(c, init);
      assert last !in init && order == init + [last];
      RetryEachSkips(c, init, last);
      out := OneMoreWrites(c, RetryEach(c, init), init, last, out);
    }
  }

  /** A retry pass of an open connection, in whatever order it takes the elements, writes
      exactly one PUBLISH or PUBREL for each element that is due, and nothing else. */
  lemma RetryWrites(c: Peer, order: seq<Id>) returns (out: seq<Sent>)
    requires c.open && Visits(order, c)
    ensures Retry(c, order).log == c.log + out && WritesDue(c, order, out)
    ensures forall id | id in c.inflight :: IsDue(c, id) <==> exists k | 0 <= k < |out| :: out[k].id == id
  {
    if c.inflight == map[] {
      out := [];
      assert c.log + [] == c.log;
    } else {
      out := RetryEachWrites(c.(timer := None), order);
      assert WritesDue(c, order, out);
    }
  }

  /** The element was written, in its phase, at its time stamp. */
  ghost predicate Stamped(c: Peer, id: Id)
    requires id in c.inflight
  {
    exists k | 0 <= k < |c.log| :: IsFor(c.log[k], id, c.inflight[id]) && c.log[k].at == c.inflight[id].ts
  }

  ghost predicate AllStamped(c: Peer) {
    c.open ==> forall id | id in c.inflight :: Stamped(c, id)
  }

  /** A log only grows, and an element that is not touched stays stamped. */
  lemma StampedLonger(c: Peer, d: Peer, id: Id)
    requires id in c.inflight && Stamped(c, id) && c.log <= d.log && id in d.inflight && d.inflight[id] == c.inflight[id]
    ensures Stamped(d, id)
  {
    var k :| 0 <= k < |c.log| && IsFor(c.log[k], id, c.inflight[id]) && c.log[k].at == c.inflight[id].ts;
    assert d.log[k] == c.log[k];
  }

  lemma StampedLast(d: Peer, id: Id)
    requires id in d.inflight && d.log != [] && IsFor(d.log[|d.log| - 1], id, d.inflight[id])
    requires d.log[|d.log| - 1].at == d.inflight[id].ts
    ensures Stamped(d, id)
  {
  }

  lemma RetryOneStamps(c: Peer, id: Id)
    requires AllStamped(c) && id in c.inflight
    ensures AllStamped(RetryOne(c, id)) && c.log <= RetryOne(c, id).log
  {
    var d := RetryOne(c, id);
    if c.open {
      forall k | k in d.inflight
        ensures Stamped(d, k)
      {
        if k == id && c.now - c.inflight[id].ts >= RETRY_INTERVAL {
          StampedLast(d, k);
        } else {
          StampedLonger(c, d, k);
        }
      }
    }
  }

  lemma {:induction false} RetryEachStamps(c: Peer, order: seq<Id>)
    requires AllStamped(c) && forall id | id in order :: id in c.inflight
    ensures AllStamped(RetryEach(c, order))
    decreases |order|
  {
    if order != [] {
      RetryEachStamps(c, order[..|order| - 1]);
      RetryOneStamps(RetryEach(c, order[..|order| - 1]), order[|order| - 1]);
    }
  }

  lemma OneTouched(c: Peer, d: Peer, id: Id)
    requires AllStamped(c) && c.open == d.open && c.log <= d.log && (c.open && id in d.inflight ==> Stamped(d, id))
    requires forall k | k in d.inflight && k != id :: k in c.inflight && d.inflight[k] == c.inflight[k]
    ensures AllStamped(d)
  {
    if c.open {
      forall k | k in d.inflight && k != id
        ensures Stamped(d, k)
      {
        StampedLonger(c, d, k);
      }
    }
  }

  lemma ReceivedStamps(c: Peer, id: Id)
    requires AllStamped(c)
    ensures AllStamped(Received(c, id))
  {
    var d := Received(c, id);
    if id in c.inflight && c.open {
      if c.inflight[id].status == ToPublish {
        StampedLast(d, id);
      } else {
        StampedLonger(c, d, id);
      }
    }
    OneTouched(c, d, id);
  }

  lemma SendStamps(c: Peer, id: Id)
    requires AllStamped(c)
    ensures AllStamped(Deliver(c, id))
  {
    var d := Deliver(c, id);
    if c.open {
      StampedLast(d, id);
    }
    OneTouched(c, d, id);
  }

  lemma FireStamps(c: Peer, order: seq<Id>)
    requires AllStamped(c) && Visits(order, c)
    ensures AllStamped(Retry(c, order))
  {
    var t := c.(timer := None);
    SameStamps(c, t);
    if c.open && c.inflight != map[] {
      RetryEachStamps(t, order);
      ArmedStamps(RetryEach(t, order));
    }
  }

  lemma ArmedStamps(r: Peer)
    requires AllStamped(r)
    ensures AllStamped(EnsureTimer(r, RETRY_INTERVAL))
  {
    SameStamps(r, EnsureTimer(r, RETRY_INTERVAL));
  }

  lemma StepStamps(c: Peer, step: Step)
    requires AllStamped(c) && Enabled(c, step)
    ensures AllStamped(Next(c, step))
  {
    match step
    case Send(id) => SendStamps(c, id);
    case Pubrec(id) => ReceivedStamps(c, id);
    case Puback(id) => OneTouched(c, Acked(c, id), id);
    case Pubcomp(id) => OneTouched(c, Acked(c, id), id);
    case Fire(order) => FireStamps(c, order);
    case Wait(_) => SameStamps(c, Next(c, step));
    case Close =>
  }

  lemma SameStamps(c: Peer, d: Peer)
    requires AllStamped(c) && d.inflight == c.inflight && d.log == c.log && d.open == c.open
    ensures AllStamped(d)
  {
    if c.open {
      forall id | id in d.inflight
        ensures Stamped(d, id)
      {
        StampedLonger(c, d, id);
      }
    }
  }

  /** Over every run on time: every inflight element of an open connection was written, as the
      packet of its phase, less than two intervals ago. */
  lemma {:induction false} WrittenInTime(cs: seq<Peer>, steps: seq<Step>, i: nat)
    requires IsRun(cs, steps) && OnTime(cs, steps) && i < |cs|
    ensures AllStamped(cs[i])
    ensures cs[i].open ==> forall id | id in cs[i].inflight ::
              exists k | 0 <= k < |cs[i].log| :: IsFor(cs[i].log[k], id, cs[i].inflight[id]) && 0 <= cs[i].now - cs[i].log[k].at < 40
  {
    if i > 0 {
      WrittenInTime(cs, steps, i - 1);
      StepStamps(cs[i - 1], steps[i - 1]);
    }
    RetryBound(cs, steps, i);
    var c := cs[i];
    if c.open {
      forall id | id in c.inflight
        ensures exists k | 0 <= k < |c.log| :: IsFor(c.log[k], id, c.inflight[id]) && 0 <= c.now - c.log[k].at < 40
      {
        assert Stamped(c, id) && 0 <= Age(c, id) < 40;
        var k :| 0 <= k < |c.log| && IsFor(c.log[k], id, c.inflight[id]) && c.log[k].at == c.inflight[id].ts;
      }
    }
  }

  // ---------- how an element comes and goes ----------

  /** A publish becomes inflight under its identifier and is written at once; an
      acknowledgement takes the element out, and touches no other. */
  lemma ComesAndGoes(c: Peer, id: Id)
    ensures var d := Next(c, Send(id));
            && d.inflight == c.inflight[id := Elem(c.uids, ToPublish, c.now)] && d.timer.Some?
            && d.log == c.log + if c.open then [SentPublish(id, c.uids, c.now)] else []
    ensures var d := Next(c, Puback(id)); d.inflight == map k | k in c.inflight && k != id :: c.inflight[k]
    ensures Next(c, Pubcomp(id)) == Next(c, Puback(id))
  {
  }

  /** PUBREC is answered with the PUBREL of its identifier, whoever waits; only the first for
      a waiting element moves it on. */
  lemma PubrecAnswered(c: Peer, id: Id)
    ensures var d := Next(c, Pubrec(id));
            && d.inflight.Keys == c.inflight.Keys
            && (forall k | k in c.inflight && k != id :: d.inflight[k] == c.inflight[k])
            && (id in c.inflight && c.inflight[id].status == ToPublish ==> d.inflight[id] == Elem(c.inflight[id].uid, ToRelease, c.now))
            && (id in c.inflight && c.inflight[id].status == ToRelease ==> d.inflight[id] == c.inflight[id])
            && (c.open ==> |d.log| == |c.log| + 1 && d.log[..|c.log|] == c.log && !d.log[|c.log|].SentPublish?
                           && d.log[|c.log|].id == id && d.log[|c.log|].at == c.now)
  {
  }

  /** The element is gone: its number was given out and is not inflight. */
  ghost predicate Gone(c: Peer, uid: nat) {
    uid < c.uids && forall id | id in c.inflight :: c.inflight[id].uid != uid
  }

  ghost predicate About(p: Sent, uid: nat) {
    IsPub(p, uid) || IsRel(p, uid)
  }

  /** Nothing new about an element in what was written since. */
  ghost predicate Silent(c: Peer, d: Peer, uid: nat) {
    c.log <= d.log && forall k | |c.log| <= k < |d.log| :: !About(d.log[k], uid)
  }

  lemma {:induction false} RetryEachSilent(c: Peer, order: seq<Id>, uid: nat)
    requires Gone(c, uid) && forall id | id in order :: id in c.inflight
    ensures Gone(RetryEach(c, order), uid) && Silent(c, RetryEach(c, order), uid)
    decreases |order|
  {
    if order != [] {
      RetryEachSilent(c, order[..|order| - 1], uid);
      RetryOneSilent(RetryEach(c, order[..|order| - 1]), order[|order| - 1], uid);
    }
  }

  lemma RetryOneSilent(c: Peer, id: Id, uid: nat)
    requires Gone(c, uid) && id in c.inflight
    ensures Gone(RetryOne(c, id), uid) && Silent(c, RetryOne(c, id), uid)
  {
  }

  lemma FireSilent(c: Peer, order: seq<Id>, uid: nat)
    requires Gone(c, uid) && Visits(order, c)
    ensures Gone(Retry(c, order), uid) && Silent(c, Retry(c, order), uid)
  {
    if c.open && c.inflight != map[] {
      RetryEachSilent(c.(timer := None), order, uid);
    }
  }

  lemma StepSilent(c: Peer, step: Step, uid: nat)
    requires Gone(c, uid) && Enabled(c, step)
    ensures Gone(Next(c, step), uid) && Silent(c, Next(c, step), uid)
  {
    if step.Fire? {
      FireSilent(c, step.order, uid);
    }
  }

  /** Once an element is acknowledged, or replaced, nothing about it is ever written again. */
  lemma {:induction false} GoneForGood(cs: seq<Peer>, steps: seq<Step>, i: nat, j: nat, uid: nat)
    requires IsRun(cs, steps) && i <= j < |cs| && Gone(cs[i], uid)
    ensures Gone(cs[j], uid) && Silent(cs[i], cs[j], uid)
    decreases j
  {
    if i < j {
      GoneForGood(cs, steps, i, j - 1, uid);
      var c, d := cs[j - 1], cs[j];
      assert Enabled(c, steps[j - 1]) && d == Next(c, steps[j - 1]);
      StepSilent(c, steps[j - 1], uid);
      SilentThrough(cs[i], c, d, uid);
    }
  }

  lemma SilentThrough(a: Peer, b: Peer, c: Peer, uid: nat)
    requires Silent(a, b, uid) && Silent(b, c, uid)
    ensures Silent(a, c, uid)
  {
  }
}
