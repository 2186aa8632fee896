/** The broker's side of an incoming QoS 2 publish: identifiers waiting for PUBREL, their
    expiry timers, and what that guarantees about onward delivery over a whole connection
    (section 4.3.3 of MQTT 3.1.1). */
module InboundQos2 {
  import opened MessageIds

  const AWAIT_REL_TIMEOUT := 20

  /** Registration times, in seconds, of the identifiers waiting for PUBREL. */
  type Awaiting = map<Id, int>

  datatype Verdict = Registered | InUse | Full

  predicate IsFull(m: Awaiting, max: int) {
    max != 0 && |m| >= max
  }

  function Judge(m: Awaiting, max: int, id: Id): Verdict {
    if IsFull(m, max) then Full else if id in m then InUse else Registered
  }

  function Register(m: Awaiting, max: int, id: Id, now: int): Awaiting {
    if Judge(m, max, id) == Registered then m[id := now] else m
  }

  predicate Stale(m: Awaiting, id: Id, now: int) {
    id in m && now - m[id] >= AWAIT_REL_TIMEOUT
  }

  function Expire(m: Awaiting, now: int): Awaiting {
    map id | id in m && !Stale(m, id, now) :: m[id]
  }

  /** A publish is taken exactly when its identifier is not waiting and there is room: always
      with the maximum at 0, and otherwise while fewer than the maximum wait. */
  lemma JudgeExact(m: Awaiting, max: int, id: Id)
    ensures Judge(m, max, id) == Registered <==> id !in m && (max == 0 || |m| < max)
    ensures Judge(m, max, id) == Full <==> max != 0 && |m| >= max
    ensures Judge(m, max, id) == InUse <==> id in m && (max == 0 || |m| < max)
  {
  }

  class AwaitingRel {
    var awaitingRel: Awaiting
    const maxAwaitingRel: int

    constructor (max: int)
      ensures awaitingRel == map[] && maxAwaitingRel == max
    {
      awaitingRel, maxAwaitingRel := map[], max;
    }

    method RegisterPublishPacketId(id: Id, now: int) returns (v: Verdict)
      modifies this
      ensures v == Judge(old(awaitingRel), maxAwaitingRel, id)
      ensures awaitingRel == Register(old(awaitingRel), maxAwaitingRel, id, now)
      ensures v == Registered <==> id !in old(awaitingRel) && (maxAwaitingRel == 0 || |old(awaitingRel)| < maxAwaitingRel)
      ensures awaitingRel == if v == Registered then old(awaitingRel)[id := now] else old(awaitingRel)
    {
      if maxAwaitingRel != 0 && !(|awaitingRel| < maxAwaitingRel) {
        return Full;
      }
      if id in awaitingRel {
        return InUse;
      }
      awaitingRel := awaitingRel[id := now];
      return Registered;
    }

    /** The sweep, identifiers in any order. */
    method ExpireAwaitingRel(now: int)
      modifies this
      ensures awaitingRel == Expire(old(awaitingRel), now)
      ensures forall id :: id in awaitingRel <==> id in old(awaitingRel) && now - old(awaitingRel)[id] < 20
      ensures forall id | id in awaitingRel :: awaitingRel[id] == old(awaitingRel)[id]
    {
      ghost var start := awaitingRel;
      var todo := awaitingRel.Keys;
      while todo != {}
        invariant todo <= awaitingRel.Keys
        invariant awaitingRel == map id | id in start && (id in todo || !Stale(start, id, now)) :: start[id]
      {
        var id :| id in todo;
        todo := todo - {id};
        if now - awaitingRel[id] >= AWAIT_REL_TIMEOUT {
          awaitingRel := awaitingRel - {id};
        }
      }
    }

    method PubRel(id: Id) returns (found: bool)
      modifies this
      ensures found == (id in old(awaitingRel)) && awaitingRel == old(awaitingRel) - {id}
    {
      found := id in awaitingRel;
      if found {
        awaitingRel := awaitingRel - {id};
      } else {
        assert awaitingRel - {id} == awaitingRel;
      }
    }
  }

  // ---------- one connection over time ----------

  datatype Event =
    | Delivered(id: Id, at: int)
    | Released(id: Id, at: int)
    | Expired(id: Id, since: int, at: int)

  /** A connection: the waiting identifiers, the pending timers by due time, the clock, and
      the log of what happened. */
  datatype Conn = Conn(awaiting: Awaiting, timers: multiset<int>, now: int, max: int, log: seq<Event>)

  datatype Step =
    | Publish(id: Id, written: bool)      // a QoS 2 PUBLISH; the PUBREC may fail to be written
    | Pubrel(id: Id)
    | Fire(due: int, order: seq<Id>)      // a timer, sweeping stale identifiers in this order
    | Tick

  ghost predicate Lists(order: seq<Id>, m: Awaiting, now: int) {
    && (forall i, j | 0 <= i < j < |order| :: order[i] != order[j])
    && (forall id :: id in order <==> Stale(m, id, now))
  }

  ghost predicate Enabled(c: Conn, step: Step) {
    match step
    case Fire(due, order) => due in c.timers && due <= c.now && Lists(order, c.awaiting, c.now)
    case _ => true
  }

  function ExpiredEvents(m: Awaiting, order: seq<Id>, now: int): (es: seq<Event>)
    requires forall id | id in order :: id in m
    ensures |es| == |order|
    ensures forall i | 0 <= i < |es| :: es[i] == Expired(order[i], m[order[i]], now)
  {
    seq(|order|, i requires 0 <= i < |order| => Expired(order[i], m[order[i]], now))
  }

  ghost function Next(c: Conn, step: Step): Conn
    requires Enabled(c, step)
  {
    match step
    case Publish(id, written) =>
      if Judge(c.awaiting, c.max, id) != Registered then c
      else c.(awaiting := Register(c.awaiting, c.max, id, c.now),
              timers := c.timers + multiset{c.now + AWAIT_REL_TIMEOUT},
              log := if written then c.log + [Delivered(id, c.now)] else c.log)
    case Pubrel(id) => c.(awaiting := c.awaiting - {id}, log := c.log + [Released(id, c.now)])
    case Fire(due, order) =>
      c.(awaiting := Expire(c.awaiting, c.now), timers := c.timers - multiset{due},
         log := c.log + ExpiredEvents(c.awaiting, order, c.now))
    case Tick => c.(now := c.now + 1)
  }

  predicate Opened(c: Conn) {
    c.awaiting == map[] && c.timers == multiset{} && c.log == []
  }

  ghost predicate IsRun(cs: seq<Conn>, steps: seq<Step>) {
    && |cs| == |steps| + 1 && Opened(cs[0])
    && forall i | 0 <= i < |steps| :: Enabled(cs[i], steps[i]) && cs[i + 1] == Next(cs[i], steps[i])
  }

  /** A publish is passed on exactly when its identifier is registered by it and the PUBREC is
      written; then, and only then, it waits for PUBREL from now on. */
  lemma PublishDelivers(c: Conn, id: Id, written: bool)
    ensures var d, taken := Next(c, Step.Publish(id, written)), id !in c.awaiting && (c.max == 0 || |c.awaiting| < c.max);
            && d.awaiting == (if taken then c.awaiting[id := c.now] else c.awaiting)
            && d.log == (if taken && written then c.log + [Delivered(id, c.now)] else c.log)
  {
  }

  /** PUBREL frees its identifier and no other, and a sweep those that have waited 20 seconds. */
  lemma FreesExactly(c: Conn, step: Step)
    requires Enabled(c, step) && (step.Pubrel? || step.Fire?)
    ensures var d := Next(c, step);
            && (forall id :: id in d.awaiting <==>
                  id in c.awaiting && if step.Pubrel? then id != step.id else c.now - c.awaiting[id] < 20)
            && (forall id | id in d.awaiting :: d.awaiting[id] == c.awaiting[id])
            && |d.log| == |c.log| + if step.Pubrel? then 1 else |step.order|
  {
  }

  // ---------- deliveries are separated ----------

  predicate Frees(e: Event, id: Id) {
    || (e.Released? && e.id == id)
    || (e.Expired? && e.id == id && e.at - e.since >= AWAIT_REL_TIMEOUT)
  }

  ghost predicate FreedBetween(log: seq<Event>, id: Id, i: int, j: int) {
    exists k :: i < k < j && 0 <= k < |log| && Frees(log[k], id)
  }

  ghost predicate Separated(log: seq<Event>) {
    forall i, j | 0 <= i < j < |log| && log[i].Delivered? && log[j].Delivered? && log[i].id == log[j].id ::
      FreedBetween(log, log[i].id, i, j)
  }

  /** An identifier delivered and not freed since is still waiting. */
  ghost predicate Waiting(c: Conn) {
    forall i | 0 <= i < |c.log| && c.log[i].Delivered? ::
      c.log[i].id in c.awaiting || FreedBetween(c.log, c.log[i].id, i, |c.log|)
  }

  lemma FreedKept(log: seq<Event>, more: seq<Event>, id: Id, i: int, j: int, n: int)
    requires FreedBetween(log, id, i, j) && j <= n
    ensures FreedBetween(log + more, id, i, n)
  {
    var k :| i < k < j && 0 <= k < |log| && Frees(log[k], id);
    assert (log + more)[k] == log[k];
  }

  lemma StepKeepsSeparation(c: Conn, step: Step)
    requires Separated(c.log) && Waiting(c) && Enabled(c, step)
    ensures Separated(Next(c, step).log) && Waiting(Next(c, step))
  {
    var d := Next(c, step);
    var more := d.log[|c.log|..];
    assert d.log == c.log + more;
    forall i, j | 0 <= i < j < |d.log| && d.log[i].Delivered? && d.log[j].Delivered? && d.log[i].id == d.log[j].id
      ensures FreedBetween(d.log, d.log[i].id, i, j)
    {
      if j < |c.log| {
        FreedKept(c.log, more, d.log[i].id, i, j, j);
      } else if i < |c.log| {
        FreedKept(c.log, more, d.log[i].id, i, |c.log|, j);
      }
    }
    forall i | 0 <= i < |d.log| && d.log[i].Delivered?
      ensures d.log[i].id in d.awaiting || FreedBetween(d.log, d.log[i].id, i, |d.log|)
    {
      var id := d.log[i].id;
      if i < |c.log| {
        if FreedBetween(c.log, id, i, |c.log|) {
          FreedKept(c.log, more, id, i, |c.log|, |d.log|);
        } else if id !in d.awaiting {
          var k := FreeingEvent(c, step, id);
          assert Frees(d.log[k], id);
        }
      }
    }
  }

  /** An identifier that leaves the map leaves a freeing event behind. */
  lemma FreeingEvent(c: Conn, step: Step, id: Id) returns (k: nat)
    requires Enabled(c, step) && id in c.awaiting && id !in Next(c, step).awaiting
    ensures |c.log| <= k < |Next(c, step).log| && Frees(Next(c, step).log[k], id)
  {
    k := |c.log|;
    if step.Fire? {
      assert id in step.order;
      var i :| 0 <= i < |step.order| && step.order[i] == id;
      k := |c.log| + i;
    }
  }

  /** Any two onward deliveries of one identifier are separated by a PUBREL for it, or by an
      expiry at least the timeout after its registration, however late the timers are. */
  lemma {:induction false} DeliveriesSeparated(cs: seq<Conn>, steps: seq<Step>, n: nat)
    requires IsRun(cs, steps) && n < |cs|
    ensures Separated(cs[n].log) && Waiting(cs[n])
  {
    if n > 0 {
      DeliveriesSeparated(cs, steps, n - 1);
      StepKeepsSeparation(cs[n - 1], steps[n - 1]);
    }
  }

  // ---------- bounds ----------

  /** Timers on time: the clock moves only when every due timer has fired. */
  ghost predicate OnTime(cs: seq<Conn>, steps: seq<Step>)
    requires |cs| == |steps| + 1
  {
    forall i, d | 0 <= i < |steps| && steps[i].Tick? && d in cs[i].timers :: d > cs[i].now
  }

  /** A timer is pending for every entry, and none is overdue. */
  ghost predicate TimersOk(m: Awaiting, timers: multiset<int>, now: int) {
    && (forall d | d in timers :: d >= now)
    && (forall id | id in m :: m[id] + AWAIT_REL_TIMEOUT in timers)
  }

  ghost predicate TimerPerEntry(c: Conn) {
    TimersOk(c.awaiting, c.timers, c.now)
  }

  lemma PublishKeepsTimers(m: Awaiting, timers: multiset<int>, now: int, id: Id)
    requires TimersOk(m, timers, now)
    ensures TimersOk(m[id := now], timers + multiset{now + AWAIT_REL_TIMEOUT}, now)
  {
  }

  /** The timer that fired is gone, and with it the entries that were due by it. */
  lemma FireKeepsTimers(m: Awaiting, timers: multiset<int>, due: int, now: int)
    requires TimersOk(m, timers, now) && due in timers && due <= now
    ensures TimersOk(Expire(m, now), timers - multiset{due}, now)
  {
    var after := timers - multiset{due};
    forall id | id in Expire(m, now)
      ensures m[id] + AWAIT_REL_TIMEOUT in after
    {
      assert m[id] + AWAIT_REL_TIMEOUT in timers;
      assert m[id] + AWAIT_REL_TIMEOUT != due;
    }
  }

  lemma StepKeepsTimers(c: Conn, step: Step)
    requires TimerPerEntry(c) && Enabled(c, step)
    requires step.Tick? ==> forall d | d in c.timers :: d > c.now
    ensures TimerPerEntry(Next(c, step))
  {
    match step
    case Publish(id, _) => PublishKeepsTimers(c.awaiting, c.timers, c.now, id);
    case Fire(due, _) => FireKeepsTimers(c.awaiting, c.timers, due, c.now);
    case _ =>
  }

  /** With timers on time, no entry gets older than the timeout. */
  lemma {:induction false} EntriesStayYoung(cs: seq<Conn>, steps: seq<Step>, n: nat)
    requires IsRun(cs, steps) && OnTime(cs, steps) && n < |cs|
    ensures TimerPerEntry(cs[n])
    ensures forall id | id in cs[n].awaiting :: cs[n].now - cs[n].awaiting[id] <= AWAIT_REL_TIMEOUT
  {
    if n > 0 {
      EntriesStayYoung(cs, steps, n - 1);
      StepKeepsTimers(cs[n - 1], steps[n - 1]);
    }
  }

  /** A positive maximum bounds the number of waiting identifiers; a negative one admits none. */
  lemma {:induction false} AwaitingBounded(cs: seq<Conn>, steps: seq<Step>, n: nat)
    requires IsRun(cs, steps) && n < |cs| && cs[0].max != 0
    ensures cs[n].max == cs[0].max
    ensures |cs[n].awaiting| <= if cs[0].max > 0 then cs[0].max else 0
  {
    if n > 0 {
      AwaitingBounded(cs, steps, n - 1);
      var c, d := cs[n - 1], cs[n];
      assert d == Next(c, steps[n - 1]);
      if !steps[n - 1].Publish? {
        Smaller(c.awaiting, d.awaiting);
      }
    }
  }

  lemma Smaller(m: Awaiting, k: Awaiting)
    requires k.Keys <= m.Keys
    ensures |k| <= |m|
  {
    var rest := m.Keys - k.Keys;
    assert m.Keys == k.Keys + rest;
    assert |k.Keys| == |k| && |m.Keys| == |m|;
  }
}
