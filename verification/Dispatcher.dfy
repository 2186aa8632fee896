/** The client's dispatcher of received publishes: a main routine, a copier of
    acknowledgements, a waiter, and any number of handlers, each of which may keep a message
    and acknowledge it from elsewhere at any time. */
module Dispatcher {

  /** The state of a message's sync.Once. Callers other than the runner wait for the end. */
  datatype Once = Fresh | Running | Finished

  /** `handed` once a handler has seen it; `sends` when its QoS asks for an acknowledgement
      packet; `runs` counts the executions of its acknowledgement; `routed`, `called` and
      `ended` the routes that matched it, and the handler calls made and through for it. */
  datatype Message = Message(once: Once, handed: bool, sends: bool, runs: nat, routed: nat, called: nat, ended: nat)

  datatype Handler = Handler(msg: nat, returned: bool)

  datatype MainAt =
    | Ranging
    | Matching(msg: nat, found: nat)    // handlers found for it so far
    | Calling(msg: nat, left: nat)      // in order mode: inside a handler, with `left` to go
    | Acking(msg: nat, left: nat)       // in order mode: inside m.Ack() after a handler
    | AwaitStopped
    | Exited

  datatype CopierAt = Selecting | Sending | Draining | Gone

  datatype WaiterAt = Unborn | Waiting | Over

  /** How often each channel has been closed. */
  datatype Closes = Closes(ackOut: nat, ackIn: nat, stopAckCopy: nat, ackCopyStopped: nat, goRoutinesDone: nat)

  /** `out` and `dropped` count the acknowledgements that left by ackOutChan and those the
      copier threw away. */
  datatype State = State(order: bool, msgs: seq<Message>, handlers: map<nat, Handler>, wg: nat, main: MainAt,
                         copier: CopierAt, waiter: WaiterAt, closes: Closes, out: nat, dropped: nat)

  datatype Step =
    | Receive(sends: bool)
    | Route(h: nat)            // a matching route (or the default handler)
    | EndMatch
    | MainReturns              // the handler the main routine called returns
    | MainAcked
    | EndInput                 // the input channel is closed
    | MainStopped
    | AckStart(m: nat)         // somebody's Ack is the first
    | AckEnd(m: nat)           // an acknowledgement without a packet
    | OutTakes(m: nat)         // in order mode the outer routine takes it from ackOutChan
    | HandlerReturns(h: nat)
    | HandlerDone(h: nat)
    | CopierTakes(m: nat)
    | CopierSent
    | CopierStops
    | DrainTakes(m: nat)
    | DrainExits
    | WaiterDone

  /** Blocked in the send of its acknowledgement. */
  predicate InSend(s: State, m: nat) {
    m < |s.msgs| && s.msgs[m].once.Running? && s.msgs[m].sends
  }

  predicate Enabled(s: State, step: Step) {
    match step
    case Receive(_) => s.main.Ranging?
    case Route(h) => s.main.Matching? && h !in s.handlers && s.main.msg < |s.msgs|
    case EndMatch => s.main.Matching? && s.main.msg < |s.msgs|
    case MainReturns => s.main.Calling?
    case MainAcked => s.main.Acking? && s.main.msg < |s.msgs| && s.msgs[s.main.msg].once.Finished?
    case EndInput => s.main.Ranging?
    case MainStopped => s.main.AwaitStopped? && s.closes.ackCopyStopped > 0
    case AckStart(m) => m < |s.msgs| && s.msgs[m].handed && s.msgs[m].once.Fresh?
    case AckEnd(m) => m < |s.msgs| && s.msgs[m].once.Running? && !s.msgs[m].sends
    case OutTakes(m) => s.order && InSend(s, m)
    case HandlerReturns(h) => h in s.handlers && !s.handlers[h].returned
    case HandlerDone(h) =>
      h in s.handlers && s.handlers[h].returned && s.handlers[h].msg < |s.msgs|
      && s.msgs[s.handlers[h].msg].once.Finished? && s.wg > 0
    case CopierTakes(m) => !s.order && s.copier.Selecting? && InSend(s, m)
    case CopierSent => !s.order && s.copier.Sending?
    case CopierStops => !s.order && s.copier.Selecting? && s.closes.stopAckCopy > 0
    case DrainTakes(m) => !s.order && s.copier.Draining? && InSend(s, m)
    case DrainExits => !s.order && s.copier.Draining? && s.closes.goRoutinesDone > 0
    case WaiterDone => s.waiter.Waiting? && s.wg == 0
  }

  function SetOnce(s: State, m: nat, o: Once): State
    requires m < |s.msgs|
  {
    s.(msgs := s.msgs[m := s.msgs[m].(once := o, runs := s.msgs[m].runs + if o.Running? then 1 else 0)])
  }

  function Hand(s: State, m: nat): State
    requires m < |s.msgs|
  {
    s.(msgs := s.msgs[m := s.msgs[m].(handed := true)])
  }

  /** More routes, calls or ends for a message. */
  function Tally(s: State, m: nat, routed: nat, called: nat, ended: nat): State
    requires m < |s.msgs|
  {
    var x := s.msgs[m];
    s.(msgs := s.msgs[m := x.(routed := x.routed + routed, called := x.called + called, ended := x.ended + ended)])
  }

  function Next(s: State, step: Step): State
    requires Enabled(s, step)
  {
    match step
    case Receive(sends) => s.(msgs := s.msgs + [Message(Fresh, false, sends, 0, 0, 0, 0)], main := Matching(|s.msgs|, 0))
    case Route(h) =>
      if s.order then Tally(s, s.main.msg, 1, 0, 0).(main := s.main.(found := s.main.found + 1))
      else
        Tally(Hand(s, s.main.msg), s.main.msg, 1, 1, 0)
          .(handlers := s.handlers[h := Handler(s.main.msg, false)], wg := s.wg + 1)
    case EndMatch =>
      if s.order && s.main.found > 0
      then Tally(Hand(s, s.main.msg), s.main.msg, 0, 1, 0).(main := Calling(s.main.msg, s.main.found - 1))
      else s.(main := Ranging)
    case MainReturns => s.(main := Acking(s.main.msg, s.main.left))
    case MainAcked =>
      if s.main.left == 0 then Tally(s, s.main.msg, 0, 0, 1).(main := Ranging)
      else Tally(s, s.main.msg, 0, 1, 1).(main := Calling(s.main.msg, s.main.left - 1))
    case EndInput =>
      if s.order then s.(main := Exited, closes := s.closes.(ackOut := s.closes.ackOut + 1))
      else s.(main := AwaitStopped, closes := s.closes.(stopAckCopy := s.closes.stopAckCopy + 1))
    case MainStopped => s.(main := Exited, waiter := Waiting, closes := s.closes.(ackOut := s.closes.ackOut + 1))
    case AckStart(m) => SetOnce(s, m, Running)
    case AckEnd(m) => SetOnce(s, m, Finished)
    case OutTakes(m) => SetOnce(s, m, Finished).(out := s.out + 1)
    case HandlerReturns(h) => s.(handlers := s.handlers[h := s.handlers[h].(returned := true)])
    case HandlerDone(h) => Tally(s, s.handlers[h].msg, 0, 0, 1).(handlers := s.handlers - {h}, wg := s.wg - 1)
    case CopierTakes(m) => SetOnce(s, m, Finished).(copier := Sending)
    case CopierSent => s.(copier := Selecting, out := s.out + 1)
    case CopierStops => s.(copier := Draining, closes := s.closes.(ackCopyStopped := s.closes.ackCopyStopped + 1))
    case DrainTakes(m) => SetOnce(s, m, Finished).(dropped := s.dropped + 1)
    case DrainExits => s.(copier := Gone, closes := s.closes.(ackIn := s.closes.ackIn + 1))
    case WaiterDone => s.(waiter := Over, closes := s.closes.(goRoutinesDone := s.closes.goRoutinesDone + 1))
  }

  function Start(order: bool): State {
    State(order, [], map[], 0, Ranging, Selecting, Unborn, Closes(0, 0, 0, 0, 0), 0, 0)
  }

  ghost predicate IsRun(order: bool, ss: seq<State>, steps: seq<Step>) {
    && |ss| == |steps| + 1 && ss[0] == Start(order)
    && forall i | 0 <= i < |steps| :: Enabled(ss[i], steps[i]) && ss[i + 1] == Next(ss[i], steps[i])
  }

  // ---------- what must not happen ----------

  /** Nobody is sending on a closed channel. In order mode the acknowledgements go straight
      to ackOutChan. */
  ghost predicate NoSendOnClosed(s: State) {
    && (forall m | InSend(s, m) :: if s.order then s.closes.ackOut == 0 else s.closes.ackIn == 0)
    && (!s.order && s.copier.Sending? ==> s.closes.ackOut == 0)
  }

  ghost predicate NoDoubleClose(s: State) {
    && s.closes.ackOut <= 1 && s.closes.ackIn <= 1 && s.closes.stopAckCopy <= 1
    && s.closes.ackCopyStopped <= 1 && s.closes.goRoutinesDone <= 1
  }

  ghost predicate AckedAtMostOnce(s: State) {
    forall m | 0 <= m < |s.msgs| :: s.msgs[m].runs <= 1
  }

  // ---------- why not ----------

  ghost predicate MessagesOk(s: State) {
    forall m | 0 <= m < |s.msgs| ::
      && s.msgs[m].runs == (if s.msgs[m].once.Fresh? then 0 else 1)
      && (!s.msgs[m].once.Fresh? ==> s.msgs[m].handed)
  }

  /** The routine is still to pass the Ack of the message. */
  ghost predicate Tended(s: State, m: nat) {
    if s.order then (s.main.Calling? || s.main.Acking?) && s.main.msg == m
    else exists h | h in s.handlers :: s.handlers[h].msg == m
  }

  ghost predicate TendedOk(s: State) {
    && (forall m | 0 <= m < |s.msgs| && s.msgs[m].handed && !s.msgs[m].once.Finished? :: Tended(s, m))
    && s.wg == |s.handlers|
    && (s.order ==> s.handlers == map[])
    && (!s.order ==> !s.main.Calling? && !s.main.Acking?)
  }

  /** Where the routines are says which channels are closed. */
  ghost predicate ClosesOk(s: State) {
    && s.closes.ackOut == (if s.main.Exited? then 1 else 0)
    && s.closes.stopAckCopy == (if !s.order && (s.main.AwaitStopped? || s.main.Exited?) then 1 else 0)
    && s.closes.ackCopyStopped == (if s.copier.Draining? || s.copier.Gone? then 1 else 0)
    && s.closes.ackIn == (if s.copier.Gone? then 1 else 0)
    && s.closes.goRoutinesDone == (if s.waiter.Over? then 1 else 0)
    && (s.waiter.Unborn? <==> s.order || !s.main.Exited?)
    && (s.copier.Gone? ==> s.waiter.Over?)
    && (s.copier.Draining? ==> s.main.AwaitStopped? || s.main.Exited?)
    && (s.main.Exited? && !s.order ==> s.copier.Draining? || s.copier.Gone?)
    && (s.order ==> s.copier.Selecting? && !s.main.AwaitStopped?)
    && (s.waiter.Over? ==> s.wg == 0)
    && (s.main.Matching? || s.main.Calling? || s.main.Acking? ==> s.main.msg < |s.msgs|)
  }

  ghost predicate Inv(s: State) {
    MessagesOk(s) && TendedOk(s) && ClosesOk(s)
  }

  lemma InvIsSafe(s: State)
    requires Inv(s)
    ensures NoSendOnClosed(s) && NoDoubleClose(s) && AckedAtMostOnce(s)
  {
    forall m | InSend(s, m)
      ensures if s.order then s.closes.ackOut == 0 else s.closes.ackIn == 0
    {
      assert Tended(s, m);
    }
  }

  lemma MessagesKept(s: State, step: Step)
    requires Inv(s) && Enabled(s, step)
    ensures MessagesOk(Next(s, step))
  {
  }

  lemma ClosesKept(s: State, step: Step)
    requires Inv(s) && Enabled(s, step)
    ensures ClosesOk(Next(s, step))
  {
  }

  /** An unfinished message keeps its routine as long as the routine stays. */
  lemma StillTended(s: State, d: State, m: nat)
    requires Tended(s, m) && d.order == s.order
    requires s.order ==> (d.main.Calling? || d.main.Acking?) && d.main.msg == m
    requires forall h | h in s.handlers && s.handlers[h].msg == m :: h in d.handlers && d.handlers[h].msg == m
    ensures Tended(d, m)
  {
  }

  lemma AddCounts(m: map<nat, Handler>, h: nat, x: Handler)
    ensures |m[h := x]| == |m| + if h in m then 0 else 1
  {
    assert m[h := x].Keys == m.Keys + {h};
  }

  lemma RemoveCounts(m: map<nat, Handler>, h: nat)
    requires h in m
    ensures |m - {h}| == |m| - 1
  {
    assert (m - {h}).Keys == m.Keys - {h};
  }

  lemma HandlersKept(s: State, step: Step)
    requires s.wg == |s.handlers| && (s.order ==> s.handlers == map[]) && Enabled(s, step)
    ensures var d := Next(s, step); d.wg == |d.handlers| && (d.order ==> d.handlers == map[])
  {
    match step
    case Route(h) => AddCounts(s.handlers, h, Handler(s.main.msg, false));
    case HandlerReturns(h) => AddCounts(s.handlers, h, s.handlers[h].(returned := true));
    case HandlerDone(h) => RemoveCounts(s.handlers, h);
    case _ =>
  }

  lemma TendedKept(s: State, step: Step, m: nat)
    requires MessagesOk(s) && TendedOk(s) && Enabled(s, step)
    requires var d := Next(s, step); m < |d.msgs| && d.msgs[m].handed && !d.msgs[m].once.Finished?
    ensures Tended(Next(s, step), m)
  {
    var d := Next(s, step);
    if m < |s.msgs| && s.msgs[m].handed {
      assert Tended(s, m);
      StillTended(s, d, m);
    } else if step.Route? {
      assert d.handlers[step.h].msg == m;
    }
  }

  lemma StepKeeps(s: State, step: Step)
    requires Inv(s) && Enabled(s, step)
    ensures Inv(Next(s, step))
  {
    MessagesKept(s, step);
    ClosesKept(s, step);
    HandlersKept(s, step);
    var d := Next(s, step);
    forall m | 0 <= m < |d.msgs| && d.msgs[m].handed && !d.msgs[m].once.Finished?
      ensures Tended(d, m)
    {
      TendedKept(s, step, m);
    }
  }

  lemma {:induction false} RunKeepsInv(order: bool, ss: seq<State>, steps: seq<Step>)
    requires IsRun(order, ss, steps)
    ensures Inv(ss[|steps|]) && Balanced(ss[|steps|])
    decreases |steps|
  {
    if steps != [] {
      var n := |steps| - 1;
      assert IsRun(order, ss[..n + 1], steps[..n]);
      RunKeepsInv(order, ss[..n + 1], steps[..n]);
      StepKeeps(ss[n], steps[n]);
      StepBalances(ss[n], steps[n]);
    }
  }

  /** For every interleaving, in both modes: no send on a closed channel, no channel closed
      twice, and each message acknowledged at most once however many routes matched. */
  lemma DispatcherIsSafe(order: bool, ss: seq<State>, steps: seq<Step>)
    requires IsRun(order, ss, steps)
    ensures forall i | 0 <= i < |ss| :: NoSendOnClosed(ss[i]) && NoDoubleClose(ss[i]) && AckedAtMostOnce(ss[i])
  {
    forall i | 0 <= i < |ss|
      ensures NoSendOnClosed(ss[i]) && NoDoubleClose(ss[i]) && AckedAtMostOnce(ss[i])
    {
      assert IsRun(order, ss[..i + 1], steps[..i]);
      RunKeepsInv(order, ss[..i + 1], steps[..i]);
      InvIsSafe(ss[i]);
    }
  }

  // ---------- where the acknowledgements go ----------

  /** Acknowledgement packets handed over so far. */
  function Handed(msgs: seq<Message>): nat {
    if msgs == [] then 0
    else
      var m := msgs[|msgs| - 1];
      Handed(msgs[..|msgs| - 1]) + if m.once.Finished? && m.sends then 1 else 0
  }

  lemma {:induction false} HandedUpdate(msgs: seq<Message>, m: nat, x: Message)
    requires m < |msgs|
    ensures Handed(msgs[m := x]) == Handed(msgs) + (if x.once.Finished? && x.sends then 1 else 0)
                                    - (if msgs[m].once.Finished? && msgs[m].sends then 1 else 0)
  {
    var n := |msgs| - 1;
    if m < n {
      HandedUpdate(msgs[..n], m, x);
      assert msgs[m := x][..n] == msgs[..n][m := x];
    } else {
      assert msgs[m := x][..n] == msgs[..n];
    }
  }

  /** Every one of them left, is in the copier's hands, or was dropped; none is dropped in
      order mode, nor before the input ended. */
  ghost predicate Balanced(s: State) {
    && Handed(s.msgs) == s.out + s.dropped + (if !s.order && s.copier.Sending? then 1 else 0)
    && (s.dropped > 0 ==> !s.order && s.closes.stopAckCopy > 0)
  }

  lemma StepBalances(s: State, step: Step)
    requires Inv(s) && Balanced(s) && Enabled(s, step)
    ensures Balanced(Next(s, step))
  {
    HandedStep(s, step);
  }

  lemma HandedStep(s: State, step: Step)
    requires ClosesOk(s) && Enabled(s, step)
    ensures Handed(Next(s, step).msgs) == Handed(s.msgs) +
            if step.OutTakes? || step.CopierTakes? || step.DrainTakes? then 1 else 0
  {
    match step
    case Receive(sends) =>
      var more := s.msgs + [Message(Fresh, false, sends, 0, 0, 0, 0)];
      assert more[..|more| - 1] == s.msgs;
    case Route(_) => HandedSame(s, Next(s, step), s.main.msg);
    case EndMatch => HandedSame(s, Next(s, step), s.main.msg);
    case MainAcked => HandedSame(s, Next(s, step), s.main.msg);
    case HandlerDone(h) => HandedSame(s, Next(s, step), s.handlers[h].msg);
    case AckStart(m) => HandedOnce(s, m, Running);
    case AckEnd(m) => HandedOnce(s, m, Finished);
    case OutTakes(m) => HandedOnce(s, m, Finished);
    case CopierTakes(m) => HandedOnce(s, m, Finished);
    case DrainTakes(m) => HandedOnce(s, m, Finished);
    case _ =>
  }

  lemma HandedSame(s: State, d: State, m: nat)
    requires m < |s.msgs| == |d.msgs| && forall k | 0 <= k < |s.msgs| && k != m :: d.msgs[k] == s.msgs[k]
    requires d.msgs[m].once == s.msgs[m].once && d.msgs[m].sends == s.msgs[m].sends
    ensures Handed(d.msgs) == Handed(s.msgs)
  {
    assert d.msgs == s.msgs[m := d.msgs[m]];
    HandedUpdate(s.msgs, m, d.msgs[m]);
  }

  lemma HandedOnce(s: State, m: nat, o: Once)
    requires m < |s.msgs| && !s.msgs[m].once.Finished?
    ensures Handed(SetOnce(s, m, o).msgs) == Handed(s.msgs) + if o.Finished? && s.msgs[m].sends then 1 else 0
  {
    HandedUpdate(s.msgs, m, SetOnce(s, m, o).msgs[m]);
  }

  /** When all routines are through, every message a handler saw was acknowledged exactly
      once, and every acknowledgement packet left or was dropped after the input ended. */
  lemma QuietMeansAcknowledged(order: bool, ss: seq<State>, steps: seq<Step>)
    requires IsRun(order, ss, steps)
    requires var s := ss[|steps|]; s.main.Exited? && (!order ==> s.copier.Gone?)
    ensures var s := ss[|steps|];
            && (forall m | 0 <= m < |s.msgs| && s.msgs[m].handed :: s.msgs[m].runs == 1 && s.msgs[m].once.Finished?)
            && Handed(s.msgs) == s.out + s.dropped && (order ==> s.dropped == 0)
  {
    RunKeepsInv(order, ss, steps);
    OrderIsFixed(order, ss, steps);
    var s := ss[|steps|];
    assert forall m: nat :: !Tended(s, m);
  }

  lemma {:induction false} OrderIsFixed(order: bool, ss: seq<State>, steps: seq<Step>)
    requires IsRun(order, ss, steps)
    ensures ss[|steps|].order == order
    decreases |steps|
  {
    if steps != [] {
      var n := |steps| - 1;
      assert IsRun(order, ss[..n + 1], steps[..n]);
      OrderIsFixed(order, ss[..n + 1], steps[..n]);
    }
  }

  // ---------- every matching handler is called ----------

  /** The handlers at work on a message. */
  ghost function AtWork(handlers: map<nat, Handler>, m: nat): set<nat> {
    set h | h in handlers && handlers[h].msg == m
  }

  /** In order mode: as many calls as routes, but for those the main routine has still to make
      for the message it is at; the one under way is not through. */
  ghost predicate CountsInOrder(main: MainAt, m: nat, x: Message) {
    if main.Matching? && main.msg == m then x.called == 0 && x.ended == 0 && x.routed == main.found
    else if (main.Calling? || main.Acking?) && main.msg == m then x.called + main.left == x.routed && x.ended + 1 == x.called
    else x.called == x.routed && x.ended == x.called
  }

  /** Otherwise: a handler routine per route, each at work or through. */
  ghost predicate CountsApart(handlers: map<nat, Handler>, m: nat, x: Message) {
    x.called == x.routed && x.ended + |AtWork(handlers, m)| == x.called
  }

  ghost predicate CountsOk(s: State) {
    && (forall m | 0 <= m < |s.msgs| ::
          if s.order then CountsInOrder(s.main, m, s.msgs[m]) else CountsApart(s.handlers, m, s.msgs[m]))
    && (forall h | h in s.handlers :: s.handlers[h].msg < |s.msgs|)
  }

  lemma AtWorkAdd(hs: map<nat, Handler>, h: nat, x: Handler, m: nat)
    requires h !in hs
    ensures |AtWork(hs[h := x], m)| == |AtWork(hs, m)| + if x.msg == m then 1 else 0
  {
    assert AtWork(hs[h := x], m) == AtWork(hs, m) + if x.msg == m then {h} else {};
  }

  lemma AtWorkRemove(hs: map<nat, Handler>, h: nat, m: nat)
    requires h in hs
    ensures |AtWork(hs - {h}, m)| == |AtWork(hs, m)| - if hs[h].msg == m then 1 else 0
  {
    assert AtWork(hs - {h}, m) == AtWork(hs, m) - {h};
  }

  lemma AtWorkReturned(hs: map<nat, Handler>, h: nat, m: nat)
    requires h in hs
    ensures AtWork(hs[h := hs[h].(returned := true)], m) == AtWork(hs, m)
  {
  }

  /** What a step does to the counts of a message. */
  predicate SameCounts(x: Message, y: Message) {
    x.routed == y.routed && x.called == y.called && x.ended == y.ended
  }

  lemma InOrderKept(s: State, step: Step, m: nat)
    requires ClosesOk(s) && TendedOk(s) && CountsOk(s) && Enabled(s, step) && s.order && m < |Next(s, step).msgs|
    ensures CountsInOrder(Next(s, step).main, m, Next(s, step).msgs[m])
  {
    if m < |s.msgs| {
      assert CountsInOrder(s.main, m, s.msgs[m]);
    }
  }

  lemma ApartKept(s: State, step: Step, m: nat)
    requires ClosesOk(s) && CountsOk(s) && TendedOk(s) && Enabled(s, step) && !s.order && m < |Next(s, step).msgs|
    ensures CountsApart(Next(s, step).handlers, m, Next(s, step).msgs[m])
  {
    if m < |s.msgs| {
      assert CountsApart(s.handlers, m, s.msgs[m]);
    } else {
      assert AtWork(s.handlers, m) == {};
    }
    match step
    case Route(h) => AtWorkAdd(s.handlers, h, Handler(s.main.msg, false), m);
    case HandlerDone(h) => AtWorkRemove(s.handlers, h, m);
    case HandlerReturns(h) => AtWorkReturned(s.handlers, h, m);
    case _ =>
  }

  lemma HandlersPointBack(s: State, step: Step)
    requires ClosesOk(s) && CountsOk(s) && Enabled(s, step)
    ensures forall h | h in Next(s, step).handlers :: Next(s, step).handlers[h].msg < |Next(s, step).msgs|
  {
  }

  lemma StepCounts(s: State, step: Step)
    requires Inv(s) && CountsOk(s) && Enabled(s, step)
    ensures CountsOk(Next(s, step))
  {
    HandlersPointBack(s, step);
    forall m: nat | m < |Next(s, step).msgs|
      ensures if s.order then CountsInOrder(Next(s, step).main, m, Next(s, step).msgs[m])
              else CountsApart(Next(s, step).handlers, m, Next(s, step).msgs[m])
    {
      if s.order {
        InOrderKept(s, step, m);
      } else {
        ApartKept(s, step, m);
      }
    }
  }

  lemma {:induction false} RunCounts(order: bool, ss: seq<State>, steps: seq<Step>, i: nat)
    requires IsRun(order, ss, steps) && i < |ss|
    ensures CountsOk(ss[i]) && Inv(ss[i]) && ss[i].order == order
  {
    assert IsRun(order, ss[..i + 1], steps[..i]);
    RunKeepsInv(order, ss[..i + 1], steps[..i]);
    OrderIsFixed(order, ss[..i + 1], steps[..i]);
    if i > 0 {
      RunCounts(order, ss, steps, i - 1);
      StepCounts(ss[i - 1], steps[i - 1]);
    }
  }

  /** In every state of every run, a message has as many handler calls as routes matched it,
      and as many are through: in order mode once the main routine is past it; otherwise at
      any time, but for the handler routines still at work. */
  lemma EveryMatchIsCalled(order: bool, ss: seq<State>, steps: seq<Step>, i: nat, m: nat)
    requires IsRun(order, ss, steps) && i < |ss| && m < |ss[i].msgs|
    ensures var s, x := ss[i], ss[i].msgs[m];
            && x.called <= x.routed
            && (!order ==> x.called == x.routed && x.ended + |AtWork(s.handlers, m)| == x.called)
            && (order && !((s.main.Matching? || s.main.Calling? || s.main.Acking?) && s.main.msg == m) ==>
                  x.called == x.routed && x.ended == x.called)
  {
    RunCounts(order, ss, steps, i);
    if order {
      assert CountsInOrder(ss[i].main, m, ss[i].msgs[m]);
    } else {
      assert CountsApart(ss[i].handlers, m, ss[i].msgs[m]);
    }
  }

  /** When all routines are through, every handler call made is, and a message was handed to
      exactly as many handlers as routes matched it. */
  lemma QuietMeansCalled(order: bool, ss: seq<State>, steps: seq<Step>, m: nat)
    requires IsRun(order, ss, steps) && m < |ss[|steps|].msgs|
    requires var s := ss[|steps|]; s.main.Exited? && (!order ==> s.copier.Gone?)
    ensures var x := ss[|steps|].msgs[m]; x.called == x.routed && x.ended == x.called
  {
    RunCounts(order, ss, steps, |steps|);
    EveryMatchIsCalled(order, ss, steps, |steps|, m);
    var s := ss[|steps|];
    if !order {
      assert s.handlers == map[];
      assert AtWork(s.handlers, m) == {};
    }
  }

  /** How many of the first n steps received a message, and how many were a match for m. */
  ghost function Receives(steps: seq<Step>, n: nat): nat
    requires n <= |steps|
  {
    if n == 0 then 0 else Receives(steps, n - 1) + if steps[n - 1].Receive? then 1 else 0
  }

  predicate IsMatchFor(s: State, step: Step, m: nat) {
    step.Route? && s.main.Matching? && s.main.msg == m
  }

  ghost function Matches(ss: seq<State>, steps: seq<Step>, n: nat, m: nat): nat
    requires n <= |steps| <= |ss|
  {
    if n == 0 then 0 else Matches(ss, steps, n - 1, m) + if IsMatchFor(ss[n - 1], steps[n - 1], m) then 1 else 0
  }

  lemma StepHistory(s: State, step: Step)
    requires Enabled(s, step)
    ensures |Next(s, step).msgs| == |s.msgs| + if step.Receive? then 1 else 0
    ensures forall m: nat | m < |s.msgs| ::
              Next(s, step).msgs[m].routed == s.msgs[m].routed + if IsMatchFor(s, step, m) then 1 else 0
    ensures step.Receive? ==> Next(s, step).msgs[|s.msgs|].routed == 0
  {
  }

  /** Messages stay, and only those there are matched. */
  ghost predicate Grows(ss: seq<State>, steps: seq<Step>) {
    && |ss| == |steps| + 1
    && (forall k | 0 <= k < |steps| :: |ss[k].msgs| <= |ss[k + 1].msgs|)
    && (forall k, m: nat | 0 <= k < |steps| && IsMatchFor(ss[k], steps[k], m) :: m < |ss[k].msgs|)
  }

  lemma RunGrows(order: bool, ss: seq<State>, steps: seq<Step>)
    requires IsRun(order, ss, steps)
    ensures Grows(ss, steps)
  {
    forall k | 0 <= k < |steps|
      ensures |ss[k].msgs| <= |ss[k + 1].msgs|
    {
      StepHistory(ss[k], steps[k]);
    }
    forall k, m: nat | 0 <= k < |steps| && IsMatchFor(ss[k], steps[k], m)
      ensures m < |ss[k].msgs|
    {
      assert Enabled(ss[k], steps[k]);
    }
  }

  lemma {:induction false} NoMatchYet(ss: seq<State>, steps: seq<Step>, n: nat, m: nat)
    requires Grows(ss, steps) && n < |ss| && m >= |ss[n].msgs|
    ensures Matches(ss, steps, n, m) == 0
  {
    if n > 0 {
      NoMatchYet(ss, steps, n - 1, m);
    }
  }

  /** The counts are those of the run: a message for every one received, and its routes are
      the matches found for it. */
  lemma {:induction false} CountsAreMatches(order: bool, ss: seq<State>, steps: seq<Step>, n: nat)
    requires IsRun(order, ss, steps) && n < |ss|
    ensures |ss[n].msgs| == Receives(steps, n)
    ensures forall m: nat | m < |ss[n].msgs| :: ss[n].msgs[m].routed == Matches(ss, steps, n, m)
  {
    if n > 0 {
      var s, step := ss[n - 1], steps[n - 1];
      CountsAreMatches(order, ss, steps, n - 1);
      assert Enabled(s, step) && ss[n] == Next(s, step);
      StepHistory(s, step);
      RunGrows(order, ss, steps);
      NoMatchYet(ss, steps, n - 1, |s.msgs|);
    }
  }

  /** A route that matches is counted for its message, and starts a handler routine at once
      when order does not matter. */
  lemma RouteCounts(s: State, h: nat)
    requires Enabled(s, Route(h))
    ensures var d, m := Next(s, Route(h)), s.main.msg;
            && d.msgs[m].routed == s.msgs[m].routed + 1
            && (forall k | 0 <= k < |s.msgs| && k != m :: d.msgs[k] == s.msgs[k])
            && (!s.order ==> h in d.handlers && d.handlers[h] == Handler(m, false))
  {
  }
}
