/** The pool that runs the clients' packets: a fixed number of queues, one worker each, and a
    client's tasks always on the queue its identifier hashes to. */
module WorkerPool {

  const QUEUE_CAPACITY := 1024

  /** A task of a client; `no` tells the tasks apart. */
  datatype Task = Task(uid: string, no: nat)

  datatype Slot = Idle | Busy(task: Task)

  /** The queues, what each worker is at, and the history: what was submitted, in the order
      in which the queues took it, and what was executed, in the order in which it ended. */
  datatype State = State(queues: seq<seq<Task>>, at: seq<Slot>, submitted: seq<Task>, executed: seq<Task>)

  datatype Step =
    | Submit(uid: string)      // the channel takes the task
    | SubmitNil(uid: string)   // a nil task is not queued
    | Take(w: nat)
    | Finish(w: nat)

  function Queue(hash: string -> nat, uid: string, n: nat): (k: nat)
    requires n > 0
    ensures k < n
  {
    hash(uid) % n
  }

  ghost predicate Valid(s: State) {
    |s.queues| > 0 && |s.at| == |s.queues|
  }

  ghost predicate Enabled(hash: string -> nat, s: State, step: Step)
    requires Valid(s)
  {
    match step
    case Submit(uid) => |s.queues[Queue(hash, uid, |s.queues|)]| < QUEUE_CAPACITY
    case SubmitNil(_) => true
    case Take(w) => w < |s.queues| && s.at[w].Idle? && s.queues[w] != []
    case Finish(w) => w < |s.queues| && s.at[w].Busy?
  }

  ghost function Next(hash: string -> nat, s: State, step: Step): (d: State)
    requires Valid(s) && Enabled(hash, s, step)
    ensures Valid(d) && |d.queues| == |s.queues|
  {
    match step
    case Submit(uid) =>
      var k, t := Queue(hash, uid, |s.queues|), Task(uid, |s.submitted|);
      s.(queues := s.queues[k := s.queues[k] + [t]], submitted := s.submitted + [t])
    case SubmitNil(_) => s
    case Take(w) => s.(queues := s.queues[w := s.queues[w][1..]], at := s.at[w := Busy(s.queues[w][0])])
    case Finish(w) => s.(at := s.at[w := Idle], executed := s.executed + [s.at[w].task])
  }

  function Start(workers: int): State {
    var n := if workers < 1 then 1 else workers;
    State(seq(n, _ => []), seq(n, _ => Idle), [], [])
  }

  ghost predicate IsRun(hash: string -> nat, workers: int, ss: seq<State>, steps: seq<Step>) {
    && |ss| == |steps| + 1 && ss[0] == Start(workers)
    && forall i | 0 <= i < |steps| :: Valid(ss[i]) && Enabled(hash, ss[i], steps[i]) && ss[i + 1] == Next(hash, ss[i], steps[i])
  }

  // ---------- one client's tasks ----------

  ghost function Of(ts: seq<Task>, uid: string): seq<Task> {
    if ts == [] then []
    else if ts[|ts| - 1].uid == uid then Of(ts[..|ts| - 1], uid) + [ts[|ts| - 1]]
    else Of(ts[..|ts| - 1], uid)
  }

  lemma OfAppend(ts: seq<Task>, t: Task, uid: string)
    ensures Of(ts + [t], uid) == if t.uid == uid then Of(ts, uid) + [t] else Of(ts, uid)
  {
    assert (ts + [t])[..|ts|] == ts;
  }

  lemma OfJoinStep(a: seq<Task>, b: seq<Task>, t: Task, uid: string)
    requires Of(a + b, uid) == Of(a, uid) + Of(b, uid)
    ensures Of(a + (b + [t]), uid) == Of(a, uid) + Of(b + [t], uid)
  {
    assert a + (b + [t]) == a + b + [t];
    OfAppend(a + b, t, uid);
    OfAppend(b, t, uid);
    Regroup(Of(a, uid), Of(b, uid), t);
  }

  lemma Regroup(a: seq<Task>, b: seq<Task>, t: Task)
    ensures a + b + [t] == a + (b + [t])
  {
  }

  lemma {:induction false} OfJoin(a: seq<Task>, b: seq<Task>, uid: string)
    ensures Of(a + b, uid) == Of(a, uid) + Of(b, uid)
    decreases |b|
  {
    if b == [] {
      assert a + [] == a && Of(a, uid) + [] == Of(a, uid);
    } else {
      var init, last := b[..|b| - 1], b[|b| - 1];
      OfJoin(a, init, uid);
      OfJoinStep(a, init, last, uid);
      assert init + [last] == b;
    }
  }

  lemma OfHead(ts: seq<Task>, uid: string)
    requires ts != []
    ensures Of(ts, uid) == (if ts[0].uid == uid then [ts[0]] else []) + Of(ts[1..], uid)
  {
    var t, rest := ts[0], ts[1..];
    assert ts == [t] + rest;
    OfJoin([t], rest, uid);
    OfOne(t, uid);
  }

  lemma OfOne(t: Task, uid: string)
    ensures Of([t], uid) == if t.uid == uid then [t] else []
  {
    assert [t][..0] == [];
    assert Of([], uid) == [];
  }

  ghost function InHand(slot: Slot, uid: string): seq<Task> {
    if slot.Busy? && slot.task.uid == uid then [slot.task] else []
  }

  /** Conservation: what was submitted is, in order, what was executed, what is in hand, and
      what is queued. */
  ghost predicate Balanced(submitted: seq<Task>, executed: seq<Task>, hand: seq<Task>, queued: seq<Task>) {
    submitted == executed + hand + queued
  }

  lemma BalancedSubmit(submitted: seq<Task>, executed: seq<Task>, hand: seq<Task>, queued: seq<Task>, t: Task)
    requires Balanced(submitted, executed, hand, queued)
    ensures Balanced(submitted + [t], executed, hand, queued + [t])
  {
  }

  lemma BalancedTake(submitted: seq<Task>, executed: seq<Task>, t: Task, queued: seq<Task>)
    requires Balanced(submitted, executed, [], [t] + queued)
    ensures Balanced(submitted, executed, [t], queued)
  {
  }

  lemma BalancedFinish(submitted: seq<Task>, executed: seq<Task>, t: Task, queued: seq<Task>)
    requires Balanced(submitted, executed, [t], queued)
    ensures Balanced(submitted, executed + [t], [], queued)
  {
  }

  /** A queue and its worker have nothing of the client. */
  ghost predicate NothingOf(queue: seq<Task>, slot: Slot, uid: string) {
    Of(queue, uid) == [] && InHand(slot, uid) == []
  }

  /** For one client: all of it on one queue. */
  ghost predicate ConservedOn(s: State, uid: string, k: nat)
    requires Valid(s) && k < |s.queues|
  {
    && Balanced(Of(s.submitted, uid), Of(s.executed, uid), InHand(s.at[k], uid), Of(s.queues[k], uid))
    && (forall w | 0 <= w < |s.queues| && w != k :: NothingOf(s.queues[w], s.at[w], uid))
  }

  /** And that is the queue the client hashes to. */
  ghost predicate Conserved(hash: string -> nat, s: State, uid: string)
    requires Valid(s)
  {
    ConservedOn(s, uid, Queue(hash, uid, |s.queues|))
  }

  /** One queue changes, with its worker and the history; the others stay. */
  lemma OneQueue(s: State, d: State, j: nat, uid: string, k: nat)
    requires Valid(s) && Valid(d) && |d.queues| == |s.queues| && j < |s.queues| && k < |s.queues| && ConservedOn(s, uid, k)
    requires forall w | 0 <= w < |s.queues| && w != j :: d.queues[w] == s.queues[w] && d.at[w] == s.at[w]
    requires j != k ==> NothingOf(d.queues[j], d.at[j], uid)
    requires Balanced(Of(d.submitted, uid), Of(d.executed, uid), InHand(d.at[k], uid), Of(d.queues[k], uid))
    ensures ConservedOn(d, uid, k)
  {
  }

  lemma SubmitConserves(s: State, j: nat, t: Task, uid: string, k: nat)
    requires Valid(s) && j < |s.queues| && k < |s.queues| && ConservedOn(s, uid, k) && (t.uid == uid ==> j == k)
    ensures ConservedOn(s.(queues := s.queues[j := s.queues[j] + [t]], submitted := s.submitted + [t]), uid, k)
  {
    var d := s.(queues := s.queues[j := s.queues[j] + [t]], submitted := s.submitted + [t]);
    OfAppend(s.submitted, t, uid);
    OfAppend(s.queues[j], t, uid);
    if t.uid == uid {
      BalancedSubmit(Of(s.submitted, uid), Of(s.executed, uid), InHand(s.at[k], uid), Of(s.queues[k], uid), t);
    } else if j != k {
      assert NothingOf(s.queues[j], s.at[j], uid);
    }
    OneQueue(s, d, j, uid, k);
  }

  lemma TakeConserves(s: State, w: nat, uid: string, k: nat)
    requires Valid(s) && w < |s.queues| && k < |s.queues| && ConservedOn(s, uid, k) && s.at[w].Idle? && s.queues[w] != []
    ensures ConservedOn(s.(queues := s.queues[w := s.queues[w][1..]], at := s.at[w := Busy(s.queues[w][0])]), uid, k)
  {
    var q, t := s.queues[w], s.queues[w][0];
    var d := s.(queues := s.queues[w := q[1..]], at := s.at[w := Busy(t)]);
    OfHead(q, uid);
    if w != k {
      assert NothingOf(q, s.at[w], uid);
    } else if t.uid == uid {
      BalancedTake(Of(s.submitted, uid), Of(s.executed, uid), t, Of(q[1..], uid));
    } else {
      assert Of(q, uid) == Of(q[1..], uid);
    }
    OneQueue(s, d, w, uid, k);
  }

  lemma FinishConserves(s: State, w: nat, uid: string, k: nat)
    requires Valid(s) && w < |s.queues| && k < |s.queues| && ConservedOn(s, uid, k) && s.at[w].Busy?
    ensures ConservedOn(s.(at := s.at[w := Idle], executed := s.executed + [s.at[w].task]), uid, k)
  {
    var t := s.at[w].task;
    var d := s.(at := s.at[w := Idle], executed := s.executed + [t]);
    OfAppend(s.executed, t, uid);
    if w != k {
      assert NothingOf(s.queues[w], s.at[w], uid);
    } else if t.uid == uid {
      BalancedFinish(Of(s.submitted, uid), Of(s.executed, uid), t, Of(s.queues[k], uid));
    }
    OneQueue(s, d, w, uid, k);
  }

  lemma StepConserves(hash: string -> nat, s: State, step: Step, uid: string)
    requires Valid(s) && Enabled(hash, s, step) && Conserved(hash, s, uid)
    ensures Conserved(hash, Next(hash, s, step), uid)
  {
    var n := |s.queues|;
    var k := Queue(hash, uid, n);
    match step
    case Submit(u) => SubmitConserves(s, Queue(hash, u, n), Task(u, |s.submitted|), uid, k);
    case SubmitNil(_) =>
    case Take(w) => TakeConserves(s, w, uid, k);
    case Finish(w) => FinishConserves(s, w, uid, k);
  }

  lemma {:induction false} RunConserves(hash: string -> nat, workers: int, ss: seq<State>, steps: seq<Step>, uid: string)
    requires IsRun(hash, workers, ss, steps)
    ensures Valid(ss[|steps|]) && Conserved(hash, ss[|steps|], uid) && Numbered(ss[|steps|].submitted)
    decreases |steps|
  {
    if steps != [] {
      var n := |steps| - 1;
      assert IsRun(hash, workers, ss[..n + 1], steps[..n]);
      RunConserves(hash, workers, ss[..n + 1], steps[..n], uid);
      assert Enabled(hash, ss[n], steps[n]) && ss[n + 1] == Next(hash, ss[n], steps[n]);
      StepConserves(hash, ss[n], steps[n], uid);
      StepNumbers(hash, ss[n], steps[n]);
    } else {
      assert InHand(Idle, uid) == [] && Of([], uid) == [];
    }
  }

  lemma StepNumbers(hash: string -> nat, s: State, step: Step)
    requires Valid(s) && Enabled(hash, s, step) && Numbered(s.submitted)
    ensures Numbered(Next(hash, s, step).submitted)
  {
  }

  /** Tasks carry their place in the order of submission. */
  ghost predicate Numbered(ts: seq<Task>) {
    forall i | 0 <= i < |ts| :: ts[i].no == i
  }

  ghost predicate Increasing(ts: seq<Task>) {
    forall i, j | 0 <= i < j < |ts| :: ts[i].no < ts[j].no
  }

  lemma IncreasingAppend(ts: seq<Task>, x: Task)
    requires Increasing(ts) && forall t | t in ts :: t.no < x.no
    ensures Increasing(ts + [x])
  {
    assert forall i | 0 <= i < |ts| :: ts[i] in ts;
  }

  lemma OfIncreaseStep(init: seq<Task>, last: Task, uid: string)
    requires last.no == |init| && Increasing(Of(init, uid)) && forall t | t in Of(init, uid) :: t.no < |init|
    ensures Increasing(Of(init + [last], uid)) && forall t | t in Of(init + [last], uid) :: t.no < |init| + 1
  {
    OfAppend(init, last, uid);
    if last.uid == uid {
      IncreasingAppend(Of(init, uid), last);
    }
  }

  lemma {:induction false} OfIncreases(ts: seq<Task>, uid: string)
    requires Numbered(ts)
    ensures Increasing(Of(ts, uid)) && forall t | t in Of(ts, uid) :: t.no < |ts|
    decreases |ts|
  {
    if ts != [] {
      var init, last := ts[..|ts| - 1], ts[|ts| - 1];
      OfIncreases(init, uid);
      OfIncreaseStep(init, last, uid);
      assert init + [last] == ts;
    }
  }

  /** Per-client order, for every interleaving: what was executed for a client is a prefix of
      what was submitted for it, and no task was executed twice. */
  lemma ExecutedInOrder(hash: string -> nat, workers: int, ss: seq<State>, steps: seq<Step>, uid: string)
    requires IsRun(hash, workers, ss, steps)
    ensures var s := ss[|steps|];
            && Of(s.executed, uid) <= Of(s.submitted, uid)
            && Increasing(Of(s.executed, uid))
  {
    RunConserves(hash, workers, ss, steps, uid);
    OfIncreases(ss[|steps|].submitted, uid);
  }

  /** No two workers are ever busy with tasks of one client. */
  lemma OneWorkerPerClient(hash: string -> nat, workers: int, ss: seq<State>, steps: seq<Step>, v: nat, w: nat)
    requires IsRun(hash, workers, ss, steps) && v < |ss[|steps|].at| && w < |ss[|steps|].at|
    requires ss[|steps|].at[v].Busy? && ss[|steps|].at[w].Busy?
    requires ss[|steps|].at[v].task.uid == ss[|steps|].at[w].task.uid
    ensures v == w
  {
    RunConserves(hash, workers, ss, steps, ss[|steps|].at[v].task.uid);
  }

  /** When the workers have nothing left, everything submitted for a client was executed. */
  lemma DrainedMeansExecuted(hash: string -> nat, workers: int, ss: seq<State>, steps: seq<Step>, uid: string)
    requires IsRun(hash, workers, ss, steps)
    requires forall w | 0 <= w < |ss[|steps|].queues| :: w < |ss[|steps|].at| && ss[|steps|].queues[w] == [] && ss[|steps|].at[w].Idle?
    ensures Of(ss[|steps|].executed, uid) == Of(ss[|steps|].submitted, uid)
  {
    RunConserves(hash, workers, ss, steps, uid);
  }

  // ---------- what was asked for ----------

  /** The clients of the submit steps, in order. */
  ghost function Asked(steps: seq<Step>): seq<string> {
    if steps == [] then []
    else
      var n := |steps| - 1;
      Asked(steps[..n]) + if steps[n].Submit? then [steps[n].uid] else []
  }

  ghost function Finishes(steps: seq<Step>): nat {
    if steps == [] then 0
    else
      var n := |steps| - 1;
      Finishes(steps[..n]) + if steps[n].Finish? then 1 else 0
  }

  /** The history is what was asked for: a task for every submit step that went through, in
      that order, and one executed for every task that was finished. */
  lemma {:induction false} HistoryIs(hash: string -> nat, workers: int, ss: seq<State>, steps: seq<Step>)
    requires IsRun(hash, workers, ss, steps)
    ensures var s := ss[|steps|];
            && |s.submitted| == |Asked(steps)| && |s.executed| == Finishes(steps)
            && forall i | 0 <= i < |s.submitted| :: s.submitted[i] == Task(Asked(steps)[i], i)
    decreases |steps|
  {
    if steps != [] {
      var n := |steps| - 1;
      assert IsRun(hash, workers, ss[..n + 1], steps[..n]);
      HistoryIs(hash, workers, ss[..n + 1], steps[..n]);
      assert Enabled(hash, ss[n], steps[n]) && ss[n + 1] == Next(hash, ss[n], steps[n]);
    }
  }

  // ---------- the pool object ----------

  class WorkerPool {
    const maxWorkers: nat
    const taskQueue: array<seq<Task>>
    const worker: array<Slot>
    const hash: string -> nat
    ghost var submitted: seq<Task>
    ghost var executed: seq<Task>
    var count: nat

    ghost predicate Ready()
      reads this, taskQueue, worker
    {
      && taskQueue.Length == maxWorkers == worker.Length && maxWorkers > 0
      && count == |submitted|
    }

    ghost function Now(): State
      reads this, taskQueue, worker
    {
      State(taskQueue[..], worker[..], submitted, executed)
    }

    constructor (workers: int, hash: string -> nat)
      ensures Ready() && Now() == Start(workers) && this.hash == hash
      ensures maxWorkers == (if workers < 1 then 1 else workers) && submitted == executed == []
      ensures forall w | 0 <= w < maxWorkers :: taskQueue[w] == [] && worker[w] == Idle
      ensures fresh(taskQueue) && fresh(worker)
    {
      var n := if workers < 1 then 1 else workers;
      this.maxWorkers, this.hash, this.count := n, hash, 0;
      this.submitted, this.executed := [], [];
      this.taskQueue := new seq<Task>[n](_ => []);
      this.worker := new Slot[n](_ => Idle);
      new;
      assert taskQueue[..] == seq(n, _ => []);
      assert worker[..] == seq(n, _ => Idle);
    }

    /** A full queue makes the submitter wait: the task is taken only when there is room. */
    method Submit(uid: string, isNil: bool) returns (taken: bool)
      requires Ready()
      modifies this, taskQueue
      ensures Ready()
      ensures taken <==> !isNil && |old(taskQueue[Queue(hash, uid, maxWorkers)])| < 1024
      ensures Now() == if taken then Next(hash, old(Now()), Step.Submit(uid)) else old(Now())
      ensures var k, task := hash(uid) % maxWorkers, Task(uid, |old(submitted)|);
              taken ==> taskQueue[..] == old(taskQueue[..])[k := old(taskQueue[..])[k] + [task]] && submitted == old(submitted) + [task]
    {
      var idx := hash(uid) % maxWorkers;
      if isNil || |taskQueue[idx]| >= QUEUE_CAPACITY {
        return false;
      }
      taskQueue[idx] := taskQueue[idx] + [Task(uid, count)];
      submitted := submitted + [Task(uid, count)];
      count := count + 1;
      return true;
    }

    /** A worker's round: it takes the oldest task of its own queue, and ends it. */
    method TakeTask(w: nat) returns (task: Task)
      requires Ready() && w < maxWorkers && worker[w].Idle? && taskQueue[w] != []
      modifies taskQueue, worker
      ensures Ready() && Now() == Next(hash, old(Now()), Step.Take(w))
      ensures task == old(taskQueue[w])[0] && worker[..] == old(worker[..])[w := Busy(task)]
      ensures taskQueue[..] == old(taskQueue[..])[w := old(taskQueue[w])[1..]]
    {
      task := taskQueue[w][0];
      taskQueue[w] := taskQueue[w][1..];
      worker[w] := Busy(task);
    }

    method FinishTask(w: nat)
      requires Ready() && w < maxWorkers && worker[w].Busy?
      modifies this, worker
      ensures Ready() && Now() == Next(hash, old(Now()), Step.Finish(w))
      ensures worker[..] == old(worker[..])[w := Idle] && executed == old(executed) + [old(worker[w]).task]
    {
      executed := executed + [worker[w].task];
      worker[w] := Idle;
    }
  }
}
