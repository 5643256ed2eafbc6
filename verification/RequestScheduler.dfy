/** The bounded priority scheduler that provider requests of all stages go through: submitters
  with backpressure, a fixed number of workers, and a draining shutdown. Each region under the
  condition's lock is one atomic step; waiting on the condition puts a thread to sleep until the
  next notify_all. */
module RequestScheduler {
  import opened Wrappers
  import opened Arithmetic

  datatype Stage = Teacher | Rubricator | Verifier

  datatype Config = Config(numWorkers: nat, maxQueueSize: nat, stagePriority: bool, recordMetrics: bool)

  /** What the constructor accepts. */
  predicate Accepted(c: Config) { c.numWorkers > 0 && c.maxQueueSize > 0 }

  /** `ScheduledRequest`: ordered by priority, then by sequence number. */
  datatype Request = Request(priority: nat, n: nat)

  predicate Before(a: Request, b: Request) {
    a.priority < b.priority || (a.priority == b.priority && a.n < b.n)
  }

  function Priority(c: Config, stage: Stage): nat {
    if !c.stagePriority then 0
    else match stage case Teacher => 0 case Rubricator => 1 case Verifier => 2
  }

  datatype Metrics = Metrics(submitted: nat, backpressureHits: nat, waitSeconds: real, depthMax: nat)

  /** What the lock protects. The heap is the list of its requests in the order it yields them. */
  datatype Core = Core(queue: seq<Request>, sequence: nat, down: bool, metrics: Metrics)

  /** `heappush` */
  function Push(q: seq<Request>, r: Request): (q': seq<Request>)
    ensures |q'| == |q| + 1
    ensures forall x :: x in q' <==> x in q || x == r
  {
    if q == [] || Before(r, q[0]) then [r] + q
    else
      assert forall x :: x in q <==> x == q[0] || x in q[1..];
      [q[0]] + Push(q[1..], r)
  }

  predicate Sorted(q: seq<Request>) {
    forall i, j :: 0 <= i < j < |q| ==> Before(q[i], q[j])
  }

  lemma {:induction false} PushSorted(q: seq<Request>, r: Request)
    requires Sorted(q) && forall x :: x in q ==> x.n != r.n
    ensures Sorted(Push(q, r))
  {
    if q != [] && !Before(r, q[0]) {
      assert forall x :: x in q[1..] ==> x in q && Before(q[0], x);
      PushSorted(q[1..], r);
      var rest := Push(q[1..], r);
      assert q[0] in q;
      assert forall j :: 0 <= j < |rest| ==> rest[j] in rest && Before(q[0], rest[j]);
    }
  }

  datatype Entry = MustWait | ShutDown | Queued(request: Request)

  /** One pass of `schedule` through the lock; `slept` says whether it had to wait before. */
  function Enter(c: Config, k: Core, stage: Stage, slept: bool, waited: real): (Entry, Core) {
    if |k.queue| >= c.maxQueueSize && !k.down then (MustWait, k)
    else if k.down then (ShutDown, k)
    else
      var r := Request(Priority(c, stage), k.sequence);
      var m := k.metrics;
      var hits := if slept then 1 else 0;
      var queue := Push(k.queue, r);
      var m' := if !c.recordMetrics then m else
          Metrics(m.submitted + 1, m.backpressureHits + hits,
                  m.waitSeconds + if slept then waited else 0.0,
                  if |queue| > m.depthMax then |queue| else m.depthMax);
      (Queued(r), k.(queue := queue, sequence := k.sequence + 1, metrics := m'))
  }

  datatype Task = Idle | Exit | Take(request: Request)

  /** One pass of a worker through the lock. */
  function Next(k: Core): (Task, Core) {
    if k.queue == [] then (if k.down then Exit else Idle, k)
    else (Take(k.queue[0]), k.(queue := k.queue[1..]))
  }

  const START := Core([], 0, false, Metrics(0, 0, 0.0, 0))

  class BoundedRequestScheduler {
    const config: Config
    var queue: seq<Request>
    var sequence: nat
    var down: bool
    var metrics: Metrics

    function Model(): Core
      reads this
    {
      Core(queue, sequence, down, metrics)
    }

    constructor (c: Config)
      requires Accepted(c)
      ensures config == c && Model() == START
    {
      config := c;
      queue, sequence, down, metrics := [], 0, false, Metrics(0, 0, 0.0, 0);
    }

    /** The body of `schedule` under the lock, up to its next wait. */
    method TrySchedule(stage: Stage, slept: bool, waited: real) returns (entry: Entry)
      modifies this
      ensures (entry, Model()) == Enter(config, old(Model()), stage, slept, waited)
    {
      if |queue| >= config.maxQueueSize && !down {
        return MustWait;
      }
      if down {
        return ShutDown;
      }
      if config.recordMetrics {
        metrics := metrics.(submitted := metrics.submitted + 1);
        if slept {
          metrics := metrics.(backpressureHits := metrics.backpressureHits + 1,
                              waitSeconds := metrics.waitSeconds + waited);
        }
      }
      var request := Request(Priority(config, stage), sequence);
      sequence := sequence + 1;
      queue := Push(queue, request);
      if config.recordMetrics && |queue| > metrics.depthMax {
        metrics := metrics.(depthMax := |queue|);
      }
      entry := Queued(request);
    }

    /** The body of `_worker_loop` under the lock, up to its next wait. */
    method TryNext() returns (task: Task)
      modifies this
      ensures (task, Model()) == Next(old(Model()))
    {
      if queue == [] {
        return if down then Exit else Idle;
      }
      task := Take(queue[0]);
      queue := queue[1..];
    }

    method Shutdown()
      modifies this
      ensures Model() == old(Model()).(down := true)
    {
      down := true;
    }

    method BackpressureRate() returns (rate: real)
      requires metrics.backpressureHits <= metrics.submitted
      ensures 0.0 <= rate <= 1.0
      ensures metrics.submitted as real * rate == metrics.backpressureHits as real
    {
      if metrics.submitted == 0 {
        return 0.0;
      }
      rate := metrics.backpressureHits as real / metrics.submitted as real;
      RateInRange(metrics.backpressureHits as real, metrics.submitted as real);
    }
  }

  lemma RateInRange(a: real, b: real)
    requires 0.0 <= a <= b && 0.0 < b
    ensures 0.0 <= a / b <= 1.0 && b * (a / b) == a
  {}

  // ----- submitters, workers and a shutdown, interleaved

  /** What a request's function returned or raised. */
  datatype Outcome = Returned(value: int) | Raised(error: int)

  datatype Caller = Ready(slept: bool) | Asleep | Waiting(n: nat) | Answered(n: nat, outcome: Outcome) | Refused

  datatype Worker = Looping | Sleeping | Running(n: nat) | Exited

  /** Where an accepted request is. */
  datatype Place = InQueue | At(worker: nat) | Finished

  datatype Job = Job(request: Request, stage: Stage, caller: nat, place: Place)

  /** `futures[n]` belongs to the request with sequence number n. `jobs` and `started` (the
      sequence numbers in the order workers took them) only record the history. */
  datatype State = State(core: Core, callers: seq<Caller>, workers: seq<Worker>,
                         futures: seq<Option<Outcome>>, jobs: seq<Job>, started: seq<nat>)

  datatype Step =
    | Submit(caller: nat, stage: Stage, waited: real)
    | Answer(caller: nat)
    | Loop(worker: nat)
    | Finish(worker: nat, outcome: Outcome)
    | CallShutdown

  predicate Enabled(s: State, step: Step) {
    match step
    case Submit(i, _, _) => i < |s.callers| && s.callers[i].Ready?
    case Answer(i) =>
      i < |s.callers| && s.callers[i].Waiting? && s.callers[i].n < |s.futures| && s.futures[s.callers[i].n].Some?
    case Loop(w) => w < |s.workers| && s.workers[w].Looping?
    case Finish(w, _) =>
      w < |s.workers| && s.workers[w].Running? && s.workers[w].n < |s.futures| && s.workers[w].n < |s.jobs|
    case CallShutdown => !s.core.down
  }

  function WakeCaller(x: Caller): Caller { if x.Asleep? then Ready(true) else x }

  function WakeWorker(x: Worker): Worker { if x.Sleeping? then Looping else x }

  /** `notify_all` */
  function NotifyAll(s: State): State {
    s.(callers := seq(|s.callers|, i requires 0 <= i < |s.callers| => WakeCaller(s.callers[i])),
       workers := seq(|s.workers|, i requires 0 <= i < |s.workers| => WakeWorker(s.workers[i])))
  }

  /** What is queued is a known job. */
  predicate Listed(s: State) {
    forall k :: 0 <= k < |s.core.queue| ==> s.core.queue[k].n < |s.jobs|
  }

  function ApplySubmit(c: Config, s: State, i: nat, stage: Stage, waited: real): State
    requires Enabled(s, Submit(i, stage, waited))
  {
    var (entry, core) := Enter(c, s.core, stage, s.callers[i].slept, waited);
    match entry
    case MustWait => s.(callers := s.callers[i := Asleep])
    case ShutDown => s.(callers := s.callers[i := Refused])
    case Queued(r) =>
      NotifyAll(s.(core := core, callers := s.callers[i := Waiting(r.n)],
                   futures := s.futures + [None], jobs := s.jobs + [Job(r, stage, i, InQueue)]))
  }

  function ApplyLoop(s: State, w: nat): State
    requires Enabled(s, Loop(w)) && Listed(s)
  {
    var (task, core) := Next(s.core);
    match task
    case Idle => s.(workers := s.workers[w := Sleeping])
    case Exit => s.(workers := s.workers[w := Exited])
    case Take(r) =>
      NotifyAll(s.(core := core, workers := s.workers[w := Running(r.n)],
                   jobs := s.jobs[r.n := s.jobs[r.n].(place := At(w))], started := s.started + [r.n]))
  }

  function Apply(c: Config, s: State, step: Step): State
    requires Enabled(s, step) && Listed(s)
  {
    match step
    case Submit(i, stage, waited) => ApplySubmit(c, s, i, stage, waited)
    case Answer(i) => s.(callers := s.callers[i := Answered(s.callers[i].n, s.futures[s.callers[i].n].value)])
    case Loop(w) => ApplyLoop(s, w)
    case Finish(w, o) =>
      var n := s.workers[w].n;
      s.(workers := s.workers[w := Looping], futures := s.futures[n := Some(o)],
         jobs := s.jobs[n := s.jobs[n].(place := Finished)])
    case CallShutdown => NotifyAll(s.(core := s.core.(down := true)))
  }

  // ----- the invariant

  predicate InvQueue(c: Config, s: State) {
    && Sorted(s.core.queue) && |s.core.queue| <= c.maxQueueSize
    && s.core.sequence == |s.jobs| == |s.futures|
    && (forall r :: r in s.core.queue ==> r.n < |s.jobs| && s.jobs[r.n].request == r && s.jobs[r.n].place == InQueue)
    && (forall n :: 0 <= n < |s.jobs| ==> s.jobs[n].request == Request(Priority(c, s.jobs[n].stage), n))
    && (forall n :: 0 <= n < |s.jobs| && s.jobs[n].place == InQueue ==> s.jobs[n].request in s.core.queue)
  }

  /** A sleeping worker has nothing to do, an exited one never will; the running requests are
      those the workers hold. */
  predicate InvWorkers(c: Config, s: State) {
    && |s.workers| == c.numWorkers
    && (forall w :: 0 <= w < |s.workers| ==> WorkerFits(s, w, s.workers[w]))
    && (forall n :: 0 <= n < |s.jobs| && s.jobs[n].place.At? ==>
          s.jobs[n].place.worker < |s.workers| && s.workers[s.jobs[n].place.worker] == Running(n))
  }

  predicate WorkerFits(s: State, w: nat, x: Worker) {
    match x
    case Looping => true
    case Sleeping => s.core.queue == [] && !s.core.down
    case Running(n) => n < |s.jobs| && s.jobs[n].place == At(w)
    case Exited => s.core.queue == [] && s.core.down
  }

  /** A sleeping submitter faces a full queue; an answered one has its own request's outcome. */
  predicate InvCallers(c: Config, s: State) {
    && (forall i :: 0 <= i < |s.callers| ==> CallerFits(c, s, i, s.callers[i]))
    && (forall n :: 0 <= n < |s.jobs| ==> Owned(s, n, s.jobs[n].caller))
  }

  predicate CallerFits(c: Config, s: State, i: nat, x: Caller) {
    match x
    case Ready(_) => true
    case Asleep => |s.core.queue| >= c.maxQueueSize && !s.core.down
    case Waiting(n) => n < |s.jobs| && s.jobs[n].caller == i
    case Answered(n, o) => n < |s.jobs| && s.jobs[n].caller == i && n < |s.futures| && s.futures[n] == Some(o)
    case Refused => s.core.down
  }

  predicate Owned(s: State, n: nat, i: nat) {
    i < |s.callers| && (s.callers[i] == Waiting(n) || (s.callers[i].Answered? && s.callers[i].n == n))
  }

  /** A future is completed exactly when its request has been run. */
  predicate InvFutures(s: State) {
    |s.futures| == |s.jobs| && forall n :: 0 <= n < |s.jobs| ==> (s.futures[n].Some? <==> s.jobs[n].place == Finished)
  }

  /** The taken requests are each taken once, in order of arrival within a priority, and ahead
      of everything of that priority still queued. */
  predicate InvStarted(s: State) {
    Ordered(s.jobs, s.started, s.core.queue)
  }

  predicate Ordered(jobs: seq<Job>, started: seq<nat>, queue: seq<Request>) {
    && (forall i :: 0 <= i < |started| ==> started[i] < |jobs| && jobs[started[i]].place != InQueue)
    && (forall n :: 0 <= n < |jobs| && jobs[n].place != InQueue ==> n in started)
    && (forall i, j :: 0 <= i < j < |started| ==> InTurn(jobs, started[i], started[j]))
    && (forall i, r :: 0 <= i < |started| && r in queue ==> InTurn(jobs, started[i], r.n))
  }

  predicate InTurn(jobs: seq<Job>, m: nat, n: nat) {
    m < |jobs| && n < |jobs| && m != n && (jobs[m].request.priority == jobs[n].request.priority ==> m < n)
  }

  predicate InvMetrics(c: Config, s: State) {
    var m := s.core.metrics;
    && m.submitted == (if c.recordMetrics then |s.jobs| else 0)
    && m.backpressureHits <= m.submitted && m.depthMax <= c.maxQueueSize
  }

  predicate Inv(c: Config, s: State) {
    InvQueue(c, s) && InvWorkers(c, s) && InvCallers(c, s) && InvFutures(s) && InvStarted(s) && InvMetrics(c, s)
  }

  function Initial(c: Config, callers: nat): State {
    State(START, seq(callers, _ => Ready(false)), seq(c.numWorkers, _ => Looping), [], [], [])
  }

  lemma InitialInv(c: Config, callers: nat)
    requires Accepted(c)
    ensures Inv(c, Initial(c, callers))
  {}

  lemma SubmitKeeps(c: Config, s: State, i: nat, stage: Stage, waited: real)
    requires Accepted(c) && Inv(c, s) && Enabled(s, Submit(i, stage, waited))
    ensures Inv(c, ApplySubmit(c, s, i, stage, waited))
  {
    hide InvQueue, InvWorkers, InvCallers, InvFutures, InvStarted, Push, Sorted;
    SubmitQueue(c, s, i, stage, waited);
    SubmitWorkers(c, s, i, stage, waited);
    SubmitCallers(c, s, i, stage, waited);
    SubmitStarted(c, s, i, stage, waited);
    SubmitFutures(c, s, i, stage, waited);
  }

  lemma SubmitQueue(c: Config, s: State, i: nat, stage: Stage, waited: real)
    requires InvQueue(c, s) && Enabled(s, Submit(i, stage, waited))
    ensures InvQueue(c, ApplySubmit(c, s, i, stage, waited))
  {
    var r := Request(Priority(c, stage), s.core.sequence);
    if Enter(c, s.core, stage, s.callers[i].slept, waited).0.Queued? {
      assert forall x :: x in s.core.queue ==> x.n < |s.jobs|;
      PushSorted(s.core.queue, r);
      hide Push, Sorted;
    }
  }

  lemma SubmitWorkers(c: Config, s: State, i: nat, stage: Stage, waited: real)
    requires InvQueue(c, s) && InvWorkers(c, s) && Enabled(s, Submit(i, stage, waited))
    ensures InvWorkers(c, ApplySubmit(c, s, i, stage, waited))
  {
    hide Sorted, Push;
  }

  lemma SubmitCallers(c: Config, s: State, i: nat, stage: Stage, waited: real)
    requires InvQueue(c, s) && InvCallers(c, s) && Enabled(s, Submit(i, stage, waited))
    ensures InvCallers(c, ApplySubmit(c, s, i, stage, waited))
  {
    hide Sorted, Push;
  }

  lemma SubmitStarted(c: Config, s: State, i: nat, stage: Stage, waited: real)
    requires InvQueue(c, s) && InvStarted(s) && Enabled(s, Submit(i, stage, waited))
    ensures InvStarted(ApplySubmit(c, s, i, stage, waited))
  {
    hide Sorted, Push;
  }

  lemma SubmitFutures(c: Config, s: State, i: nat, stage: Stage, waited: real)
    requires InvQueue(c, s) && InvFutures(s) && InvMetrics(c, s) && Enabled(s, Submit(i, stage, waited))
    ensures var s' := ApplySubmit(c, s, i, stage, waited); InvFutures(s') && InvMetrics(c, s')
  {
    hide Sorted, Push;
  }

  lemma LoopKeeps(c: Config, s: State, w: nat)
    requires Accepted(c) && Inv(c, s) && Enabled(s, Loop(w))
    ensures Inv(c, ApplyLoop(s, w))
  {
    hide InvWorkers, InvCallers, InvFutures, InvStarted, Sorted;
    LoopQueue(c, s, w);
    LoopFutures(c, s, w);
    LoopWorkers(c, s, w);
    LoopCallers(c, s, w);
    LoopStarted(c, s, w);
  }

  lemma LoopQueue(c: Config, s: State, w: nat)
    requires InvQueue(c, s) && Enabled(s, Loop(w))
    ensures InvQueue(c, ApplyLoop(s, w))
  {
    QueueTail(s.core.queue);
  }

  lemma QueueTail(q: seq<Request>)
    requires q != [] ==> Sorted(q)
    ensures q != [] ==> Sorted(q[1..]) && q[0] in q
    ensures q != [] ==> forall r :: r in q <==> r == q[0] || r in q[1..]
    ensures q != [] ==> q[0] !in q[1..]
  {
    if q != [] {
      assert q == [q[0]] + q[1..];
    }
  }

  lemma LoopFutures(c: Config, s: State, w: nat)
    requires InvQueue(c, s) && InvFutures(s) && Enabled(s, Loop(w))
    ensures InvFutures(ApplyLoop(s, w))
  {
    hide Sorted;
  }

  lemma LoopWorkers(c: Config, s: State, w: nat)
    requires InvQueue(c, s) && InvWorkers(c, s) && Enabled(s, Loop(w))
    ensures InvWorkers(c, ApplyLoop(s, w))
  {
    hide Sorted;
    if s.core.queue != [] {
      assert s.core.queue[0] in s.core.queue;
    }
  }

  lemma LoopCallers(c: Config, s: State, w: nat)
    requires InvQueue(c, s) && InvCallers(c, s) && Enabled(s, Loop(w))
    ensures InvCallers(c, ApplyLoop(s, w))
  {
    hide Sorted;
  }

  lemma LoopStarted(c: Config, s: State, w: nat)
    requires InvQueue(c, s) && InvStarted(s) && Enabled(s, Loop(w))
    ensures InvStarted(ApplyLoop(s, w))
  {
    hide Ordered, Sorted;
    if s.core.queue != [] {
      assert s.core.queue[0] in s.core.queue;
      TakeOrdered(s.jobs, s.started, s.core.queue, w);
    }
  }

  lemma TakeOrdered(jobs: seq<Job>, started: seq<nat>, q: seq<Request>, w: nat)
    requires q != [] && Sorted(q) && Ordered(jobs, started, q)
    requires forall r :: r in q ==> r.n < |jobs| && jobs[r.n].request == r && jobs[r.n].place == InQueue
    ensures Ordered(jobs[q[0].n := jobs[q[0].n].(place := At(w))], started + [q[0].n], q[1..])
  {}

  lemma FinishKeeps(c: Config, s: State, w: nat, o: Outcome)
    requires Accepted(c) && Inv(c, s) && Enabled(s, Finish(w, o))
    ensures Inv(c, Apply(c, s, Finish(w, o)))
  {
    hide Sorted;
    FinishStarted(c, s, w, o);
    hide InvStarted;
    FinishQueue(c, s, w, o);
    hide InvQueue;
  }

  lemma FinishQueue(c: Config, s: State, w: nat, o: Outcome)
    requires InvQueue(c, s) && InvWorkers(c, s) && Enabled(s, Finish(w, o))
    ensures InvQueue(c, Apply(c, s, Finish(w, o)))
  {}

  lemma FinishStarted(c: Config, s: State, w: nat, o: Outcome)
    requires InvQueue(c, s) && InvWorkers(c, s) && InvStarted(s) && Enabled(s, Finish(w, o))
    ensures InvStarted(Apply(c, s, Finish(w, o)))
  {
    hide Sorted;
  }

  lemma ShutdownKeeps(c: Config, s: State)
    requires Inv(c, s) && !s.core.down
    ensures Inv(c, Apply(c, s, CallShutdown))
  {
    hide Sorted;
  }

  lemma AnswerKeeps(c: Config, s: State, i: nat)
    requires Inv(c, s) && Enabled(s, Answer(i))
    ensures Inv(c, Apply(c, s, Answer(i)))
  {
    hide Sorted, InTurn;
  }

  lemma StepKeeps(c: Config, s: State, step: Step)
    requires Accepted(c) && Inv(c, s) && Enabled(s, step)
    ensures Inv(c, Apply(c, s, step))
  {
    hide InvQueue, InvWorkers, InvCallers, InvFutures, InvStarted;
    match step
    case Submit(i, stage, waited) => SubmitKeeps(c, s, i, stage, waited);
    case Answer(i) => AnswerKeeps(c, s, i);
    case Loop(w) => LoopKeeps(c, s, w);
    case Finish(w, o) => FinishKeeps(c, s, w, o);
    case CallShutdown => ShutdownKeeps(c, s);
  }

  // ----- whole runs

  ghost predicate History(c: Config, callers: nat, states: seq<State>, steps: seq<Step>) {
    && |states| == |steps| + 1 && states[0] == Initial(c, callers)
    && forall i :: 0 <= i < |steps| ==> Moves(c, states[i], steps[i], states[i + 1])
  }

  predicate Moves(c: Config, s: State, step: Step, s': State) {
    Enabled(s, step) && Listed(s) && s' == Apply(c, s, step)
  }

  /** In every interleaving of submitters, workers and shutdown: the queue stays within its
      bound, every accepted request is queued, running or finished, and the rest of Inv. */
  lemma {:induction false} HistoryInv(c: Config, callers: nat, states: seq<State>, steps: seq<Step>, i: nat)
    requires Accepted(c) && History(c, callers, states, steps) && i < |states|
    ensures Inv(c, states[i])
  {
    hide Inv, InvQueue, Apply, Enabled, Initial;
    if i == 0 {
      InitialInv(c, callers);
    } else {
      HistoryInv(c, callers, states, steps, i - 1);
      assert Moves(c, states[i - 1], steps[i - 1], states[i]);
      StepKeeps(c, states[i - 1], steps[i - 1]);
    }
  }

  /** A worker takes the least of the queued requests. */
  lemma TakesLeast(c: Config, s: State, w: nat)
    requires Inv(c, s) && Enabled(s, Loop(w)) && s.core.queue != []
    ensures exists r :: r in s.core.queue && (forall x :: x in s.core.queue ==> x == r || Before(r, x))
                        && ApplyLoop(s, w).workers[w] == Running(r.n) && ApplyLoop(s, w).started == s.started + [r.n]
  {
    var r := s.core.queue[0];
    HeadLeast(s.core.queue);
    hide Sorted, InvWorkers, InvCallers, InvFutures, InvStarted;
    assert r in s.core.queue;
  }

  lemma HeadLeast(q: seq<Request>)
    requires Sorted(q) && q != []
    ensures forall x :: x in q ==> x == q[0] || Before(q[0], x)
  {}

  /** With stage priorities nobody takes a verifier request while one of another stage is queued, nor
      a rubricator request while a teacher request is; within a stage, and without priorities
      altogether, the one that came first is taken. */
  lemma TakesByStage(c: Config, s: State, w: nat, n: nat, x: nat)
    requires Inv(c, s) && Enabled(s, Loop(w)) && ApplyLoop(s, w).workers[w] == Running(n)
    requires x < |s.jobs| && s.jobs[x].place == InQueue && x != n
    ensures n < |s.jobs| && s.jobs[n].place == InQueue
    ensures c.stagePriority && s.jobs[n].stage == Verifier ==> s.jobs[x].stage == Verifier
    ensures c.stagePriority && s.jobs[n].stage == Rubricator ==> s.jobs[x].stage != Teacher
    ensures !c.stagePriority || s.jobs[n].stage == s.jobs[x].stage ==> n < x
  {
    HeadLeast(s.core.queue);
    hide Sorted, InvWorkers, InvCallers, InvFutures, InvStarted;
    assert s.core.queue[0] in s.core.queue && s.jobs[x].request in s.core.queue;
  }

  /** Requests are taken at most once each and in order of arrival within a stage; without stage
      priorities in order of arrival altogether. */
  lemma StagesAreFifo(c: Config, callers: nat, states: seq<State>, steps: seq<Step>, i: nat, a: nat, b: nat)
    requires Accepted(c) && History(c, callers, states, steps) && i < |states|
    requires a < b < |states[i].started|
    ensures var s := states[i]; var (m, n) := (s.started[a], s.started[b]);
      && m < |s.jobs| && n < |s.jobs| && m != n
      && (!c.stagePriority || s.jobs[m].stage == s.jobs[n].stage ==> m < n)
  {
    HistoryInv(c, callers, states, steps, i);
  }

  // ----- what the metrics count

  /** Step k is a submitter's that gets its request queued. */
  predicate Accepts(states: seq<State>, steps: seq<Step>, k: nat)
    requires k < |steps| < |states|
  {
    && steps[k].Submit? && steps[k].caller < |states[k + 1].callers|
    && states[k + 1].callers[steps[k].caller].Waiting?
  }

  /** Up to state k the submitter has been made to wait. */
  ghost predicate HadToWait(states: seq<State>, k: nat, i: nat) {
    exists j :: 0 <= j <= k && j < |states| && i < |states[j].callers| && states[j].callers[i].Asleep?
  }

  /** Of the first k steps, those that get a request queued; those whose submitter had to wait; and
      how long these waited. */
  ghost function Submissions(states: seq<State>, steps: seq<Step>, k: nat): (nat, nat, real)
    requires k <= |steps| < |states|
  {
    if k == 0 then (0, 0, 0.0)
    else
      var (submitted, hits, seconds) := Submissions(states, steps, k - 1);
      if !Accepts(states, steps, k - 1) then (submitted, hits, seconds)
      else if HadToWait(states, k - 1, steps[k - 1].caller)
      then (submitted + 1, hits + 1, seconds + steps[k - 1].waited)
      else (submitted + 1, hits, seconds)
  }

  lemma {:induction false} SleptMeans(c: Config, callers: nat, states: seq<State>, steps: seq<Step>, k: nat, i: nat)
    requires Accepted(c) && History(c, callers, states, steps) && k < |states|
    requires i < |states[k].callers| && states[k].callers[i].Ready?
    ensures states[k].callers[i].slept <==> HadToWait(states, k, i)
  {
    hide Inv, InvQueue, Listed;
    if k > 0 {
      var s, step := states[k - 1], steps[k - 1];
      assert Moves(c, s, step, states[k]);
      ReadyStep(c, s, step, i);
      if s.callers[i].Ready? {
        SleptMeans(c, callers, states, steps, k - 1, i);
        assert states[k].callers[i] == s.callers[i];
        assert HadToWait(states, k, i) <==> HadToWait(states, k - 1, i);
      } else {
        assert s.callers[i].Asleep? && states[k - 1] == s;
      }
    }
  }

  /** A submitter that is ready was so before, or has been woken. */
  lemma ReadyStep(c: Config, s: State, step: Step, i: nat)
    requires Enabled(s, step) && Listed(s) && i < |Apply(c, s, step).callers| && Apply(c, s, step).callers[i].Ready?
    ensures i < |s.callers|
    ensures if s.callers[i].Ready? then Apply(c, s, step).callers[i] == s.callers[i]
            else s.callers[i].Asleep? && Apply(c, s, step).callers[i].slept
  {
    hide Push;
  }

  lemma MetricsStep(c: Config, s: State, step: Step)
    requires Enabled(s, step) && Listed(s)
    ensures step.Submit? ==> step.caller < |Apply(c, s, step).callers|
    ensures var (m, t) := (s.core.metrics, Apply(c, s, step));
      if c.recordMetrics && step.Submit? && t.callers[step.caller].Waiting? then
        var slept := s.callers[step.caller].slept;
        && t.core.metrics.submitted == m.submitted + 1
        && t.core.metrics.backpressureHits == m.backpressureHits + (if slept then 1 else 0)
        && t.core.metrics.waitSeconds == m.waitSeconds + (if slept then step.waited else 0.0)
        && t.core.metrics.depthMax >= m.depthMax && t.core.metrics.depthMax >= |t.core.queue|
        && (t.core.metrics.depthMax == m.depthMax || t.core.metrics.depthMax == |t.core.queue|)
      else t.core.metrics == m && (c.recordMetrics ==> |t.core.queue| <= |s.core.queue|)
  {
    hide Push;
  }

  /** The metrics, when they are recorded: the requests queued, those of submitters that had to wait
      and how long, and the greatest depth the queue has had. */
  lemma {:induction false} MetricsExact(c: Config, callers: nat, states: seq<State>, steps: seq<Step>, k: nat)
    requires Accepted(c) && History(c, callers, states, steps) && k < |states|
    ensures var m := states[k].core.metrics;
      if !c.recordMetrics then m == START.metrics
      else
        && (m.submitted, m.backpressureHits, m.waitSeconds) == Submissions(states, steps, k)
        && (forall j :: 0 <= j <= k ==> |states[j].core.queue| <= m.depthMax)
        && exists j :: 0 <= j <= k && |states[j].core.queue| == m.depthMax
  {
    hide Inv, InvQueue, Listed, Apply, Enabled;
    if k == 0 {
      assert states[0] == Initial(c, callers) && |states[0].core.queue| == 0;
    } else {
      var s, step := states[k - 1], steps[k - 1];
      MetricsExact(c, callers, states, steps, k - 1);
      assert Moves(c, s, step, states[k]);
      MetricsStep(c, s, step);
      if Accepts(states, steps, k - 1) {
        SubmitterReady(s, step);
        SleptMeans(c, callers, states, steps, k - 1, step.caller);
        assert HadToWait(states, k - 1, step.caller) <==> s.callers[step.caller].slept;
      }
      hide HadToWait;
      if states[k].core.metrics.depthMax == s.core.metrics.depthMax && c.recordMetrics {
        var j :| 0 <= j <= k - 1 && |states[j].core.queue| == s.core.metrics.depthMax;
        assert |states[j].core.queue| == states[k].core.metrics.depthMax;
        assert |states[k - 1].core.queue| <= s.core.metrics.depthMax;
      } else if c.recordMetrics {
        assert |states[k].core.queue| == states[k].core.metrics.depthMax;
      }
    }
  }

  lemma SubmitterReady(s: State, step: Step)
    requires Enabled(s, step) && step.Submit?
    ensures step.caller < |s.callers| && s.callers[step.caller].Ready?
  {}

  /** A future is completed by the worker that ran its request, and keeps that outcome. */
  lemma {:induction false} CompletedByItsRun(c: Config, callers: nat, states: seq<State>, steps: seq<Step>,
                                             i: nat, n: nat)
    requires Accepted(c) && History(c, callers, states, steps) && i < |states|
    requires n < |states[i].futures| && states[i].futures[n].Some?
    ensures exists k, w :: 0 <= k < i && Completes(states[k], steps[k], w, n, states[i].futures[n].value)
  {
    hide Inv, InvQueue;
    if i > 0 {
      var s, step := states[i - 1], steps[i - 1];
      assert Moves(c, s, step, states[i]);
      HistoryInv(c, callers, states, steps, i - 1);
      FutureStep(c, s, step, n);
      if n < |s.futures| && s.futures[n].Some? {
        CompletedByItsRun(c, callers, states, steps, i - 1, n);
      } else {
        assert Completes(states[i - 1], steps[i - 1], step.worker, n, states[i].futures[n].value);
      }
    }
  }

  /** Worker `w` finishes request `n` with outcome `o`. */
  predicate Completes(s: State, step: Step, w: nat, n: nat, o: Outcome) {
    step == Finish(w, o) && w < |s.workers| && s.workers[w] == Running(n) && n < |s.futures| && s.futures[n] == None
  }

  lemma FutureStep(c: Config, s: State, step: Step, n: nat)
    requires Inv(c, s) && Enabled(s, step) && n < |Apply(c, s, step).futures|
    ensures var f := Apply(c, s, step).futures[n];
      if n < |s.futures| && f == s.futures[n] then !exists w, o :: Completes(s, step, w, n, o)
      else f == None || (step.Finish? && Completes(s, step, step.worker, n, f.value))
  {
    hide InvStarted, InvCallers, Sorted, Push;
  }

  /** No future is completed twice. */
  lemma {:induction false} CompletedOnce(c: Config, callers: nat, states: seq<State>, steps: seq<Step>,
                                         k: nat, l: nat, v: nat, w: nat, n: nat, o: Outcome, p: Outcome)
    requires Accepted(c) && History(c, callers, states, steps) && k < l < |steps|
    requires Completes(states[k], steps[k], v, n, o)
    ensures !Completes(states[l], steps[l], w, n, p)
  {
    hide Inv, InvQueue;
    assert Moves(c, states[k], steps[k], states[k + 1]);
    StaysCompleted(c, callers, states, steps, k + 1, l, n);
  }

  lemma {:induction false} StaysCompleted(c: Config, callers: nat, states: seq<State>, steps: seq<Step>,
                                          k: nat, l: nat, n: nat)
    requires Accepted(c) && History(c, callers, states, steps) && k <= l < |states|
    requires n < |states[k].futures| && states[k].futures[n].Some?
    ensures n < |states[l].futures| && states[l].futures[n] == states[k].futures[n]
  {
    hide Inv, InvQueue, Apply, Enter;
    if k < l {
      StaysCompleted(c, callers, states, steps, k, l - 1, n);
      assert Moves(c, states[l - 1], steps[l - 1], states[l]);
      HistoryInv(c, callers, states, steps, l - 1);
      CompletedStays(c, states[l - 1], steps[l - 1], n);
    }
  }

  lemma CompletedStays(c: Config, s: State, step: Step, n: nat)
    requires Inv(c, s) && Enabled(s, step) && n < |s.futures| && s.futures[n].Some?
    ensures var futures := Apply(c, s, step).futures; n < |futures| && futures[n] == s.futures[n]
  {
    hide InvStarted, InvCallers, Sorted, Push;
  }

  /** After a shutdown nothing is accepted, and the scheduler stays shut down. */
  lemma ShutdownIsFinal(c: Config, s: State, step: Step)
    requires Inv(c, s) && Enabled(s, step) && s.core.down
    ensures Apply(c, s, step).core.down && |Apply(c, s, step).jobs| == |s.jobs|
    ensures step.Submit? ==> Apply(c, s, step).callers[step.caller] == Refused
  {}

  /** Once every worker has exited, every accepted request has been run and its submitter's
      future is completed. */
  lemma DrainedAtExit(c: Config, s: State)
    requires Accepted(c) && Inv(c, s) && forall w :: 0 <= w < |s.workers| ==> s.workers[w].Exited?
    ensures s.core.down && s.core.queue == []
    ensures forall n :: 0 <= n < |s.jobs| ==> n in s.started && s.futures[n].Some?
  {
    hide Sorted;
    assert s.workers[0].Exited?;
    assert forall r :: r !in s.core.queue;
  }

  // ----- no lost wake-ups, and every run ends

  /** Nothing can move unless someone calls for a shutdown. */
  ghost predicate Stuck(s: State) {
    forall step :: step != CallShutdown ==> !Enabled(s, step)
  }

  /** No thread sleeps through what it waits for: when nothing can move, every submitter has
      its outcome or was refused after a shutdown, the queue is empty, every accepted request
      is finished, and the workers have exited if there was a shutdown and sleep otherwise. */
  lemma NobodySleepsThrough(c: Config, s: State)
    requires Accepted(c) && Inv(c, s) && Stuck(s)
    ensures forall i :: 0 <= i < |s.callers| ==> s.callers[i].Answered? || (s.callers[i].Refused? && s.core.down)
    ensures forall w :: 0 <= w < |s.workers| ==> s.workers[w] == if s.core.down then Exited else Sleeping
    ensures s.core.queue == []
    ensures forall n :: 0 <= n < |s.jobs| ==> s.futures[n].Some?
  {
    hide Sorted, InvStarted;
    StuckWorkers(c, s);
    assert forall r :: r !in s.core.queue;
    forall i | 0 <= i < |s.callers| ensures s.callers[i].Answered? || (s.callers[i].Refused? && s.core.down) {
      assert CallerFits(c, s, i, s.callers[i]);
      assert !Enabled(s, Submit(i, Teacher, 0.0));
      assert !Enabled(s, Answer(i));
    }
  }

  lemma StuckWorkers(c: Config, s: State)
    requires Accepted(c) && Inv(c, s) && Stuck(s)
    ensures forall w :: 0 <= w < |s.workers| ==> s.workers[w] == if s.core.down then Exited else Sleeping
    ensures s.core.queue == []
  {
    hide Sorted, InvStarted, InvCallers;
    forall w | 0 <= w < |s.workers| ensures s.workers[w] == if s.core.down then Exited else Sleeping {
      assert WorkerFits(s, w, s.workers[w]);
      assert !Enabled(s, Loop(w));
      assert !Enabled(s, Finish(w, Raised(0)));
    }
    assert WorkerFits(s, 0, s.workers[0]);
  }

  lemma {:induction false} TotalUpdate(ws: seq<nat>, i: nat, v: nat)
    requires i < |ws|
    ensures Total(ws[i := v]) + ws[i] == Total(ws) + v
  {
    if i > 0 {
      assert ws[i := v][1..] == ws[1..][i - 1 := v];
      TotalUpdate(ws[1..], i - 1, v);
    } else {
      assert ws[i := v][1..] == ws[1..];
    }
  }

  lemma {:induction false} TotalBounded(ws: seq<nat>)
    requires forall x :: x in ws ==> x <= 2
    ensures Total(ws) <= 2 * |ws|
  {
    if ws != [] {
      assert ws[0] in ws && forall x :: x in ws[1..] ==> x in ws;
      TotalBounded(ws[1..]);
    }
  }

  /** Notifications still to come: two for each submitter not yet let in or refused, one for
      each queued request, one for a shutdown. */
  function Undecided(x: Caller): nat { if x.Ready? || x.Asleep? then 1 else 0 }

  function UndecidedOf(callers: seq<Caller>): seq<nat> {
    seq(|callers|, i requires 0 <= i < |callers| => Undecided(callers[i]))
  }

  function Events(s: State): nat {
    2 * Total(UndecidedOf(s.callers)) + |s.core.queue| + if s.core.down then 0 else 1
  }

  function CallerWeight(x: Caller): nat {
    match x case Ready(_) => 2 case Asleep => 1 case Waiting(_) => 1 case _ => 0
  }

  function WorkerWeight(x: Worker): nat {
    match x case Running(_) => 2 case Looping => 1 case _ => 0
  }

  function CallerWeights(callers: seq<Caller>): seq<nat> {
    seq(|callers|, i requires 0 <= i < |callers| => CallerWeight(callers[i]))
  }

  function WorkerWeights(workers: seq<Worker>): seq<nat> {
    seq(|workers|, i requires 0 <= i < |workers| => WorkerWeight(workers[i]))
  }

  /** Steps the threads can still take before the next notification. */
  function Steps(s: State): nat {
    Total(CallerWeights(s.callers)) + Total(WorkerWeights(s.workers))
  }

  lemma StepsBounded(s: State)
    ensures Steps(s) <= 2 * (|s.callers| + |s.workers|)
  {
    TotalBounded(CallerWeights(s.callers));
    TotalBounded(WorkerWeights(s.workers));
  }

  lemma UpdateCaller(callers: seq<Caller>, i: nat, x: Caller)
    requires i < |callers|
    ensures Total(UndecidedOf(callers[i := x])) + Undecided(callers[i]) == Total(UndecidedOf(callers)) + Undecided(x)
    ensures Total(CallerWeights(callers[i := x])) + CallerWeight(callers[i])
            == Total(CallerWeights(callers)) + CallerWeight(x)
  {
    assert UndecidedOf(callers[i := x]) == UndecidedOf(callers)[i := Undecided(x)];
    TotalUpdate(UndecidedOf(callers), i, Undecided(x));
    assert CallerWeights(callers[i := x]) == CallerWeights(callers)[i := CallerWeight(x)];
    TotalUpdate(CallerWeights(callers), i, CallerWeight(x));
  }

  lemma UpdateWorker(workers: seq<Worker>, w: nat, x: Worker)
    requires w < |workers|
    ensures Total(WorkerWeights(workers[w := x])) + WorkerWeight(workers[w])
            == Total(WorkerWeights(workers)) + WorkerWeight(x)
  {
    assert WorkerWeights(workers[w := x]) == WorkerWeights(workers)[w := WorkerWeight(x)];
    TotalUpdate(WorkerWeights(workers), w, WorkerWeight(x));
  }

  /** Waking everyone decides nothing. */
  lemma NotifyEvents(s: State)
    ensures Events(NotifyAll(s)) == Events(s)
  {
    assert UndecidedOf(NotifyAll(s).callers) == UndecidedOf(s.callers);
  }

  /** Every step brings a notification, or leaves the threads fewer steps before the next. */
  lemma StepUsesUp(c: Config, s: State, step: Step)
    requires Inv(c, s) && Enabled(s, step)
    ensures var s' := Apply(c, s, step);
      Events(s') < Events(s) || (Events(s') == Events(s) && Steps(s') < Steps(s))
  {
    hide Total, UndecidedOf, CallerWeights, WorkerWeights, NotifyAll, Sorted;
    hide InvStarted, InvWorkers, InvCallers, InvFutures, InvMetrics;
    match step
    case Submit(i, stage, waited) =>
      var (entry, core) := Enter(c, s.core, stage, s.callers[i].slept, waited);
      match entry {
        case MustWait => UpdateCaller(s.callers, i, Asleep);
        case ShutDown => UpdateCaller(s.callers, i, Refused);
        case Queued(r) =>
          UpdateCaller(s.callers, i, Waiting(r.n));
          NotifyEvents(s.(core := core, callers := s.callers[i := Waiting(r.n)],
                          futures := s.futures + [None], jobs := s.jobs + [Job(r, stage, i, InQueue)]));
      }
    case Answer(i) =>
      UpdateCaller(s.callers, i, Answered(s.callers[i].n, s.futures[s.callers[i].n].value));
    case Loop(w) =>
      var (task, core) := Next(s.core);
      match task {
        case Idle => UpdateWorker(s.workers, w, Sleeping);
        case Exit => UpdateWorker(s.workers, w, Exited);
        case Take(r) =>
          NotifyEvents(s.(core := core, workers := s.workers[w := Running(r.n)],
                          jobs := s.jobs[r.n := s.jobs[r.n].(place := At(w))], started := s.started + [r.n]));
      }
    case Finish(w, o) => UpdateWorker(s.workers, w, Looping);
    case CallShutdown => NotifyEvents(s.(core := s.core.(down := true)));
  }

  /** Steps still possible: every notification can wake all threads once more. */
  function StepBound(threads: nat, events: nat, steps: nat): nat {
    events * (2 * threads + 1) + steps
  }

  lemma BoundDrops(threads: nat, e: nat, e': nat, s: nat, s': nat)
    requires e' < e || (e' == e && s' < s)
    requires s' <= 2 * threads
    ensures StepBound(threads, e', s') < StepBound(threads, e, s)
  {
    if e' < e {
      Grows(e' + 1, e, 2 * threads + 1);
    }
  }

  lemma {:induction false} Grows(a: nat, b: nat, k: nat)
    requires a <= b
    ensures a * k <= b * k
  {}

  /** Every run of n submitters and the workers ends: no more than
      (2n + 1) * (2 * threads + 1) + 2n + numWorkers steps are possible, sleeping and waking included. */
  lemma {:induction false} RunsEnd(c: Config, callers: nat, states: seq<State>, steps: seq<Step>)
    requires Accepted(c) && History(c, callers, states, steps)
    ensures |steps| <= StepBound(callers + c.numWorkers, 2 * callers + 1, 2 * callers + c.numWorkers)
  {
    InitialMeasure(c, callers);
    StepsLeft(c, callers, states, steps, |steps|);
  }

  lemma {:induction false} TotalConstant(ws: seq<nat>, k: nat)
    requires k <= 2 && forall i :: 0 <= i < |ws| ==> ws[i] == k
    ensures Total(ws) == k * |ws|
  {
    if ws != [] {
      TotalConstant(ws[1..], k);
    }
  }

  lemma InitialMeasure(c: Config, callers: nat)
    ensures var s := Initial(c, callers); Events(s) == 2 * callers + 1 && Steps(s) == 2 * callers + c.numWorkers
  {
    hide Total;
    var s := Initial(c, callers);
    TotalConstant(UndecidedOf(s.callers), 1);
    TotalConstant(CallerWeights(s.callers), 2);
    TotalConstant(WorkerWeights(s.workers), 1);
  }

  lemma {:induction false} StepsLeft(c: Config, callers: nat, states: seq<State>, steps: seq<Step>, i: nat)
    requires Accepted(c) && History(c, callers, states, steps) && i < |states|
    ensures |states[i].callers| == callers && |states[i].workers| == c.numWorkers
    ensures i + StepBound(callers + c.numWorkers, Events(states[i]), Steps(states[i]))
            <= StepBound(callers + c.numWorkers, Events(states[0]), Steps(states[0]))
  {
    hide Inv, InvQueue, StepBound, Events, Steps, Total, Enter, Next;
    if i > 0 {
      StepsLeft(c, callers, states, steps, i - 1);
      assert Moves(c, states[i - 1], steps[i - 1], states[i]);
      HistoryInv(c, callers, states, steps, i - 1);
      StepUsesUp(c, states[i - 1], steps[i - 1]);
      StepsBounded(states[i]);
      BoundDrops(callers + c.numWorkers, Events(states[i - 1]), Events(states[i]),
                 Steps(states[i - 1]), Steps(states[i]));
    }
  }
}
