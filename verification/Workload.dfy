/**
 The dependent workload of demo/dependent_workload.cpp: FIFO workers, the periodic releases and the
 loop that drives the graph with them.

 The loop's clock readings and the instants at which worker threads finish are parameters: `clock(i)`
 is the i-th reading of the monotonic clock, `finished(i, k)` says whether the job held by worker `k`
 has been computed when iteration `i` collects. Each graph call is followed by a check that it did
 not throw.
 */
module Workload {
  import opened Bits
  import opened Options
  import G = Graph
  import GraphProofs

  const MS: nat := 1_000_000
  const QUEUE_CAPACITY: nat := 32
  const BATCH_LIMIT: nat := 8

  function WindowNs(seconds: nat): nat { 1000 * MS * seconds }

  /** The weight of full queues and inboxes. */
  const MAX_LOAD: nat := 9 * (QUEUE_CAPACITY + 1) + 6 * QUEUE_CAPACITY + 3

  const IMU_PERIOD: nat := 5 * MS
  const CAMERA_PERIOD: nat := 50 * MS
  const CONTROL_PERIOD: nat := 10 * MS
  const MAX_IMU_AGE: nat := 20 * MS

  /** The completion closure of a job. */
  datatype Action =
    | Deliver(m: G.Measurement)
    | Finish(batch: G.Batch)
    | Answer(outcome: G.Outcome)
    | Store(snapshot: G.Snapshot)

  datatype Job = Job(id: nat, release: nat, action: Action)

  // ---------------------------------------------------------------- workers

  /** `Worker`: the dispatcher owns the queue, the thread holds at most one job. */
  class Worker {
    var offered: nat
    var dropped: nat
    var completed: nat
    var queue: seq<Job>
    var busy: bool
    var slot: Option<Job>
    var result: Option<Job>

    ghost predicate Valid()
      reads this
    {
      && offered == dropped + completed + |queue| + Bit(busy)
      && |queue| <= QUEUE_CAPACITY
      && (busy <==> slot.Some? || result.Some?)
      && !(slot.Some? && result.Some?)
    }

    /** All jobs accepted and not yet collected, oldest first. */
    ghost function Jobs(): seq<Job>
      reads this
    {
      (if slot.Some? then [slot.value] else if result.Some? then [result.value] else []) + queue
    }

    lemma IdleIffNoJobs()
      requires Valid()
      ensures busy || queue != [] <==> Jobs() != []
      ensures |Jobs()| <= QUEUE_CAPACITY + 1
    {
    }

    constructor ()
      ensures Valid() && offered == dropped == completed == 0 && queue == [] && !busy && slot == result == None
    {
      offered, dropped, completed, queue, busy, slot, result := 0, 0, 0, [], false, None, None;
    }

    method Offer(job: Job) returns (accepted: bool)
      requires Valid()
      modifies this
      ensures Valid() && offered == old(offered) + 1 && completed == old(completed) && busy == old(busy)
      ensures accepted <==> |old(queue)| < 32
      ensures queue == if accepted then old(queue) + [job] else old(queue)
      ensures Jobs() == if accepted then old(Jobs()) + [job] else old(Jobs())
      ensures dropped == old(dropped) + Bit(!accepted) && (old(Jobs()) == [] ==> accepted)
    {
      offered := offered + 1;
      if |queue| == QUEUE_CAPACITY {
        dropped := dropped + 1;
        return false;
      }
      queue := queue + [job];
      return true;
    }

    /** A release the main loop refuses without queueing it. */
    method Refuse()
      requires Valid()
      modifies this
      ensures Valid() && offered == old(offered) + 1 && completed == old(completed) && Jobs() == old(Jobs())
      ensures dropped == old(dropped) + 1
    {
      offered, dropped := offered + 1, dropped + 1;
    }

    method Dispatch()
      requires Valid()
      modifies this
      ensures Valid() && Jobs() == old(Jobs()) && offered == old(offered) && completed == old(completed)
      ensures (busy <==> old(Jobs()) != []) && dropped == old(dropped)
    {
      if busy || queue == [] {
        return;
      }
      slot := Some(queue[0]);
      queue := queue[1..];
      busy := true;
    }

    /** The worker thread: compute the assigned job and leave it as the result. */
    method Execute()
      requires Valid()
      modifies this
      ensures Valid() && Jobs() == old(Jobs()) && offered == old(offered) && completed == old(completed)
      ensures busy == old(busy) && (busy ==> result.Some?) && dropped == old(dropped)
    {
      if slot.Some? {
        slot, result := None, slot;
      }
    }

    method Collect() returns (done: Option<Job>)
      requires Valid()
      modifies this
      ensures Valid() && offered == old(offered) && dropped == old(dropped) && done == old(result)
      ensures done.None? ==> Jobs() == old(Jobs()) && completed == old(completed)
      ensures done.Some? ==> old(Jobs()) != [] && done.value == old(Jobs())[0] && Jobs() == old(Jobs())[1..] &&
                             completed == old(completed) + 1
    {
      done := result;
      if done.None? {
        return;
      }
      result := None;
      busy := false;
      completed := completed + 1;
    }
  }

  // ---------------------------------------------------------------- what the queues may hold

  /** `jobs` deliver measurements of stream `s` in strictly increasing sequence, all newer than what the
      graph has seen (`last`), none above `maxId`, and none from after `now`. */
  predicate Deliveries(jobs: seq<Job>, s: G.Stream, last: Option<nat>, maxId: nat, now: nat) {
    && (last.Some? ==> last.value <= maxId)
    && (forall i :: 0 <= i < |jobs| ==>
          jobs[i].action.Deliver? &&
          var m := jobs[i].action.m;
          m.stream == s && m.source <= now && m.sequence <= maxId && (last.Some? ==> last.value < m.sequence))
    && (forall i, j :: 0 <= i < j < |jobs| ==>
          jobs[i].action.Deliver? && jobs[j].action.Deliver? &&
          jobs[i].action.m.sequence < jobs[j].action.m.sequence)
  }

  lemma DeliveriesAppend(jobs: seq<Job>, s: G.Stream, last: Option<nat>, maxId: nat, now: nat, job: Job)
    requires Deliveries(jobs, s, last, maxId, now)
    requires job.action == Deliver(G.Measurement(s, maxId + 1, job.release)) && job.release <= now
    ensures Deliveries(jobs + [job], s, last, maxId + 1, now) && Deliveries(jobs, s, last, maxId + 1, now)
  {
  }

  lemma DeliveriesTail(jobs: seq<Job>, s: G.Stream, last: Option<nat>, maxId: nat, now: nat)
    requires Deliveries(jobs, s, last, maxId, now) && jobs != []
    ensures jobs[0].action.Deliver? && Deliveries(jobs[1..], s, Some(jobs[0].action.m.sequence), maxId, now)
    ensures var m := jobs[0].action.m;
            m.stream == s && m.source <= now && (last.Some? ==> last.value < m.sequence)
  {
  }

  lemma DeliveriesLater(jobs: seq<Job>, s: G.Stream, last: Option<nat>, maxId: nat, now: nat, later: nat)
    requires Deliveries(jobs, s, last, maxId, now) && now <= later
    ensures Deliveries(jobs, s, last, maxId, later)
  {
  }

  /** The estimator holds exactly the running batch. */
  predicate HoldsBatch(jobs: seq<Job>, running: Option<G.Batch>) {
    match running
    case None => jobs == []
    case Some(batch) =>
      && |jobs| == 1 && jobs[0].action == Finish(batch) && batch.inputs != []
      && jobs[0].id == batch.id && jobs[0].release == batch.inputs[0].source
  }

  predicate Answers(jobs: seq<Job>) {
    |jobs| <= 1 && (jobs != [] ==> jobs[0].action.Answer?)
  }

  ghost predicate Monotone(clock: nat -> nat) {
    forall i: nat, j: nat :: i <= j ==> clock(i) <= clock(j)
  }

  /** Releases at `period` from `begin`, `count` of them so far, the last one before `end`. */
  predicate Releases(count: nat, next: nat, begin: nat, end: nat, period: nat) {
    next == begin + count * period && (count > 0 ==> next < end + period)
  }

  /** When releasing stops, exactly `rate` releases per second were made. */
  lemma WholeWindow(count: nat, next: nat, begin: nat, seconds: nat, period: nat, rate: nat)
    requires Releases(count, next, begin, begin + WindowNs(seconds), period) && next >= begin + WindowNs(seconds)
    requires rate * period == 1000 * MS
    ensures count == rate * seconds
  {
    assert period > 0 && WindowNs(seconds) == rate * seconds * period;
    if count < rate * seconds {
      MulGap(count, rate * seconds, period);
    } else if count > rate * seconds {
      MulGap(rate * seconds, count, period);
    }
  }

  lemma {:induction false} MulGap(a: nat, b: nat, period: nat)
    requires a < b
    ensures a * period + period <= b * period
    decreases b
  {
    assert b * period == (b - 1) * period + period;
    if a < b - 1 {
      MulGap(a, b - 1, period);
    }
  }

  lemma InitialWorld()
    ensures var w := G.Run(QUEUE_CAPACITY, BATCH_LIMIT, []);
            && w.core == G.NewGraph(QUEUE_CAPACITY, BATCH_LIMIT) && G.Inv(w)
            && w.history.imu == w.history.camera == G.Trace([], [])
  {
    GraphProofs.RunKeepsInv(QUEUE_CAPACITY, BATCH_LIMIT, []);
  }

  lemma NoReleases(begin: nat, end: nat, period: nat)
    ensures Releases(0, begin, begin, end, period)
  {
  }

  lemma ReleaseOnce(count: nat, next: nat, begin: nat, end: nat, period: nat)
    requires Releases(count, next, begin, end, period) && next < end
    ensures Releases(count + 1, next + period, begin, end, period)
  {
  }

  // ---------------------------------------------------------------- what the accounts are about

  /** A control release that was answered: its number, the clock reading at which, and the IMU measurements
      completed by then. */
  datatype Answered = Answered(id: nat, reading: nat, consumed: seq<G.Measurement>)

  /** The outcome a release deserves: missing without any completed IMU measurement, usable with one at
      most 20 ms old, stale otherwise. */
  ghost function Deserved(a: Answered, clock: nat -> nat): G.Outcome {
    if a.consumed == [] then G.Missing
    else if exists m <- a.consumed :: clock(a.reading) - m.source <= 20 * MS then G.Usable
    else G.Stale
  }

  ghost function CountDeserved(answers: seq<Answered>, clock: nat -> nat, outcome: G.Outcome): nat {
    if answers == [] then 0
    else
      var n := |answers| - 1;
      CountDeserved(answers[..n], clock, outcome) + Bit(Deserved(answers[n], clock) == outcome)
  }

  datatype Outcomes = Outcomes(usable: nat, stale: nat, missing: nat)

  function Counted(o: Outcomes, outcome: G.Outcome): Outcomes {
    match outcome
    case Usable => o.(usable := o.usable + 1)
    case Stale => o.(stale := o.stale + 1)
    case Missing => o.(missing := o.missing + 1)
  }

  /** The release was answered no earlier than it was due. */
  predicate Due(a: Answered, clock: nat -> nat, begin: nat) {
    a.id > 0 && begin + (a.id - 1) * CONTROL_PERIOD <= clock(a.reading)
  }

  /** The outcomes counted so far are those that the first `k` answered releases deserve, and `jobs` carry
      those of the others; each was due, and looked at the measurements completed by then. */
  ghost predicate AnswersFit(answers: seq<Answered>, clock: nat -> nat, begin: nat, k: nat, jobs: seq<Job>,
                             o: Outcomes, consumed: seq<G.Measurement>)
  {
    && |answers| == k + |jobs|
    && o.usable == CountDeserved(answers[..k], clock, G.Usable)
    && o.stale == CountDeserved(answers[..k], clock, G.Stale)
    && o.missing == CountDeserved(answers[..k], clock, G.Missing)
    && (forall i :: 0 <= i < |jobs| ==>
          jobs[i].action == Answer(Deserved(answers[k + i], clock)) && jobs[i].id == answers[k + i].id)
    && (forall i :: 0 <= i < |answers| ==> answers[i].consumed <= consumed && Due(answers[i], clock, begin))
  }

  lemma AnswerCounted(answers: seq<Answered>, clock: nat -> nat, begin: nat, k: nat, jobs: seq<Job>, o: Outcomes,
                      consumed: seq<G.Measurement>)
    requires AnswersFit(answers, clock, begin, k, jobs, o, consumed) && jobs != []
    ensures jobs[0].action.Answer?
    ensures AnswersFit(answers, clock, begin, k + 1, jobs[1..], Counted(o, jobs[0].action.outcome), consumed)
  {
    hide CountDeserved, Deserved, Due;
    assert jobs[0].action == Answer(Deserved(answers[k + 0], clock));
    CountDeservedMore(answers, clock, G.Usable, k);
    CountDeservedMore(answers, clock, G.Stale, k);
    CountDeservedMore(answers, clock, G.Missing, k);
    forall i | 0 <= i < |jobs[1..]|
      ensures jobs[1..][i].action == Answer(Deserved(answers[k + 1 + i], clock))
      ensures jobs[1..][i].id == answers[k + 1 + i].id
    {
      assert jobs[i + 1].action == Answer(Deserved(answers[k + (i + 1)], clock));
    }
  }

  /** The outcome of a tick is the one its release deserves. */
  lemma AnswerAdded(answers: seq<Answered>, clock: nat -> nat, begin: nat, k: nat, o: Outcomes,
                    consumed: seq<G.Measurement>, answer: Answered, outcome: G.Outcome, job: Job)
    requires AnswersFit(answers, clock, begin, k, [], o, consumed)
    requires answer.consumed == consumed && Due(answer, clock, begin)
    requires job.action == Answer(outcome) && job.id == answer.id
    requires outcome.Missing? <==> consumed == []
    requires outcome.Usable? <==> exists m <- consumed :: clock(answer.reading) - m.source <= 20 * MS
    ensures AnswersFit(answers + [answer], clock, begin, k, [job], o, consumed)
  {
    hide CountDeserved, Due;
    assert outcome == Deserved(answer, clock);
    assert (answers + [answer])[..k] == answers[..k];
  }

  lemma AnswersLater(answers: seq<Answered>, clock: nat -> nat, begin: nat, k: nat, jobs: seq<Job>, o: Outcomes,
                     consumed: seq<G.Measurement>, more: seq<G.Measurement>)
    requires AnswersFit(answers, clock, begin, k, jobs, o, consumed)
    ensures AnswersFit(answers, clock, begin, k, jobs, o, consumed + more)
  {
    hide CountDeserved, Deserved, Due;
  }

  lemma {:induction false} CountDeservedMore(answers: seq<Answered>, clock: nat -> nat, outcome: G.Outcome, k: nat)
    requires k < |answers|
    ensures CountDeserved(answers[..k + 1], clock, outcome) ==
            CountDeserved(answers[..k], clock, outcome) + Bit(Deserved(answers[k], clock) == outcome)
  {
    assert answers[..k + 1][..k] == answers[..k];
  }

  /** Mapping is told of a snapshot as of the release of its camera measurement. */
  function MappingJob(s: G.Snapshot): Job
    requires s.camera.Some?
  {
    Job(s.batchId, s.camera.value.source, Store(s))
  }

  predicate HasCamera(batch: G.Batch) {
    exists m <- batch.inputs :: m.stream == G.Camera
  }

  function WithCamera(batches: seq<G.Batch>): nat {
    if batches == [] then 0
    else WithCamera(batches[..|batches| - 1]) + Bit(HasCamera(batches[|batches| - 1]))
  }

  /** The measurements of one stream in the given batches. */
  function InBatches(batches: seq<G.Batch>, s: G.Stream): seq<G.Measurement> {
    if batches == [] then []
    else InBatches(batches[..|batches| - 1], s) + G.OfStream(batches[|batches| - 1].inputs, s)
  }

  /** As many batches are completed as the estimator has completed, those with a camera measurement were
      offered to mapping, and together they hold what was consumed. */
  predicate BatchesFit(batches: seq<G.Batch>, completed: nat, offered: nat, imus: seq<G.Measurement>,
                       cameras: seq<G.Measurement>)
  {
    && completed == |batches| && offered == WithCamera(batches)
    && imus == InBatches(batches, G.Imu) && cameras == InBatches(batches, G.Camera)
  }

  lemma BatchAdded(batches: seq<G.Batch>, completed: nat, offered: nat, imus: seq<G.Measurement>,
                   cameras: seq<G.Measurement>, batch: G.Batch)
    requires BatchesFit(batches, completed, offered, imus, cameras)
    ensures BatchesFit(batches + [batch], completed + 1, offered + Bit(HasCamera(batch)),
                       imus + G.OfStream(batch.inputs, G.Imu), cameras + G.OfStream(batch.inputs, G.Camera))
  {
    assert (batches + [batch])[..|batches|] == batches;
  }

  /** The `k`-th measurement of a stream is released `k - 1` periods after the beginning. */
  predicate OnSchedule(m: G.Measurement, begin: nat, period: nat) {
    m.sequence > 0 && m.source == begin + (m.sequence - 1) * period
  }

  predicate JobsOnSchedule(jobs: seq<Job>, begin: nat, period: nat) {
    forall i :: 0 <= i < |jobs| ==>
      && jobs[i].action.Deliver? && OnSchedule(jobs[i].action.m, begin, period)
      && jobs[i].id == jobs[i].action.m.sequence && jobs[i].release == jobs[i].action.m.source
  }

  predicate AllOnSchedule(ms: seq<G.Measurement>, begin: nat, period: nat) {
    forall i :: 0 <= i < |ms| ==> OnSchedule(ms[i], begin, period)
  }

  lemma ReleasedWhenDue(count: nat, next: nat, begin: nat, end: nat, answer: Answered, clock: nat -> nat)
    requires Releases(count, next, begin, end, CONTROL_PERIOD)
    requires answer.id == count + 1 && next <= clock(answer.reading)
    ensures Due(answer, clock, begin)
  {
  }

  lemma ScheduleTail(jobs: seq<Job>, accepted: seq<G.Measurement>, begin: nat, period: nat)
    requires jobs != [] && JobsOnSchedule(jobs, begin, period) && AllOnSchedule(accepted, begin, period)
    ensures jobs[0].action.Deliver? && JobsOnSchedule(jobs[1..], begin, period)
    ensures AllOnSchedule(accepted + [jobs[0].action.m], begin, period)
    ensures accepted + [] == accepted
  {
  }

  lemma ScheduleMore(jobs: seq<Job>, count: nat, next: nat, job: Job, begin: nat, end: nat, period: nat)
    requires Releases(count, next, begin, end, period) && JobsOnSchedule(jobs, begin, period)
    requires job.action.Deliver? && job.action.m.sequence == job.id == count + 1
    requires job.action.m.source == job.release == next
    ensures JobsOnSchedule(jobs + [job], begin, period)
  {
    assert OnSchedule(job.action.m, begin, period);
  }

  // ---------------------------------------------------------------- the main loop

  class Workload {
    const clock: nat -> nat
    const finished: (nat, nat) -> bool
    const begin: nat
    const end: nat
    const graph: G.DependentGraph
    const imu: Worker
    const camera: Worker
    const estimator: Worker
    const control: Worker
    const mapping: Worker

    var readings: nat
    var nextImu: nat
    var nextCamera: nat
    var nextControl: nat
    var imuId: nat
    var cameraId: nat
    var controlId: nat
    var usable: nat
    var stale: nat
    var missing: nat
    ghost var world: G.World
    ghost var answers: seq<Answered>
    ghost var batches: seq<G.Batch>

    ghost predicate Distinct()
    {
      && imu != camera && imu != estimator && imu != control && imu != mapping && camera != estimator
      && camera != control && camera != mapping && estimator != control && estimator != mapping && control != mapping
    }

    ghost function Now(): nat
      reads this`readings
    {
      clock(readings)
    }

    ghost predicate GraphOk()
      reads this`world, this`readings, graph
    {
      && Monotone(clock) && world.core == graph.State() && G.Inv(world) && graph.Valid() && graph.clock <= Now()
      && graph.capacity == QUEUE_CAPACITY && graph.limit == BATCH_LIMIT
    }

    /** The worker, given the last sequence number and the offer count of its stream in the graph. */
    ghost predicate ImuOk(last: Option<nat>, offered: nat)
      reads this`imuId, this`nextImu, this`readings, imu
    {
      && imu.Valid() && Deliveries(imu.Jobs(), G.Imu, last, imuId, Now())
      && offered == imu.completed && imu.offered == imuId
      && Releases(imuId, nextImu, begin, end, IMU_PERIOD)
    }

    /** The worker, given the last sequence number and the offer count of its stream in the graph. */
    ghost predicate CameraOk(last: Option<nat>, offered: nat)
      reads this`cameraId, this`nextCamera, this`readings, camera
    {
      && camera.Valid() && Deliveries(camera.Jobs(), G.Camera, last, cameraId, Now())
      && offered == camera.completed && camera.offered == cameraId
      && Releases(cameraId, nextCamera, begin, end, CAMERA_PERIOD)
    }

    ghost predicate EstimatorOk(running: Option<G.Batch>)
      reads estimator
    {
      estimator.Valid() && HoldsBatch(estimator.Jobs(), running)
    }

    ghost predicate ControlOk()
      reads this`controlId, this`nextControl, this`usable, this`stale, this`missing, control
    {
      && control.Valid() && Answers(control.Jobs()) && usable + stale + missing == control.completed
      && control.offered == controlId
      && Releases(controlId, nextControl, begin, end, CONTROL_PERIOD)
    }

    ghost predicate AnswersOk(consumed: seq<G.Measurement>)
      reads this`answers, this`usable, this`stale, this`missing, control
    {
      AnswersFit(answers, clock, begin, control.completed, control.Jobs(), Outcomes(usable, stale, missing), consumed)
    }

    ghost predicate BatchesOk(imuConsumed: seq<G.Measurement>, cameraConsumed: seq<G.Measurement>)
      reads this`batches, estimator, mapping
    {
      estimator.dropped == 0 && BatchesFit(batches, estimator.completed, mapping.offered, imuConsumed, cameraConsumed)
    }

    ghost predicate ImuSchedule(accepted: seq<G.Measurement>)
      reads imu
    {
      JobsOnSchedule(imu.Jobs(), begin, IMU_PERIOD) && AllOnSchedule(accepted, begin, IMU_PERIOD)
    }

    ghost predicate CameraSchedule(accepted: seq<G.Measurement>)
      reads camera
    {
      JobsOnSchedule(camera.Jobs(), begin, CAMERA_PERIOD) && AllOnSchedule(accepted, begin, CAMERA_PERIOD)
    }

    /** What still has to be done, weighted so that every hand-over makes it less: a queued measurement
        counts more than one in an inbox, that more than a batch, that more than a mapping job. */
    ghost function Load(): nat
      reads graph, imu, camera, estimator, control, mapping
    {
      4 * |imu.Jobs()| + 4 * |camera.Jobs()| + 3 * |graph.imu.inbox| + 3 * |graph.camera.inbox| +
      2 * |estimator.Jobs()| + |control.Jobs()| + |mapping.Jobs()|
    }

    ghost predicate NoJobs()
      reads imu, camera, estimator, control, mapping
    {
      imu.Jobs() == camera.Jobs() == estimator.Jobs() == control.Jobs() == mapping.Jobs() == []
    }

    /** Nothing is queued, busy or waiting in an inbox. */
    ghost predicate Idle()
      reads graph, imu, camera, estimator, control, mapping
    {
      NoJobs() && graph.imu.inbox == graph.camera.inbox == []
    }

    /** Every worker that has a job is working on one. */
    ghost predicate Dispatched()
      reads imu, camera, estimator, control, mapping
    {
      && (imu.Jobs() != [] ==> imu.busy) && (camera.Jobs() != [] ==> camera.busy)
      && (estimator.Jobs() != [] ==> estimator.busy) && (control.Jobs() != [] ==> control.busy)
      && (mapping.Jobs() != [] ==> mapping.busy)
    }

    /** All releases have been made. */
    predicate Released()
      reads this
    {
      nextImu >= end && nextCamera >= end && nextControl >= end
    }

    predicate AllFinished(i: nat) {
      finished(i, 0) && finished(i, 1) && finished(i, 2) && finished(i, 3) && finished(i, 4)
    }

    ghost predicate Valid()
      reads this, graph, imu, camera, estimator, control, mapping
    {
      && Distinct() && GraphOk() && EstimatorOk(graph.running) && ControlOk() && mapping.Valid()
      && ImuOk(graph.imu.last, graph.imu.counts.offered) && CameraOk(graph.camera.last, graph.camera.counts.offered)
      && AnswersOk(world.history.imu.consumed)
      && BatchesOk(world.history.imu.consumed, world.history.camera.consumed)
      && ImuSchedule(world.history.imu.accepted) && CameraSchedule(world.history.camera.accepted)
    }

    constructor (clock: nat -> nat, finished: (nat, nat) -> bool, seconds: nat)
      requires Monotone(clock)
      ensures Valid() && fresh(graph)
      ensures fresh(imu) && fresh(camera) && fresh(estimator) && fresh(control) && fresh(mapping)
      ensures this.clock == clock && begin == clock(0) + 100 * MS && end == begin + WindowNs(seconds)
    {
      hide G.Run, Valid, WindowNs, Monotone, Worker.Valid, Worker.Jobs;
      this.clock, this.finished := clock, finished;
      begin, end := clock(0) + 100 * MS, clock(0) + 100 * MS + WindowNs(seconds);
      graph := new G.DependentGraph(QUEUE_CAPACITY, BATCH_LIMIT);
      imu := new Worker();
      camera := new Worker();
      estimator := new Worker();
      control := new Worker();
      mapping := new Worker();
      readings := 0;
      nextImu, nextCamera, nextControl := clock(0) + 100 * MS, clock(0) + 100 * MS, clock(0) + 100 * MS;
      imuId, cameraId, controlId, usable, stale, missing := 0, 0, 0, 0, 0, 0;
      answers, batches := [], [];
      world := G.Run(QUEUE_CAPACITY, BATCH_LIMIT, []);
      new;
      InitiallyValid();
    }

    ghost predicate AtStart()
      reads this, graph, imu, camera, estimator, control, mapping
    {
      && readings == 0 && nextImu == nextCamera == nextControl == begin
      && imuId == cameraId == controlId == usable == stale == missing == 0 && answers == [] && batches == []
      && graph.State() == G.NewGraph(QUEUE_CAPACITY, BATCH_LIMIT)
      && Untouched(imu) && Untouched(camera) && Untouched(estimator) && Untouched(control) && Untouched(mapping)
    }

    predicate Untouched(w: Worker)
      reads w
    {
      w.offered == w.dropped == w.completed == 0 && w.queue == [] && !w.busy && w.slot == w.result == None
    }

    lemma InitiallyValid()
      requires Distinct() && AtStart() && Monotone(clock) && world == G.Run(QUEUE_CAPACITY, BATCH_LIMIT, [])
      ensures Valid()
    {
      hide G.Inv, G.Run, Releases, Monotone;
      InitialWorld();
      NoReleases(begin, end, IMU_PERIOD);
      NoReleases(begin, end, CAMERA_PERIOD);
      NoReleases(begin, end, CONTROL_PERIOD);
      assert imu.Jobs() == camera.Jobs() == estimator.Jobs() == control.Jobs() == [];
      assert GraphOk();
      assert ImuOk(None, 0);
      assert BatchesOk([], []) && ImuSchedule([]) && CameraSchedule([]);
    }

    method ReadClock() returns (t: nat)
      requires Valid()
      modifies this`readings
      ensures Valid() && t == Now() && old(Now()) <= t && readings == old(readings) + 1
    {
      hide G.Inv, Deliveries, Worker.Valid, Worker.Jobs, Releases, AnswersOk, BatchesOk, ImuSchedule, CameraSchedule;
      hide EstimatorOk, ControlOk;
      DeliveriesLater(imu.Jobs(), G.Imu, graph.imu.last, imuId, Now(), clock(readings + 1));
      DeliveriesLater(camera.Jobs(), G.Camera, graph.camera.last, cameraId, Now(), clock(readings + 1));
      readings := readings + 1;
      t := clock(readings);
    }

    // ------------------------------------------------------------ graph calls

    /** A delivery in sequence never throws, touches only its own stream, and is accepted exactly while fewer
        than 32 measurements of the stream wait. */
    method OfferToGraph(m: G.Measurement, t: nat)
      requires GraphOk() && t == Now() && m.source <= t
      requires var last := G.LaneOf(graph.State(), m.stream).last; last.Some? ==> last.value < m.sequence
      modifies this`world, graph
      ensures GraphOk() && graph.running == old(graph.running)
      ensures G.LaneOf(graph.State(), m.stream).last == Some(m.sequence)
      ensures G.LaneOf(graph.State(), m.stream).counts.offered ==
              old(G.LaneOf(graph.State(), m.stream).counts.offered) + 1
      ensures if m.stream.Imu? then graph.camera == old(graph.camera) else graph.imu == old(graph.imu)
      ensures var room := |old(G.LaneOf(graph.State(), m.stream).inbox)| < 32;
              var kept := if room then [m] else [];
              && G.LaneOf(graph.State(), m.stream).inbox == old(G.LaneOf(graph.State(), m.stream).inbox) + kept
              && G.TraceOf(world.history, m.stream).accepted == old(G.TraceOf(world.history, m.stream).accepted) + kept
      ensures G.TraceOf(world.history, m.stream).consumed == old(G.TraceOf(world.history, m.stream).consumed)
      ensures if m.stream.Imu? then world.history.camera == old(world.history.camera)
              else world.history.imu == old(world.history.imu)
    {
      hide G.Inv;
      GraphProofs.InboxesBounded(world);
      var r := graph.Offer(m, t);
      assert !r.Throws?;
      GraphProofs.NextKeepsInv(world, G.Offer(m, t));
      world := G.Next(world, G.Offer(m, t));
    }

    /** Completing the running batch never throws. */
    method CompleteInGraph(batch: G.Batch, t: nat) returns (s: G.Snapshot)
      requires GraphOk() && t == Now() && graph.running == Some(batch)
      modifies this`world, graph
      ensures GraphOk() && graph.running.None? && SameStreams(old(graph.State()), graph.State())
      ensures graph.imu.inbox == old(graph.imu.inbox) && graph.camera.inbox == old(graph.camera.inbox)
      ensures graph.latest == Some(s) && s.batchId == batch.id && (HasCamera(batch) ==> s.camera.Some?)
      ensures world.history.imu.accepted == old(world.history.imu.accepted)
      ensures world.history.camera.accepted == old(world.history.camera.accepted)
      ensures world.history.imu.consumed == old(world.history.imu.consumed) + G.OfStream(batch.inputs, G.Imu)
      ensures world.history.camera.consumed == old(world.history.camera.consumed) + G.OfStream(batch.inputs, G.Camera)
    {
      hide G.Inv, G.OfStream;
      var r := graph.Complete(batch.id, t);
      assert !r.Throws?;
      GraphProofs.NextKeepsInv(world, G.Complete(batch.id, t));
      CameraRetained(batch.inputs, G.SnapshotOr(world.core.latest).camera);
      world := G.Next(world, G.Complete(batch.id, t));
      s := r.snapshot;
    }

    /** Selecting never throws. */
    method SelectFromGraph(t: nat) returns (batch: Option<G.Batch>)
      requires GraphOk() && t == Now() && graph.running.None?
      modifies this`world, graph
      ensures GraphOk() && graph.running == batch && SameStreams(old(graph.State()), graph.State())
      ensures world.history == old(world.history)
      ensures batch.Some? ==> 0 < |batch.value.inputs| <= 8
      ensures batch.None? ==> SameInboxes(old(graph.State()), graph.State())
      ensures batch.None? ==> graph.imu.inbox == graph.camera.inbox == []
      ensures batch.Some? ==>
                |graph.imu.inbox| + |graph.camera.inbox| < |old(graph.imu.inbox)| + |old(graph.camera.inbox)|
    {
      hide G.Inv, G.OfStream, G.Merge, G.Without;
      G.MergeLength(graph.imu.inbox, graph.camera.inbox);
      SelectShrinks(world, t);
      var r := graph.Select(t);
      assert !r.Throws?;
      GraphProofs.NextKeepsInv(world, G.Select(t));
      world := G.Next(world, G.Select(t));
      batch := r.batch;
    }

    /** A control tick never throws, and its outcome is decided by the IMU measurements completed so far. */
    method TickGraph(t: nat, setpoint: nat) returns (outcome: G.Outcome)
      requires GraphOk() && t == Now()
      modifies this`world, graph
      ensures GraphOk() && graph.running == old(graph.running) && SameStreams(old(graph.State()), graph.State())
      ensures graph.imu.inbox == old(graph.imu.inbox) && graph.camera.inbox == old(graph.camera.inbox)
      ensures world.history == old(world.history)
      ensures var consumed := world.history.imu.consumed;
              && (outcome.Missing? <==> consumed == [])
              && (outcome.Usable? <==> exists m <- consumed :: t - m.source <= 20 * MS)
    {
      hide G.Inv;
      GraphProofs.FreshnessFromHistory(world, t, MAX_IMU_AGE);
      var r := graph.Tick(t, setpoint, MAX_IMU_AGE);
      assert !r.Throws?;
      GraphProofs.NextKeepsInv(world, G.Tick(t, setpoint, MAX_IMU_AGE));
      world := G.Next(world, G.Tick(t, setpoint, MAX_IMU_AGE));
      outcome := r.control.outcome;
    }

    // ------------------------------------------------------------ collecting

    /** `imu.collect()`: a finished job offers its measurement to the graph. */
    method CollectImu(i: nat)
      requires Valid()
      modifies this`readings, this`world, graph, imu
      ensures Valid()
      ensures readings >= old(readings)
      ensures Load() <= old(Load()) && (old(imu.busy) && finished(i, 0) ==> Load() < old(Load()))
      ensures old(imu.Jobs()) == [] ==> imu.Jobs() == [] && SameInboxes(old(graph.State()), graph.State())
    {
      hide GraphOk, Deliveries, Worker.Valid, Worker.Jobs, Releases, AnswersOk, BatchesOk, CameraSchedule;
      hide CameraOk, EstimatorOk, ControlOk, JobsOnSchedule, AllOnSchedule;
      if finished(i, 0) {
        imu.Execute();
      }
      var t := ReadClock();
      ghost var jobs, last := imu.Jobs(), graph.imu.last;
      var done := imu.Collect();
      if done.Some? {
        DeliveriesTail(jobs, G.Imu, last, imuId, Now());
        ScheduleTail(jobs, world.history.imu.accepted, begin, IMU_PERIOD);
        OfferToGraph(done.value.action.m, t);
      }
    }

    method CollectCamera(i: nat)
      requires Valid()
      modifies this`readings, this`world, graph, camera
      ensures Valid()
      ensures readings >= old(readings)
      ensures Load() <= old(Load()) && (old(camera.busy) && finished(i, 1) ==> Load() < old(Load()))
      ensures old(camera.Jobs()) == [] ==> camera.Jobs() == [] && SameInboxes(old(graph.State()), graph.State())
    {
      hide GraphOk, Deliveries, Worker.Valid, Worker.Jobs, Releases, AnswersOk, BatchesOk, ImuSchedule;
      hide ImuOk, EstimatorOk, ControlOk, JobsOnSchedule, AllOnSchedule;
      if finished(i, 1) {
        camera.Execute();
      }
      var t := ReadClock();
      ghost var jobs, last := camera.Jobs(), graph.camera.last;
      var done := camera.Collect();
      if done.Some? {
        DeliveriesTail(jobs, G.Camera, last, cameraId, Now());
        ScheduleTail(jobs, world.history.camera.accepted, begin, CAMERA_PERIOD);
        OfferToGraph(done.value.action.m, t);
      }
    }

    /** `estimator.collect()`: a finished batch is completed in the graph, and one that contains a camera
        measurement goes on to mapping with the snapshot's camera measurement. */
    method CollectEstimator(i: nat)
      requires Valid()
      modifies this`readings, this`world, this`batches, graph, estimator, mapping
      ensures Valid()
      ensures readings >= old(readings)
      ensures Load() <= old(Load()) && (old(estimator.busy) && finished(i, 2) ==> Load() < old(Load()))
      ensures mapping.busy == old(mapping.busy)
      ensures old(estimator.Jobs()) == [] ==>
                && estimator.Jobs() == [] && mapping.Jobs() == old(mapping.Jobs())
                && SameInboxes(old(graph.State()), graph.State())
    {
      hide GraphOk, Deliveries, Worker.Valid, Worker.Jobs, Releases, ImuSchedule, CameraSchedule, AnswersOk;
      hide ImuOk, CameraOk, ControlOk, BatchesFit;
      if finished(i, 2) {
        estimator.Execute();
      }
      var t := ReadClock();
      var done := estimator.Collect();
      if done.Some? {
        FinishBatch(done.value.action.batch, t);
      }
    }

    /** The completion closure of a batch. */
    method FinishBatch(batch: G.Batch, t: nat)
      requires GraphOk() && mapping.Valid() && t == Now() && graph.running == Some(batch)
      requires AnswersOk(world.history.imu.consumed) && estimator.dropped == 0 && estimator.completed > 0
      requires BatchesFit(batches, estimator.completed - 1, mapping.offered, world.history.imu.consumed,
                          world.history.camera.consumed)
      requires mapping != estimator && mapping != control
      modifies this`world, this`batches, graph, mapping
      ensures GraphOk() && graph.running.None? && SameStreams(old(graph.State()), graph.State())
      ensures SameInboxes(old(graph.State()), graph.State())
      ensures mapping.Valid() && mapping.busy == old(mapping.busy) && |mapping.Jobs()| <= |old(mapping.Jobs())| + 1
      ensures AnswersOk(world.history.imu.consumed)
      ensures BatchesOk(world.history.imu.consumed, world.history.camera.consumed)
      ensures batches == old(batches) + [batch] && graph.latest.Some? && graph.latest.value.batchId == batch.id
      ensures if HasCamera(batch) && |old(mapping.queue)| < QUEUE_CAPACITY
              then && graph.latest.value.camera.Some?
                   && mapping.Jobs() == old(mapping.Jobs()) + [MappingJob(graph.latest.value)]
              else mapping.Jobs() == old(mapping.Jobs())
      ensures world.history.imu.accepted == old(world.history.imu.accepted)
      ensures world.history.camera.accepted == old(world.history.camera.accepted)
    {
      hide GraphOk, Worker.Valid, Worker.Jobs, HasCamera, AnswersFit, BatchesFit, G.OfStream;
      AnswersLater(answers, clock, begin, control.completed, control.Jobs(), Outcomes(usable, stale, missing),
                   world.history.imu.consumed, G.OfStream(batch.inputs, G.Imu));
      BatchAdded(batches, estimator.completed - 1, mapping.offered, world.history.imu.consumed,
                 world.history.camera.consumed, batch);
      var snapshot := CompleteInGraph(batch, t);
      if HasCamera(batch) {
        var accepted := mapping.Offer(MappingJob(snapshot));
      }
      batches := batches + [batch];
    }

    method CollectControl(i: nat)
      requires Valid()
      modifies this`usable, this`stale, this`missing, control
      ensures Valid()
      ensures Load() <= old(Load()) && (old(control.busy) && finished(i, 3) ==> Load() < old(Load()))
      ensures old(control.Jobs()) == [] ==> control.Jobs() == []
    {
      hide GraphOk, Deliveries, Worker.Valid, Worker.Jobs, Releases, BatchesOk, ImuSchedule, CameraSchedule;
      hide ImuOk, CameraOk, EstimatorOk, AnswersFit;
      if finished(i, 3) {
        control.Execute();
      }
      ghost var k, jobs := control.completed, control.Jobs();
      var done := control.Collect();
      if done.Some? {
        AnswerCounted(answers, clock, begin, k, jobs, Outcomes(usable, stale, missing), world.history.imu.consumed);
        CountOutcome(done.value.action.outcome);
      }
    }

    method CountOutcome(outcome: G.Outcome)
      modifies this`usable, this`stale, this`missing
      ensures Outcomes(usable, stale, missing) == Counted(old(Outcomes(usable, stale, missing)), outcome)
    {
      match outcome
      case Usable => usable := usable + 1;
      case Stale => stale := stale + 1;
      case Missing => missing := missing + 1;
    }

    method CollectMapping(i: nat)
      requires Valid()
      modifies mapping
      ensures Valid()
      ensures Load() <= old(Load()) && (old(mapping.busy) && finished(i, 4) ==> Load() < old(Load()))
      ensures old(mapping.Jobs()) == [] ==> mapping.Jobs() == []
    {
      hide GraphOk, Deliveries, Worker.Valid, Worker.Jobs, Releases, AnswersOk, ImuSchedule, CameraSchedule;
      hide ImuOk, CameraOk, EstimatorOk, ControlOk, BatchesFit;
      if finished(i, 4) {
        mapping.Execute();
      }
      var done := mapping.Collect();
    }

    // ------------------------------------------------------------ releasing

    method ReleaseImu(t: nat)
      requires Valid() && t <= Now()
      modifies this`imuId, this`nextImu, imu
      ensures Valid() && (nextImu >= end || nextImu > t)
      ensures old(nextImu) >= end ==> nextImu == old(nextImu) && unchanged(imu)
    {
      hide G.Inv, Deliveries, Worker.Valid, Worker.Jobs, AnswersOk, BatchesOk, CameraSchedule;
      hide CameraOk, EstimatorOk, ControlOk, JobsOnSchedule, AllOnSchedule;
      while nextImu < end && nextImu <= t
        invariant Valid() && Now() == old(Now())
        invariant old(nextImu) >= end ==> nextImu == old(nextImu) && unchanged(imu)
        decreases end - nextImu
      {
        var job := Job(imuId + 1, nextImu, Deliver(G.Measurement(G.Imu, imuId + 1, nextImu)));
        DeliveriesAppend(imu.Jobs(), G.Imu, graph.imu.last, imuId, Now(), job);
        ScheduleMore(imu.Jobs(), imuId, nextImu, job, begin, end, IMU_PERIOD);
        var accepted := imu.Offer(job);
        imuId := imuId + 1;
        nextImu := nextImu + IMU_PERIOD;
      }
    }

    method ReleaseCamera(t: nat)
      requires Valid() && t <= Now()
      modifies this`cameraId, this`nextCamera, camera
      ensures Valid() && (nextCamera >= end || nextCamera > t)
      ensures old(nextCamera) >= end ==> nextCamera == old(nextCamera) && unchanged(camera)
    {
      hide G.Inv, Deliveries, Worker.Valid, Worker.Jobs, AnswersOk, BatchesOk, ImuSchedule;
      hide ImuOk, EstimatorOk, ControlOk, JobsOnSchedule, AllOnSchedule;
      while nextCamera < end && nextCamera <= t
        invariant Valid() && Now() == old(Now())
        invariant old(nextCamera) >= end ==> nextCamera == old(nextCamera) && unchanged(camera)
        decreases end - nextCamera
      {
        var job := Job(cameraId + 1, nextCamera, Deliver(G.Measurement(G.Camera, cameraId + 1, nextCamera)));
        DeliveriesAppend(camera.Jobs(), G.Camera, graph.camera.last, cameraId, Now(), job);
        ScheduleMore(camera.Jobs(), cameraId, nextCamera, job, begin, end, CAMERA_PERIOD);
        var accepted := camera.Offer(job);
        cameraId := cameraId + 1;
        nextCamera := nextCamera + CAMERA_PERIOD;
      }
    }

    method ReleaseControl(t: nat)
      requires Valid() && t <= Now()
      modifies this`readings, this`world, this`answers, this`controlId, this`nextControl, graph, control
      ensures Valid() && (nextControl >= end || nextControl > t) && readings >= old(readings)
      ensures old(nextControl) >= end ==> nextControl == old(nextControl) && unchanged(control) && unchanged(graph)
    {
      hide Valid;
      while nextControl < end && nextControl <= t
        invariant Valid() && readings >= old(readings) && t <= Now()
        invariant old(nextControl) >= end ==> nextControl == old(nextControl) && unchanged(control) && unchanged(graph)
        decreases end - nextControl
      {
        ReleaseOneControl();
      }
    }

    /** A control release while the previous one is unfinished counts as offered and dropped. */
    method ReleaseOneControl()
      requires Valid() && nextControl < end && nextControl <= Now()
      modifies this`readings, this`world, this`answers, this`controlId, this`nextControl, graph, control
      ensures Valid() && nextControl == old(nextControl) + CONTROL_PERIOD && readings >= old(readings)
      ensures Now() >= old(Now())
    {
      hide GraphOk, Deliveries, Worker.Valid, Worker.Jobs, Releases, BatchesOk, ImuSchedule, CameraSchedule;
      hide ImuOk, CameraOk, EstimatorOk, AnswersFit;
      control.IdleIffNoJobs();
      if control.busy || control.queue != [] {
        ReleaseOnce(controlId, nextControl, begin, end, CONTROL_PERIOD);
        control.Refuse();
        controlId, nextControl := controlId + 1, nextControl + CONTROL_PERIOD;
      } else {
        AnswerControl();
      }
    }

    /** A control tick at a new clock reading. */
    method TickNow(setpoint: nat) returns (outcome: G.Outcome)
      requires Valid()
      modifies this`readings, this`world, graph
      ensures Valid() && readings > old(readings) && Now() >= old(Now()) && world.history == old(world.history)
      ensures var consumed := world.history.imu.consumed;
              && (outcome.Missing? <==> consumed == [])
              && (outcome.Usable? <==> exists m <- consumed :: Now() - m.source <= 20 * MS)
    {
      hide GraphOk, AnswersOk, BatchesOk, ImuSchedule, CameraSchedule, ImuOk, CameraOk, EstimatorOk, ControlOk;
      var t := ReadClock();
      outcome := TickGraph(t, setpoint);
    }

    /** Otherwise its outcome is frozen now, from the graph's current snapshot. */
    method AnswerControl()
      requires Valid() && nextControl < end && nextControl <= Now() && control.Jobs() == []
      modifies this`readings, this`world, this`answers, this`controlId, this`nextControl, graph, control
      ensures Valid() && nextControl == old(nextControl) + CONTROL_PERIOD && readings >= old(readings)
      ensures Now() >= old(Now())
      ensures answers == old(answers) + [Answered(controlId, readings, world.history.imu.consumed)]
    {
      hide GraphOk, Deliveries, Worker.Valid, Worker.Jobs, Releases, BatchesOk, ImuSchedule, CameraSchedule;
      hide ImuOk, CameraOk, EstimatorOk, AnswersFit, Deserved, Due;
      ReleaseOnce(controlId, nextControl, begin, end, CONTROL_PERIOD);
      var release, id := nextControl, controlId + 1;
      var outcome := TickNow(id / 100);
      ghost var answer := Answered(id, readings, world.history.imu.consumed);
      var job := Job(id, release, Answer(outcome));
      ReleasedWhenDue(controlId, nextControl, begin, end, answer, clock);
      AnswerAdded(answers, clock, begin, control.completed, Outcomes(usable, stale, missing),
                  world.history.imu.consumed, answer, outcome, job);
      var accepted := control.Offer(job);
      assert control.Jobs() == [job];
      answers := answers + [answer];
      controlId, nextControl := id, nextControl + CONTROL_PERIOD;
    }

    // ------------------------------------------------------------ selecting and dispatching

    /** The estimator gets a new batch only when it holds none, so the batch is never refused. */
    method SelectBatch()
      requires Valid()
      modifies this`readings, this`world, graph, estimator
      ensures Valid() && readings >= old(readings) && Load() <= old(Load())
      ensures old(estimator.Jobs()) == [] && old(graph.imu.inbox) + old(graph.camera.inbox) != [] ==>
                Load() < old(Load())
    {
      hide GraphOk, Deliveries, Worker.Valid, Worker.Jobs, Releases, AnswersOk, ImuSchedule, CameraSchedule;
      hide ImuOk, CameraOk, ControlOk, BatchesFit;
      estimator.IdleIffNoJobs();
      if !estimator.busy && estimator.queue == [] {
        var now := ReadClock();
        var batch := SelectFromGraph(now);
        if batch.Some? {
          var release := batch.value.inputs[0].source;
          var accepted := estimator.Offer(Job(batch.value.id, release, Finish(batch.value)));
        }
      }
    }

    method DispatchAll()
      requires Valid()
      modifies imu, camera, estimator, control, mapping
      ensures Valid() && Dispatched() && Load() == old(Load())
    {
      hide G.Inv, Deliveries, Worker.Valid, Worker.Jobs, Releases;
      hide AnswersFit, BatchesFit, JobsOnSchedule, AllOnSchedule;
      imu.Dispatch();
      camera.Dispatch();
      estimator.Dispatch();
      control.Dispatch();
      mapping.Dispatch();
    }

    predicate Quiet(w: Worker)
      reads w
    {
      !w.busy && w.queue == []
    }

    /** One iteration of the loop: whether the loop exits, and the clock reading that decides. It exits
        exactly when that reading has reached the end of the window and nothing is left to do. When all
        releases have been made and every worker finishes what it works on, an iteration leaves less to
        do than it found. */
    method Iterate(i: nat) returns (exit: bool, t: nat)
      requires Valid()
      modifies this, graph, imu, camera, estimator, control, mapping
      ensures Valid() && Dispatched() && t >= old(Now()) && readings > old(readings)
      ensures exit <==> t >= end && Idle()
      ensures t >= end ==> Released()
      ensures old(Released() && Dispatched()) && AllFinished(i) ==> Load() == 0 || Load() < old(Load())
    {
      hide Valid, Load, Worker.Jobs, Worker.Valid;
      ghost var first := readings;
      CollectAll(i);
      t := ReadClock();
      ReadingsReach(first, first);
      ReleaseAndSelect(t);
      DispatchAll();
      exit := Drained(t);
    }

    /** The middle of the loop body. */
    method ReleaseAndSelect(t: nat)
      requires Valid() && t <= Now()
      modifies this, graph, imu, camera, estimator, control
      ensures Valid() && readings >= old(readings)
      ensures t >= end ==> Released()
      ensures old(Released()) ==> Load() <= old(Load())
      ensures old(Released() && NoJobs()) ==> Load() == 0 || Load() < old(Load())
    {
      hide Valid, Load, Worker.Jobs, Worker.Valid;
      ReleaseAll(t);
      NothingToDo();
      SelectBatch();
    }

    /** `collect` for every worker, in the order of the loop. */
    method CollectAll(i: nat)
      requires Valid()
      modifies this, graph, imu, camera, estimator, control, mapping
      ensures Valid() && readings >= old(readings) && Load() <= old(Load())
      ensures nextImu == old(nextImu) && nextCamera == old(nextCamera) && nextControl == old(nextControl)
      ensures old(Dispatched()) && AllFinished(i) && !old(NoJobs()) ==> Load() < old(Load())
      ensures old(NoJobs()) ==> NoJobs() && SameInboxes(old(graph.State()), graph.State())
    {
      hide Valid, Load, Worker.Jobs;
      CollectImu(i);
      CollectCamera(i);
      CollectEstimator(i);
      CollectControl(i);
      CollectMapping(i);
    }

    method ReleaseAll(t: nat)
      requires Valid() && t <= Now()
      modifies this, graph, imu, camera, control
      ensures Valid() && readings >= old(readings)
      ensures t >= end ==> Released()
      ensures old(Released()) ==>
                && Released() && Load() == old(Load()) && NoJobs() == old(NoJobs())
                && SameInboxes(old(graph.State()), graph.State())
    {
      hide Valid, Worker.Jobs;
      ReleaseImu(t);
      ReleaseCamera(t);
      ReleaseControl(t);
    }

    lemma NothingToDo()
      ensures Load() == 0 <==> Idle()
    {
    }

    /** The exit test. */
    method Drained(t: nat) returns (exit: bool)
      requires Valid()
      ensures exit <==> t >= end && Idle()
    {
      hide G.Inv, Deliveries, HoldsBatch, Answers, Releases, Worker.Valid, Worker.Jobs;
      imu.IdleIffNoJobs();
      camera.IdleIffNoJobs();
      estimator.IdleIffNoJobs();
      control.IdleIffNoJobs();
      mapping.IdleIffNoJobs();
      exit := t >= end && Quiet(imu) && Quiet(camera) && Quiet(estimator) && Quiet(control) && Quiet(mapping) &&
              graph.imu.inbox == [] && graph.camera.inbox == [];
    }

    /** No state has more left to do than full queues and inboxes. */
    lemma LoadBounded()
      requires Valid()
      ensures Load() <= MAX_LOAD
    {
      hide G.Inv, Deliveries, Releases, Worker.Valid, Worker.Jobs, Monotone;
      imu.IdleIffNoJobs();
      camera.IdleIffNoJobs();
      mapping.IdleIffNoJobs();
      GraphProofs.InboxesBounded(world);
    }

    /** At loop boundaries the graph has a running batch exactly when the estimator holds a job, and that
        job is the batch's. */
    lemma RunningIffHeld()
      requires Valid()
      ensures graph.running.Some? <==> estimator.busy || estimator.queue != []
      ensures graph.running.Some? ==>
                estimator.Jobs() == [estimator.Jobs()[0]] && estimator.Jobs()[0].action == Finish(graph.running.value)
    {
      hide G.Inv, Deliveries;
      assert graph.running.Some? ==> |estimator.Jobs()| == 1;
    }

    /** From iteration `from` on every worker has always finished the job it works on when the loop collects,
        and the clock has reached the end of the window. */
    ghost predicate EventuallyFinished(from: nat) {
      clock(from) >= end && forall i, k :: from <= i ==> finished(i, k)
    }

    /** The loop, cut off after `limit` iterations. When it exits by itself: exactly the releases of the
        measurement window were offered, every worker has completed or dropped each of its jobs, the graph
        has seen exactly the completed IMU and camera jobs and consumed or dropped each of them, and
        nothing is pending or in flight. And it does exit, within a fixed number of iterations from the one
        on which the workers keep up and the clock has reached the end of the window. */
    method Drive(limit: nat, seconds: nat, ghost from: nat) returns (drained: bool)
      requires Valid() && end == begin + WindowNs(seconds)
      modifies this, graph, imu, camera, estimator, control, mapping
      ensures Valid()
      ensures drained ==> Accounts(seconds)
      ensures EventuallyFinished(from) && limit > from + MAX_LOAD ==> drained
    {
      hide Valid, Load, Idle, Dispatched;
      for i := 0 to limit
        invariant Valid() && readings >= i && (i > 0 ==> Dispatched())
        invariant EventuallyFinished(from) && i > from ==> Released() && 0 < Load() <= MAX_LOAD - (i - from - 1)
      {
        ReadingsReach(i, from);
        ghost var t;
        drained, t := Iterate(i);
        NothingToDo();
        if drained {
          Settled(seconds);
          return;
        }
        LoadBounded();
      }
      drained := false;
    }

    lemma ReadingsReach(i: nat, from: nat)
      requires Valid() && i <= readings
      ensures clock(i) <= Now()
      ensures from <= i && clock(from) >= end ==> Now() >= end
    {
    }

    /** The final accounts: the releases made; worker jobs; control outcomes, each the number of answered
        releases that deserve it; every batch executed, and mapping offered those with a camera measurement;
        and both streams of the graph, whose accepted measurements are on schedule and went into the
        batches, all of them and in order. */
    ghost predicate Accounts(seconds: nat)
      reads this, graph, imu, camera, estimator, control, mapping
    {
      && imu.offered == 200 * seconds && camera.offered == 20 * seconds && control.offered == 100 * seconds
      && Balanced(imu) && Balanced(camera) && Balanced(estimator) && Balanced(control) && Balanced(mapping)
      && |answers| == control.completed == usable + stale + missing
      && usable == CountDeserved(answers, clock, G.Usable) && stale == CountDeserved(answers, clock, G.Stale)
      && missing == CountDeserved(answers, clock, G.Missing)
      && estimator.offered == estimator.completed == |batches| && mapping.offered == WithCamera(batches)
      && world.history.imu.consumed == world.history.imu.accepted == InBatches(batches, G.Imu)
      && world.history.camera.consumed == world.history.camera.accepted == InBatches(batches, G.Camera)
      && AllOnSchedule(world.history.imu.accepted, begin, IMU_PERIOD)
      && AllOnSchedule(world.history.camera.accepted, begin, CAMERA_PERIOD)
      && graph.running.None? && graph.imu.inbox == graph.camera.inbox == []
      && graph.imu.counts.offered == imu.completed == graph.imu.counts.consumed + graph.imu.counts.dropped
      && graph.camera.counts.offered == camera.completed == graph.camera.counts.consumed + graph.camera.counts.dropped
    }

    predicate Balanced(w: Worker)
      reads w
    {
      w.offered == w.completed + w.dropped
    }

    lemma Settled(seconds: nat)
      requires Valid() && end == begin + WindowNs(seconds)
      requires Released() && Idle()
      ensures Accounts(seconds)
    {
      hide Deliveries, Monotone, Releases, WindowNs, CountDeserved, WithCamera, InBatches;
      hide AllOnSchedule, JobsOnSchedule;
      assert answers[..|answers|] == answers;
      WholeWindow(imuId, nextImu, begin, seconds, IMU_PERIOD, 200);
      WholeWindow(cameraId, nextCamera, begin, seconds, CAMERA_PERIOD, 20);
      WholeWindow(controlId, nextControl, begin, seconds, CONTROL_PERIOD, 100);
      assert G.InFlight(world.core, G.Imu) == [] && G.InFlight(world.core, G.Camera) == [];
    }
  }

  predicate SameInboxes(a: G.Core, b: G.Core) {
    a.imu.inbox == b.imu.inbox && a.camera.inbox == b.camera.inbox
  }

  /** A batch leaves fewer measurements in the inboxes. */
  lemma SelectShrinks(w: G.World, t: nat)
    requires G.Inv(w)
    ensures var (c, reply) := G.DoSelect(w.core, t);
            reply.Selected? && reply.batch.Some? ==>
              |c.imu.inbox| + |c.camera.inbox| < |w.core.imu.inbox| + |w.core.camera.inbox|
  {
    hide G.Merge, G.OfStream, G.Without;
    var (c, reply) := G.DoSelect(w.core, t);
    if reply.Selected? && reply.batch.Some? {
      GraphProofs.SelectMoves(w, t);
      var inputs := reply.batch.value.inputs;
      assert |G.OfStream(inputs, G.Imu)| + |c.imu.inbox| == |w.core.imu.inbox|;
      assert |G.OfStream(inputs, G.Camera)| + |c.camera.inbox| == |w.core.camera.inbox|;
      InStream(inputs, inputs[0]);
      if inputs[0].stream.Imu? {
        assert G.OfStream(inputs, G.Imu) != [];
      } else {
        assert G.OfStream(inputs, G.Camera) != [];
      }
    }
  }

  predicate SameStreams(a: G.Core, b: G.Core) {
    && a.imu.last == b.imu.last && a.imu.counts.offered == b.imu.counts.offered
    && a.camera.last == b.camera.last && a.camera.counts.offered == b.camera.counts.offered
  }

  /** A batch with a camera measurement leaves a camera measurement in the snapshot. */
  lemma {:induction false} CameraRetained(inputs: seq<G.Measurement>, last: Option<G.Measurement>)
    ensures (exists m <- inputs :: m.stream == G.Camera) ==> G.Retained(last, G.OfStream(inputs, G.Camera)).Some?
  {
    if m :| m in inputs && m.stream == G.Camera {
      InStream(inputs, m);
    }
  }

  lemma {:induction false} InStream(ms: seq<G.Measurement>, m: G.Measurement)
    requires m in ms
    ensures G.OfStream(ms, m.stream) != []
  {
    var n := |ms| - 1;
    if ms[n] != m {
      InStream(ms[..n], m);
    }
  }
}
