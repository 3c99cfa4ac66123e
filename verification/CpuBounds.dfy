/**
 CPU time before the cutoff: `CpuWindowBounds` of demo/window_metrics.h, the sampling loop
 `measured_work_us` of demo/slam_pipeline_demo.cpp and the per-stage sums.

 The clocks are parameters. `cpuAt(t)` is the CPU time the thread has used at wall time `t`; the i-th
 reading of a job is a wall reading, a CPU reading at some instant `at` nobody knows, and another wall
 reading. The loop never looks at `at`.
 */
module CpuBounds {

  datatype Reading = Reading(before: nat, at: nat, cpu: nat, after: nat)

  ghost predicate Nondecreasing(cpuAt: nat -> nat) {
    forall s: nat, t: nat :: s <= t ==> cpuAt(s) <= cpuAt(t)
  }

  /** Each CPU reading lies between its two wall readings, and readings follow one another. */
  ghost predicate Clocked(r: nat -> Reading, cpuAt: nat -> nat) {
    && Nondecreasing(cpuAt)
    && (forall i: nat :: r(i).before <= r(i).at <= r(i).after && r(i).cpu == cpuAt(r(i).at))
    && (forall i: nat :: r(i).after <= r(i + 1).before)
  }

  lemma {:induction false} InOrder(r: nat -> Reading, cpuAt: nat -> nat, i: nat, j: nat)
    requires Clocked(r, cpuAt) && i < j
    ensures r(i).after <= r(j).before
    decreases j
  {
    assert r(j - 1).after <= r(j - 1 + 1).before;
    if i < j - 1 {
      InOrder(r, cpuAt, i, j - 1);
      assert r(j - 1).before <= r(j - 1).after;
    }
  }

  lemma Grows(r: nat -> Reading, cpuAt: nat -> nat, i: nat, j: nat)
    requires Clocked(r, cpuAt) && i <= j
    ensures r(i).at <= r(j).at && r(i).cpu <= r(j).cpu
  {
    if i < j {
      InOrder(r, cpuAt, i, j);
    }
    assert r(i).at <= r(i).after && r(j).before <= r(j).at;
  }

  predicate Straddles(x: Reading, cutoff: nat) {
    x.before < cutoff < x.after
  }

  /** At most one sample straddles the cutoff. */
  lemma OneStraddles(r: nat -> Reading, cpuAt: nat -> nat, cutoff: nat, i: nat, j: nat)
    requires Clocked(r, cpuAt) && Straddles(r(i), cutoff) && Straddles(r(j), cutoff)
    ensures i == j
  {
    if i < j {
      InOrder(r, cpuAt, i, j);
    } else if j < i {
      InOrder(r, cpuAt, j, i);
    }
  }

  /** The CPU time really used before the cutoff between readings 0 and `last`. */
  function UsedBefore(cutoff: nat, r: nat -> Reading, cpuAt: nat -> nat, last: nat): int {
    if cutoff <= r(0).at then 0
    else if cutoff <= r(last).at then cpuAt(cutoff) - r(0).cpu
    else r(last).cpu - r(0).cpu
  }

  // ---------------------------------------------------------------- the bounds object

  datatype Bounds = Bounds(lower: nat, upper: nat, closed: bool)

  class CpuWindowBounds {
    const cutoff: nat
    var lower: nat
    var upper: nat
    var closed: bool

    function State(): Bounds
      reads this
    {
      Bounds(lower, upper, closed)
    }

    constructor (cutoff: nat)
      ensures this.cutoff == cutoff && State() == Bounds(0, 0, false)
    {
      this.cutoff := cutoff;
      lower, upper, closed := 0, 0, false;
    }

    method Sample(elapsed: nat, before: nat, after: nat)
      modifies this
      ensures old(closed) ==> State() == old(State())
      ensures !old(closed) ==> && lower == (if after <= cutoff then elapsed else old(lower))
                               && closed == (cutoff <= before)
                               && upper == (if closed then elapsed else old(upper))
    {
      if closed {
        return;
      }
      if after <= cutoff {
        lower := elapsed;
      }
      if before >= cutoff {
        upper := elapsed;
        closed := true;
      }
    }

    method Finish(total: nat)
      modifies this
      ensures State() == if old(closed) then old(State()) else Bounds(old(lower), total, false)
    {
      if !closed {
        upper := total;
      }
    }
  }

  // ---------------------------------------------------------------- what the samples know

  /** After samples 0 to `k`: `lower` was read at sample `i` and `upper`, once known, at sample `j`. An
      open object is at most one sample behind, and then the latest sample reaches past the cutoff. */
  predicate Knows(b: Bounds, cutoff: nat, r: nat -> Reading, k: nat, i: nat, j: nat) {
    && i <= k
    && b.lower == r(i).cpu - r(0).cpu && (i == 0 || r(i).after <= cutoff)
    && (if b.closed
        then && j <= k && i <= j <= i + 2 && b.upper == r(j).cpu - r(0).cpu && cutoff <= r(j).before
             && (j > 0 ==> r(j - 1).before < cutoff) && (r(j).after <= cutoff ==> i == j)
        else && r(k).before < cutoff
             && (i == k || (k == i + 1 && cutoff < r(k).after)) && (r(k).after <= cutoff ==> i == k))
  }

  /** What an object knows about the job that ends with reading `last`. */
  predicate Sound(lower: nat, upper: nat, cutoff: nat, r: nat -> Reading, cpuAt: nat -> nat, last: nat) {
    && lower <= UsedBefore(cutoff, r, cpuAt, last) <= upper <= r(last).cpu - r(0).cpu
    && (lower < upper ==> r(0).before < cutoff < r(last).after)
  }

  /** The two ends are at most two samples apart. */
  ghost predicate Tight(lower: nat, upper: nat, r: nat -> Reading, last: nat) {
    exists i: nat, j: nat :: i <= j <= i + 2 && j <= last && lower == r(i).cpu - r(0).cpu &&
      upper == r(j).cpu - r(0).cpu
  }

  lemma FirstSampleKnows(b: Bounds, cutoff: nat, r: nat -> Reading, cpuAt: nat -> nat)
    requires Clocked(r, cpuAt) && b == Bounds(0, 0, cutoff <= r(0).before)
    ensures Knows(b, cutoff, r, 0, 0, 0)
  {
  }

  lemma SoundInOrder(lower: nat, upper: nat, cutoff: nat, r: nat -> Reading, cpuAt: nat -> nat, last: nat)
    requires Sound(lower, upper, cutoff, r, cpuAt, last)
    ensures lower <= upper
  {
  }

  lemma SampleKnows(b: Bounds, b': Bounds, cutoff: nat, r: nat -> Reading, cpuAt: nat -> nat, k: nat, i: nat, j: nat)
    returns (i': nat, j': nat)
    requires Clocked(r, cpuAt) && Knows(b, cutoff, r, k, i, j) && !b.closed
    requires var x := r(k + 1); var elapsed := x.cpu - r(0).cpu;
             && b'.lower == (if x.after <= cutoff then elapsed else b.lower)
             && b'.closed == (cutoff <= x.before)
             && b'.upper == (if b'.closed then elapsed else b.upper)
    ensures Knows(b', cutoff, r, k + 1, i', j')
  {
    assert r(k).after <= r(k + 1).before <= r(k + 1).after;
    i', j' := if r(k + 1).after <= cutoff then k + 1 else i, k + 1;
  }

  /** A lower end read before the cutoff and an upper end read after it (or at the end of the job). */
  lemma EndsAreSound(lower: nat, upper: nat, cutoff: nat, r: nat -> Reading, cpuAt: nat -> nat, i: nat, e: nat,
                     last: nat)
    requires Clocked(r, cpuAt) && i <= e <= last
    requires lower == r(i).cpu - r(0).cpu && upper == r(e).cpu - r(0).cpu
    requires (i == 0 || r(i).after <= cutoff) && (e == last || cutoff <= r(e).before)
    ensures lower <= UsedBefore(cutoff, r, cpuAt, last) <= upper <= r(last).cpu - r(0).cpu
  {
    Grows(r, cpuAt, 0, i);
    Grows(r, cpuAt, i, e);
    Grows(r, cpuAt, e, last);
    assert r(0).cpu == cpuAt(r(0).at) && r(i).cpu == cpuAt(r(i).at) && r(e).cpu == cpuAt(r(e).at);
  }

  lemma KnowsIsSound(b: Bounds, cutoff: nat, r: nat -> Reading, cpuAt: nat -> nat, k: nat, i: nat, j: nat, last: nat)
    requires Clocked(r, cpuAt) && Knows(b, cutoff, r, k, i, j) && k <= last && (!b.closed ==> k == last)
    ensures r(last).cpu >= r(0).cpu
    ensures var upper := if b.closed then b.upper else r(last).cpu - r(0).cpu;
            Sound(b.lower, upper, cutoff, r, cpuAt, last) && Tight(b.lower, upper, r, last)
  {
    Grows(r, cpuAt, 0, last);
    var upper := if b.closed then b.upper else r(last).cpu - r(0).cpu;
    var e := if b.closed then j else last;
    EndsAreSound(b.lower, upper, cutoff, r, cpuAt, i, e, last);
    if cutoff <= r(0).before && 0 < e {
      var before := if b.closed then e - 1 else e;
      if before > 0 {
        InOrder(r, cpuAt, 0, before);
      }
      assert r(0).before <= r(0).after;
    }
    if r(last).after <= cutoff && e < last {
      InOrder(r, cpuAt, e, last);
    }
    assert i <= e <= i + 2 && b.lower == r(i).cpu - r(0).cpu && upper == r(e).cpu - r(0).cpu;
  }

  // ---------------------------------------------------------------- one job

  /** One call of `measured_work_us`: the requested work and the clock readings it will see. By reading
      `enough` the thread has used the requested CPU time. */
  datatype Job = Job(us: nat, r: nat -> Reading, enough: nat)

  predicate Reaches(job: Job) {
    && job.enough >= 2 && job.r(1).cpu >= job.r(0).cpu
    && job.r(job.enough).cpu >= job.r(1).cpu + 1000 * job.us
  }

  ghost predicate JobOk(job: Job, cpuAt: nat -> nat) {
    Clocked(job.r, cpuAt) && Reaches(job)
  }

  function FirstReaching(r: nat -> Reading, from: nat, target: nat, enough: nat): (n: nat)
    requires from <= enough && r(enough).cpu >= target
    ensures from <= n <= enough && r(n).cpu >= target
    ensures forall i :: from <= i < n ==> r(i).cpu < target
    decreases enough - from
  {
    if r(from).cpu >= target then from else FirstReaching(r, from + 1, target, enough)
  }

  /** The reading that ends the job. Without a cutoff the work is done by `busy_work_us`, between a CPU
      reading before it and one after it. */
  function Last(job: Job, cutoff: nat): nat
    requires Reaches(job)
  {
    if cutoff == 0 then FirstReaching(job.r, 2, job.r(1).cpu + 1000 * job.us, job.enough) + 1
    else FirstReaching(job.r, 1, job.r(0).cpu + 1000 * job.us, job.enough)
  }

  function Elapsed(job: Job, cutoff: nat): int
    requires Reaches(job)
  {
    job.r(Last(job, cutoff)).cpu - job.r(0).cpu
  }

  function Used(job: Job, cutoff: nat, cpuAt: nat -> nat): int
    requires Reaches(job)
  {
    UsedBefore(cutoff, job.r, cpuAt, Last(job, cutoff))
  }

  /** The job was running at the cutoff. */
  predicate RunningAt(job: Job, cutoff: nat)
    requires Reaches(job)
  {
    job.r(0).before < cutoff < job.r(Last(job, cutoff)).after
  }

  /** `busy_work_us`, reading the CPU clock from reading `from` on; returns the reading that ended it. */
  method BusyWork(job: Job, from: nat) returns (i: nat)
    requires from < job.enough && job.r(job.enough).cpu >= job.r(from).cpu + 1000 * job.us
    ensures i == FirstReaching(job.r, from + 1, job.r(from).cpu + 1000 * job.us, job.enough)
  {
    var target := job.r(from).cpu + 1000 * job.us;
    i := from + 1;
    while job.r(i).cpu < target
      invariant from < i <= job.enough
      invariant forall x :: from < x < i ==> job.r(x).cpu < target
      decreases job.enough - i
    {
      i := i + 1;
    }
  }

  /** `measured_work_us`: the CPU time really used before the cutoff lies between the two bounds added to
      the window's counters, they never exceed the time reported for the job, and they differ only for
      the job running at the cutoff, by the CPU time of at most two sampling steps. */
  method MeasuredWork(cutoff: nat, job: Job, ghost cpuAt: nat -> nat) returns (elapsed: nat, cpu: nat, uncertainty: nat)
    requires JobOk(job, cpuAt)
    ensures elapsed == Elapsed(job, cutoff) >= 1000 * job.us
    ensures cpu <= Used(job, cutoff, cpuAt) <= cpu + uncertainty <= elapsed
    ensures uncertainty > 0 ==> RunningAt(job, cutoff)
    ensures cutoff != 0 ==> Tight(cpu, cpu + uncertainty, job.r, Last(job, cutoff))
  {
    if cutoff == 0 {
      var i := BusyWork(job, 1);
      Grows(job.r, cpuAt, i, i + 1);
      return job.r(i + 1).cpu - job.r(0).cpu, 0, 0;
    }
    elapsed, cpu, uncertainty := SampledWork(cutoff, job, cpuAt);
  }

  /** The sampling loop. */
  method SampledWork(cutoff: nat, job: Job, ghost cpuAt: nat -> nat) returns (elapsed: nat, cpu: nat, uncertainty: nat)
    requires JobOk(job, cpuAt) && cutoff != 0
    ensures elapsed == Elapsed(job, cutoff) >= 1000 * job.us
    ensures Sound(cpu, cpu + uncertainty, cutoff, job.r, cpuAt, Last(job, cutoff))
    ensures Tight(cpu, cpu + uncertainty, job.r, Last(job, cutoff))
  {
    hide Knows, Clocked, Sound, Tight;
    var r := job.r;
    var bounds := new CpuWindowBounds(cutoff);
    var start := r(0).cpu;
    bounds.Sample(0, r(0).before, r(0).after);
    FirstSampleKnows(bounds.State(), cutoff, r, cpuAt);
    var i, more := 0, true;
    ghost var k, low, high := 0, 0, 0;
    elapsed := 0;
    while more
      invariant i <= job.enough && k <= i && (!bounds.closed ==> k == i) && bounds.cutoff == cutoff
      invariant Knows(bounds.State(), cutoff, r, k, low, high)
      invariant elapsed == r(i).cpu - start
      invariant forall x :: 1 <= x < i ==> r(x).cpu < start + 1000 * job.us
      invariant more <==> i == 0 || r(i).cpu < start + 1000 * job.us
      decreases job.enough - i
    {
      Grows(r, cpuAt, 0, i + 1);
      ghost var known := bounds.State();
      if !bounds.closed {
        elapsed := r(i + 1).cpu - start;
        bounds.Sample(elapsed, r(i + 1).before, r(i + 1).after);
        low, high := SampleKnows(known, bounds.State(), cutoff, r, cpuAt, k, low, high);
        k := k + 1;
      } else {
        elapsed := r(i + 1).cpu - start;
      }
      i := i + 1;
      more := elapsed < 1000 * job.us;
    }
    assert i == Last(job, cutoff);
    KnowsIsSound(bounds.State(), cutoff, r, cpuAt, k, low, high, i);
    bounds.Finish(elapsed);
    SoundInOrder(bounds.lower, bounds.upper, cutoff, r, cpuAt, i);
    cpu, uncertainty := bounds.lower, bounds.upper - bounds.lower;
  }

  // ---------------------------------------------------------------- a stage's jobs

  predicate AllReach(jobs: seq<Job>) {
    forall k :: 0 <= k < |jobs| ==> Reaches(jobs[k])
  }

  /** The jobs of one thread, one after another. */
  ghost predicate StageJobs(jobs: seq<Job>, cutoff: nat, cpuAt: nat -> nat) {
    && AllReach(jobs)
    && (forall k :: 0 <= k < |jobs| ==> Clocked(jobs[k].r, cpuAt))
    && (forall k, l :: 0 <= k < l < |jobs| ==> jobs[k].r(Last(jobs[k], cutoff)).after <= jobs[l].r(0).before)
  }

  lemma OneRunning(jobs: seq<Job>, cutoff: nat, cpuAt: nat -> nat, k: nat, l: nat)
    requires StageJobs(jobs, cutoff, cpuAt) && k < l < |jobs| && RunningAt(jobs[k], cutoff)
    ensures !RunningAt(jobs[l], cutoff)
  {
  }

  ghost function TotalElapsed(jobs: seq<Job>, cutoff: nat): int
    requires AllReach(jobs)
  {
    if jobs == [] then 0
    else TotalElapsed(jobs[..|jobs| - 1], cutoff) + Elapsed(jobs[|jobs| - 1], cutoff)
  }

  ghost function TotalUsed(jobs: seq<Job>, cutoff: nat, cpuAt: nat -> nat): int
    requires AllReach(jobs)
  {
    if jobs == [] then 0
    else TotalUsed(jobs[..|jobs| - 1], cutoff, cpuAt) + Used(jobs[|jobs| - 1], cutoff, cpuAt)
  }

  /** Over any number of jobs: the window's CPU counter is a lower bound and, with the uncertainty added,
      an upper bound of the CPU time really used before the cutoff; the uncertainty never exceeds the
      drain CPU (the total less the window's counter), and it stems from one job alone. */
  method StageCpu(cutoff: nat, jobs: seq<Job>, ghost cpuAt: nat -> nat) returns (total: nat, cpu: nat, uncertainty: nat)
    requires StageJobs(jobs, cutoff, cpuAt)
    ensures total == TotalElapsed(jobs, cutoff)
    ensures cpu <= TotalUsed(jobs, cutoff, cpuAt) <= cpu + uncertainty
    ensures cpu <= total && uncertainty <= total - cpu
    ensures uncertainty > 0 ==>
              exists k :: 0 <= k < |jobs| && RunningAt(jobs[k], cutoff) && uncertainty <= Elapsed(jobs[k], cutoff)
  {
    hide Clocked, Reaches, Last, Used, Elapsed, RunningAt, Tight;
    total, cpu, uncertainty := 0, 0, 0;
    ghost var at: nat := 0;
    for i := 0 to |jobs|
      invariant total == TotalElapsed(jobs[..i], cutoff)
      invariant cpu <= TotalUsed(jobs[..i], cutoff, cpuAt) <= cpu + uncertainty <= total
      invariant uncertainty > 0 ==> at < i && RunningAt(jobs[at], cutoff) && uncertainty <= Elapsed(jobs[at], cutoff)
    {
      assert jobs[..i + 1][..i] == jobs[..i];
      var elapsed, lower, gap := MeasuredWork(cutoff, jobs[i], cpuAt);
      if gap > 0 {
        if uncertainty > 0 {
          OneRunning(jobs, cutoff, cpuAt, at, i);
        }
        assert uncertainty == 0;
        at := i;
      }
      total, cpu, uncertainty := total + elapsed, cpu + lower, uncertainty + gap;
    }
    assert jobs[..|jobs|] == jobs;
  }
}
