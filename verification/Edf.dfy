/**
 The tick-level scheduler of tests/test_edf_workload.py: synchronous periodic tasks with implicit
 deadlines, run one tick at a time under earliest-deadline-first or under a fixed favourite task.
 */
module Edf {

  datatype Task = Task(period: nat, work: nat)

  datatype Job = Job(task: nat, deadline: nat, remaining: nat)

  /** Earliest deadline first, or one favourite task first and deadlines second. */
  datatype Mode = EarliestDeadline | Favour(task: nat)

  datatype Sim = Sim(pending: seq<Job>, misses: nat)

  predicate ValidTasks(tasks: seq<Task>) {
    forall i :: 0 <= i < |tasks| ==> tasks[i].period > 0 && tasks[i].work > 0
  }

  // ---------------------------------------------------------------- the simulator as a function

  /** The order of the sort keys used by `min`. */
  predicate Before(mode: Mode, a: Job, b: Job) {
    match mode
    case EarliestDeadline => a.deadline < b.deadline
    case Favour(task) =>
      (a.task == task && b.task != task) || ((a.task == task <==> b.task == task) && a.deadline < b.deadline)
  }

  /** The first job with the least key, as `min` picks it. */
  function Chosen(mode: Mode, pending: seq<Job>): (i: nat)
    requires pending != []
    ensures i < |pending|
    ensures forall j :: 0 <= j < |pending| ==> !Before(mode, pending[j], pending[i])
    ensures forall j :: 0 <= j < i ==> Before(mode, pending[i], pending[j])
  {
    if |pending| == 1 then 0
    else
      var n := |pending| - 1;
      var i := Chosen(mode, pending[..n]);
      if Before(mode, pending[n], pending[i]) then n else i
  }

  /** The jobs that the first `k` tasks release at tick `t`, in task order. */
  function Released(tasks: seq<Task>, horizon: nat, t: nat, k: nat): seq<Job>
    requires ValidTasks(tasks) && k <= |tasks|
  {
    if k == 0 then []
    else
      var task := tasks[k - 1];
      Released(tasks, horizon, t, k - 1) +
      (if t < horizon && t % task.period == 0 then [Job(k - 1, t + task.period, task.work)] else [])
  }

  /** One tick of the chosen job: decrement it, and retire it when nothing remains. */
  function Serve(t: nat, s: Sim, i: nat): Sim
    requires i < |s.pending|
  {
    var job := s.pending[i];
    if job.remaining <= 1
    then Sim(s.pending[..i] + s.pending[i + 1..], s.misses + if t + 1 > job.deadline then 1 else 0)
    else Sim(s.pending[i := job.(remaining := job.remaining - 1)], s.misses)
  }

  function Execute(mode: Mode, t: nat, s: Sim): Sim {
    if s.pending == [] then s else Serve(t, s, Chosen(mode, s.pending))
  }

  /** All releases of tick `t`. */
  function Release(tasks: seq<Task>, horizon: nat, t: nat, s: Sim): Sim
    requires ValidTasks(tasks)
  {
    s.(pending := s.pending + Released(tasks, horizon, t, |tasks|))
  }

  /** One whole tick, from any state. */
  function Tick(tasks: seq<Task>, mode: Mode, horizon: nat, t: nat, s: Sim): Sim
    requires ValidTasks(tasks)
  {
    Execute(mode, t, Release(tasks, horizon, t, s))
  }

  function Run(tasks: seq<Task>, mode: Mode, horizon: nat, ticks: nat): Sim
    requires ValidTasks(tasks)
  {
    if ticks == 0 then Sim([], 0)
    else Tick(tasks, mode, horizon, ticks - 1, Run(tasks, mode, horizon, ticks - 1))
  }

  /** `simulate`, with the task list, the release horizon and the number of ticks as parameters. */
  method Simulate(tasks: seq<Task>, mode: Mode, horizon: nat, ticks: nat) returns (misses: nat, pending: seq<Job>)
    requires ValidTasks(tasks)
    ensures Sim(pending, misses) == Run(tasks, mode, horizon, ticks)
  {
    hide Serve, Chosen;
    pending := [];
    misses := 0;
    for t := 0 to ticks
      invariant Sim(pending, misses) == Run(tasks, mode, horizon, t)
    {
      ghost var before := Sim(pending, misses);
      for k := 0 to |tasks|
        invariant pending == before.pending + Released(tasks, horizon, t, k)
      {
        if t < horizon && t % tasks[k].period == 0 {
          pending := pending + [Job(k, t + tasks[k].period, tasks[k].work)];
        }
      }
      assert Sim(pending, misses) == Release(tasks, horizon, t, before);
      if pending == [] {
        continue;
      }
      misses, pending := ExecuteTick(mode, t, misses, pending);
    }
  }

  /** The body of the tick loop once something is pending. */
  method ExecuteTick(mode: Mode, t: nat, misses: nat, pending: seq<Job>) returns (misses': nat, pending': seq<Job>)
    requires pending != []
    ensures Sim(pending', misses') == Execute(mode, t, Sim(pending, misses))
  {
    misses', pending' := misses, pending;
    var i := Chosen(mode, pending);
    var job := pending[i];
    if job.remaining <= 1 {
      misses' := misses + if t + 1 > job.deadline then 1 else 0;
      pending' := pending[..i] + pending[i + 1..];
    } else {
      pending' := pending[i := job.(remaining := job.remaining - 1)];
    }
  }

  // ---------------------------------------------------------------- what it should achieve

  /** After `ticks` ticks no job has finished late and none is still pending at or past its deadline. */
  predicate MeetsDeadlines(tasks: seq<Task>, mode: Mode, horizon: nat, ticks: nat)
    requires ValidTasks(tasks)
  {
    var s := Run(tasks, mode, horizon, ticks);
    s.misses == 0 && forall j :: 0 <= j < |s.pending| ==> s.pending[j].deadline > ticks
  }

  /** The share of the processor one task needs. */
  function Rate(task: Task): real
    requires task.period > 0
  {
    task.work as real / task.period as real
  }

  function Utilization(tasks: seq<Task>): real
    requires ValidTasks(tasks)
  {
    if tasks == [] then 0.0
    else
      var n := |tasks| - 1;
      Utilization(tasks[..n]) + Rate(tasks[n])
  }

  // ---------------------------------------------------------------- demand

  /** Work that must still be done by `deadline` for the pending jobs. */
  function Backlog(pending: seq<Job>, deadline: nat): nat {
    if pending == [] then 0
    else
      var n := |pending| - 1;
      Backlog(pending[..n], deadline) + if pending[n].deadline <= deadline then pending[n].remaining else 0
  }

  lemma {:induction false} BacklogAppend(a: seq<Job>, b: seq<Job>, d: nat)
    ensures Backlog(a + b, d) == Backlog(a, d) + Backlog(b, d)
  {
    if b == [] {
      assert a + b == a;
    } else {
      var n := |b| - 1;
      assert (a + b)[..|a| + n] == a + b[..n];
      BacklogAppend(a, b[..n], d);
    }
  }

  lemma {:induction false} BacklogSplit(pending: seq<Job>, i: nat, d: nat)
    requires i < |pending|
    ensures Backlog(pending, d) ==
            Backlog(pending[..i], d) + Backlog([pending[i]], d) + Backlog(pending[i + 1..], d)
  {
    assert pending == pending[..i] + [pending[i]] + pending[i + 1..];
    BacklogAppend(pending[..i] + [pending[i]], pending[i + 1..], d);
    BacklogAppend(pending[..i], [pending[i]], d);
  }

  lemma {:induction false} BacklogZero(pending: seq<Job>, d: nat)
    ensures (forall j :: 0 <= j < |pending| ==> pending[j].remaining > 0) ==>
              (Backlog(pending, d) == 0 <==> forall j :: 0 <= j < |pending| ==> pending[j].deadline > d)
  {
    if pending != [] {
      BacklogZero(pending[..|pending| - 1], d);
    }
  }

  /** Releases of a task with period `p` at or after `s` whose deadline is at most `d`. */
  function Arrivals(p: nat, s: nat, d: nat): nat
    requires p > 0
    decreases d - s
  {
    if s >= d then 0
    else (if s % p == 0 && s + p <= d then 1 else 0) + Arrivals(p, s + 1, d)
  }

  /** Distance from `s` to the next release of a task with period `p`. */
  function Gap(p: nat, s: nat): nat
    requires p > 0
  {
    if s % p == 0 then 0 else p - s % p
  }

  lemma MulLe(x: int, y: int, p: nat)
    requires x <= y
    ensures x * p <= y * p
  {
    assert (y - x) * p >= 0;
  }

  lemma ModUnique(a: nat, p: nat, q: nat, r: nat)
    requires p > 0 && r < p && a == q * p + r
    ensures a % p == r
  {
    var k := a / p - q;
    assert k * p == r - a % p by {
      assert a == p * (a / p) + a % p;
      assert (a / p - q) * p == (a / p) * p - q * p;
    }
    if k >= 1 {
      MulLe(1, k, p);
    } else if k <= -1 {
      MulLe(k, -1, p);
    }
  }

  lemma GapStep(p: nat, s: nat)
    requires p > 0
    ensures Gap(p, s + 1) == if Gap(p, s) == 0 then p - 1 else Gap(p, s) - 1
  {
    var q, r := s / p, s % p;
    assert s == q * p + r;
    if r + 1 < p {
      ModUnique(s + 1, p, q, r + 1);
    } else {
      assert (q + 1) * p == q * p + p;
      ModUnique(s + 1, p, q + 1, 0);
    }
  }

  lemma MultiplesApart(p: nat, s: nat, d: nat)
    requires p > 0 && s % p == 0 && d % p == 0 && s < d
    ensures s + p <= d
  {
    var x, y := s / p, d / p;
    assert s == x * p && d == y * p;
    if y <= x {
      MulLe(y, x, p);
    } else {
      MulLe(x + 1, y, p);
      assert (x + 1) * p == x * p + p;
    }
  }

  /** The arrivals weighted with the period. */
  function ArrivedSpan(p: nat, s: nat, d: nat): nat
    requires p > 0
    decreases d - s
  {
    if s >= d then 0
    else (if s % p == 0 && s + p <= d then p else 0) + ArrivedSpan(p, s + 1, d)
  }

  lemma {:induction false} ArrivedSpanIsProduct(p: nat, s: nat, d: nat)
    requires p > 0
    ensures ArrivedSpan(p, s, d) == Arrivals(p, s, d) * p
    decreases d - s
  {
    if s < d {
      ArrivedSpanIsProduct(p, s + 1, d);
      var rest := Arrivals(p, s + 1, d);
      assert (1 + rest) * p == p + rest * p;
    }
  }

  /** Consecutive releases are a period apart; towards a multiple of the period none is wasted. */
  lemma {:induction false} SpanBound(p: nat, s: nat, d: nat)
    requires p > 0
    ensures ArrivedSpan(p, s, d) <= if s + Gap(p, s) <= d then d - s - Gap(p, s) else 0
    ensures d % p == 0 && s + Gap(p, s) <= d ==> ArrivedSpan(p, s, d) == d - s - Gap(p, s)
    decreases d - s
  {
    if s < d {
      SpanBound(p, s + 1, d);
      GapStep(p, s);
      if d % p == 0 && s % p == 0 {
        MultiplesApart(p, s, d);
      }
    }
  }

  lemma GapAtZero(p: nat)
    requires p > 0
    ensures Gap(p, 0) == 0
  {
  }

  lemma {:induction false} ArrivalsSpan(p: nat, s: nat, d: nat)
    requires p > 0 && s <= d
    ensures Arrivals(p, s, d) * p <= d - s
    ensures d % p == 0 && s == 0 ==> Arrivals(p, s, d) * p == d
  {
    hide Arrivals, ArrivedSpan, Gap;
    GapAtZero(p);
    SpanBound(p, s, d);
    ArrivedSpanIsProduct(p, s, d);
  }

  /** Work of the future releases of one task (from tick `s` on) that must be done by `d`. */
  function TaskDemand(task: Task, s: nat, d: nat): nat
    requires task.period > 0
  {
    task.work * Arrivals(task.period, s, d)
  }

  lemma TaskDemandStep(task: Task, s: nat, d: nat)
    requires task.period > 0
    ensures TaskDemand(task, s, d) ==
            TaskDemand(task, s + 1, d) + if s % task.period == 0 && s + task.period <= d then task.work else 0
  {
    var rest := Arrivals(task.period, s + 1, d);
    assert task.work * (rest + 1) == task.work * rest + task.work;
  }

  lemma RealProduct(a: nat, b: nat)
    ensures (a * b) as real == a as real * b as real
  {
  }

  /** `count` jobs of work `w`, `p` apart, against rate `w / p` over a span `x`. */
  lemma RateTimesSpan(w: real, p: real, count: real, x: real)
    requires w >= 0.0 && p > 0.0
    ensures count * p <= x ==> w * count <= (w / p) * x
    ensures count * p == x ==> w * count == (w / p) * x
  {
    var rate := w / p;
    assert rate * p == w;
    assert w * count == rate * (count * p) by {
      assert rate * p * count == rate * (p * count) == rate * (count * p);
    }
    if count * p <= x {
      assert rate * (x - count * p) >= 0.0;
      assert rate * (x - count * p) == rate * x - rate * (count * p);
    }
  }

  lemma TaskDemandBound(task: Task, s: nat, d: nat)
    requires task.period > 0 && s <= d
    ensures TaskDemand(task, s, d) as real <= Rate(task) * (d - s) as real
  {
    hide Arrivals;
    ArrivalsSpan(task.period, s, d);
    var count := Arrivals(task.period, s, d);
    RealProduct(task.work, count);
    RealProduct(count, task.period);
    RateTimesSpan(task.work as real, task.period as real, count as real, (d - s) as real);
  }

  lemma TaskDemandExact(task: Task, q: nat, h: nat)
    requires task.period > 0 && h == q * task.period
    ensures TaskDemand(task, 0, h) as real == Rate(task) * h as real
  {
    hide Arrivals;
    ModUnique(h, task.period, q, 0);
    ArrivalsSpan(task.period, 0, h);
    var count := Arrivals(task.period, 0, h);
    RealProduct(task.work, count);
    RealProduct(count, task.period);
    RateTimesSpan(task.work as real, task.period as real, count as real, h as real);
  }

  /** Work of all future releases (from tick `s` on) that must be done by `d`. */
  function Demand(tasks: seq<Task>, s: nat, d: nat): nat
    requires ValidTasks(tasks)
  {
    if tasks == [] then 0
    else
      var n := |tasks| - 1;
      Demand(tasks[..n], s, d) + TaskDemand(tasks[n], s, d)
  }

  lemma AddBounds(a: nat, b: nat, u: real, v: real, x: nat)
    requires a as real <= u * x as real && b as real <= v * x as real
    ensures (a + b) as real <= (u + v) * x as real
  {
  }

  lemma AddExact(a: nat, b: nat, u: real, v: real, x: nat)
    requires a as real == u * x as real && b as real == v * x as real
    ensures (a + b) as real == (u + v) * x as real
  {
  }

  lemma ScaleDown(a: nat, u: real, x: nat)
    requires a as real <= u * x as real && u <= 1.0
    ensures a <= x
  {
    assert u * x as real <= x as real;
  }

  lemma ScaleUp(a: nat, u: real, x: nat)
    requires a as real == u * x as real && u > 1.0 && x > 0
    ensures a > x
  {
    assert u * x as real > x as real;
  }

  /** Future demand within any window is at most utilisation times the window. */
  lemma {:induction false} DemandBound(tasks: seq<Task>, s: nat, d: nat)
    requires ValidTasks(tasks) && s <= d
    ensures Demand(tasks, s, d) as real <= Utilization(tasks) * (d - s) as real
  {
    hide TaskDemand, Rate;
    if tasks != [] {
      var n := |tasks| - 1;
      DemandBound(tasks[..n], s, d);
      TaskDemandBound(tasks[n], s, d);
      AddBounds(Demand(tasks[..n], s, d), TaskDemand(tasks[n], s, d), Utilization(tasks[..n]), Rate(tasks[n]), d - s);
    }
  }

  lemma {:induction false} DemandFits(tasks: seq<Task>, s: nat, d: nat)
    requires ValidTasks(tasks) && s <= d && Utilization(tasks) <= 1.0
    ensures Demand(tasks, s, d) <= d - s
  {
    hide Demand, Utilization;
    DemandBound(tasks, s, d);
    ScaleDown(Demand(tasks, s, d), Utilization(tasks), d - s);
  }

  lemma {:induction false} NoDemandLeft(tasks: seq<Task>, d: nat)
    requires ValidTasks(tasks)
    ensures Demand(tasks, d, d) == 0
  {
    if tasks != [] {
      NoDemandLeft(tasks[..|tasks| - 1], d);
    }
  }

  /** Releasing at `s` moves demand into the backlog and creates none. */
  lemma {:induction false} ReleaseMovesDemand(tasks: seq<Task>, horizon: nat, s: nat, d: nat, k: nat)
    requires ValidTasks(tasks) && k <= |tasks|
    ensures Backlog(Released(tasks, horizon, s, k), d) + Demand(tasks[..k], s + 1, d) <= Demand(tasks[..k], s, d)
    ensures s < horizon ==>
              Backlog(Released(tasks, horizon, s, k), d) + Demand(tasks[..k], s + 1, d) == Demand(tasks[..k], s, d)
  {
    BacklogOfNone(d);
    hide TaskDemand, Backlog;
    if k > 0 {
      ReleaseMovesDemand(tasks, horizon, s, d, k - 1);
      var task := tasks[k - 1];
      assert tasks[..k][..k - 1] == tasks[..k - 1];
      TaskDemandStep(task, s, d);
      BacklogOne(Job(k - 1, s + task.period, task.work), d);
      var added := if s < horizon && s % task.period == 0 then [Job(k - 1, s + task.period, task.work)] else [];
      BacklogAppend(Released(tasks, horizon, s, k - 1), added, d);
    }
  }

  // ---------------------------------------------------------------- one tick

  predicate Positive(pending: seq<Job>) {
    forall j :: 0 <= j < |pending| ==> pending[j].remaining > 0
  }

  lemma ServePositive(t: nat, s: Sim, i: nat)
    requires Positive(s.pending) && i < |s.pending|
    ensures Positive(Serve(t, s, i).pending)
  {
  }

  lemma {:induction false} BacklogOfNone(d: nat)
    ensures Backlog([], d) == 0
  {
  }

  lemma {:induction false} BacklogOne(job: Job, d: nat)
    ensures Backlog([job], d) == if job.deadline <= d then job.remaining else 0
  {
    assert [job][..0] == [];
  }

  /** Serving a job for one tick works off one unit of the backlog of every instant it is due by. */
  lemma {:induction false} ServeAccounts(t: nat, s: Sim, i: nat, d: nat)
    requires Positive(s.pending) && i < |s.pending|
    ensures Backlog(Serve(t, s, i).pending, d) ==
            Backlog(s.pending, d) - if s.pending[i].deadline <= d then 1 else 0
  {
    hide Backlog;
    var job := s.pending[i];
    BacklogSplit(s.pending, i, d);
    BacklogOne(job, d);
    if job.remaining <= 1 {
      BacklogAppend(s.pending[..i], s.pending[i + 1..], d);
    } else {
      var p' := s.pending[i := job.(remaining := job.remaining - 1)];
      BacklogSplit(p', i, d);
      BacklogOne(p'[i], d);
      assert p'[..i] == s.pending[..i] && p'[i + 1..] == s.pending[i + 1..];
    }
  }

  /** Every job of tick `t` is released before the horizon, with its whole work to do, and is due
      after `t` and within the longest period. */
  lemma {:induction false} ReleasedJobs(tasks: seq<Task>, horizon: nat, t: nat, k: nat, longest: nat, j: nat)
    requires ValidTasks(tasks) && k <= |tasks| && j < |Released(tasks, horizon, t, k)|
    requires forall i :: 0 <= i < |tasks| ==> tasks[i].period <= longest
    ensures var job := Released(tasks, horizon, t, k)[j];
            job.remaining > 0 && t < job.deadline < horizon + longest
  {
    if j < |Released(tasks, horizon, t, k - 1)| {
      ReleasedJobs(tasks, horizon, t, k - 1, longest, j);
    }
  }

  function Longest(tasks: seq<Task>): (m: nat)
    ensures forall i :: 0 <= i < |tasks| ==> tasks[i].period <= m
  {
    if tasks == [] then 0
    else
      var n := |tasks| - 1;
      var m := Longest(tasks[..n]);
      assert forall i :: 0 <= i < n ==> tasks[i] == tasks[..n][i];
      if tasks[n].period > m then tasks[n].period else m
  }

  /** What the releases of tick `t` do to the state. */
  lemma ReleaseAccounts(tasks: seq<Task>, horizon: nat, t: nat, s: Sim, d: nat)
    requires ValidTasks(tasks) && Positive(s.pending)
    ensures var s' := Release(tasks, horizon, t, s);
            && Positive(s'.pending)
            && Backlog(s'.pending, d) + Demand(tasks, t + 1, d) <= Backlog(s.pending, d) + Demand(tasks, t, d)
            && (t < horizon ==>
                  Backlog(s'.pending, d) + Demand(tasks, t + 1, d) == Backlog(s.pending, d) + Demand(tasks, t, d))
  {
    var released := Released(tasks, horizon, t, |tasks|);
    forall j | 0 <= j < |released| ensures released[j].remaining > 0 {
      ReleasedJobs(tasks, horizon, t, |tasks|, Longest(tasks), j);
    }
    assert tasks[..|tasks|] == tasks;
    ReleaseMovesDemand(tasks, horizon, t, d, |tasks|);
    BacklogAppend(s.pending, released, d);
  }

  /** Under EDF a tick with any backlog for `d` works off one unit of it; without backlog nothing is
      lost. Under any policy at most one unit is worked off. */
  lemma {:induction false} ExecuteAccounts(mode: Mode, t: nat, s: Sim, d: nat)
    requires Positive(s.pending)
    ensures var b := Backlog(Execute(mode, t, s).pending, d);
            && Positive(Execute(mode, t, s).pending)
            && Backlog(s.pending, d) - 1 <= b <= Backlog(s.pending, d)
            && (mode.EarliestDeadline? && Backlog(s.pending, d) > 0 ==> b == Backlog(s.pending, d) - 1)
  {
    hide Serve;
    if s.pending != [] {
      ServePositive(t, s, Chosen(mode, s.pending));
      ServeAccounts(t, s, Chosen(mode, s.pending), d);
      BacklogZero(s.pending, d);
    }
  }

  lemma TickAccounts(tasks: seq<Task>, mode: Mode, horizon: nat, t: nat, s: Sim, d: nat)
    requires ValidTasks(tasks) && Positive(s.pending)
    ensures var s' := Tick(tasks, mode, horizon, t, s);
            var before := Backlog(s.pending, d) + Demand(tasks, t, d);
            var after := Backlog(s'.pending, d) + Demand(tasks, t + 1, d);
            && Positive(s'.pending)
            && after <= before
            && (t < horizon ==> before - 1 <= after)
            && (mode.EarliestDeadline? ==> after <= before - 1 || after == Demand(tasks, t + 1, d))
  {
    ReleaseAccounts(tasks, horizon, t, s, d);
    ExecuteAccounts(mode, t, Release(tasks, horizon, t, s), d);
  }

  lemma {:induction false} RunPositive(tasks: seq<Task>, mode: Mode, horizon: nat, n: nat)
    requires ValidTasks(tasks)
    ensures Positive(Run(tasks, mode, horizon, n).pending)
  {
    hide Tick;
    if n > 0 {
      RunPositive(tasks, mode, horizon, n - 1);
      TickAccounts(tasks, mode, horizon, n - 1, Run(tasks, mode, horizon, n - 1), 0);
    }
  }

  // ---------------------------------------------------------------- jobs and misses

  /** A job that left the scheduler with nothing remaining, and the tick at whose end it did. */
  datatype Retirement = Retirement(job: Job, finish: nat)

  /** The job that tick `t` finishes, if any: the chosen one, when one unit of its work remains. */
  function Finished(tasks: seq<Task>, mode: Mode, horizon: nat, t: nat): seq<Retirement>
    requires ValidTasks(tasks)
  {
    var p := Release(tasks, horizon, t, Run(tasks, mode, horizon, t)).pending;
    if p != [] && p[Chosen(mode, p)].remaining == 1 then [Retirement(p[Chosen(mode, p)], t + 1)] else []
  }

  function Retired(tasks: seq<Task>, mode: Mode, horizon: nat, n: nat): seq<Retirement>
    requires ValidTasks(tasks)
  {
    if n == 0 then [] else Retired(tasks, mode, horizon, n - 1) + Finished(tasks, mode, horizon, n - 1)
  }

  function Late(retired: seq<Retirement>): nat {
    if retired == [] then 0
    else
      var n := |retired| - 1;
      Late(retired[..n]) + if retired[n].finish > retired[n].job.deadline then 1 else 0
  }

  lemma {:induction false} LateMore(retired: seq<Retirement>, r: Retirement)
    ensures Late(retired + [r]) == Late(retired) + if r.finish > r.job.deadline then 1 else 0
    ensures Late(retired + []) == Late(retired)
  {
    assert (retired + [r])[..|retired|] == retired && retired + [] == retired;
  }

  lemma {:induction false} TickMisses(tasks: seq<Task>, mode: Mode, horizon: nat, t: nat)
    requires ValidTasks(tasks)
    ensures var s := Run(tasks, mode, horizon, t);
            Tick(tasks, mode, horizon, t, s).misses == s.misses + Late(Finished(tasks, mode, horizon, t))
  {
    hide Chosen, Released, Run;
    var s := Run(tasks, mode, horizon, t);
    RunPositive(tasks, mode, horizon, t);
    ReleaseAccounts(tasks, horizon, t, s, 0);
    var p := Release(tasks, horizon, t, s).pending;
    if p != [] {
      var job := p[Chosen(mode, p)];
      LateMore([], Retirement(job, t + 1));
      assert [] + [Retirement(job, t + 1)] == [Retirement(job, t + 1)];
    }
  }

  lemma {:induction false} LateAppend(a: seq<Retirement>, b: seq<Retirement>)
    requires |b| <= 1
    ensures Late(a + b) == Late(a) + Late(b)
  {
    if |b| == 1 {
      assert b == [b[0]] && [] + [b[0]] == b;
      LateMore(a, b[0]);
      LateMore([], b[0]);
    } else {
      assert a + b == a;
    }
  }

  /** `misses` is the number of jobs that finished after their deadline, under every policy. */
  lemma {:induction false} MissesAreLate(tasks: seq<Task>, mode: Mode, horizon: nat, n: nat)
    requires ValidTasks(tasks)
    ensures Run(tasks, mode, horizon, n).misses == Late(Retired(tasks, mode, horizon, n))
  {
    hide Tick, Finished, Late;
    if n == 0 {
      NothingLate();
    } else {
      MissesAreLate(tasks, mode, horizon, n - 1);
      TickMisses(tasks, mode, horizon, n - 1);
      FinishesOne(tasks, mode, horizon, n - 1);
      LateAppend(Retired(tasks, mode, horizon, n - 1), Finished(tasks, mode, horizon, n - 1));
    }
  }

  lemma NothingLate()
    ensures Late([]) == 0
  {
  }

  lemma FinishesOne(tasks: seq<Task>, mode: Mode, horizon: nat, t: nat)
    requires ValidTasks(tasks)
    ensures |Finished(tasks, mode, horizon, t)| <= 1
  {
  }

  /** How many of the jobs are the one of `task` due at `deadline`. */
  function Copies(jobs: seq<Job>, task: nat, deadline: nat): nat {
    if jobs == [] then 0
    else
      var n := |jobs| - 1;
      Copies(jobs[..n], task, deadline) + if jobs[n].task == task && jobs[n].deadline == deadline then 1 else 0
  }

  lemma {:induction false} CopiesAppend(a: seq<Job>, b: seq<Job>, task: nat, deadline: nat)
    ensures Copies(a + b, task, deadline) == Copies(a, task, deadline) + Copies(b, task, deadline)
  {
    if b == [] {
      assert a + b == a;
    } else {
      var n := |b| - 1;
      assert (a + b)[..|a| + n] == a + b[..n];
      CopiesAppend(a, b[..n], task, deadline);
    }
  }

  lemma {:induction false} CopiesAround(jobs: seq<Job>, i: nat, task: nat, deadline: nat)
    requires i < |jobs|
    ensures Copies(jobs, task, deadline) == Copies(jobs[..i], task, deadline) +
            (if jobs[i].task == task && jobs[i].deadline == deadline then 1 else 0) +
            Copies(jobs[i + 1..], task, deadline)
  {
    assert jobs == jobs[..i] + [jobs[i]] + jobs[i + 1..];
    CopiesAppend(jobs[..i] + [jobs[i]], jobs[i + 1..], task, deadline);
    CopiesAppend(jobs[..i], [jobs[i]], task, deadline);
    assert [jobs[i]][..0] == [];
  }

  function JobsOf(retired: seq<Retirement>): seq<Job> {
    if retired == [] then [] else JobsOf(retired[..|retired| - 1]) + [retired[|retired| - 1].job]
  }

  /** All jobs released in the first `n` ticks. */
  function AllReleased(tasks: seq<Task>, horizon: nat, n: nat): seq<Job>
    requires ValidTasks(tasks)
  {
    if n == 0 then [] else AllReleased(tasks, horizon, n - 1) + Released(tasks, horizon, n - 1, |tasks|)
  }

  lemma {:induction false} TickCopies(tasks: seq<Task>, mode: Mode, horizon: nat, t: nat, task: nat, deadline: nat)
    requires ValidTasks(tasks)
    ensures var s := Run(tasks, mode, horizon, t);
            Copies(Tick(tasks, mode, horizon, t, s).pending, task, deadline) +
            Copies(JobsOf(Finished(tasks, mode, horizon, t)), task, deadline) ==
            Copies(s.pending, task, deadline) + Copies(Released(tasks, horizon, t, |tasks|), task, deadline)
  {
    hide Chosen, Released, Run, Copies, JobsOf;
    var s := Run(tasks, mode, horizon, t);
    RunPositive(tasks, mode, horizon, t);
    ReleaseAccounts(tasks, horizon, t, s, 0);
    var p := Release(tasks, horizon, t, s).pending;
    CopiesAppend(s.pending, Released(tasks, horizon, t, |tasks|), task, deadline);
    if p == [] {
      CopiesOfNone(task, deadline);
    } else {
      ServeCopies(t, Release(tasks, horizon, t, s), Chosen(mode, p), task, deadline);
    }
  }

  lemma {:induction false} CopiesOfNone(task: nat, deadline: nat)
    ensures Copies([], task, deadline) == 0 && JobsOf([]) == []
  {
  }

  lemma {:induction false} CopiesOfOne(r: Retirement, task: nat, deadline: nat)
    ensures Copies(JobsOf([r]), task, deadline) == if r.job.task == task && r.job.deadline == deadline then 1 else 0
  {
    assert [r][..0] == [] && JobsOf([r]) == [r.job] && [r.job][..0] == [];
  }

  lemma {:induction false} ServeCopies(t: nat, s: Sim, i: nat, task: nat, deadline: nat)
    requires i < |s.pending| && s.pending[i].remaining > 0
    ensures var finished := if s.pending[i].remaining == 1 then [Retirement(s.pending[i], t + 1)] else [];
            Copies(Serve(t, s, i).pending, task, deadline) + Copies(JobsOf(finished), task, deadline) ==
            Copies(s.pending, task, deadline)
  {
    hide Copies, JobsOf;
    var job := s.pending[i];
    CopiesAround(s.pending, i, task, deadline);
    CopiesOfNone(task, deadline);
    if job.remaining == 1 {
      CopiesAppend(s.pending[..i], s.pending[i + 1..], task, deadline);
      CopiesOfOne(Retirement(job, t + 1), task, deadline);
    } else {
      var p' := s.pending[i := job.(remaining := job.remaining - 1)];
      CopiesAround(p', i, task, deadline);
      assert p'[..i] == s.pending[..i] && p'[i + 1..] == s.pending[i + 1..];
    }
  }

  lemma {:induction false} JobsOfAppend(a: seq<Retirement>, b: seq<Retirement>)
    requires |b| <= 1
    ensures JobsOf(a + b) == JobsOf(a) + JobsOf(b)
  {
    if |b| == 1 {
      assert (a + b)[..|a|] == a && b[..0] == [];
    } else {
      assert a + b == a;
    }
  }

  /** Every released job is pending or finished, exactly once, under every policy. */
  lemma {:induction false} JobsConserved(tasks: seq<Task>, mode: Mode, horizon: nat, n: nat, task: nat, deadline: nat)
    requires ValidTasks(tasks)
    ensures Copies(AllReleased(tasks, horizon, n), task, deadline) ==
            Copies(Run(tasks, mode, horizon, n).pending, task, deadline) +
            Copies(JobsOf(Retired(tasks, mode, horizon, n)), task, deadline)
  {
    hide Tick, Finished, Copies, Released, JobsOf;
    if n == 0 {
      CopiesOfNone(task, deadline);
    } else {
      JobsConserved(tasks, mode, horizon, n - 1, task, deadline);
      TickCopies(tasks, mode, horizon, n - 1, task, deadline);
      FinishesOne(tasks, mode, horizon, n - 1);
      var retired, finished := Retired(tasks, mode, horizon, n - 1), Finished(tasks, mode, horizon, n - 1);
      JobsOfAppend(retired, finished);
      CopiesAppend(JobsOf(retired), JobsOf(finished), task, deadline);
      CopiesAppend(AllReleased(tasks, horizon, n - 1), Released(tasks, horizon, n - 1, |tasks|), task, deadline);
    }
  }

  predicate SameRank(mode: Mode, a: Job, b: Job) {
    mode.Favour? ==> (a.task == mode.task <==> b.task == mode.task)
  }

  /** What the policies choose: EDF the earliest deadline; a favoured task goes first if it has a job, and
      deadlines decide among jobs of equal rank. Ties go to the job released first. */
  lemma {:induction false} ChosenMeaning(mode: Mode, pending: seq<Job>)
    requires pending != []
    ensures var i := Chosen(mode, pending);
            && (forall j :: 0 <= j < |pending| && SameRank(mode, pending[j], pending[i]) ==>
                  pending[i].deadline < pending[j].deadline || (pending[i].deadline == pending[j].deadline && i <= j))
            && (mode.Favour? && (exists j :: 0 <= j < |pending| && pending[j].task == mode.task) ==>
                  pending[i].task == mode.task)
  {
    var i := Chosen(mode, pending);
    if mode.Favour? {
      forall j | 0 <= j < |pending| && pending[j].task == mode.task ensures pending[i].task == mode.task {
        assert !Before(mode, pending[j], pending[i]);
      }
    }
  }

  // ---------------------------------------------------------------- feasibility

  /** The scheduler's invariant: what is pending and what is still to come before any future instant
      `d` fits into the ticks that are left until `d`. */
  lemma {:induction false} DemandInvariant(tasks: seq<Task>, horizon: nat, n: nat, d: nat)
    requires ValidTasks(tasks) && Utilization(tasks) <= 1.0 && n <= d
    ensures Backlog(Run(tasks, EarliestDeadline, horizon, n).pending, d) + Demand(tasks, n, d) <= d - n
  {
    hide Tick, Demand;
    if n == 0 {
      DemandFits(tasks, 0, d);
    } else {
      DemandInvariant(tasks, horizon, n - 1, d);
      RunPositive(tasks, EarliestDeadline, horizon, n - 1);
      TickAccounts(tasks, EarliestDeadline, horizon, n - 1, Run(tasks, EarliestDeadline, horizon, n - 1), d);
      DemandFits(tasks, n, d);
    }
  }

  /** With utilisation at most one, EDF never misses: at every tick, for every release horizon. */
  lemma {:induction false} EdfMeetsDeadlines(tasks: seq<Task>, horizon: nat, n: nat)
    requires ValidTasks(tasks) && Utilization(tasks) <= 1.0
    ensures MeetsDeadlines(tasks, EarliestDeadline, horizon, n)
  {
    hide Tick;
    NothingOverdue(tasks, horizon, n);
    if n > 0 {
      EdfMeetsDeadlines(tasks, horizon, n - 1);
      var s := Run(tasks, EarliestDeadline, horizon, n - 1);
      TickWithoutMiss(tasks, EarliestDeadline, horizon, n - 1, s);
      assert Run(tasks, EarliestDeadline, horizon, n) == Tick(tasks, EarliestDeadline, horizon, n - 1, s);
    }
  }

  lemma {:induction false} NothingOverdue(tasks: seq<Task>, horizon: nat, n: nat)
    requires ValidTasks(tasks) && Utilization(tasks) <= 1.0
    ensures var p := Run(tasks, EarliestDeadline, horizon, n).pending;
            forall j :: 0 <= j < |p| ==> p[j].deadline > n
  {
    DemandInvariant(tasks, horizon, n, n);
    RunPositive(tasks, EarliestDeadline, horizon, n);
    BacklogZero(Run(tasks, EarliestDeadline, horizon, n).pending, n);
  }

  predicate DueBefore(pending: seq<Job>, bound: nat) {
    forall j :: 0 <= j < |pending| ==> pending[j].deadline < bound
  }

  lemma ServeKeepsDue(t: nat, s: Sim, i: nat, bound: nat)
    requires i < |s.pending| && DueBefore(s.pending, bound)
    ensures DueBefore(Serve(t, s, i).pending, bound)
  {
  }

  /** A tick leaves only jobs that were pending before or that are due after the tick and less than
      the longest period behind the horizon. */
  lemma {:induction false} TickDeadlines(tasks: seq<Task>, mode: Mode, horizon: nat, t: nat, s: Sim, bound: nat)
    requires ValidTasks(tasks) && horizon + Longest(tasks) <= bound
    requires DueBefore(s.pending, bound)
    ensures DueBefore(Tick(tasks, mode, horizon, t, s).pending, bound)
  {
    hide Serve;
    var released := Released(tasks, horizon, t, |tasks|);
    forall j | 0 <= j < |released| ensures released[j].deadline < bound {
      ReleasedJobs(tasks, horizon, t, |tasks|, Longest(tasks), j);
    }
    var s' := Release(tasks, horizon, t, s);
    if s'.pending != [] {
      ServeKeepsDue(t, s', Chosen(mode, s'.pending), bound);
    }
  }

  lemma TickWithoutMiss(tasks: seq<Task>, mode: Mode, horizon: nat, t: nat, s: Sim)
    requires ValidTasks(tasks)
    requires forall j :: 0 <= j < |s.pending| ==> s.pending[j].deadline > t
    ensures Tick(tasks, mode, horizon, t, s).misses == s.misses
  {
    var released := Released(tasks, horizon, t, |tasks|);
    forall j | 0 <= j < |released| ensures released[j].deadline > t {
      ReleasedJobs(tasks, horizon, t, |tasks|, Longest(tasks), j);
    }
  }

  /** Every deadline lies less than the longest period behind the release horizon. */
  lemma {:induction false} DeadlinesBounded(tasks: seq<Task>, mode: Mode, horizon: nat, n: nat, bound: nat)
    requires ValidTasks(tasks) && horizon + Longest(tasks) <= bound
    ensures DueBefore(Run(tasks, mode, horizon, n).pending, bound)
  {
    hide Tick;
    if n > 0 {
      DeadlinesBounded(tasks, mode, horizon, n - 1, bound);
      TickDeadlines(tasks, mode, horizon, n - 1, Run(tasks, mode, horizon, n - 1), bound);
    }
  }

  /** ... and one period after the last release nothing is left, so the final check holds. */
  lemma {:induction false} EdfDrains(tasks: seq<Task>, horizon: nat, n: nat)
    requires ValidTasks(tasks) && Utilization(tasks) <= 1.0
    requires horizon + Longest(tasks) <= n + 1
    ensures Run(tasks, EarliestDeadline, horizon, n) == Sim([], 0)
  {
    EdfMeetsDeadlines(tasks, horizon, n);
    var s := Run(tasks, EarliestDeadline, horizon, n);
    if s.pending != [] {
      var first := s.pending[0];
      DeadlinesBounded(tasks, EarliestDeadline, horizon, n, horizon + Longest(tasks));
      assert false;
    }
  }

  // ---------------------------------------------------------------- optimality

  function Hyperperiod(tasks: seq<Task>): (h: nat)
    requires ValidTasks(tasks)
    ensures h > 0
  {
    if tasks == [] then 1 else Hyperperiod(tasks[..|tasks| - 1]) * tasks[|tasks| - 1].period
  }

  lemma Regroup(x: nat, y: nat, z: nat)
    ensures x * y * z == x * (y * z) == (x * z) * y
  {
  }

  /** Over a multiple of the hyperperiod the demand is exactly utilisation times its length. */
  lemma {:induction false} DemandOverHyperperiod(tasks: seq<Task>, m: nat)
    requires ValidTasks(tasks)
    ensures var h := Hyperperiod(tasks) * m;
            Demand(tasks, 0, h) as real == Utilization(tasks) * h as real
  {
    hide TaskDemand, Rate;
    if tasks != [] {
      var n := |tasks| - 1;
      var rest, task, h := Hyperperiod(tasks[..n]), tasks[n], Hyperperiod(tasks) * m;
      Regroup(rest, task.period, m);
      DemandOverHyperperiod(tasks[..n], task.period * m);
      TaskDemandExact(task, rest * m, h);
      AddExact(Demand(tasks[..n], 0, h), TaskDemand(task, 0, h), Utilization(tasks[..n]), Rate(task), h);
    }
  }

  /** No policy can serve more than one unit of demand per tick. */
  lemma {:induction false} ServiceBound(tasks: seq<Task>, mode: Mode, horizon: nat, n: nat, d: nat)
    requires ValidTasks(tasks) && n <= d <= horizon
    ensures Backlog(Run(tasks, mode, horizon, n).pending, d) + Demand(tasks, n, d) + n >= Demand(tasks, 0, d)
  {
    hide Tick, Demand;
    if n > 0 {
      ServiceBound(tasks, mode, horizon, n - 1, d);
      RunPositive(tasks, mode, horizon, n - 1);
      TickAccounts(tasks, mode, horizon, n - 1, Run(tasks, mode, horizon, n - 1), d);
    }
  }

  /** With utilisation above one, every policy has a job at or past its deadline after one
      hyperperiod, whatever it did before. */
  lemma {:induction false} OverloadMisses(tasks: seq<Task>, mode: Mode, horizon: nat)
    requires ValidTasks(tasks) && Utilization(tasks) > 1.0 && Hyperperiod(tasks) <= horizon
    ensures !MeetsDeadlines(tasks, mode, horizon, Hyperperiod(tasks))
  {
    hide Tick, Demand, Utilization;
    var h := Hyperperiod(tasks);
    DemandOverHyperperiod(tasks, 1);
    ScaleUp(Demand(tasks, 0, h), Utilization(tasks), h);
    ServiceBound(tasks, mode, horizon, h, h);
    NoDemandLeft(tasks, h);
    RunPositive(tasks, mode, horizon, h);
    BacklogZero(Run(tasks, mode, horizon, h).pending, h);
  }

  /** EDF meets every deadline for every horizon exactly when the utilisation is at most one. */
  lemma {:induction false} EdfFeasibleIff(tasks: seq<Task>)
    requires ValidTasks(tasks)
    ensures (forall horizon: nat, n: nat :: MeetsDeadlines(tasks, EarliestDeadline, horizon, n)) <==>
            Utilization(tasks) <= 1.0
  {
    if Utilization(tasks) <= 1.0 {
      forall horizon: nat, n: nat ensures MeetsDeadlines(tasks, EarliestDeadline, horizon, n) {
        EdfMeetsDeadlines(tasks, horizon, n);
      }
    } else {
      OverloadMisses(tasks, EarliestDeadline, Hyperperiod(tasks));
    }
  }

  /** Optimality: if any of the simulator's policies meets every deadline for every horizon, so does EDF. */
  lemma EdfIsOptimal(tasks: seq<Task>, mode: Mode)
    requires ValidTasks(tasks)
    requires forall horizon: nat, n: nat :: MeetsDeadlines(tasks, mode, horizon, n)
    ensures forall horizon: nat, n: nat :: MeetsDeadlines(tasks, EarliestDeadline, horizon, n)
  {
    if Utilization(tasks) > 1.0 {
      OverloadMisses(tasks, mode, Hyperperiod(tasks));
    }
    EdfFeasibleIff(tasks);
  }

  // ---------------------------------------------------------------- the repository's task set

  const A := Task(100, 42)
  const B := Task(140, 59)
  const HORIZON: nat := 1400
  const TICKS: nat := 1600

  /** For two tasks the utilisation bound is the integer inequality. */
  lemma TwoTaskUtilization(a: Task, b: Task)
    requires ValidTasks([a, b])
    ensures Utilization([a, b]) <= 1.0 <==> a.work * b.period + b.work * a.period <= a.period * b.period
  {
    assert [a, b][..1] == [a] && [a][..0] == [] && [a, b][0] == a && [a, b][1] == b && [a][0] == a;
    assert Utilization([a, b]) == Utilization([a]) + Rate(b) && Utilization([a]) == Rate(a);
    SumOfRates(a.work as real, a.period as real, b.work as real, b.period as real);
    RealProduct(a.work, b.period);
    RealProduct(b.work, a.period);
    RealProduct(a.period, b.period);
  }

  /** Two tasks: EDF meets every deadline for every release horizon exactly when the inequality holds. */
  lemma TwoTaskEdf(a: Task, b: Task)
    requires ValidTasks([a, b])
    ensures (forall horizon: nat, n: nat :: MeetsDeadlines([a, b], EarliestDeadline, horizon, n)) <==>
            a.work * b.period + b.work * a.period <= a.period * b.period
  {
    hide MeetsDeadlines, Utilization;
    TwoTaskUtilization(a, b);
    EdfFeasibleIff([a, b]);
  }

  lemma SumOfRates(a: real, p: real, b: real, q: real)
    requires p > 0.0 && q > 0.0
    ensures a / p + b / q <= 1.0 <==> a * q + b * p <= p * q
  {
    var u, v, z := a / p, b / q, p * q;
    assert u * p == a && v * q == b && z > 0.0;
    assert (u + v) * z == a * q + b * p by {
      assert u * z == (u * p) * q && v * z == (v * q) * p;
    }
    if u + v <= 1.0 {
      assert (1.0 - (u + v)) * z >= 0.0;
    } else {
      assert ((u + v) - 1.0) * z > 0.0;
    }
  }

  /** `simulate('edf')` reports no miss and leaves nothing pending. */
  lemma EdfTaskSet()
    ensures Run([A, B], EarliestDeadline, HORIZON, TICKS) == Sim([], 0)
  {
    TwoTaskUtilization(A, B);
    assert Longest([A, B]) == 140 by {
      assert [A, B][..1] == [A] && [A][..0] == [];
      assert Longest([A]) == 100;
    }
    EdfDrains([A, B], HORIZON, TICKS);
  }

  /** The set A, B is not schedulable with either task favoured: the other one finishes late. */
  lemma FavouringMisses()
    ensures Run([A, B], Favour(0), HORIZON, TICKS).misses > 0
    ensures Run([A, B], Favour(1), HORIZON, TICKS).misses > 0
  {
    FavouringA();
    MissesGrow([A, B], Favour(0), HORIZON, 143, TICKS);
    FavouringB();
    MissesGrow([A, B], Favour(1), HORIZON, 101, TICKS);
  }

  lemma {:induction false} MissesGrow(tasks: seq<Task>, mode: Mode, horizon: nat, m: nat, n: nat)
    requires ValidTasks(tasks) && m <= n
    ensures Run(tasks, mode, horizon, m).misses <= Run(tasks, mode, horizon, n).misses
  {
    hide Tick;
    if m < n {
      MissesGrow(tasks, mode, horizon, m, n - 1);
      TickNeverForgets(tasks, mode, horizon, n - 1, Run(tasks, mode, horizon, n - 1));
    }
  }

  lemma TickNeverForgets(tasks: seq<Task>, mode: Mode, horizon: nat, t: nat, s: Sim)
    requires ValidTasks(tasks)
    ensures s.misses <= Tick(tasks, mode, horizon, t, s).misses
  {
  }

  /** `min` has only one possible answer. */
  lemma {:induction false} ChosenIs(mode: Mode, p: seq<Job>, i: nat)
    requires i < |p|
    requires forall j :: 0 <= j < |p| ==> !Before(mode, p[j], p[i])
    requires forall j :: 0 <= j < i ==> Before(mode, p[i], p[j])
    ensures Chosen(mode, p) == i
  {
    var j := Chosen(mode, p);
    assert !Before(mode, p[i], p[j]) && !Before(mode, p[j], p[i]);
  }

  function ReleasedAt(t: nat): seq<Job> {
    (if t % 100 == 0 then [Job(0, t + 100, 42)] else []) + (if t % 140 == 0 then [Job(1, t + 140, 59)] else [])
  }

  /** Tick `t` of the set A, B, from a known state in which job `i` is to be chosen. */
  lemma TickOf(mode: Mode, t: nat, s: Sim, i: nat)
    requires t < HORIZON && i < |s.pending + ReleasedAt(t)|
    requires var p := s.pending + ReleasedAt(t);
             (forall j :: 0 <= j < |p| ==> !Before(mode, p[j], p[i])) &&
             (forall j :: 0 <= j < i ==> Before(mode, p[i], p[j]))
    ensures Tick([A, B], mode, HORIZON, t, s) == Serve(t, s.(pending := s.pending + ReleasedAt(t)), i)
  {
    assert Released([A, B], HORIZON, t, 1) == if t % 100 == 0 then [Job(0, t + 100, 42)] else [];
    assert Released([A, B], HORIZON, t, 2) == ReleasedAt(t);
    ChosenIs(mode, s.pending + ReleasedAt(t), i);
  }

  /** ... and so, after tick `n`, the run is in the state `s'`. */
  lemma RunStep(mode: Mode, n: nat, s: Sim, i: nat, s': Sim)
    requires Run([A, B], mode, HORIZON, n) == s && n < HORIZON && i < |s.pending + ReleasedAt(n)|
    requires var p := s.pending + ReleasedAt(n);
             (forall j :: 0 <= j < |p| ==> !Before(mode, p[j], p[i])) &&
             (forall j :: 0 <= j < i ==> Before(mode, p[i], p[j]))
    requires var r := Serve(n, s.(pending := s.pending + ReleasedAt(n)), i);
             r.pending == s'.pending && r.misses == s'.misses
    ensures Run([A, B], mode, HORIZON, n + 1) == s'
  {
    hide Tick;
    TickOf(mode, n, s, i);
  }

  /** `k` ticks without a release, all spent on job `i`. */
  lemma {:induction false} RunsAlone(mode: Mode, n: nat, k: nat, s: Sim, i: nat)
    requires Run([A, B], mode, HORIZON, n) == s && n + k <= HORIZON
    requires i < |s.pending| && k < s.pending[i].remaining
    requires (forall j :: 0 <= j < |s.pending| ==> !Before(mode, s.pending[j], s.pending[i]))
    requires (forall j :: 0 <= j < i ==> Before(mode, s.pending[i], s.pending[j]))
    requires forall t :: n <= t < n + k ==> t % 100 != 0 && t % 140 != 0
    ensures Run([A, B], mode, HORIZON, n + k) ==
            s.(pending := s.pending[i := s.pending[i].(remaining := s.pending[i].remaining - k)])
  {
    hide Tick;
    if k > 0 {
      RunsAlone(mode, n, k - 1, s, i);
      var s' := Run([A, B], mode, HORIZON, n + k - 1);
      assert s'.pending + ReleasedAt(n + k - 1) == s'.pending;
      TickOf(mode, n + k - 1, s', i);
    }
  }

  lemma FavouringAStart()
    ensures Run([A, B], Favour(0), HORIZON, 101) == Sim([Job(1, 140, 1), Job(0, 200, 41)], 0)
  {
    hide Tick;
    var m := Favour(0);
    RunStep(m, 0, Sim([], 0), 0, Sim([Job(0, 100, 41), Job(1, 140, 59)], 0));
    RunsAlone(m, 1, 40, Sim([Job(0, 100, 41), Job(1, 140, 59)], 0), 0);
    RunStep(m, 41, Sim([Job(0, 100, 1), Job(1, 140, 59)], 0), 0, Sim([Job(1, 140, 59)], 0));
    RunsAlone(m, 42, 58, Sim([Job(1, 140, 59)], 0), 0);
    RunStep(m, 100, Sim([Job(1, 140, 1)], 0), 1, Sim([Job(1, 140, 1), Job(0, 200, 41)], 0));
  }

  lemma FavouringA()
    ensures Run([A, B], Favour(0), HORIZON, 143).misses == 1
  {
    hide Tick;
    var m := Favour(0);
    FavouringAStart();
    RunsAlone(m, 101, 39, Sim([Job(1, 140, 1), Job(0, 200, 41)], 0), 1);
    RunStep(m, 140, Sim([Job(1, 140, 1), Job(0, 200, 2)], 0), 1,
            Sim([Job(1, 140, 1), Job(0, 200, 1), Job(1, 280, 59)], 0));
    RunStep(m, 141, Sim([Job(1, 140, 1), Job(0, 200, 1), Job(1, 280, 59)], 0), 1,
            Sim([Job(1, 140, 1), Job(1, 280, 59)], 0));
    RunStep(m, 142, Sim([Job(1, 140, 1), Job(1, 280, 59)], 0), 0, Sim([Job(1, 280, 59)], 1));
  }

  lemma FavouringB()
    ensures Run([A, B], Favour(1), HORIZON, 101).misses == 1
  {
    hide Tick;
    var m := Favour(1);
    RunStep(m, 0, Sim([], 0), 1, Sim([Job(0, 100, 42), Job(1, 140, 58)], 0));
    RunsAlone(m, 1, 57, Sim([Job(0, 100, 42), Job(1, 140, 58)], 0), 1);
    RunStep(m, 58, Sim([Job(0, 100, 42), Job(1, 140, 1)], 0), 1, Sim([Job(0, 100, 42)], 0));
    RunsAlone(m, 59, 41, Sim([Job(0, 100, 42)], 0), 0);
    RunStep(m, 100, Sim([Job(0, 100, 1)], 0), 0, Sim([Job(0, 200, 42)], 1));
  }
}
