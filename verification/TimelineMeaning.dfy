/**
 What the task states of the timeline mean, said of the event list alone: by the last switch that involved
 the task, the wake-ups since, and the wake-ups that raced it.
 */
module TimelineMeaning {
  import opened Options
  import opened Timeline
  import opened TimelineAnalysis

  // ---------------------------------------------------------------- the last switch and the wake-ups

  /** A switch from or to the task. */
  predicate Involves(e: Event, imu: nat) {
    e.kind.Switch? && (e.next.key == imu || e.taskKey == imu)
  }

  /** The last switch from or to the task, or -1. */
  function LastSwitch(past: seq<Event>, imu: nat): (k: int)
    ensures -1 <= k < |past|
    ensures k >= 0 ==> Involves(past[k], imu)
    ensures forall i :: k < i < |past| ==> !Involves(past[i], imu)
  {
    if past == [] then -1
    else if Involves(past[|past| - 1], imu) then |past| - 1
    else LastSwitch(past[..|past| - 1], imu)
  }

  /** The last such switch was to the task. */
  predicate SwitchedIn(past: seq<Event>, imu: nat) {
    var k := LastSwitch(past, imu);
    k >= 0 && past[k].next.key == imu
  }

  /** The last such switch was from the task. */
  predicate SwitchedOut(past: seq<Event>, imu: nat) {
    var k := LastSwitch(past, imu);
    k >= 0 && past[k].next.key != imu
  }

  /** A wake-up followed event `k`. */
  predicate WokenSince(past: seq<Event>, k: int) {
    exists j :: 0 <= j < |past| && k < j && past[j].kind.Wakeup?
  }

  /** Wake-up `j` came while the task was on the CPU, and since then the task has neither stopped nor been
      switched. */
  predicate WakesOnCpu(past: seq<Event>, imu: nat, j: nat)
    requires j < |past|
  {
    && past[j].kind.Wakeup? && SwitchedIn(past[..j], imu)
    && forall i :: j < i < |past| ==> !past[i].kind.Stopping? && !Involves(past[i], imu)
  }

  predicate WakePending(past: seq<Event>, imu: nat) {
    exists j :: 0 <= j < |past| && WakesOnCpu(past, imu, j)
  }

  /** A wake-up raced the last switch from the task. */
  predicate Raced(past: seq<Event>, imu: nat) {
    var k := LastSwitch(past, imu);
    k >= 0 && WakePending(past[..k], imu)
  }

  // ---------------------------------------------------------------- what each state means

  /** The task was switched out unable to run, and has not been woken since. */
  predicate Asleep(past: seq<Event>, imu: nat) {
    var k := LastSwitch(past, imu);
    SwitchedOut(past, imu) && !past[k].runnable && !WokenSince(past, k)
  }

  predicate Waits(past: seq<Event>, imu: nat) {
    var k := LastSwitch(past, imu);
    !SwitchedIn(past, imu) && (WokenSince(past, k) || (k >= 0 && past[k].runnable))
  }

  predicate Blocks(past: seq<Event>, imu: nat) {
    Asleep(past, imu) && !Raced(past, imu) && past[LastSwitch(past, imu)].syscall != "exit"
  }

  predicate Exits(past: seq<Event>, imu: nat) {
    Asleep(past, imu) && !Raced(past, imu) && past[LastSwitch(past, imu)].syscall == "exit"
  }

  /** Nothing is known of the task yet. */
  predicate Unseen(past: seq<Event>, imu: nat) {
    LastSwitch(past, imu) < 0 && !WokenSince(past, -1)
  }

  predicate Means(m: Machine, past: seq<Event>, imu: nat) {
    && (m.state.OnCpu? <==> SwitchedIn(past, imu))
    && (m.state.RunnableWait? <==> Waits(past, imu))
    && (m.state.Blocked? <==> Blocks(past, imu))
    && (m.state.ExitPath? <==> Exits(past, imu))
    && (m.state.Unknown? <==> Unseen(past, imu) || (Asleep(past, imu) && Raced(past, imu)))
    && m.reason == ReasonOf(past, imu)
  }

  function ReasonOf(past: seq<Event>, imu: nat): string {
    if SwitchedIn(past, imu) || Waits(past, imu) then "none"
    else if Asleep(past, imu) then
      (if Raced(past, imu) then "wake_switch_race" else past[LastSwitch(past, imu)].syscall)
    else "unknown"
  }

  // ---------------------------------------------------------------- one more event

  lemma {:induction false} SwitchNow(past: seq<Event>, e: Event, imu: nat)
    requires Involves(e, imu)
    ensures LastSwitch(past + [e], imu) == |past|
    ensures Raced(past + [e], imu) == WakePending(past, imu)
    ensures !WokenSince(past + [e], |past|) && !WakePending(past + [e], imu)
  {
    var all := past + [e];
    assert all[|past|] == e && all[..|past|] == past;
    forall j | 0 <= j < |all| ensures !WakesOnCpu(all, imu, j) {
      if j < |past| {
        assert Involves(all[|past|], imu);
      }
    }
  }

  lemma {:induction false} NoSwitchNow(past: seq<Event>, e: Event, imu: nat)
    requires !Involves(e, imu)
    ensures LastSwitch(past + [e], imu) == LastSwitch(past, imu)
    ensures Raced(past + [e], imu) == Raced(past, imu)
    ensures SwitchedIn(past + [e], imu) == SwitchedIn(past, imu)
    ensures WokenSince(past + [e], LastSwitch(past, imu)) == (WokenSince(past, LastSwitch(past, imu)) || e.kind.Wakeup?)
    ensures WakePending(past + [e], imu) ==
            ((WakePending(past, imu) && !e.kind.Stopping?) || (e.kind.Wakeup? && SwitchedIn(past, imu)))
  {
    var all, k := past + [e], LastSwitch(past, imu);
    assert all[|past|] == e && all[..|past|] == past;
    assert k >= 0 ==> all[..k] == past[..k] && all[k] == past[k];
    WokenMore(past, e, k);
    PendingMore(past, e, imu);
  }

  lemma WokenMore(past: seq<Event>, e: Event, k: int)
    requires k < |past|
    ensures WokenSince(past + [e], k) == (WokenSince(past, k) || e.kind.Wakeup?)
  {
    var all := past + [e];
    assert all[|past|] == e;
    if j :| 0 <= j < |past| && k < j && past[j].kind.Wakeup? {
      assert all[j] == past[j];
    }
  }

  lemma PendingMore(past: seq<Event>, e: Event, imu: nat)
    requires !Involves(e, imu)
    ensures WakePending(past + [e], imu) ==
            ((WakePending(past, imu) && !e.kind.Stopping?) || (e.kind.Wakeup? && SwitchedIn(past, imu)))
  {
    var all := past + [e];
    assert all[|past|] == e && all[..|past|] == past;
    forall j | 0 <= j < |past| ensures WakesOnCpu(all, imu, j) == (WakesOnCpu(past, imu, j) && !e.kind.Stopping?) {
      assert all[..j] == past[..j] && all[j] == past[j];
      assert forall i :: j < i < |past| ==> all[i] == past[i];
    }
    assert WakesOnCpu(all, imu, |past|) == (e.kind.Wakeup? && SwitchedIn(past, imu));
    if j :| 0 <= j < |past| && WakesOnCpu(past, imu, j) {
      assert WakesOnCpu(all, imu, j) == !e.kind.Stopping?;
    }
  }

  lemma SwitchMeans(m: Machine, past: seq<Event>, e: Event, imu: nat)
    requires m.wakeWhileRunning == WakePending(past, imu) && Involves(e, imu)
    ensures var m' := Step(m, e, imu);
            Means(m', past + [e], imu) && m'.wakeWhileRunning == WakePending(past + [e], imu)
  {
    hide WakePending, WokenSince, Raced, LastSwitch;
    SwitchNow(past, e, imu);
    assert (past + [e])[|past|] == e;
  }

  lemma OtherMeans(m: Machine, past: seq<Event>, e: Event, imu: nat)
    requires Means(m, past, imu) && m.wakeWhileRunning == WakePending(past, imu) && !Involves(e, imu)
    ensures var m' := Step(m, e, imu);
            Means(m', past + [e], imu) && m'.wakeWhileRunning == WakePending(past + [e], imu)
  {
    hide WakePending, WokenSince, Raced, LastSwitch;
    NoSwitchNow(past, e, imu);
    var k := LastSwitch(past, imu);
    assert k >= 0 ==> (past + [e])[k] == past[k];
  }

  /** After any events, the state and the reason are those the events alone give. */
  lemma {:induction false} FoldMeans(past: seq<Event>, imu: nat)
    ensures Means(Fold(past, imu), past, imu) && Fold(past, imu).wakeWhileRunning == WakePending(past, imu)
  {
    if past != [] {
      var n := |past| - 1;
      FoldMeans(past[..n], imu);
      assert past[..n] + [past[n]] == past;
      hide Step, Means, WakePending;
      if Involves(past[n], imu) {
        SwitchMeans(Fold(past[..n], imu), past[..n], past[n], imu);
      } else {
        OtherMeans(Fold(past[..n], imu), past[..n], past[n], imu);
      }
    }
  }

  // ---------------------------------------------------------------- at one instant

  predicate MeansState(state: TaskState, past: seq<Event>, imu: nat) {
    match state
    case OnCpu => SwitchedIn(past, imu)
    case RunnableWait => Waits(past, imu)
    case Blocked => Blocks(past, imu)
    case ExitPath => Exits(past, imu)
    case Unknown => Unseen(past, imu) || (Asleep(past, imu) && Raced(past, imu))
  }

  /** At every instant of every sorted trace, with `past` the events that have happened by then and `k` the
      last switch from or to the task among them: the task is on the CPU iff `k` switched to it; it waits to
      run iff it is off the CPU and `k` left it runnable or a wake-up followed; it is blocked, in the system
      call `k` names, iff `k` left it unable to run, raced no wake-up, was no exit, and no wake-up followed;
      likewise for the exit path; and its state is unknown iff nothing was seen of it yet or `k` raced a
      wake-up and none followed. */
  lemma {:induction false} StateMeaning(events: seq<Event>, imu: nat, x: int)
    requires Sorted(events)
    ensures var past, m := events[..Cut(events, x)], StateAt(events, imu, x);
            var k := LastSwitch(past, imu);
            && (forall i :: 0 <= i < |events| ==> (i < |past| <==> events[i].ts <= x))
            && (m.state.OnCpu? <==> k >= 0 && past[k].next.key == imu)
            && (m.state.RunnableWait? <==>
                  (k >= 0 ==> past[k].next.key != imu) && (WokenSince(past, k) || (k >= 0 && past[k].runnable)))
            && (m.state.Blocked? <==> Asleep(past, imu) && !Raced(past, imu) && past[k].syscall != "exit")
            && (m.state.Blocked? ==> m.reason == past[k].syscall)
            && (m.state.ExitPath? <==> Asleep(past, imu) && !Raced(past, imu) && past[k].syscall == "exit")
            && (m.state.Unknown? <==> (k < 0 && !WokenSince(past, -1)) || (Asleep(past, imu) && Raced(past, imu)))
            && (m.state.Unknown? ==> m.reason == if k < 0 then "unknown" else "wake_switch_race")
  {
    hide WokenSince, Raced, LastSwitch, Fold;
    CutSplits(events, x);
    FoldMeans(Past(events, x), imu);
  }

  /** The number of instants of [lo, hi) that have a meaning. */
  function MeantInstants(events: seq<Event>, imu: nat, lo: int, hi: int, state: TaskState): nat
    decreases hi - lo
  {
    if hi <= lo then 0
    else MeantInstants(events, imu, lo, hi - 1, state) + if MeansState(state, Past(events, hi - 1), imu) then 1 else 0
  }

  /** So the reported totals count the instants of which the events say so. */
  lemma {:induction false} InstantsMeaning(events: seq<Event>, imu: nat, lo: int, hi: int, state: TaskState)
    ensures Instants(events, imu, lo, hi, state) == MeantInstants(events, imu, lo, hi, state)
    decreases hi - lo
  {
    hide SwitchedIn, Waits, Blocks, Exits, Unseen, Asleep, Raced, Fold;
    if lo < hi {
      InstantsMeaning(events, imu, lo, hi - 1, state);
      FoldMeans(Past(events, hi - 1), imu);
    }
  }

  // ---------------------------------------------------------------- the occupancy table

  predicate MatchesAt(events: seq<Event>, imu: nat, key: Key, x: int) {
    && StateAt(events, imu, x).state == key.state && StateAt(events, imu, x).reason == key.reason
    && OccupantAt(events, x) == Some(key.cpu)
  }

  function MatchingInstants(events: seq<Event>, imu: nat, lo: int, hi: int, key: Key): nat
    decreases hi - lo
  {
    if hi <= lo then 0
    else MatchingInstants(events, imu, lo, hi - 1, key) + if MatchesAt(events, imu, key, hi - 1) then 1 else 0
  }

  lemma {:induction false} MatchingExtend(events: seq<Event>, imu: nat, lo: int, r: Row, hi: int, key: Key)
    requires lo <= r.from <= hi <= r.to && RowCorrect(r, events, imu)
    ensures MatchingInstants(events, imu, lo, hi, key) ==
            MatchingInstants(events, imu, lo, r.from, key) +
            if key == Key(r.state, r.reason, r.cpu) then hi - r.from else 0
    decreases hi - r.from
  {
    hide StateAt, OccupantAt;
    if r.from < hi {
      MatchingExtend(events, imu, lo, r, hi - 1, key);
    }
  }

  /** The occupancy table has, for each state, reason and occupant, the number of window instants with all
      three, and no other entries. */
  lemma {:induction false} OccupancyIsInstants(rows: seq<Row>, events: seq<Event>, imu: nat, lo: int, hi: int, key: Key)
    requires RowsDescribe(rows, events, imu, lo, hi)
    ensures var o, n := OccupancyOf(rows), MatchingInstants(events, imu, lo, hi, key);
            if key in o then o[key] == n > 0 else n == 0
  {
    hide RowCorrect, MatchesAt;
    if rows != [] {
      var front, r := rows[..|rows| - 1], rows[|rows| - 1];
      OccupancyIsInstants(front, events, imu, lo, r.from, key);
      TileForward(front, lo, r.from);
      assert RowCorrect(r, events, imu);
      MatchingExtend(events, imu, lo, r, hi, key);
    }
  }

  // ---------------------------------------------------------------- the callbacks and the verdict

  /** Callback event `i` fits what went before: no start inside a callback, and no stop outside one unless
      the callback may have begun before the trace. */
  predicate Fits(events: seq<Event>, start: int, i: nat)
    requires i < |events|
  {
    match events[i].kind
    case Running => !CallbackOpen(events[..i])
    case Stopping => CallbackOpen(events[..i]) || events[i].ts < start
    case _ => true
  }

  predicate AllFit(events: seq<Event>, start: int) {
    forall i :: 0 <= i < |events| ==> Fits(events, start, i)
  }

  lemma FitsFront(events: seq<Event>, start: int, k: nat, i: nat)
    requires i < k <= |events|
    ensures Fits(events[..k], start, i) == Fits(events, start, i)
  {
    assert events[..k][..i] == events[..i];
  }

  lemma AllFitFront(events: seq<Event>, start: int)
    requires events != []
    ensures var n := |events| - 1; AllFit(events, start) == (AllFit(events[..n], start) && Fits(events, start, n))
  {
    hide Fits;
    var n := |events| - 1;
    forall i | 0 <= i < n ensures Fits(events[..n], start, i) == Fits(events, start, i) {
      FitsFront(events, start, n, i);
    }
  }

  /** The callbacks pair up exactly when each one fits; the first that does not decides the complaint. */
  lemma {:induction false} PairingIff(events: seq<Event>, w: Window)
    requires Sorted(events)
    ensures PairUp(events, w.start).Paired? <==> AllFit(events, w.start)
    ensures PairUp(events, w.start).UnpairedRunning? ==>
              exists i :: 0 <= i < |events| && Complains(events, w.start, i) && events[i].kind.Running?
    ensures PairUp(events, w.start).UnpairedStopping? ==>
              exists i :: 0 <= i < |events| && Complains(events, w.start, i) && events[i].kind.Stopping?
  {
    hide Fits, AllFit;
    if events == [] {
      NothingFits(w.start);
    } else {
      var n := |events| - 1;
      PairingIff(events[..n], w);
      AllFitFront(events, w.start);
      var p := PairUp(events[..n], w.start);
      if p.Paired? {
        OpenIsPast(events[..n], w);
        FitIsStep(events, w, n);
        if !PairUp(events, w.start).Paired? {
          assert Complains(events, w.start, n);
        }
      } else {
        var i :| && 0 <= i < n && Complains(events[..n], w.start, i)
                 && events[..n][i].kind.Running? == p.UnpairedRunning?
                 && events[..n][i].kind.Stopping? == p.UnpairedStopping?;
        FitsFront(events, w.start, n, i);
        assert events[..n][..i] == events[..i];
        assert Complains(events, w.start, i);
      }
    }
  }

  lemma NothingFits(start: int)
    ensures AllFit([], start)
  {
  }

  lemma FitIsStep(events: seq<Event>, w: Window, n: nat)
    requires n < |events| && PairUp(events[..n], w.start).Paired?
    requires PairUp(events[..n], w.start).open.Some? <==> CallbackOpen(events[..n])
    ensures PairStep(PairUp(events[..n], w.start), events[n], w.start).Paired? <==> Fits(events, w.start, n)
  {
  }

  /** Event `i` is the first that does not fit. */
  predicate Complains(events: seq<Event>, start: int, i: nat)
    requires i < |events|
  {
    !Fits(events, start, i) && AllFit(events[..i], start)
  }

  /** No callback that started before the window's end is still running at the end of the trace. */
  ghost predicate ClosedByEnd(events: seq<Event>, w: Window) {
    CallbackOpen(events) ==> exists i :: 0 <= i < |events| && LastStart(events, i) && events[i].ts >= w.end
  }

  predicate LastStart(events: seq<Event>, i: nat)
    requires i < |events|
  {
    events[i].kind.Running? && forall j :: i < j < |events| ==> !events[j].kind.Running? && !events[j].kind.Stopping?
  }

  lemma {:induction false} OpenSince(events: seq<Event>, start: int)
    requires PairUp(events, start).Paired? && PairUp(events, start).open.Some?
    ensures exists i :: 0 <= i < |events| && LastStart(events, i) && events[i].ts == PairUp(events, start).open.value
  {
    var n := |events| - 1;
    if events[n].kind.Running? {
      assert LastStart(events, n);
    } else {
      OpenSince(events[..n], start);
      var i :| 0 <= i < n && LastStart(events[..n], i) && events[..n][i].ts == PairUp(events[..n], start).open.value;
      assert forall j :: 0 <= j < n ==> events[..n][j] == events[j];
      assert LastStart(events, i);
    }
  }

  lemma {:induction false} ClosedIff(events: seq<Event>, w: Window)
    requires Sorted(events) && PairUp(events, w.start).Paired?
    ensures var open := PairUp(events, w.start).open;
            (open.Some? && open.value < w.end) <==> !ClosedByEnd(events, w)
  {
    hide PairUp, CallbackOpen;
    var open := PairUp(events, w.start).open;
    OpenIsPast(events, w);
    if open.Some? {
      OpenSince(events, w.start);
      var i :| 0 <= i < |events| && LastStart(events, i) && events[i].ts == open.value;
      forall j | 0 <= j < |events| && LastStart(events, j) ensures j == i {
        assert events[i].kind.Running? && events[j].kind.Running?;
      }
    }
  }

  /** A trace is judged valid exactly when nothing was lost, the switches bracket the window and form a
      chain, the window is not reversed, the task's state is known at each of its instants, the callbacks
      fit one another and end, and at least one instant lies in a callback. */
  lemma {:induction false} ValidIff(events: seq<Event>, lost: nat, conflicts: nat, w: Window, imu: nat)
    requires Sorted(events)
    ensures var switches := Switches(events);
            Judge(events, lost, conflicts, w, imu).Valid? <==>
              && lost == 0 && conflicts == 0
              && switches != [] && switches[0].ts <= w.start <= w.end <= switches[|switches| - 1].ts
              && (forall i :: 0 <= i < |switches| - 1 ==> switches[i].next.key == switches[i + 1].taskKey)
              && MeantInstants(events, imu, w.start, w.end, Unknown) == 0
              && AllFit(events, w.start) && ClosedByEnd(events, w)
              && BusyInstants(events, w.start, w.end) > 0
  {
    hide Instants, MeantInstants, BusyInstants, PairUp, AllFit, ClosedByEnd, PointwiseSummary;
    InstantsMeaning(events, imu, w.start, w.end, Unknown);
    PairingIff(events, w);
    if PairUp(events, w.start).Paired? {
      ClosedIff(events, w);
    }
  }

  /** The summary of a valid trace reports, for each state, the window instants of which the events say so,
      and the instants in callbacks. */
  lemma {:induction false} SummaryMeaning(events: seq<Event>, w: Window, imu: nat)
    requires Judge(events, 0, 0, w, imu).Valid?
    ensures var sum := Judge(events, 0, 0, w, imu).summary;
            && sum.window == w.end - w.start && sum.callback == BusyInstants(events, w.start, w.end)
            && sum.onCpu == MeantInstants(events, imu, w.start, w.end, OnCpu)
            && sum.blocked == MeantInstants(events, imu, w.start, w.end, Blocked)
            && sum.runnableWait == MeantInstants(events, imu, w.start, w.end, RunnableWait)
            && sum.exitPath == MeantInstants(events, imu, w.start, w.end, ExitPath)
            && sum.unknown == MeantInstants(events, imu, w.start, w.end, Unknown) == 0
  {
    hide Instants, MeantInstants, BusyInstants, PairUp;
    InstantsMeaning(events, imu, w.start, w.end, OnCpu);
    InstantsMeaning(events, imu, w.start, w.end, Blocked);
    InstantsMeaning(events, imu, w.start, w.end, RunnableWait);
    InstantsMeaning(events, imu, w.start, w.end, ExitPath);
    InstantsMeaning(events, imu, w.start, w.end, Unknown);
  }

  /** The first callback event that does not fit is of this kind. */
  predicate FirstMisfit(events: seq<Event>, start: int, kind: Kind) {
    exists i :: 0 <= i < |events| && Complains(events, start, i) && events[i].kind == kind
  }

  lemma OneMisfit(events: seq<Event>, start: int, i: nat, j: nat)
    requires i < |events| && j < |events| && Complains(events, start, i) && Complains(events, start, j)
    ensures i == j
  {
    hide Fits;
    if i < j {
      FitsFront(events, start, j, i);
    } else if j < i {
      FitsFront(events, start, i, j);
    }
  }

  lemma {:induction false} MisfitKinds(events: seq<Event>, w: Window)
    requires Sorted(events)
    ensures PairUp(events, w.start).UnpairedRunning? <==> FirstMisfit(events, w.start, Running)
    ensures PairUp(events, w.start).UnpairedStopping? <==> FirstMisfit(events, w.start, Stopping)
  {
    hide PairUp, Fits;
    PairingIff(events, w);
    forall i, j | && 0 <= i < |events| && Complains(events, w.start, i)
                  && 0 <= j < |events| && Complains(events, w.start, j)
      ensures i == j
    {
      OneMisfit(events, w.start, i, j);
    }
    forall i | 0 <= i < |events| && Complains(events, w.start, i) ensures !AllFit(events, w.start) {
      assert !Fits(events, w.start, i);
    }
  }

  /** Why a trace is rejected: the first of these that applies. */
  lemma {:induction false} RejectionReason(events: seq<Event>, lost: nat, conflicts: nat, w: Window, imu: nat)
    requires Sorted(events)
    ensures var v, switches := Judge(events, lost, conflicts, w, imu), Switches(events);
            var lossy := lost + conflicts > 0;
            var bracketed := switches != [] && switches[0].ts <= w.start && w.end <= switches[|switches| - 1].ts;
            var chained := forall i :: 0 <= i < |switches| - 1 ==> switches[i].next.key == switches[i + 1].taskKey;
            var clear := w.start <= w.end && MeantInstants(events, imu, w.start, w.end, Unknown) == 0;
            var running, stopping := FirstMisfit(events, w.start, Running), FirstMisfit(events, w.start, Stopping);
            && (v == Invalid(Loss) <==> lossy)
            && (v == Invalid(NotBracketed) <==> !lossy && !bracketed)
            && (v == Invalid(Discontinuous) <==> !lossy && bracketed && !chained)
            && (v == Invalid(Ambiguous) <==> !lossy && bracketed && chained && !clear)
            && (!lossy && bracketed && chained && clear ==>
                  && (v == Invalid(UnpairedRunningCallbacks) <==> running)
                  && (v == Invalid(UnpairedStoppingCallback) <==> stopping)
                  && (v == Invalid(OpenAtCutoff) <==> !running && !stopping && !ClosedByEnd(events, w))
                  && (v == Invalid(NoCoverage) <==> !running && !stopping && ClosedByEnd(events, w) &&
                                                    BusyInstants(events, w.start, w.end) == 0))
            && v != Invalid(Contradiction)
  {
    hide Instants, MeantInstants, BusyInstants, PairUp, FirstMisfit, ClosedByEnd, PointwiseSummary;
    InstantsMeaning(events, imu, w.start, w.end, Unknown);
    MisfitKinds(events, w);
    if PairUp(events, w.start).Paired? {
      ClosedIff(events, w);
    }
  }
}
