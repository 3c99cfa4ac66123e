/**
 The execution-timeline reconstruction of scripts/e4_execution.py: an event-driven state machine of
 one task, intersected with the CPU's switch timeline by a two-pointer sweep.

 The specification is pointwise: what the task's state and the CPU's occupant are at one instant,
 folded from all events up to that instant.
 */
module Timeline {
  import opened Options

  datatype Kind = Switch | Wakeup | Running | Stopping

  /** The switched-in task, as a switch event describes it. */
  datatype Occupant = Occupant(key: nat, comm: string, policy: nat, stage: nat, lastDsq: nat)

  datatype Event = Event(kind: Kind, ts: int, taskKey: nat, next: Occupant, runnable: bool, syscall: string)

  datatype TaskState = OnCpu | Blocked | RunnableWait | ExitPath | Unknown

  /** State and reason, and whether a wake-up was seen since the last stop while on the CPU. */
  datatype Machine = Machine(state: TaskState, reason: string, wakeWhileRunning: bool)

  datatype Segment = Segment(from: int, to: int, state: TaskState, reason: string)

  datatype Row = Row(from: int, to: int, state: TaskState, reason: string, cpu: Occupant)

  datatype Window = Window(start: int, end: int)

  predicate Sorted(events: seq<Event>) {
    forall i, j :: 0 <= i < j < |events| ==> events[i].ts <= events[j].ts
  }

  // ---------------------------------------------------------------- pointwise specification

  const INITIAL := Machine(Unknown, "unknown", false)

  function Step(m: Machine, e: Event, imu: nat): Machine {
    match e.kind
    case Running => m
    case Stopping => m.(wakeWhileRunning := false)
    case Wakeup =>
      if m.state.OnCpu? then m.(wakeWhileRunning := true) else Machine(RunnableWait, "none", m.wakeWhileRunning)
    case Switch =>
      if e.next.key == imu then Machine(OnCpu, "none", false)
      else if e.taskKey != imu then m
      else if e.runnable then Machine(RunnableWait, "none", false)
      else if m.wakeWhileRunning then Machine(Unknown, "wake_switch_race", false)
      else if e.syscall == "exit" then Machine(ExitPath, "exit", false)
      else Machine(Blocked, e.syscall, false)
  }

  function Fold(events: seq<Event>, imu: nat): Machine {
    if events == [] then INITIAL
    else Step(Fold(events[..|events| - 1], imu), events[|events| - 1], imu)
  }

  /** How many events of a sorted list have happened at instant `x`. */
  function Cut(events: seq<Event>, x: int): (k: nat)
    ensures k <= |events|
  {
    if events == [] then 0
    else if events[|events| - 1].ts <= x then |events|
    else Cut(events[..|events| - 1], x)
  }

  function Past(events: seq<Event>, x: int): seq<Event> {
    events[..Cut(events, x)]
  }

  function StateAt(events: seq<Event>, imu: nat, x: int): Machine {
    Fold(Past(events, x), imu)
  }

  function Switches(events: seq<Event>): seq<Event> {
    if events == [] then []
    else
      var n := |events| - 1;
      Switches(events[..n]) + if events[n].kind.Switch? then [events[n]] else []
  }

  /** Who is on the CPU at `x`: the task the last switch up to `x` switched to. */
  function OccupantAt(events: seq<Event>, x: int): Option<Occupant> {
    var past := Switches(Past(events, x));
    if past == [] then None else Some(past[|past| - 1].next)
  }

  /** The number of instants of [lo, hi) in which the task is in `state`. */
  function Instants(events: seq<Event>, imu: nat, lo: int, hi: int, state: TaskState): nat
    decreases hi - lo
  {
    if hi <= lo then 0
    else Instants(events, imu, lo, hi - 1, state) +
         if StateAt(events, imu, hi - 1).state == state then 1 else 0
  }

  // ---------------------------------------------------------------- validity checks

  predicate Brackets(switches: seq<Event>, w: Window) {
    switches != [] && switches[0].ts <= w.start && switches[|switches| - 1].ts >= w.end
  }

  predicate Continuous(switches: seq<Event>) {
    forall i :: 0 <= i < |switches| - 1 ==> switches[i].next.key == switches[i + 1].taskKey
  }

  // ---------------------------------------------------------------- tilings

  /** `segments` cover [lo, hi) without gap or overlap, in order. */
  predicate SegmentsTile(segments: seq<Segment>, lo: int, hi: int) {
    if segments == [] then lo == hi
    else
      var last := segments[|segments| - 1];
      last.to == hi && last.from <= hi && SegmentsTile(segments[..|segments| - 1], lo, last.from)
  }

  predicate SegmentCorrect(s: Segment, events: seq<Event>, imu: nat) {
    forall x :: s.from <= x < s.to ==>
      StateAt(events, imu, x).state == s.state && StateAt(events, imu, x).reason == s.reason
  }

  /** The segments cover everything from the first event to `end` or beyond, and are right everywhere. */
  predicate SegmentsDescribe(segments: seq<Segment>, events: seq<Event>, imu: nat, end: int) {
    && events != [] && segments != [] && segments[|segments| - 1].to >= end
    && SegmentsTile(segments, events[0].ts, segments[|segments| - 1].to)
    && forall s <- segments :: SegmentCorrect(s, events, imu)
  }

  predicate RowsTile(rows: seq<Row>, lo: int, hi: int) {
    if rows == [] then lo == hi
    else
      var last := rows[|rows| - 1];
      last.to == hi && last.from < hi && RowsTile(rows[..|rows| - 1], lo, last.from)
  }

  predicate RowCorrect(r: Row, events: seq<Event>, imu: nat) {
    forall x :: r.from <= x < r.to ==>
      && StateAt(events, imu, x).state == r.state && StateAt(events, imu, x).reason == r.reason
      && OccupantAt(events, x) == Some(r.cpu)
  }

  /** The rows cover exactly [lo, hi), and are right everywhere. */
  predicate RowsDescribe(rows: seq<Row>, events: seq<Event>, imu: nat, lo: int, hi: int) {
    RowsTile(rows, lo, hi) && forall r <- rows :: RowCorrect(r, events, imu)
  }

  // ---------------------------------------------------------------- facts about the cut

  lemma {:induction false} CutAtLeast(events: seq<Event>, x: int, p: nat)
    requires Sorted(events) && p <= |events|
    requires p > 0 ==> events[p - 1].ts <= x
    ensures p <= Cut(events, x)
  {
    if events != [] && events[|events| - 1].ts > x {
      CutAtLeast(events[..|events| - 1], x, p);
    }
  }

  lemma {:induction false} CutAtMost(events: seq<Event>, x: int, i: nat)
    requires Sorted(events) && i <= |events|
    requires i < |events| ==> x < events[i].ts
    ensures Cut(events, x) <= i
  {
    if i < |events| {
      var n := |events| - 1;
      assert events[i].ts <= events[n].ts;
      CutAtMost(events[..n], x, i);
    }
  }

  lemma {:induction false} CutIs(events: seq<Event>, x: int, k: nat)
    requires Sorted(events) && k <= |events|
    requires k > 0 ==> events[k - 1].ts <= x
    requires k < |events| ==> x < events[k].ts
    ensures Cut(events, x) == k
  {
    CutAtLeast(events, x, k);
    CutAtMost(events, x, k);
  }

  lemma {:induction false} CutSplits(events: seq<Event>, x: int)
    requires Sorted(events)
    ensures var k := Cut(events, x);
            && (forall i :: 0 <= i < k ==> events[i].ts <= x)
            && (forall i :: k <= i < |events| ==> x < events[i].ts)
  {
    if events != [] && events[|events| - 1].ts > x {
      CutSplits(events[..|events| - 1], x);
    }
  }

  /** The past of an earlier instant is the past of the past. */
  lemma PastOfPast(events: seq<Event>, x: int, y: int)
    requires Sorted(events) && x <= y
    ensures Past(Past(events, y), x) == Past(events, x)
  {
    var k, l := Cut(events, x), Cut(events, y);
    CutSplits(events, x);
    CutAtLeast(events, y, k);
    CutIs(Past(events, y), x, k);
    assert events[..l][..k] == events[..k];
  }

  // ---------------------------------------------------------------- the state timeline

  /** Only switches and wake-ups change the state. */
  predicate Relevant(e: Event) {
    e.kind.Switch? || e.kind.Wakeup?
  }

  /** The prefixes from length `p` to length `i` all fold to the same state and reason. */
  predicate Steady(events: seq<Event>, imu: nat, p: nat, i: nat, m: Machine)
    requires i <= |events|
  {
    forall k :: p <= k <= i ==> Fold(events[..k], imu).state == m.state && Fold(events[..k], imu).reason == m.reason
  }

  lemma SteadyGivesSegment(events: seq<Event>, imu: nat, p: nat, i: nat, m: Machine, from: int, to: int)
    requires Sorted(events) && p <= i <= |events| && Steady(events, imu, p, i, m)
    requires p > 0 ==> events[p - 1].ts <= from
    requires i < |events| ==> to <= events[i].ts
    ensures SegmentCorrect(Segment(from, to, m.state, m.reason), events, imu)
  {
    forall x | from <= x < to
      ensures StateAt(events, imu, x).state == m.state && StateAt(events, imu, x).reason == m.reason
    {
      CutAtLeast(events, x, p);
      CutAtMost(events, x, i);
    }
  }

  lemma {:induction false} FoldStep(events: seq<Event>, imu: nat, i: nat)
    requires i < |events|
    ensures Fold(events[..i + 1], imu) == Step(Fold(events[..i], imu), events[i], imu)
  {
    assert events[..i + 1][..i] == events[..i];
  }

  lemma {:induction false} AppendSegment(states: seq<Segment>, s: Segment, lo: int)
    requires s.from <= s.to
    ensures SegmentsTile([], lo, lo)
    ensures SegmentsTile(states, lo, s.from) ==> SegmentsTile(states + [s], lo, s.to)
  {
    assert (states + [s])[..|states|] == states;
  }

  /** The first loop of `analyze_execution`. */
  method BuildStates(events: seq<Event>, imu: nat, end: int) returns (states: seq<Segment>)
    requires Sorted(events) && events != []
    ensures SegmentsDescribe(states, events, imu, end)
  {
    hide SegmentCorrect, SegmentsTile, Step;
    states := [];
    AppendSegment([], Segment(events[0].ts, events[0].ts, Unknown, ""), events[0].ts);
    var state, reason, previous := Unknown, "unknown", events[0].ts;
    var wakeWhileRunning := false;
    ghost var p := 0;
    for i := 0 to |events|
      invariant Machine(state, reason, wakeWhileRunning) == Fold(events[..i], imu)
      invariant p <= i && Steady(events, imu, p, i, Machine(state, reason, wakeWhileRunning))
      invariant previous == if p == 0 then events[0].ts else events[p - 1].ts
      invariant SegmentsTile(states, events[0].ts, previous)
      invariant forall s <- states :: SegmentCorrect(s, events, imu)
    {
      var e := events[i];
      FoldStep(events, imu, i);
      if !Relevant(e) {
        OnlyStopsMatter(Machine(state, reason, wakeWhileRunning), e, imu);
      }
      if e.kind.Stopping? {
        wakeWhileRunning := false;
      }
      if !Relevant(e) {
        continue;
      }
      if e.ts > previous {
        SteadyGivesSegment(events, imu, p, i, Machine(state, reason, wakeWhileRunning), previous, e.ts);
        AppendSegment(states, Segment(previous, e.ts, state, reason), events[0].ts);
        states := states + [Segment(previous, e.ts, state, reason)];
      }
      previous := e.ts;
      p := i + 1;
      state, reason, wakeWhileRunning := Transition(state, reason, wakeWhileRunning, e, imu);
    }
    var hi := if end > previous then end else previous;
    SteadyGivesSegment(events, imu, p, |events|, Machine(state, reason, wakeWhileRunning), previous, hi);
    AppendSegment(states, Segment(previous, hi, state, reason), events[0].ts);
    states := states + [Segment(previous, hi, state, reason)];
  }

  /** A callback event leaves state and reason alone. */
  lemma OnlyStopsMatter(m: Machine, e: Event, imu: nat)
    requires !Relevant(e)
    ensures Step(m, e, imu) == m.(wakeWhileRunning := m.wakeWhileRunning && !e.kind.Stopping?)
  {
  }

  /** The part of the loop body that follows a wake-up or a switch. */
  method Transition(state: TaskState, reason: string, wakeWhileRunning: bool, e: Event, imu: nat)
    returns (state': TaskState, reason': string, wake': bool)
    requires Relevant(e)
    ensures Machine(state', reason', wake') == Step(Machine(state, reason, wakeWhileRunning), e, imu)
  {
    state', reason', wake' := state, reason, wakeWhileRunning;
    if e.kind.Wakeup? {
      if state == OnCpu {
        wake' := true;
      } else {
        state', reason' := RunnableWait, "none";
      }
    } else if e.next.key == imu {
      state', reason', wake' := OnCpu, "none", false;
    } else if e.taskKey == imu {
      if e.runnable {
        state', reason' := RunnableWait, "none";
      } else if wakeWhileRunning {
        state', reason' := Unknown, "wake_switch_race";
      } else if e.syscall == "exit" {
        state', reason' := ExitPath, "exit";
      } else {
        state', reason' := Blocked, e.syscall;
      }
      wake' := false;
    }
  }

  // ---------------------------------------------------------------- switches

  lemma {:induction false} SwitchesWithin(events: seq<Event>, t: int)
    requires forall i :: 0 <= i < |events| ==> events[i].ts <= t
    ensures forall i :: 0 <= i < |Switches(events)| ==> Switches(events)[i].ts <= t
  {
    if events != [] {
      SwitchesWithin(events[..|events| - 1], t);
    }
  }

  lemma {:induction false} SwitchesSorted(events: seq<Event>)
    requires Sorted(events)
    ensures Sorted(Switches(events))
  {
    if events != [] {
      var n := |events| - 1;
      SwitchesSorted(events[..n]);
      SwitchesWithin(events[..n], events[n].ts);
    }
  }

  lemma PastOfFront(events: seq<Event>, x: int)
    requires events != [] && events[|events| - 1].ts > x
    ensures Past(events, x) == Past(events[..|events| - 1], x)
  {
    var n := |events| - 1;
    assert events[..n][..Cut(events[..n], x)] == events[..Cut(events[..n], x)];
  }

  /** The switches of the past are the past of the switches. */
  lemma {:induction false} SwitchesOfPast(events: seq<Event>, x: int)
    requires Sorted(events)
    ensures Switches(Past(events, x)) == Past(Switches(events), x)
  {
    if events != [] {
      var n, all := |events| - 1, Switches(events);
      if events[n].ts <= x {
        assert Past(events, x) == events;
        SwitchesWithin(events, x);
        assert Past(all, x) == all;
      } else {
        SwitchesOfPast(events[..n], x);
        PastOfFront(events, x);
        if events[n].kind.Switch? {
          assert all[..|all| - 1] == Switches(events[..n]) && all[|all| - 1] == events[n];
          PastOfFront(all, x);
        } else {
          assert all == Switches(events[..n]);
        }
      }
    }
  }

  /** Between two neighbouring switches the first one's successor is on the CPU. */
  lemma {:induction false} OccupantBetween(events: seq<Event>, i: nat, x: int)
    requires Sorted(events) && i + 1 < |Switches(events)|
    requires Switches(events)[i].ts <= x < Switches(events)[i + 1].ts
    ensures OccupantAt(events, x) == Some(Switches(events)[i].next)
  {
    SwitchesOfPast(events, x);
    SwitchesSorted(events);
    CutIs(Switches(events), x, i + 1);
  }

  predicate LastIs(switches: seq<Event>, imu: nat) {
    switches != [] && switches[|switches| - 1].next.key == imu
  }

  /** One event keeps the state and the last switch in agreement, if it continues the chain. */
  lemma AgreementStep(m: Machine, front: seq<Event>, e: Event, imu: nat)
    requires m.state.OnCpu? <==> LastIs(front, imu)
    requires e.kind.Switch? && front != [] ==> front[|front| - 1].next.key == e.taskKey
    ensures Step(m, e, imu).state.OnCpu? <==> LastIs(if e.kind.Switch? then front + [e] else front, imu)
  {
  }

  /** After a continuous switch chain the task is on the CPU exactly when the last switch went to it. */
  lemma {:induction false} Agreement(events: seq<Event>, imu: nat)
    requires Continuous(Switches(events))
    ensures Fold(events, imu).state.OnCpu? <==> LastIs(Switches(events), imu)
  {
    hide Step;
    if events != [] {
      var n, all := |events| - 1, Switches(events);
      var front := Switches(events[..n]);
      assert all[..|front|] == front;
      ContinuousFront(all, |front|);
      Agreement(events[..n], imu);
      if events[n].kind.Switch? {
        assert all == front + [events[n]];
        assert front != [] ==> all[|front| - 1].next.key == all[|front| - 1 + 1].taskKey;
      } else {
        assert all == front;
      }
      AgreementStep(Fold(events[..n], imu), front, events[n], imu);
    }
  }

  lemma ContinuousFront(switches: seq<Event>, k: nat)
    requires Continuous(switches) && k <= |switches|
    ensures Continuous(switches[..k])
  {
    forall i | 0 <= i < k - 1 ensures switches[..k][i].next.key == switches[..k][i + 1].taskKey {
      assert switches[i].next.key == switches[i + 1].taskKey;
    }
  }

  /** At every instant, state and occupant agree on whether the task is running. */
  lemma {:induction false} AgreementAt(events: seq<Event>, imu: nat, x: int)
    requires Sorted(events) && Continuous(Switches(events))
    ensures StateAt(events, imu, x).state.OnCpu? <==>
            OccupantAt(events, x).Some? && OccupantAt(events, x).value.key == imu
  {
    SwitchesOfPast(events, x);
    ContinuousFront(Switches(events), Cut(Switches(events), x));
    Agreement(Past(events, x), imu);
  }

  // ---------------------------------------------------------------- the sweep

  datatype Key = Key(state: TaskState, reason: string, cpu: Occupant)

  type Occupancy = map<Key, int>

  function AddTo(o: Occupancy, k: Key, duration: int): Occupancy {
    o[k := (if k in o then o[k] else 0) + duration]
  }

  /** The occupancy table of a list of rows: the summed durations for each key that occurs. */
  function OccupancyOf(rows: seq<Row>): Occupancy {
    if rows == [] then map[]
    else
      var r := rows[|rows| - 1];
      AddTo(OccupancyOf(rows[..|rows| - 1]), Key(r.state, r.reason, r.cpu), r.to - r.from)
  }

  /** Where the `k`-th segment starts, or where the timeline ends. */
  function Edge(states: seq<Segment>, k: nat): int
    requires states != [] && k <= |states|
  {
    if k < |states| then states[k].from else states[|states| - 1].to
  }

  lemma {:induction false} TileEdges(states: seq<Segment>, lo: int, hi: int, k: nat)
    requires states != [] && SegmentsTile(states, lo, hi) && k < |states|
    ensures states[k].to == Edge(states, k + 1) && states[k].from <= states[k].to
    ensures Edge(states, 0) == lo && Edge(states, |states|) == hi
  {
    var n := |states| - 1;
    if n > 0 {
      TileEdges(states[..n], lo, states[n].from, if k < n then k else 0);
      TileEdges(states[..n], lo, states[n].from, n - 1);
    }
  }

  function Max(a: int, b: int): int { if a > b then a else b }

  function Min(a: int, b: int): int { if a < b then a else b }

  /** The inner loop: the rows of one residence [left, right) of `cpu`, starting at segment `pos`. */
  method SweepResidence(ghost events: seq<Event>, ghost imu: nat, ghost lo: int, states: seq<Segment>,
                        left: int, right: int, cpu: Occupant, pos: nat, rows0: seq<Row>, occupancy0: Occupancy)
    returns (rows: seq<Row>, occupancy: Occupancy)
    requires SegmentsDescribe(states, events, imu, right) && left < right
    requires forall x :: left <= x < right ==> OccupantAt(events, x) == Some(cpu)
    requires pos <= |states| && Edge(states, pos) <= left
    requires RowsDescribe(rows0, events, imu, lo, left) && occupancy0 == OccupancyOf(rows0)
    ensures RowsDescribe(rows, events, imu, lo, right) && occupancy == OccupancyOf(rows)
  {
    hide RowCorrect, SegmentCorrect, OccupantAt, StateAt, RowsTile, OccupancyOf;
    rows, occupancy := rows0, occupancy0;
    var cursor := pos;
    while cursor < |states| && states[cursor].from < right
      invariant pos <= cursor <= |states|
      invariant RowsTile(rows, lo, Min(right, Max(left, Edge(states, cursor))))
      invariant forall r <- rows :: RowCorrect(r, events, imu)
      invariant occupancy == OccupancyOf(rows)
    {
      var s := states[cursor];
      TileEdges(states, events[0].ts, states[|states| - 1].to, cursor);
      var from, to := Max(left, s.from), Min(right, s.to);
      if from < to {
        var row := Row(from, to, s.state, s.reason, cpu);
        RowFromSegment(row, s, events, imu);
        AppendRow(rows, row, lo);
        rows := rows + [row];
        occupancy := AddTo(occupancy, Key(s.state, s.reason, cpu), to - from);
      }
      cursor := cursor + 1;
    }
  }

  lemma {:induction false} AppendRow(rows: seq<Row>, r: Row, lo: int)
    requires RowsTile(rows, lo, r.from) && r.from < r.to
    ensures RowsTile(rows + [r], lo, r.to)
    ensures OccupancyOf(rows + [r]) == AddTo(OccupancyOf(rows), Key(r.state, r.reason, r.cpu), r.to - r.from)
  {
    assert (rows + [r])[..|rows|] == rows;
  }

  lemma RowFromSegment(r: Row, s: Segment, events: seq<Event>, imu: nat)
    requires SegmentCorrect(s, events, imu) && s.from <= r.from && r.to <= s.to
    requires r.state == s.state && r.reason == s.reason
    requires forall x :: r.from <= x < r.to ==> OccupantAt(events, x) == Some(r.cpu)
    ensures RowCorrect(r, events, imu)
  {
  }

  /** The two-pointer intersection of the state timeline with all CPU switches. */
  method Sweep(ghost events: seq<Event>, ghost imu: nat, switches: seq<Event>, states: seq<Segment>, w: Window)
    returns (rows: seq<Row>, occupancy: Occupancy)
    requires Sorted(events) && switches == Switches(events) && Brackets(switches, w)
    requires SegmentsDescribe(states, events, imu, w.end) && events[0].ts <= w.start
    ensures if w.start <= w.end then RowsDescribe(rows, events, imu, w.start, w.end) else rows == []
    ensures occupancy == OccupancyOf(rows)
  {
    hide RowCorrect, SegmentCorrect, OccupantAt;
    rows, occupancy := [], map[];
    var pos := 0;
    TileEdges(states, events[0].ts, states[|states| - 1].to, 0);
    SwitchesSorted(events);
    for i := 0 to |switches| - 1
      invariant pos <= |states| && (pos > 0 ==> Edge(states, pos) <= Max(w.start, switches[i].ts))
      invariant w.start <= w.end ==> RowsTile(rows, w.start, Max(w.start, Min(w.end, switches[i].ts)))
      invariant w.start > w.end ==> rows == []
      invariant forall r <- rows :: RowCorrect(r, events, imu)
      invariant occupancy == OccupancyOf(rows)
    {
      var left, right := Max(w.start, switches[i].ts), Min(w.end, switches[i + 1].ts);
      assert switches[i].ts <= switches[i + 1].ts;
      if left >= right {
        continue;
      }
      while pos < |states| && states[pos].to <= left
        invariant pos <= |states| && (pos > 0 ==> Edge(states, pos) <= left)
      {
        TileEdges(states, events[0].ts, states[|states| - 1].to, pos);
        pos := pos + 1;
      }
      forall x | left <= x < right ensures OccupantAt(events, x) == Some(switches[i].next) {
        OccupantBetween(events, i, x);
      }
      var cpu := switches[i].next;
      rows, occupancy := SweepResidence(events, imu, w.start, states, left, right, cpu, pos, rows, occupancy);
    }
  }
}
