/** The verdict of `analyze_execution`, and what it can depend on. */
module TimelineAnalysis {
  import opened Options
  import opened Timeline

  // ---------------------------------------------------------------- totals

  function Total(rows: seq<Row>, state: TaskState): int {
    if rows == [] then 0
    else
      var r := rows[|rows| - 1];
      Total(rows[..|rows| - 1], state) + if r.state == state then r.to - r.from else 0
  }

  lemma {:induction false} TileForward(rows: seq<Row>, lo: int, hi: int)
    requires RowsTile(rows, lo, hi)
    ensures lo <= hi
  {
    if rows != [] {
      TileForward(rows[..|rows| - 1], lo, rows[|rows| - 1].from);
    }
  }

  /** The totals of a tiling always add up to its length. */
  lemma {:induction false} TotalsCoverWindow(rows: seq<Row>, lo: int, hi: int)
    requires RowsTile(rows, lo, hi)
    ensures Total(rows, OnCpu) + Total(rows, Blocked) + Total(rows, RunnableWait) + Total(rows, ExitPath) +
            Total(rows, Unknown) == hi - lo
  {
    if rows != [] {
      TotalsCoverWindow(rows[..|rows| - 1], lo, rows[|rows| - 1].from);
    }
  }

  lemma {:induction false} InstantsExtend(events: seq<Event>, imu: nat, lo: int, mid: int, hi: int,
                                          state: TaskState, s: TaskState)
    requires lo <= mid <= hi
    requires forall x :: mid <= x < hi ==> StateAt(events, imu, x).state == s
    ensures Instants(events, imu, lo, hi, state) ==
            Instants(events, imu, lo, mid, state) + if s == state then hi - mid else 0
    decreases hi - mid
  {
    hide StateAt;
    if mid < hi {
      InstantsExtend(events, imu, lo, mid, hi - 1, state, s);
    }
  }

  /** The reported total of a state is the number of window instants spent in it. */
  lemma {:induction false} TotalIsInstants(rows: seq<Row>, events: seq<Event>, imu: nat, lo: int, hi: int,
                                           state: TaskState)
    requires RowsTile(rows, lo, hi) && forall r <- rows :: RowCorrect(r, events, imu)
    ensures Total(rows, state) == Instants(events, imu, lo, hi, state)
  {
    hide StateAt, OccupantAt;
    if rows != [] {
      var front, r := rows[..|rows| - 1], rows[|rows| - 1];
      TotalIsInstants(front, events, imu, lo, r.from, state);
      TileForward(front, lo, r.from);
      assert RowCorrect(r, events, imu);
      InstantsExtend(events, imu, lo, r.from, hi, state, r.state);
    }
  }

  // ---------------------------------------------------------------- callback pairing

  function Clipped(a: int, b: int, w: Window): int {
    Max(0, Min(b, w.end) - Max(a, w.start))
  }

  datatype Pairing =
    | Paired(pairs: seq<(int, int)>, open: Option<int>)
    | UnpairedRunning
    | UnpairedStopping

  function PairStep(p: Pairing, e: Event, start: int): Pairing {
    if !p.Paired? then p
    else
      match e.kind
      case Running => if p.open.Some? then UnpairedRunning else Paired(p.pairs, Some(e.ts))
      case Stopping =>
        if p.open.Some? then Paired(p.pairs + [(p.open.value, e.ts)], None)
        else if e.ts >= start then UnpairedStopping
        else p
      case _ => p
  }

  function PairUp(events: seq<Event>, start: int): Pairing {
    if events == [] then Paired([], None)
    else PairStep(PairUp(events[..|events| - 1], start), events[|events| - 1], start)
  }

  lemma {:induction false} BadPairingSticks(events: seq<Event>, start: int, i: nat)
    requires i <= |events| && !PairUp(events[..i], start).Paired?
    ensures PairUp(events, start) == PairUp(events[..i], start)
  {
    if i < |events| {
      var n := |events| - 1;
      assert events[..n][..i] == events[..i];
      BadPairingSticks(events[..n], start, i);
    } else {
      assert events[..i] == events;
    }
  }

  /** The loop that pairs running with stopping callbacks. */
  method PairCallbacks(events: seq<Event>, start: int) returns (p: Pairing)
    ensures p == PairUp(events, start)
  {
    var pairs, running := [], None;
    for i := 0 to |events|
      invariant Paired(pairs, running) == PairUp(events[..i], start)
    {
      var e := events[i];
      assert events[..i + 1][..i] == events[..i];
      ghost var next := PairStep(PairUp(events[..i], start), e, start);
      assert PairUp(events[..i + 1], start) == next;
      if e.kind.Running? {
        if running.Some? {
          BadPairingSticks(events, start, i + 1);
          return UnpairedRunning;
        }
        running := Some(e.ts);
      } else if e.kind.Stopping? {
        if running.None? {
          if e.ts >= start {
            BadPairingSticks(events, start, i + 1);
            return UnpairedStopping;
          }
        } else {
          pairs := pairs + [(running.value, e.ts)];
        }
        running := None;
      }
    }
    assert events[..|events|] == events;
    return Paired(pairs, running);
  }

  function SumClipped(pairs: seq<(int, int)>, w: Window): int {
    if pairs == [] then 0
    else
      var n := |pairs| - 1;
      SumClipped(pairs[..n], w) + Clipped(pairs[n].0, pairs[n].1, w)
  }

  /** Whether the last callback event was a start. */
  predicate CallbackOpen(events: seq<Event>) {
    if events == [] then false
    else
      match events[|events| - 1].kind
      case Running => true
      case Stopping => false
      case _ => CallbackOpen(events[..|events| - 1])
  }

  /** The number of instants of [lo, hi) inside a running/stopping pair. */
  function BusyInstants(events: seq<Event>, lo: int, hi: int): nat
    decreases hi - lo
  {
    if hi <= lo then 0
    else BusyInstants(events, lo, hi - 1) + if CallbackOpen(Past(events, hi - 1)) then 1 else 0
  }

  lemma {:induction false} BusyExtend(events: seq<Event>, lo: int, mid: int, hi: int, busy: bool)
    requires lo <= mid <= hi
    requires forall x :: mid <= x < hi ==> CallbackOpen(Past(events, x)) == busy
    ensures BusyInstants(events, lo, hi) == BusyInstants(events, lo, mid) + if busy then hi - mid else 0
    decreases hi - mid
  {
    hide CallbackOpen, Past;
    if mid < hi {
      BusyExtend(events, lo, mid, hi - 1, busy);
    }
  }

  /** `t` moved into the window. */
  function Clamp(t: int, w: Window): int {
    Max(w.start, Min(w.end, t))
  }

  function Latest(events: seq<Event>, w: Window): int {
    if events == [] then w.start else events[|events| - 1].ts
  }

  /** The part of an unfinished callback that lies in the window, up to instant `t`. */
  function OpenPart(open: Option<int>, t: int, w: Window): int {
    if open.Some? then Clamp(t, w) - Clamp(open.value, w) else 0
  }

  lemma {:induction false} OpenIsPast(events: seq<Event>, w: Window)
    requires Sorted(events) && PairUp(events, w.start).Paired?
    ensures var p := PairUp(events, w.start);
            (p.open.Some? <==> CallbackOpen(events)) &&
            (p.open.Some? ==> events != [] && p.open.value <= events[|events| - 1].ts)
  {
    if events != [] {
      OpenIsPast(events[..|events| - 1], w);
    }
  }

  /** The clipped pairs found so far, plus the open one, measure the busy instants seen so far. */
  lemma {:induction false} PairsMeasureBusy(events: seq<Event>, w: Window, i: nat)
    requires Sorted(events) && w.start <= w.end && i <= |events| && PairUp(events[..i], w.start).Paired?
    ensures var p, t := PairUp(events[..i], w.start), Latest(events[..i], w);
            SumClipped(p.pairs, w) + OpenPart(p.open, t, w) == BusyInstants(events, w.start, Clamp(t, w))
  {
    if i > 0 {
      var front := events[..i - 1];
      assert events[..i][..i - 1] == front;
      PairsMeasureBusy(events, w, i - 1);
      OpenIsPast(front, w);
      var p, t, t' := PairUp(front, w.start), Latest(front, w), events[i - 1].ts;
      forall x | Clamp(t, w) <= x < Clamp(t', w) ensures CallbackOpen(Past(events, x)) == p.open.Some? {
        CutIs(events, x, i - 1);
      }
      ClampForward(events, w, i);
      BusyExtend(events, w.start, Clamp(t, w), Clamp(t', w), p.open.Some?);
      PairStepMeasure(p, events[i - 1], w);
    }
  }

  lemma ClampForward(events: seq<Event>, w: Window, i: nat)
    requires Sorted(events) && 0 < i <= |events| && w.start <= w.end
    ensures Clamp(Latest(events[..i - 1], w), w) <= Clamp(events[i - 1].ts, w)
  {
  }

  /** One event changes neither side of the balance. */
  lemma {:induction false} PairStepMeasure(p: Pairing, e: Event, w: Window)
    requires p.Paired? && PairStep(p, e, w.start).Paired? && w.start <= w.end
    requires p.open.Some? ==> p.open.value <= e.ts
    ensures var q := PairStep(p, e, w.start);
            SumClipped(q.pairs, w) + OpenPart(q.open, e.ts, w) == SumClipped(p.pairs, w) + OpenPart(p.open, e.ts, w)
  {
    if e.kind.Stopping? && p.open.Some? {
      var pairs := p.pairs + [(p.open.value, e.ts)];
      assert pairs[..|p.pairs|] == p.pairs;
    }
  }

  // ---------------------------------------------------------------- the verdict

  datatype Reason =
    | Loss
    | NotBracketed
    | Discontinuous
    | Ambiguous
    | Contradiction
    | UnpairedRunningCallbacks
    | UnpairedStoppingCallback
    | OpenAtCutoff
    | NoCoverage

  datatype Summary = Summary(
    window: int, onCpu: int, blocked: int, runnableWait: int, unknown: int, exitPath: int, callback: int)

  datatype Verdict = Invalid(reason: Reason) | Valid(summary: Summary)

  /** The verdict, defined pointwise. There is no case for a contradiction between the task's state and
      the CPU's occupant, and none for totals that do not add up to a well-formed window. */
  function Judge(events: seq<Event>, lost: nat, conflicts: nat, w: Window, imu: nat): Verdict {
    if lost > 0 || conflicts > 0 then Invalid(Loss)
    else if !Brackets(Switches(events), w) then Invalid(NotBracketed)
    else if !Continuous(Switches(events)) then Invalid(Discontinuous)
    else if w.start > w.end || Instants(events, imu, w.start, w.end, Unknown) > 0 then Invalid(Ambiguous)
    else
      match PairUp(events, w.start)
      case UnpairedRunning => Invalid(UnpairedRunningCallbacks)
      case UnpairedStopping => Invalid(UnpairedStoppingCallback)
      case Paired(_, open) =>
        if open.Some? && open.value < w.end then Invalid(OpenAtCutoff)
        else if BusyInstants(events, w.start, w.end) == 0 then Invalid(NoCoverage)
        else Valid(PointwiseSummary(events, w, imu))
  }

  function PointwiseSummary(events: seq<Event>, w: Window, imu: nat): Summary {
    Summary(w.end - w.start,
            Instants(events, imu, w.start, w.end, OnCpu),
            Instants(events, imu, w.start, w.end, Blocked),
            Instants(events, imu, w.start, w.end, RunnableWait),
            Instants(events, imu, w.start, w.end, Unknown),
            Instants(events, imu, w.start, w.end, ExitPath),
            BusyInstants(events, w.start, w.end))
  }

  lemma {:induction false} FirstSwitch(events: seq<Event>)
    requires Sorted(events) && Switches(events) != []
    ensures events != [] && events[0].ts <= Switches(events)[0].ts
  {
    var n := |events| - 1;
    if Switches(events[..n]) != [] {
      FirstSwitch(events[..n]);
    }
  }

  /** No row of a continuous trace contradicts its occupant. */
  lemma {:induction false} RowsAgree(rows: seq<Row>, events: seq<Event>, imu: nat, lo: int, hi: int)
    requires Sorted(events) && Continuous(Switches(events)) && RowsTile(rows, lo, hi)
    requires forall r <- rows :: RowCorrect(r, events, imu)
    ensures forall r <- rows :: r.cpu.key == imu <==> r.state == OnCpu
  {
    hide StateAt, OccupantAt;
    forall r | r in rows ensures r.cpu.key == imu <==> r.state == OnCpu {
      RowsNonEmpty(rows, lo, hi, r);
      AgreementAt(events, imu, r.from);
    }
  }

  lemma {:induction false} RowsNonEmpty(rows: seq<Row>, lo: int, hi: int, r: Row)
    requires RowsTile(rows, lo, hi) && r in rows
    ensures r.from < r.to
  {
    var n := |rows| - 1;
    if r != rows[n] {
      RowsNonEmpty(rows[..n], lo, rows[n].from, r);
    }
  }

  /** In a bracketed, well-formed window the paired callbacks measure the busy instants exactly. */
  lemma {:induction false} CallbackTotal(events: seq<Event>, w: Window)
    requires Sorted(events) && w.start <= w.end && Brackets(Switches(events), w)
    requires PairUp(events, w.start).Paired?
    requires var open := PairUp(events, w.start).open; open.None? || open.value >= w.end
    ensures SumClipped(PairUp(events, w.start).pairs, w) == BusyInstants(events, w.start, w.end)
  {
    assert events[..|events|] == events;
    PairsMeasureBusy(events, w, |events|);
    LastSwitch(events);
    OpenIsPast(events, w);
  }

  lemma {:induction false} LastSwitch(events: seq<Event>)
    requires Sorted(events) && Switches(events) != []
    ensures events != [] && Switches(events)[|Switches(events)| - 1].ts <= events[|events| - 1].ts
  {
    SwitchesWithin(events, events[|events| - 1].ts);
  }

  /** `analyze_execution`: the sweep computes exactly the pointwise verdict, and its rows tile the window
      with the state and the occupant of every instant. */
  method Analyze(events: seq<Event>, lost: nat, conflicts: nat, w: Window, imu: nat)
    returns (verdict: Verdict, rows: seq<Row>, occupancy: Occupancy)
    requires Sorted(events)
    ensures verdict == Judge(events, lost, conflicts, w, imu)
    ensures verdict.Valid? ==> RowsTile(rows, w.start, w.end)
    ensures (forall r <- rows :: RowCorrect(r, events, imu)) && occupancy == OccupancyOf(rows)
  {
    hide RowCorrect, SegmentCorrect, Instants, BusyInstants;
    rows, occupancy := [], map[];
    if lost > 0 || conflicts > 0 {
      return Invalid(Loss), rows, occupancy;
    }
    var switches := Switches(events);
    if !Brackets(switches, w) {
      return Invalid(NotBracketed), rows, occupancy;
    }
    if !Continuous(switches) {
      return Invalid(Discontinuous), rows, occupancy;
    }
    FirstSwitch(events);
    var states := BuildStates(events, imu, w.end);
    rows, occupancy := Sweep(events, imu, switches, states, w);
    var ambiguous := Uncovered(rows, events, imu, w);
    if ambiguous {
      return Invalid(Ambiguous), rows, occupancy;
    }
    RowsAgree(rows, events, imu, w.start, w.end);
    var contradicted := exists r <- rows :: (r.cpu.key == imu) != (r.state == OnCpu);
    var pairing := PairCallbacks(events, w.start);
    verdict := if contradicted then Invalid(Contradiction) else CallbackVerdict(pairing, rows, w);
    if pairing.Paired? && !(pairing.open.Some? && pairing.open.value < w.end) {
      CallbackTotal(events, w);
    }
    forall state: TaskState ensures Total(rows, state) == Instants(events, imu, w.start, w.end, state) {
      TotalIsInstants(rows, events, imu, w.start, w.end, state);
    }
  }

  /** The check of the totals: it fails exactly for a reversed window or an ambiguous instant. */
  method Uncovered(rows: seq<Row>, ghost events: seq<Event>, ghost imu: nat, w: Window) returns (b: bool)
    requires w.start <= w.end ==> RowsTile(rows, w.start, w.end)
    requires w.start > w.end ==> rows == []
    requires forall r <- rows :: RowCorrect(r, events, imu)
    ensures b <==> w.start > w.end || Instants(events, imu, w.start, w.end, Unknown) > 0
  {
    var sum := Total(rows, OnCpu) + Total(rows, Blocked) + Total(rows, RunnableWait) + Total(rows, ExitPath) +
               Total(rows, Unknown);
    b := sum != w.end - w.start || Total(rows, Unknown) != 0;
    if w.start <= w.end {
      TotalsCoverWindow(rows, w.start, w.end);
      TotalIsInstants(rows, events, imu, w.start, w.end, Unknown);
    }
  }

  /** What follows the two sanity checks: the callback checks and the summary. */
  function CallbackVerdict(pairing: Pairing, rows: seq<Row>, w: Window): Verdict {
    match pairing
    case UnpairedRunning => Invalid(UnpairedRunningCallbacks)
    case UnpairedStopping => Invalid(UnpairedStoppingCallback)
    case Paired(pairs, open) =>
      if open.Some? && open.value < w.end then Invalid(OpenAtCutoff)
      else
        var callback := SumClipped(pairs, w);
        if callback == 0 then Invalid(NoCoverage)
        else Valid(Summary(w.end - w.start, Total(rows, OnCpu), Total(rows, Blocked), Total(rows, RunnableWait),
                           Total(rows, Unknown), Total(rows, ExitPath), callback))
  }

  // ---------------------------------------------------------------- drain non-interference

  lemma SamePast(a: seq<Event>, b: seq<Event>, end: int, x: int)
    requires Sorted(a) && Sorted(b) && Past(a, end - 1) == Past(b, end - 1) && x < end
    ensures Past(a, x) == Past(b, x)
  {
    PastOfPast(a, x, end - 1);
    PastOfPast(b, x, end - 1);
  }

  lemma {:induction false} SameInstants(a: seq<Event>, b: seq<Event>, imu: nat, end: int, lo: int, hi: int,
                                        state: TaskState)
    requires Sorted(a) && Sorted(b) && Past(a, end - 1) == Past(b, end - 1) && hi <= end
    ensures Instants(a, imu, lo, hi, state) == Instants(b, imu, lo, hi, state)
    ensures BusyInstants(a, lo, hi) == BusyInstants(b, lo, hi)
    decreases hi - lo
  {
    hide Past, Fold, CallbackOpen;
    if lo < hi {
      SameInstants(a, b, imu, end, lo, hi - 1, state);
      SamePast(a, b, end, hi - 1);
    }
  }

  /** Two traces that agree on every event before the window end, and are both judged valid, get the
      same summary: nothing that happens while the workload drains can change the reported numbers. */
  lemma DrainNonInterference(a: seq<Event>, b: seq<Event>, w: Window, imu: nat)
    requires Sorted(a) && Sorted(b) && Past(a, w.end - 1) == Past(b, w.end - 1)
    requires Judge(a, 0, 0, w, imu).Valid? && Judge(b, 0, 0, w, imu).Valid?
    ensures Judge(a, 0, 0, w, imu) == Judge(b, 0, 0, w, imu)
  {
    hide Past, Instants, BusyInstants;
    forall state: TaskState
      ensures Instants(a, imu, w.start, w.end, state) == Instants(b, imu, w.start, w.end, state)
    {
      SameInstants(a, b, imu, w.end, w.start, w.end, state);
    }
    SameInstants(a, b, imu, w.end, w.start, w.end, OnCpu);
  }
}
