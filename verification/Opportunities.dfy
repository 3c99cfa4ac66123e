/**
 Source-opportunity accounting of the three-stage camera chain in
 ros2/scx_slam_workload/src/slam_pipeline.cpp: vision (0), estimator (1), mapping (2).

 Every lock section of a stage's statistics is one step, so a run interleaves the callbacks and the
 observers of the three executors with the independent audit subscription. `Track` follows one source
 message through the chain; no step reads the track of another message.
 */
module Opportunities {
  import opened Bits

  const STAGES: nat := 3

  // ---------------------------------------------------------------- counters

  datatype Field = Offered | Arrivals | Executed | Dropped | Upstream | Completed

  /** The counters of `StageStats`. */
  datatype Counters = Counters(
    offered: nat, arrivals: nat, executed: nat, dropped: nat, upstream: nat, completed: nat)

  function NoCounts(): Counters { Counters(0, 0, 0, 0, 0, 0) }

  function Get(c: Counters, f: Field): nat {
    match f
    case Offered => c.offered
    case Arrivals => c.arrivals
    case Executed => c.executed
    case Dropped => c.dropped
    case Upstream => c.upstream
    case Completed => c.completed
  }

  function Bump(c: Counters, f: Field): (r: Counters)
    ensures forall g :: Get(r, g) == Get(c, g) + if f == g then 1 else 0
  {
    match f
    case Offered => c.(offered := c.offered + 1)
    case Arrivals => c.(arrivals := c.arrivals + 1)
    case Executed => c.(executed := c.executed + 1)
    case Dropped => c.(dropped := c.dropped + 1)
    case Upstream => c.(upstream := c.upstream + 1)
    case Completed => c.(completed := c.completed + 1)
  }

  // ---------------------------------------------------------------- messages

  datatype Message = Message(jobId: nat, source: nat)

  /** The source-time measurement window. */
  datatype Window = Window(sourceStart: nat, warmup: nat, duration: nat)

  predicate Measured(m: Message, w: Window) {
    var start := w.sourceStart + w.warmup;
    start <= m.source < start + w.duration
  }

  /** Where a message is. `Dropping(stage, next)`: the observer at `stage` has counted the drop and goes on
      to resolve stage `next`. `Finished(stage)`: its callback has been accounted and has yet to publish. */
  datatype Phase =
    | Waiting(stage: nat)
    | Selected(stage: nat)
    | Executing(stage: nat)
    | Finished(stage: nat)
    | Dropping(stage: nat, next: nat)
    | Gone(stage: nat)

  /** A message's phase, and to how many stages the audit has offered it. */
  datatype Track = Track(phase: Phase, audited: nat)

  datatype Action = Select | Start | Complete | Forward | Drop | DropNext | Audit

  predicate CanMove(t: Track, a: Action) {
    match a
    case Select => t.phase.Waiting?
    case Start => t.phase.Selected?
    case Complete => t.phase.Executing?
    case Forward => t.phase.Finished? && t.phase.stage + 1 < STAGES
    case Drop => t.phase.Selected?
    case DropNext => t.phase.Dropping?
    case Audit => t.audited < STAGES
  }

  /** The observer goes on to the next downstream stage, if there is one. */
  function Resolve(stage: nat, next: nat): Phase {
    if next < STAGES then Dropping(stage, next) else Gone(stage)
  }

  datatype Effect = NoCount | Count(field: Field, stage: nat)

  function Moved(t: Track, a: Action): Track
    requires CanMove(t, a)
  {
    var stage := t.phase.stage;
    match a
    case Select => t.(phase := Selected(stage))
    case Start => t.(phase := Executing(stage))
    case Complete => t.(phase := Finished(stage))
    case Forward => t.(phase := Waiting(stage + 1))
    case Drop => t.(phase := Resolve(stage, stage + 1))
    case DropNext => t.(phase := Resolve(stage, t.phase.next + 1))
    case Audit => t.(audited := t.audited + 1)
  }

  /** The counter incremented by a step of a measured message. */
  function EffectOf(t: Track, a: Action): Effect
    requires CanMove(t, a)
  {
    var stage := t.phase.stage;
    match a
    case Select => Count(Arrivals, stage)
    case Start => Count(Executed, stage)
    case Complete => Count(Completed, stage)
    case Forward => NoCount
    case Drop => Count(Dropped, stage)
    case DropNext => Count(Upstream, t.phase.next)
    case Audit => Count(Offered, t.audited)
  }

  // ---------------------------------------------------------------- runs

  datatype State = State(tracks: map<Message, Track>, stages: seq<Counters>)

  datatype Step = Publish(m: Message) | Move(m: Message, action: Action)

  function Initial(): State {
    State(map[], [NoCounts(), NoCounts(), NoCounts()])
  }

  predicate Enabled(s: State, step: Step) {
    match step
    case Publish(m) => m !in s.tracks
    case Move(m, a) => m in s.tracks && CanMove(s.tracks[m], a)
  }

  function Counted(stages: seq<Counters>, e: Effect): seq<Counters> {
    if e.Count? && e.stage < |stages| then stages[e.stage := Bump(stages[e.stage], e.field)] else stages
  }

  function Next(s: State, step: Step, w: Window): State
    requires Enabled(s, step)
  {
    match step
    case Publish(m) => s.(tracks := s.tracks[m := Track(Waiting(0), 0)])
    case Move(m, a) =>
      State(s.tracks[m := Moved(s.tracks[m], a)],
            if Measured(m, w) then Counted(s.stages, EffectOf(s.tracks[m], a)) else s.stages)
  }

  predicate IsRun(steps: seq<Step>, w: Window)
    decreases |steps|, 0
  {
    steps == [] ||
    (var n := |steps| - 1; IsRun(steps[..n], w) && Enabled(After(steps[..n], w), steps[n]))
  }

  function After(steps: seq<Step>, w: Window): State
    requires IsRun(steps, w)
    decreases |steps|, 1
  {
    if steps == [] then Initial() else Next(After(steps[..|steps| - 1], w), steps[|steps| - 1], w)
  }

  ghost predicate Reachable(s: State, w: Window) {
    exists steps :: IsRun(steps, w) && After(steps, w) == s
  }

  // ---------------------------------------------------------------- what a stage knows of a message

  predicate TrackOk(t: Track) {
    t.phase.stage < STAGES && t.audited <= STAGES &&
    (t.phase.Dropping? ==> t.phase.stage < t.phase.next < STAGES)
  }

  predicate LostIn(p: Phase) {
    p.Dropping? || p.Gone?
  }

  /** The message has been counted in field `f` of stage `j`. */
  predicate Holds(f: Field, t: Track, j: nat) {
    var p := t.phase;
    match f
    case Offered => j < t.audited
    case Arrivals => j < p.stage || (j == p.stage && !p.Waiting?)
    case Executed => j < p.stage || (j == p.stage && (p.Executing? || p.Finished?))
    case Completed => j < p.stage || (j == p.stage && p.Finished?)
    case Dropped => j == p.stage && LostIn(p)
    case Upstream => p.stage < j && (p.Gone? || (p.Dropping? && j < p.next))
  }

  datatype Status = IsCompleted | IsDropped | IsDroppedUpstream | IsInFlight | IsPending

  /** What becomes of the message's opportunity at stage `j`. */
  function StatusAt(t: Track, j: nat): Status {
    var p := t.phase;
    if j < p.stage || (j == p.stage && p.Finished?) then IsCompleted
    else if LostIn(p) then (if j == p.stage then IsDropped else IsDroppedUpstream)
    else if p == Executing(j) then IsInFlight
    else IsPending
  }

  // ---------------------------------------------------------------- counting messages

  /** Properties of one message: it exists; it was counted in a field of a stage; it has a status there; it
      was dropped upstream by an observer that has not yet told stage `j`; it is selected at `j`, neither
      started nor dropped; the audit has not yet offered it to `j`; and some of these together. */
  datatype Property =
    | Any
    | Passed(field: Field, j: nat)
    | Has(status: Status, j: nat)
    | Untold(j: nat)
    | Undecided(j: nat)
    | Unaudited(j: nat)
    | Decided(j: nat)
    | Lost(j: nat)
    | Open(j: nat)
    | Uncompleted(j: nat)

  predicate Is(t: Track, p: Property) {
    match p
    case Any => true
    case Passed(f, j) => Holds(f, t, j)
    case Has(status, j) => StatusAt(t, j) == status
    case Untold(j) => t.phase.Dropping? && t.phase.stage < j && t.phase.next <= j
    case Undecided(j) => t.phase == Selected(j)
    case Unaudited(j) => t.audited <= j
    case Decided(j) => Holds(Executed, t, j) || Holds(Dropped, t, j)
    case Lost(j) => StatusAt(t, j) == IsDropped || StatusAt(t, j) == IsDroppedUpstream
    case Open(j) => StatusAt(t, j) == IsInFlight || StatusAt(t, j) == IsPending
    case Uncompleted(j) => StatusAt(t, j) != IsCompleted
  }

  ghost function Members(tracks: map<Message, Track>, w: Window, test: Track -> bool): set<Message> {
    set m | m in tracks && Measured(m, w) && test(tracks[m])
  }

  function Test(p: Property): Track -> bool {
    t => Is(t, p)
  }

  /** How many measured messages have the property. */
  ghost function Tally(tracks: map<Message, Track>, w: Window, p: Property): nat {
    |Members(tracks, w, Test(p))|
  }

  lemma MembersPublish(tracks: map<Message, Track>, w: Window, test: Track -> bool, m: Message, t: Track)
    requires m !in tracks
    ensures |Members(tracks[m := t], w, test)| == |Members(tracks, w, test)| + Bit(Measured(m, w) && test(t))
  {
    var rest := Members(tracks, w, test);
    assert Members(tracks[m := t], w, test) == if Measured(m, w) && test(t) then rest + {m} else rest;
  }

  lemma MembersMove(tracks: map<Message, Track>, w: Window, test: Track -> bool, m: Message, t: Track)
    requires m in tracks
    ensures |Members(tracks[m := t], w, test)| + Bit(Measured(m, w) && test(tracks[m])) ==
            |Members(tracks, w, test)| + Bit(Measured(m, w) && test(t))
  {
    var rest := Members(tracks, w, test) - {m};
    assert Members(tracks, w, test) == if Measured(m, w) && test(tracks[m]) then rest + {m} else rest;
    assert Members(tracks[m := t], w, test) == if Measured(m, w) && test(t) then rest + {m} else rest;
  }

  predicate SplitsBy(t: Track, p: Track -> bool, q: Track -> bool, r: Track -> bool) {
    (p(t) <==> q(t) || r(t)) && !(q(t) && r(t))
  }

  lemma MembersSplit(tracks: map<Message, Track>, w: Window, p: Track -> bool, q: Track -> bool, r: Track -> bool)
    requires forall m <- tracks :: SplitsBy(tracks[m], p, q, r)
    ensures |Members(tracks, w, p)| == |Members(tracks, w, q)| + |Members(tracks, w, r)|
  {
    assert Members(tracks, w, p) == Members(tracks, w, q) + Members(tracks, w, r);
    assert Members(tracks, w, q) !! Members(tracks, w, r);
  }

  predicate Splits(t: Track, p: Property, q: Property, r: Property) {
    SplitsBy(t, Test(p), Test(q), Test(r))
  }

  /** Two exclusive properties that together make a third add up to it. */
  lemma TallySplit(tracks: map<Message, Track>, w: Window, p: Property, q: Property, r: Property)
    requires forall m <- tracks :: Splits(tracks[m], p, q, r)
    ensures Tally(tracks, w, p) == Tally(tracks, w, q) + Tally(tracks, w, r)
  {
    hide SplitsBy, Test, Members;
    MembersSplit(tracks, w, Test(p), Test(q), Test(r));
  }

  /** Two descriptions of the same messages. */
  lemma TallySame(tracks: map<Message, Track>, w: Window, p: Property, q: Property)
    requires forall m <- tracks :: Is(tracks[m], p) == Is(tracks[m], q)
    ensures Tally(tracks, w, p) == Tally(tracks, w, q)
  {
    hide Is;
    assert Members(tracks, w, Test(p)) == Members(tracks, w, Test(q));
  }

  // ---------------------------------------------------------------- the counters are a census

  predicate TracksOk(s: State) {
    |s.stages| == STAGES && forall m <- s.tracks :: TrackOk(s.tracks[m])
  }

  ghost predicate Census(s: State, w: Window, f: Field, j: nat) {
    |s.stages| == STAGES && (j < STAGES ==> Get(s.stages[j], f) == Tally(s.tracks, w, Passed(f, j)))
  }

  lemma MoveCounts(t: Track, a: Action, f: Field, j: nat)
    requires TrackOk(t) && CanMove(t, a) && j < STAGES
    ensures TrackOk(Moved(t, a))
    ensures EffectOf(t, a).Count? ==> EffectOf(t, a).stage < STAGES
    ensures Bit(Is(Moved(t, a), Passed(f, j))) == Bit(Is(t, Passed(f, j))) + Bit(EffectOf(t, a) == Count(f, j))
  {
  }

  lemma NothingYet(f: Field, j: nat)
    ensures !Is(Track(Waiting(0), 0), Passed(f, j))
  {
  }

  lemma StepKeepsCensus(s: State, step: Step, w: Window, f: Field, j: nat)
    requires TracksOk(s) && Census(s, w, f, j) && Enabled(s, step) && j < STAGES
    ensures TracksOk(Next(s, step, w)) && Census(Next(s, step, w), w, f, j)
  {
    hide Is, Members;
    match step
    case Publish(m) =>
      MembersPublish(s.tracks, w, Test(Passed(f, j)), m, Track(Waiting(0), 0));
      NothingYet(f, j);
    case Move(m, a) =>
      MoveCounts(s.tracks[m], a, f, j);
      MembersMove(s.tracks, w, Test(Passed(f, j)), m, Moved(s.tracks[m], a));
  }

  lemma InitialCensus(w: Window, f: Field, j: nat)
    requires j < STAGES
    ensures TracksOk(Initial()) && Census(Initial(), w, f, j)
  {
    assert Members(map[], w, Test(Passed(f, j))) == {};
  }

  lemma {:induction false} RunKeepsCensus(steps: seq<Step>, w: Window, f: Field, j: nat)
    requires IsRun(steps, w) && j < STAGES
    ensures TracksOk(After(steps, w)) && Census(After(steps, w), w, f, j)
  {
    hide Next, Census, TracksOk;
    if steps == [] {
      InitialCensus(w, f, j);
    } else {
      var n := |steps| - 1;
      RunKeepsCensus(steps[..n], w, f, j);
      StepKeepsCensus(After(steps[..n], w), steps[n], w, f, j);
    }
  }

  /** In every reachable state each counter of each stage is the number of measured messages that passed
      its point, however the three executors and the audit interleave. */
  lemma CountersAreCensus(s: State, w: Window, f: Field, j: nat)
    requires Reachable(s, w) && j < STAGES
    ensures TracksOk(s)
    ensures Get(s.stages[j], f) == Tally(s.tracks, w, Passed(f, j))
  {
    hide IsRun, After;
    var steps :| IsRun(steps, w) && After(steps, w) == s;
    RunKeepsCensus(steps, w, f, j);
  }

  /** ... measured being those whose source time lies in the window that begins one warm-up after the start
      of the source. */
  lemma {:induction false} CountersBySourceTime(s: State, w: Window, f: Field, j: nat)
    requires Reachable(s, w) && j < STAGES
    ensures |s.stages| == STAGES
    ensures Get(s.stages[j], f) ==
            |set m | && m in s.tracks && 0 <= m.source - (w.sourceStart + w.warmup) < w.duration
                     && Holds(f, s.tracks[m], j)|
  {
    hide Reachable, Holds;
    CountersAreCensus(s, w, f, j);
    assert Members(s.tracks, w, Test(Passed(f, j))) ==
           set m | m in s.tracks && 0 <= m.source - (w.sourceStart + w.warmup) < w.duration && Holds(f, s.tracks[m], j);
  }

  // ---------------------------------------------------------------- conservation

  lemma StatusesPartition(s: State, w: Window, j: nat)
    ensures Tally(s.tracks, w, Any) ==
            Tally(s.tracks, w, Has(IsCompleted, j)) + Tally(s.tracks, w, Has(IsDropped, j)) +
            Tally(s.tracks, w, Has(IsDroppedUpstream, j)) + Tally(s.tracks, w, Has(IsInFlight, j)) +
            Tally(s.tracks, w, Has(IsPending, j))
  {
    hide Tally, StatusAt;
    TallySplit(s.tracks, w, Any, Has(IsCompleted, j), Uncompleted(j));
    TallySplit(s.tracks, w, Uncompleted(j), Lost(j), Open(j));
    TallySplit(s.tracks, w, Lost(j), Has(IsDropped, j), Has(IsDroppedUpstream, j));
    TallySplit(s.tracks, w, Open(j), Has(IsInFlight, j), Has(IsPending, j));
  }

  /** What one message contributes to the equations between the counters of stage `j`. */
  predicate Balanced(t: Track, j: nat) {
    && Is(t, Passed(Completed, j)) == Is(t, Has(IsCompleted, j))
    && Is(t, Passed(Dropped, j)) == Is(t, Has(IsDropped, j))
    && Splits(t, Has(IsDroppedUpstream, j), Passed(Upstream, j), Untold(j))
    && Splits(t, Passed(Executed, j), Passed(Completed, j), Has(IsInFlight, j))
    && Splits(t, Passed(Arrivals, j), Decided(j), Undecided(j))
    && Splits(t, Decided(j), Passed(Executed, j), Passed(Dropped, j))
    && Splits(t, Any, Passed(Offered, j), Unaudited(j))
  }

  lemma MessageBalance(t: Track, j: nat)
    requires TrackOk(t)
    ensures Balanced(t, j)
  {
  }

  lemma StageTallies(s: State, w: Window, j: nat)
    requires TracksOk(s)
    ensures Tally(s.tracks, w, Passed(Completed, j)) == Tally(s.tracks, w, Has(IsCompleted, j))
    ensures Tally(s.tracks, w, Passed(Dropped, j)) == Tally(s.tracks, w, Has(IsDropped, j))
    ensures Tally(s.tracks, w, Has(IsDroppedUpstream, j)) ==
            Tally(s.tracks, w, Passed(Upstream, j)) + Tally(s.tracks, w, Untold(j))
    ensures Tally(s.tracks, w, Passed(Executed, j)) ==
            Tally(s.tracks, w, Passed(Completed, j)) + Tally(s.tracks, w, Has(IsInFlight, j))
    ensures Tally(s.tracks, w, Passed(Arrivals, j)) == Tally(s.tracks, w, Passed(Executed, j)) +
            Tally(s.tracks, w, Passed(Dropped, j)) + Tally(s.tracks, w, Undecided(j))
    ensures Tally(s.tracks, w, Any) == Tally(s.tracks, w, Passed(Offered, j)) + Tally(s.tracks, w, Unaudited(j))
  {
    hide Tally, Is;
    forall m | m in s.tracks ensures Balanced(s.tracks[m], j) {
      MessageBalance(s.tracks[m], j);
    }
    TallySame(s.tracks, w, Passed(Completed, j), Has(IsCompleted, j));
    TallySame(s.tracks, w, Passed(Dropped, j), Has(IsDropped, j));
    TallySplit(s.tracks, w, Has(IsDroppedUpstream, j), Passed(Upstream, j), Untold(j));
    TallySplit(s.tracks, w, Passed(Executed, j), Passed(Completed, j), Has(IsInFlight, j));
    TallySplit(s.tracks, w, Passed(Arrivals, j), Decided(j), Undecided(j));
    TallySplit(s.tracks, w, Decided(j), Passed(Executed, j), Passed(Dropped, j));
    TallySplit(s.tracks, w, Any, Passed(Offered, j), Unaudited(j));
  }

  /** At every stage of every reachable state each measured message is completed, dropped there, dropped
      upstream, in flight or pending, and the counters say how many are which: exactly for completions,
      drops and in-flight work, and up to the observers at work for upstream drops. Every arrival was
      executed, dropped or is still undecided, and the audit's offers lag only by what it has not seen. */
  lemma SourceConservation(s: State, w: Window, j: nat)
    requires Reachable(s, w) && j < STAGES
    ensures |s.stages| == STAGES
    ensures var c, n := s.stages[j], (status: Status) => Tally(s.tracks, w, Has(status, j));
            && Tally(s.tracks, w, Any) ==
               n(IsCompleted) + n(IsDropped) + n(IsDroppedUpstream) + n(IsInFlight) + n(IsPending)
            && c.completed == n(IsCompleted) && c.dropped == n(IsDropped)
            && c.upstream + Tally(s.tracks, w, Untold(j)) == n(IsDroppedUpstream)
            && c.executed == c.completed + n(IsInFlight)
            && c.arrivals == c.executed + c.dropped + Tally(s.tracks, w, Undecided(j))
            && c.offered + Tally(s.tracks, w, Unaudited(j)) == Tally(s.tracks, w, Any)
  {
    hide Tally, Reachable;
    StageCensus(s, w, j);
    StatusesPartition(s, w, j);
    StageTallies(s, w, j);
  }

  lemma StageCensus(s: State, w: Window, j: nat)
    requires Reachable(s, w) && j < STAGES
    ensures TracksOk(s)
    ensures s.stages[j] == Counters(
      Tally(s.tracks, w, Passed(Offered, j)), Tally(s.tracks, w, Passed(Arrivals, j)),
      Tally(s.tracks, w, Passed(Executed, j)), Tally(s.tracks, w, Passed(Dropped, j)),
      Tally(s.tracks, w, Passed(Upstream, j)), Tally(s.tracks, w, Passed(Completed, j)))
  {
    hide Tally, Reachable;
    CountersAreCensus(s, w, Offered, j);
    CountersAreCensus(s, w, Arrivals, j);
    CountersAreCensus(s, w, Executed, j);
    CountersAreCensus(s, w, Dropped, j);
    CountersAreCensus(s, w, Upstream, j);
    CountersAreCensus(s, w, Completed, j);
  }

  // ---------------------------------------------------------------- across stages

  lemma UpstreamOfMessage(t: Track)
    requires TrackOk(t)
    ensures !Is(t, Has(IsDroppedUpstream, 0))
    ensures Is(t, Has(IsDroppedUpstream, 1)) == Is(t, Has(IsDropped, 0))
    ensures Splits(t, Has(IsDroppedUpstream, 2), Has(IsDropped, 0), Has(IsDropped, 1))
  {
  }

  /** The mapping stage's upstream drops are the vision and the estimator stage's own drops, short only of
      those an observer is just passing on; likewise the estimator's are vision's. Between observer steps
      nothing is short. */
  lemma UpstreamBalance(s: State, w: Window)
    requires Reachable(s, w)
    ensures |s.stages| == STAGES
    ensures s.stages[0].upstream == 0
    ensures s.stages[1].upstream + Tally(s.tracks, w, Untold(1)) == s.stages[0].dropped
    ensures s.stages[2].upstream + Tally(s.tracks, w, Untold(2)) == s.stages[0].dropped + s.stages[1].dropped
    ensures BetweenObserverSteps(s, w) ==>
              && s.stages[1].upstream == s.stages[0].dropped
              && s.stages[2].upstream == s.stages[0].dropped + s.stages[1].dropped
  {
    hide Tally, Reachable, Is;
    SourceConservation(s, w, 0);
    SourceConservation(s, w, 1);
    SourceConservation(s, w, 2);
    CountersAreCensus(s, w, Dropped, 0);
    forall m | m in s.tracks
      ensures !Is(s.tracks[m], Has(IsDroppedUpstream, 0))
      ensures Is(s.tracks[m], Has(IsDroppedUpstream, 1)) == Is(s.tracks[m], Has(IsDropped, 0))
      ensures Splits(s.tracks[m], Has(IsDroppedUpstream, 2), Has(IsDropped, 0), Has(IsDropped, 1))
    {
      UpstreamOfMessage(s.tracks[m]);
    }
    TallyNone(s.tracks, w, Has(IsDroppedUpstream, 0));
    TallySame(s.tracks, w, Has(IsDroppedUpstream, 1), Has(IsDropped, 0));
    TallySplit(s.tracks, w, Has(IsDroppedUpstream, 2), Has(IsDropped, 0), Has(IsDropped, 1));
    if BetweenObserverSteps(s, w) {
      NothingUntold(s, w, 1);
      NothingUntold(s, w, 2);
    }
  }

  lemma TallyNone(tracks: map<Message, Track>, w: Window, p: Property)
    requires forall m <- tracks :: Measured(m, w) ==> !Is(tracks[m], p)
    ensures Tally(tracks, w, p) == 0
  {
    hide Is;
    assert Members(tracks, w, Test(p)) == {};
  }

  predicate BetweenObserverSteps(s: State, w: Window) {
    forall m <- s.tracks :: Measured(m, w) ==> !s.tracks[m].phase.Dropping?
  }

  lemma NothingUntold(s: State, w: Window, j: nat)
    requires BetweenObserverSteps(s, w)
    ensures Tally(s.tracks, w, Untold(j)) == 0
  {
    TallyNone(s.tracks, w, Untold(j));
  }

  // ---------------------------------------------------------------- the printed report

  datatype Report = Report(unfinished: nat, inFlight: int, pending: nat)

  function Excess(a: int, b: int): nat {
    if a > b then a - b else 0
  }

  /** The accounting of `print_stats`, given the expected number of opportunities. */
  function PrintStats(offered: nat, c: Counters): Report {
    var unfinished := Excess(offered, c.completed + c.dropped + c.upstream);
    var inFlight := c.executed - c.completed;
    Report(unfinished, inFlight, Excess(unfinished, inFlight))
  }

  /** In every reachable state and for every `offered`: the printed in-flight count is right, so its
      subtraction never wraps; the printed unfinished count is right exactly when `offered` and the upstream
      drops still to be passed on add up to the measured messages, or when nothing is unfinished and they
      are fewer; and then the printed pending count is right too. */
  lemma ReportExactIff(s: State, w: Window, j: nat, offered: nat)
    requires Reachable(s, w) && j < STAGES
    ensures |s.stages| == STAGES
    ensures var r := PrintStats(offered, s.stages[j]);
            var unfinished := Tally(s.tracks, w, Has(IsInFlight, j)) + Tally(s.tracks, w, Has(IsPending, j));
            var all, told := Tally(s.tracks, w, Any), offered + Tally(s.tracks, w, Untold(j));
            && r.inFlight == Tally(s.tracks, w, Has(IsInFlight, j))
            && (r.unfinished == unfinished <==> told == all || (told < all && unfinished == 0))
            && (r.unfinished == unfinished ==> r.pending == Tally(s.tracks, w, Has(IsPending, j)))
  {
    hide Tally, Reachable;
    SourceConservation(s, w, j);
  }

  lemma {:induction false} MessagesStay(first: seq<Step>, rest: seq<Step>, w: Window)
    requires IsRun(first, w) && IsRun(first + rest, w)
    ensures After(first, w).tracks.Keys <= After(first + rest, w).tracks.Keys
    decreases |rest|
  {
    hide CanMove, Moved, EffectOf;
    var n := |rest| - 1;
    if rest == [] {
      assert first + rest == first;
    } else {
      assert (first + rest)[..|first| + n] == first + rest[..n];
      MessagesStay(first, rest[..n], w);
    }
  }

  lemma {:induction false} RunReaches(steps: seq<Step>, w: Window)
    requires IsRun(steps, w)
    ensures Reachable(After(steps, w), w)
  {
  }

  /** The code reports a stage from a later state than the one in which it read the vision stage's offer
      count. The three reports are exact all the same if the audit had by then offered every message that
      is measured in the later state, and no observer is at work in it. */
  lemma {:induction false} ReportsExactWhenCaughtUp(first: seq<Step>, rest: seq<Step>, w: Window, j: nat)
    requires IsRun(first, w) && IsRun(first + rest, w) && j < STAGES
    requires var earlier, s := After(first, w), After(first + rest, w);
             AuditedBy(earlier, s, w) && BetweenObserverSteps(s, w)
    ensures var earlier, s := After(first, w), After(first + rest, w);
            && |earlier.stages| == |s.stages| == STAGES
            && PrintStats(earlier.stages[0].offered, s.stages[j]) == Report(
                 Tally(s.tracks, w, Has(IsInFlight, j)) + Tally(s.tracks, w, Has(IsPending, j)),
                 Tally(s.tracks, w, Has(IsInFlight, j)), Tally(s.tracks, w, Has(IsPending, j)))
  {
    hide IsRun, After, Reachable, Tally;
    MessagesStay(first, rest, w);
    RunReaches(first, w);
    RunReaches(first + rest, w);
    var earlier, s := After(first, w), After(first + rest, w);
    CountersAreCensus(earlier, w, Offered, 0);
    OffersCoverAll(earlier, s, w);
    SourceConservation(s, w, j);
    NothingUntold(s, w, j);
    ReportExactIff(s, w, j, earlier.stages[0].offered);
  }

  /** Every message measured in `s` had been offered to the vision stage in the earlier state. */
  predicate AuditedBy(earlier: State, s: State, w: Window) {
    forall m <- s.tracks :: Measured(m, w) ==> m in earlier.tracks && earlier.tracks[m].audited > 0
  }

  lemma OffersCoverAll(earlier: State, s: State, w: Window)
    requires AuditedBy(earlier, s, w) && earlier.tracks.Keys <= s.tracks.Keys
    ensures Tally(earlier.tracks, w, Passed(Offered, 0)) == Tally(s.tracks, w, Any)
  {
    assert Members(earlier.tracks, w, Test(Passed(Offered, 0))) == Members(s.tracks, w, Test(Any));
  }

  // ---------------------------------------------------------------- when the report is wrong

  lemma StepReachable(s: State, step: Step, w: Window)
    requires Reachable(s, w) && Enabled(s, step)
    ensures Reachable(Next(s, step, w), w)
  {
    hide Enabled, Next;
    var steps :| IsRun(steps, w) && After(steps, w) == s;
    assert (steps + [step])[..|steps|] == steps;
    assert IsRun(steps + [step], w) && After(steps + [step], w) == Next(s, step, w);
  }

  lemma TallyOne(m: Message, t: Track, w: Window, p: Property)
    requires Measured(m, w)
    ensures Tally(map[m := t], w, p) == Bit(Is(t, p))
  {
    hide Is;
    assert Members(map[m := t], w, Test(p)) == if Is(t, p) then {m} else {};
  }

  lemma Published(m: Message, w: Window) returns (s: State)
    ensures Reachable(s, w) && s == State(map[m := Track(Waiting(0), 0)], Initial().stages)
  {
    assert IsRun([], w) && After([], w) == Initial();
    StepReachable(Initial(), Publish(m), w);
    s := Next(Initial(), Publish(m), w);
  }

  /** The audit lags: one message is pending at every stage and the report says that none is unfinished. */
  lemma AuditLagMisreports(m: Message, w: Window, j: nat) returns (s: State)
    requires Measured(m, w) && j < STAGES
    ensures Reachable(s, w) && |s.stages| == STAGES
    ensures Tally(s.tracks, w, Has(IsPending, j)) == 1
    ensures PrintStats(s.stages[0].offered, s.stages[j]) == Report(0, 0, 0)
  {
    hide Reachable;
    s := Published(m, w);
    TallyOne(m, Track(Waiting(0), 0), w, Has(IsPending, j));
  }

  lemma Audited(m: Message, w: Window) returns (s: State)
    requires Measured(m, w)
    ensures Reachable(s, w) && s.tracks == map[m := Track(Waiting(0), 3)]
    ensures s.stages == [Bump(NoCounts(), Offered), Bump(NoCounts(), Offered), Bump(NoCounts(), Offered)]
  {
    hide Reachable;
    s := Published(m, w);
    StepReachable(s, Move(m, Audit), w);
    s := Next(s, Move(m, Audit), w);
    StepReachable(s, Move(m, Audit), w);
    s := Next(s, Move(m, Audit), w);
    StepReachable(s, Move(m, Audit), w);
    s := Next(s, Move(m, Audit), w);
  }

  /** An observer lags: vision has dropped the only message, fully audited, and the estimator's report says
      that it is still unfinished there. */
  lemma ObserverLagMisreports(m: Message, w: Window) returns (s: State)
    requires Measured(m, w)
    ensures Reachable(s, w) && |s.stages| == STAGES && Tally(s.tracks, w, Unaudited(2)) == 0
    ensures Tally(s.tracks, w, Has(IsInFlight, 1)) == Tally(s.tracks, w, Has(IsPending, 1)) == 0
    ensures PrintStats(s.stages[0].offered, s.stages[1]) == Report(1, 0, 1)
  {
    hide Reachable, Tally;
    s := Audited(m, w);
    StepReachable(s, Move(m, Select), w);
    s := Next(s, Move(m, Select), w);
    StepReachable(s, Move(m, Drop), w);
    s := Next(s, Move(m, Drop), w);
    assert s.tracks == map[m := Track(Dropping(0, 1), 3)];
    TallyOne(m, Track(Dropping(0, 1), 3), w, Unaudited(2));
    TallyOne(m, Track(Dropping(0, 1), 3), w, Has(IsInFlight, 1));
    TallyOne(m, Track(Dropping(0, 1), 3), w, Has(IsPending, 1));
  }

  // ---------------------------------------------------------------- the statistics objects

  /** `StageStats`; each method is one lock section. */
  class StageStats {
    var offered: nat
    var arrivals: nat
    var executed: nat
    var dropped: nat
    var upstreamDropped: nat
    var completed: nat
    var active: bool

    function Counts(): Counters
      reads this
    {
      Counters(offered, arrivals, executed, dropped, upstreamDropped, completed)
    }

    constructor ()
      ensures Counts() == NoCounts() && !active
    {
      offered, arrivals, executed, dropped, upstreamDropped, completed, active := 0, 0, 0, 0, 0, 0, false;
    }

    method Offer()
      modifies this`offered
      ensures Counts() == Bump(old(Counts()), Offered)
    {
      offered := offered + 1;
    }

    /** The first lock section of `account_job`. */
    method Begin()
      modifies this`executed, this`active
      ensures Counts() == Bump(old(Counts()), Executed) && active
    {
      executed, active := executed + 1, true;
    }

    /** The second lock section of `account_job`. */
    method End()
      modifies this`completed, this`active
      ensures Counts() == Bump(old(Counts()), Completed) && !active
    {
      completed, active := completed + 1, false;
    }

    method CountEvent(selected: bool)
      modifies this`arrivals, this`dropped
      ensures Counts() == Bump(old(Counts()), if selected then Arrivals else Dropped)
    {
      if selected {
        arrivals := arrivals + 1;
      } else {
        dropped := dropped + 1;
      }
    }

    method CountUpstream()
      modifies this`upstreamDropped
      ensures Counts() == Bump(old(Counts()), Upstream)
    {
      upstreamDropped := upstreamDropped + 1;
    }
  }

  /** The `observe` lambda: an unmeasured message changes nothing; a selection counts once, here; a drop
      counts here and once at every stage downstream. */
  method Observe(target: StageStats, downstream: seq<StageStats>, m: Message, w: Window, selected: bool)
    requires target !in downstream
    requires forall i, k :: 0 <= i < k < |downstream| ==> downstream[i] != downstream[k]
    modifies target, downstream
    ensures target.Counts() == if !Measured(m, w) then old(target.Counts())
                               else Bump(old(target.Counts()), if selected then Arrivals else Dropped)
    ensures forall next <- downstream ::
              next.Counts() ==
              if Measured(m, w) && !selected then Bump(old(next.Counts()), Upstream) else old(next.Counts())
  {
    if !Measured(m, w) {
      return;
    }
    target.CountEvent(selected);
    if !selected {
      for i := 0 to |downstream|
        invariant target.Counts() == Bump(old(target.Counts()), Dropped)
        invariant forall k :: 0 <= k < i ==> downstream[k].Counts() == Bump(old(downstream[k].Counts()), Upstream)
        invariant forall k :: i <= k < |downstream| ==> downstream[k].Counts() == old(downstream[k].Counts())
      {
        downstream[i].CountUpstream();
      }
    }
  }
}
