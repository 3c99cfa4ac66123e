/**
 The dispatcher/worker protocol of `FreshnessExecutor::spin`, as a transition system.

 Every critical section, every sink call and every call into foreign code is one atomic action.
 A condition variable is modelled by one flag per thread: a thread whose predicate was false goes
 to sleep, `notify_all` wakes both threads, and a spurious wake-up is always possible.
 The logs at the end of `State` record what the sink, the message pool, the callback groups and the
 observers have seen so far; no action reads them.
 */
module Executor {
  import opened Options

  const U64_MAX: nat := 0xFFFF_FFFF_FFFF_FFFF

  // ---------------------------------------------------------------- hints and expiry

  datatype Hint = Hint(
    stageId: nat, classId: nat, jobId: nat, release: nat, deadline: nat,
    stale: nat, budget: nat, slice: nat, weight: nat)

  datatype Profile = Profile(
    stageId: nat, classId: nat, relativeDeadline: nat, stale: nat,
    budget: nat, slice: nat, weight: nat, rejectExpired: bool)

  const EMPTY_HINT := Hint(0, 0, 0, 0, 0, 0, 0, 0, 0)

  function AddSaturating(lhs: nat, rhs: nat): nat
    requires lhs <= U64_MAX
  {
    if rhs > U64_MAX - lhs then U64_MAX else lhs + rhs
  }

  function MakeHint(p: Profile, jobId: nat, release: nat): Hint
    requires release <= U64_MAX
  {
    Hint(p.stageId, p.classId, jobId, release,
         if p.relativeDeadline == 0 then 0 else AddSaturating(release, p.relativeDeadline),
         p.stale, p.budget, p.slice, p.weight)
  }

  predicate HintExpired(h: Hint, now: nat) {
    || (h.deadline != 0 && now > h.deadline)
    || (h.stale != 0 && now > h.release && now - h.release > h.stale)
  }

  /** A message taken for one profile expires, at any 64-bit instant, exactly when its age passes the
      relative deadline or the stale bound: neither the saturation of the deadline nor the zero that
      stands for "no deadline" ever changes the decision. */
  lemma ExpiryIsAgeBound(p: Profile, jobId: nat, release: nat, now: nat)
    requires release <= U64_MAX && now <= U64_MAX
    ensures HintExpired(MakeHint(p, jobId, release), now) <==>
            || (p.relativeDeadline != 0 && now - release > p.relativeDeadline)
            || (p.stale != 0 && now - release > p.stale)
  {
  }

  // ---------------------------------------------------------------- state

  /** `PendingWork`. `message` and `group` say whether this object still owns a taken message and a
      message-aware callback group; `id` numbers the executables in selection order. */
  datatype Work = Work(
    id: nat, hint: Hint, subscription: bool, message: bool, group: bool, observer: bool, reject: bool)

  datatype Binding = Binding(profile: Profile, aware: bool, observer: bool)

  const NO_WORK := Work(0, EMPTY_HINT, false, false, false, false, false)
  const NO_BINDING := Binding(Profile(0, 0, 0, 0, 0, 0, 0, false), false, false)

  datatype DispatcherPc =
    | WaitReady
    | LoopHead
    | WaitIdle
    | Select
    | Prepare
    | Take
    | Extract
    | Check
    | DropEarly
    | Publish
    | Handoff
    | NotifyHandoff
    | Unwind
    | Leave
    | FinalWait
    | NotifyStop
    | Join
    | Done

  datatype WorkerPc =
    | Configure
    | SetReady
    | NotifyReady
    | Park
    | Parked
    | Start
    | DropLate
    | InCallback
    | Cleanup
    | ClearHint
    | ClearFlag
    | Fail
    | NotifyFail
    | CancelSpin
    | ExitFailed
    | ExitStopped

  /** What identifies one handed-over executable to the sink. */
  datatype Item = Item(id: nat, hint: Hint)

  datatype SinkOp = Published(item: Item) | Cleared

  /** Everything the two threads read and write. */
  datatype Shared = Shared(
    // guarded by the mutex
    pending: Option<Work>, ready: bool, idle: bool, needsClear: bool, stop: bool, error: bool,
    // atomics and the clock
    spinning: bool, now: nat,
    // the dispatcher and its locals
    d: DispatcherPc, dSleeping: bool, current: Work, binding: Binding, rosMessage: bool,
    dispatchError: bool, nextId: nat, nextJobId: nat,
    // the worker and its local
    w: WorkerPc, wSleeping: bool, job: Work,
    // the worker's entry in the hint map
    slot: Option<Hint>)

  /** What the sink, the message pool, the callback groups and the observers have seen. */
  datatype Log = Log(
    sink: seq<SinkOp>, sinkFailed: bool, handed: seq<Item>, finished: seq<Item>,
    created: set<nat>, returned: multiset<nat>, grabbed: set<nat>, released: multiset<nat>,
    selected: nat, entered: nat, dropped: nat, aborted: nat)

  datatype State = State(c: Shared, log: Log)

  const INIT := State(
    Shared(None, false, false, false, false, false, true, 0,
           WaitReady, false, NO_WORK, NO_BINDING, false, false, 0, 1,
           Configure, false, NO_WORK, None),
    Log([], false, [], [], {}, multiset{}, {}, multiset{}, 0, 0, 0, 0))

  datatype TakeOutcome = Taken | NothingTaken | TakeThrows

  datatype Action =
    // dispatcher
    | DWait
    | DSpurious
    | DContext(ok: bool)
    | DSelectNothing
    | DSelectThrows
    | DSelect(binding: Binding, subscription: bool, rosMessage: bool)
    | DPrepare(createThrows: bool, clock: nat)
    | DTake(outcome: TakeOutcome)
    | DExtract(extractorThrows: bool, jobId: nat, release: nat, observerThrows: bool)
    | DCheck(clock: nat)
    | DDrop(observerThrows: bool)
    | DPublish(sinkThrows: bool)
    | DHandoff
    | DNotify
    | DUnwind
    | DLeave
    | DFinish(sinkThrows: bool)
    | DJoin
    // worker
    | WConfigure(throws: bool)
    | WReady
    | WNotify
    | WPark
    | WWait
    | WSpurious
    | WStart(clock: nat)
    | WDrop(observerThrows: bool)
    | WReturn
    | WThrow
    | WCleanup
    | WClear(sinkThrows: bool)
    | WFlag
    | WFail
    | WCancel
    // another thread, or the context, calls cancel()
    | Cancel

  // ---------------------------------------------------------------- helpers of Impl

  /** `return_taken_message`: what the pool gets back from this object. */
  function MessageOf(work: Work): multiset<nat> {
    if work.message && work.subscription then multiset{work.id} else multiset{}
  }

  /** `release_callback_group`: the group made available again by this object. */
  function GroupOf(work: Work): multiset<nat> {
    if work.group then multiset{work.id} else multiset{}
  }

  function Emptied(work: Work): Work {
    work.(message := work.message && !work.subscription, group := false)
  }

  /** The moved-from `PendingWork`: no message, and its group reset by hand. */
  function MovedFrom(work: Work): Work {
    work.(message := false, group := false)
  }

  function ReturnAndRelease(log: Log, work: Work): Log {
    log.(returned := log.returned + MessageOf(work), released := log.released + GroupOf(work))
  }

  function NotifyAll(c: Shared): Shared {
    c.(dSleeping := false, wSleeping := false)
  }

  function Observed(work: Work): nat {
    if work.observer then 1 else 0
  }

  function ItemOf(work: Work): Item {
    Item(work.id, work.hint)
  }

  predicate Rejects(work: Work, now: nat) {
    work.reject && HintExpired(work.hint, now)
  }

  // ---------------------------------------------------------------- dispatcher steps

  predicate DGuard(c: Shared) {
    match c.d
    case WaitReady => c.ready
    case WaitIdle => c.idle || c.error || !c.spinning
    case FinalWait => c.idle || c.error
    case _ => false
  }

  predicate DWaiting(d: DispatcherPc) { d.WaitReady? || d.WaitIdle? || d.FinalWait? }

  function DWaitStep(c: Shared): Shared {
    if !DGuard(c) then c.(dSleeping := true)
    else if c.error then c.(dispatchError := true, d := Leave)
    else if c.d.WaitReady? then c.(d := LoopHead)
    else if !c.spinning then c.(d := Leave)
    else c.(d := Select)
  }

  function DSelectStep(s: State, binding: Binding, subscription: bool, rosMessage: bool): State {
    var id := s.c.nextId;
    State(s.c.(current := Work(id, EMPTY_HINT, subscription, false, binding.aware, false, false),
               binding := binding, rosMessage := rosMessage, nextId := id + 1, d := Prepare),
          s.log.(grabbed := if binding.aware then s.log.grabbed + {id} else s.log.grabbed))
  }

  function DPrepareStep(s: State, createThrows: bool, clock: nat): State
    requires clock <= U64_MAX
  {
    var c := s.c;
    if !c.binding.aware then
      s.(c := c.(now := clock, nextJobId := c.nextJobId + 1, d := Publish,
                 current := c.current.(hint := MakeHint(c.binding.profile, c.nextJobId, clock))))
    else if !c.current.subscription || !c.rosMessage || createThrows then s.(c := c.(d := Unwind))
    else State(c.(current := c.current.(message := true), d := Take),
               s.log.(created := s.log.created + {c.current.id}))
  }

  /** Return the message, release the group, and go on at `d`. */
  function DDispose(s: State, d: DispatcherPc): State {
    State(s.c.(current := Emptied(s.c.current), d := d), ReturnAndRelease(s.log, s.c.current))
  }

  function DTakeStep(s: State, outcome: TakeOutcome): State {
    match outcome
    case Taken => s.(c := s.c.(d := Extract))
    case NothingTaken => DDispose(s, LoopHead)
    case TakeThrows => s.(c := s.c.(d := Unwind))
  }

  function DExtractStep(s: State, throws: bool, jobId: nat, release: nat, observerThrows: bool): State
    requires release <= U64_MAX
  {
    var c := s.c;
    if throws || jobId == 0 || release == 0 then s.(c := c.(d := Unwind))
    else
      var work := c.current.(hint := MakeHint(c.binding.profile, jobId, release),
                             reject := c.binding.profile.rejectExpired, observer := c.binding.observer);
      var aborts := c.binding.observer && observerThrows;
      State(c.(current := work, d := if aborts then Unwind else Check),
            s.log.(selected := s.log.selected + Observed(work),
                   aborted := s.log.aborted + if aborts then 1 else 0))
  }

  function DCheckStep(c: Shared, clock: nat): Shared {
    c.(now := clock, d := if Rejects(c.current, clock) then DropEarly else Publish)
  }

  function DDropStep(s: State, observerThrows: bool): State {
    var s' := s.(log := s.log.(dropped := s.log.dropped + Observed(s.c.current)));
    if s.c.current.observer && observerThrows then s'.(c := s.c.(d := Unwind)) else DDispose(s', LoopHead)
  }

  function DPublishStep(s: State, sinkThrows: bool): State {
    if sinkThrows
    then State(s.c.(d := Unwind),
               s.log.(sinkFailed := true, aborted := s.log.aborted + Observed(s.c.current)))
    else State(s.c.(slot := Some(s.c.current.hint), d := Handoff),
               s.log.(sink := s.log.sink + [Published(ItemOf(s.c.current))]))
  }

  /** `pending` is move-constructed from the dispatcher's work, which then owns nothing. */
  function DHandoffStep(s: State): State {
    State(s.c.(idle := false, needsClear := true, pending := Some(s.c.current),
               current := MovedFrom(s.c.current), d := NotifyHandoff),
          s.log.(handed := s.log.handed + [ItemOf(s.c.current)]))
  }

  function DFinishStep(s: State, sinkThrows: bool): State {
    if !DGuard(s.c) then s.(c := s.c.(dSleeping := true))
    else if !s.c.needsClear then s.(c := s.c.(stop := true, d := NotifyStop))
    else if sinkThrows
    then State(s.c.(dispatchError := true, stop := true, d := NotifyStop), s.log.(sinkFailed := true))
    else State(s.c.(slot := None, needsClear := false, stop := true, d := NotifyStop),
               s.log.(sink := s.log.sink + [Cleared]))
  }

  // ---------------------------------------------------------------- worker steps

  function WWaitStep(c: Shared): Shared {
    match c.pending
    case Some(work) => c.(pending := None, job := work, w := Start)
    case None => if c.stop then c.(w := ExitStopped) else c.(wSleeping := true)
  }

  function WStartStep(s: State, clock: nat): State {
    if s.c.job.message && Rejects(s.c.job, clock) then s.(c := s.c.(now := clock, w := DropLate))
    else State(s.c.(now := clock, w := InCallback),
               s.log.(entered := s.log.entered + Observed(s.c.job)))
  }

  function WDispose(s: State, w: WorkerPc): State {
    State(s.c.(job := Emptied(s.c.job), w := w), ReturnAndRelease(s.log, s.c.job))
  }

  /** The work is done: dispose of what it owns and go back to parking. */
  function WReturnStep(s: State): State {
    WDispose(s.(log := s.log.(finished := s.log.finished + [ItemOf(s.c.job)])), Park)
  }

  function WDropStep(s: State, observerThrows: bool): State {
    var s' := s.(log := s.log.(dropped := s.log.dropped + Observed(s.c.job)));
    if s.c.job.observer && observerThrows then s'.(c := s.c.(w := Cleanup)) else WReturnStep(s')
  }

  /** A message-aware callback that throws has already returned and released when the exception
      reaches the worker's own handler; any other executable has not. */
  function WThrowStep(s: State): State {
    if s.c.job.message then WDispose(s, Cleanup) else s.(c := s.c.(w := Cleanup))
  }

  function WClearStep(s: State, sinkThrows: bool): State {
    var log := s.log.(finished := s.log.finished + [ItemOf(s.c.job)]);
    if sinkThrows then State(s.c.(w := Fail), log.(sinkFailed := true))
    else State(s.c.(slot := None, w := ClearFlag), log.(sink := s.log.sink + [Cleared]))
  }

  function WFailStep(c: Shared): Shared {
    c.(error := true, ready := true, idle := true, stop := true, w := NotifyFail)
  }

  // ---------------------------------------------------------------- the transition relation

  predicate DEnabled(c: Shared, a: Action) {
    match a
    case DWait => !c.dSleeping && (c.d.WaitReady? || c.d.WaitIdle?)
    case DSpurious => c.dSleeping
    case DContext(_) => c.d.LoopHead?
    case DSelectNothing => c.d.Select?
    case DSelectThrows => c.d.Select?
    case DSelect(_, _, _) => c.d.Select?
    case DPrepare(_, clock) => c.d.Prepare? && c.now <= clock <= U64_MAX
    case DTake(_) => c.d.Take?
    case DExtract(_, _, release, _) => c.d.Extract? && release <= U64_MAX
    case DCheck(clock) => c.d.Check? && c.now <= clock <= U64_MAX
    case DDrop(_) => c.d.DropEarly?
    case DPublish(_) => c.d.Publish?
    case DHandoff => c.d.Handoff?
    case DNotify => c.d.NotifyHandoff? || c.d.NotifyStop?
    case DUnwind => c.d.Unwind?
    case DLeave => c.d.Leave?
    case DFinish(_) => !c.dSleeping && c.d.FinalWait?
    case DJoin => c.d.Join? && (c.w.ExitFailed? || c.w.ExitStopped?)
    case _ => false
  }

  predicate WEnabled(c: Shared, a: Action) {
    match a
    case WConfigure(_) => c.w.Configure?
    case WReady => c.w.SetReady?
    case WNotify => c.w.NotifyReady? || c.w.NotifyFail?
    case WPark => c.w.Park?
    case WWait => c.w.Parked? && !c.wSleeping
    case WSpurious => c.wSleeping
    case WStart(clock) => c.w.Start? && c.now <= clock <= U64_MAX
    case WDrop(_) => c.w.DropLate?
    case WReturn => c.w.InCallback?
    case WThrow => c.w.InCallback?
    case WCleanup => c.w.Cleanup?
    case WClear(_) => c.w.ClearHint?
    case WFlag => c.w.ClearFlag?
    case WFail => c.w.Fail?
    case WCancel => c.w.CancelSpin?
    case _ => false
  }

  predicate Enabled(c: Shared, a: Action) {
    DEnabled(c, a) || WEnabled(c, a) || a.Cancel?
  }

  function DNext(s: State, a: Action): State
    requires DEnabled(s.c, a)
  {
    match a
    case DWait => s.(c := DWaitStep(s.c))
    case DSpurious => s.(c := s.c.(dSleeping := false))
    case DContext(ok) => s.(c := s.c.(d := if ok && s.c.spinning then WaitIdle else Leave))
    case DSelectNothing => s.(c := s.c.(d := LoopHead))
    case DSelectThrows => s.(c := s.c.(dispatchError := true, d := Leave))
    case DSelect(binding, subscription, rosMessage) => DSelectStep(s, binding, subscription, rosMessage)
    case DPrepare(createThrows, clock) => DPrepareStep(s, createThrows, clock)
    case DTake(outcome) => DTakeStep(s, outcome)
    case DExtract(throws, jobId, release, observerThrows) =>
      DExtractStep(s, throws, jobId, release, observerThrows)
    case DCheck(clock) => s.(c := DCheckStep(s.c, clock))
    case DDrop(observerThrows) => DDropStep(s, observerThrows)
    case DPublish(sinkThrows) => DPublishStep(s, sinkThrows)
    case DHandoff => DHandoffStep(s)
    case DNotify => s.(c := NotifyAll(s.c).(d := if s.c.d.NotifyHandoff? then LoopHead else Join))
    case DUnwind => var s' := DDispose(s, Leave); s'.(c := s'.c.(dispatchError := true))
    case DLeave => s.(c := s.c.(spinning := false, d := FinalWait))
    case DFinish(sinkThrows) => DFinishStep(s, sinkThrows)
    case DJoin => s.(c := s.c.(d := Done))
  }

  function WNext(s: State, a: Action): State
    requires WEnabled(s.c, a)
  {
    match a
    case WConfigure(throws) => s.(c := s.c.(w := if throws then Fail else SetReady))
    case WReady => s.(c := s.c.(ready := true, w := NotifyReady))
    case WNotify => s.(c := NotifyAll(s.c).(w := if s.c.w.NotifyReady? then Park else CancelSpin))
    case WPark => s.(c := NotifyAll(s.c).(idle := true, w := Parked))
    case WWait => s.(c := WWaitStep(s.c))
    case WSpurious => s.(c := s.c.(wSleeping := false))
    case WStart(clock) => WStartStep(s, clock)
    case WDrop(observerThrows) => WDropStep(s, observerThrows)
    case WReturn => WReturnStep(s)
    case WThrow => WThrowStep(s)
    case WCleanup => WDispose(s, ClearHint)
    case WClear(sinkThrows) => WClearStep(s, sinkThrows)
    case WFlag => s.(c := s.c.(needsClear := false, w := Fail))
    case WFail => s.(c := WFailStep(s.c))
    case WCancel => s.(c := s.c.(spinning := false, w := ExitFailed))
  }

  function Next(s: State, a: Action): State
    requires Enabled(s.c, a)
  {
    if DEnabled(s.c, a) then DNext(s, a)
    else if WEnabled(s.c, a) then WNext(s, a)
    else s.(c := s.c.(spinning := false))
  }

  /** A run of `spin`: actions taken from the initial state, each enabled where it is taken. */
  predicate IsRun(actions: seq<Action>)
    decreases |actions|, 0
  {
    actions == [] ||
    (IsRun(actions[..|actions| - 1]) &&
     Enabled(After(actions[..|actions| - 1]).c, actions[|actions| - 1]))
  }

  function After(actions: seq<Action>): State
    requires IsRun(actions)
    decreases |actions|, 1
  {
    if actions == [] then INIT
    else Next(After(actions[..|actions| - 1]), actions[|actions| - 1])
  }

  ghost predicate Reachable(s: State) {
    exists actions :: IsRun(actions) && After(actions) == s
  }
}
