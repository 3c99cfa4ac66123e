/** Absence of deadlock, and the end of every cancelled `spin`. */
module ExecutorTermination {
  import opened Bits
  import opened Options
  import opened Executor
  import opened ExecutorProofs
  import opened ExecutorTheorems

  /** An action that either thread takes of its own accord: no spurious wake-up and no outside `cancel`. */
  predicate Productive(a: Action) {
    !a.DSpurious? && !a.WSpurious? && !a.Cancel?
  }

  /** One productive action the dispatcher can take unless it is blocked or done. */
  function DispatcherChoice(c: Shared): Action {
    match c.d
    case WaitReady => DWait
    case LoopHead => DContext(true)
    case WaitIdle => DWait
    case Select => DSelectNothing
    case Prepare => DPrepare(false, c.now)
    case Take => DTake(Taken)
    case Extract => DExtract(true, 0, 0, false)
    case Check => DCheck(c.now)
    case DropEarly => DDrop(false)
    case Publish => DPublish(false)
    case Handoff => DHandoff
    case NotifyHandoff => DNotify
    case Unwind => DUnwind
    case Leave => DLeave
    case FinalWait => DFinish(false)
    case NotifyStop => DNotify
    case Join => DJoin
    case Done => DSpurious
  }

  /** `spin` never deadlocks: until it is done, a thread has a productive action. */
  lemma NeverStuck(s: State)
    requires Reachable(s) && !s.c.d.Done?
    ensures exists a :: Productive(a) && Enabled(s.c, a)
  {
    hide Reachable, WorkerChoice;
    ReachableInv(s, 0);
    if DispatcherBlocked(s.c) {
      BlockedDispatcherHasWorker(s);
      var a := WorkerChoice(s.c);
      assert Productive(a) && Enabled(s.c, a);
    } else {
      var a := DispatcherChoice(s.c);
      UnblockedDispatcherActs(s.c);
      assert Productive(a) && Enabled(s.c, a);
    }
  }

  lemma UnblockedDispatcherActs(c: Shared)
    requires Control(c) && !c.d.Done? && !DispatcherBlocked(c)
    ensures DEnabled(c, DispatcherChoice(c)) && Productive(DispatcherChoice(c))
  {
  }

  /** The longest way of the dispatcher to the end once `spinning` is false. */
  function DispatcherSteps(d: DispatcherPc): nat {
    match d
    case Select => 13
    case Prepare => 12
    case Take => 11
    case Extract => 10
    case Check => 9
    case DropEarly => 8
    case Publish => 8
    case Handoff => 7
    case NotifyHandoff => 6
    case WaitReady => 6
    case LoopHead => 5
    case WaitIdle => 5
    case Unwind => 5
    case Leave => 4
    case FinalWait => 3
    case NotifyStop => 2
    case Join => 1
    case Done => 0
  }

  /** The longest way of the worker to its end without further work. */
  function WorkerSteps(w: WorkerPc): nat {
    match w
    case Configure => 11
    case SetReady => 10
    case NotifyReady => 9
    case Start => 10
    case DropLate => 9
    case InCallback => 9
    case Park => 8
    case Parked => 7
    case Cleanup => 6
    case ClearHint => 5
    case ClearFlag => 4
    case Fail => 3
    case NotifyFail => 2
    case CancelSpin => 1
    case ExitFailed => 0
    case ExitStopped => 0
  }

  /** A bound on the productive actions left: a handoff pays for one more round of the worker, and every
      notification for going back to sleep. */
  function ActionsLeft(c: Shared): nat {
    3 * (5 * DispatcherSteps(c.d) + WorkerSteps(c.w) + 4 * Bit(c.pending.Some?)) + Bit(!c.dSleeping) + Bit(!c.wSleeping)
  }

  /** Every productive action uses up at least one, a spurious wake-up adds at most one. */
  predicate Uses(c: Shared, c': Shared, a: Action) {
    !c'.spinning && ActionsLeft(c') + Bit(Productive(a)) <= ActionsLeft(c) + Bit(!Productive(a))
  }

  /** The dispatcher changes nothing that counts but its own program counter, and gets closer to its end. */
  predicate Advances(c: Shared, c': Shared) {
    && c' == c.(d := c'.d, now := c'.now, current := c'.current, binding := c'.binding, rosMessage := c'.rosMessage,
                dispatchError := c'.dispatchError, nextId := c'.nextId, nextJobId := c'.nextJobId, slot := c'.slot,
                needsClear := c'.needsClear, stop := c'.stop)
    && DispatcherSteps(c'.d) < DispatcherSteps(c.d)
  }

  /** Likewise for the worker. */
  predicate WorkerAdvances(c: Shared, c': Shared) {
    && c' == c.(w := c'.w, now := c'.now, job := c'.job, slot := c'.slot)
    && WorkerSteps(c'.w) < WorkerSteps(c.w)
  }

  lemma AdvancesUses(c: Shared, c': Shared, a: Action)
    requires !c.spinning && Productive(a) && (Advances(c, c') || WorkerAdvances(c, c'))
    ensures Uses(c, c', a)
  {
    assert c'.spinning == c.spinning && c'.pending == c.pending;
    assert c'.dSleeping == c.dSleeping && c'.wSleeping == c.wSleeping;
    if Advances(c, c') { assert c'.w == c.w; } else { assert c'.d == c.d; }
  }

  lemma DispatcherSleepUses(c: Shared, a: Action)
    requires !c.spinning && !c.dSleeping && Productive(a)
    ensures Uses(c, c.(dSleeping := true), a)
  {
  }

  lemma WorkerSleepUses(c: Shared, a: Action)
    requires !c.spinning && !c.wSleeping && Productive(a)
    ensures Uses(c, c.(wSleeping := true), a)
  {
  }

  lemma DWaitAdvances(s: State)
    requires DEnabled(s.c, DWait) && !s.c.spinning
    ensures Advances(s.c, DNext(s, DWait).c) || DNext(s, DWait).c == s.c.(dSleeping := true)
  {
    hide MakeHint, HintExpired;
    if !DGuard(s.c) { } else if s.c.error { } else if s.c.d.WaitReady? { } else { }
  }

  lemma DSelectAdvances(s: State, binding: Binding, subscription: bool, rosMessage: bool)
    requires DEnabled(s.c, DSelect(binding, subscription, rosMessage)) && !s.c.spinning
    ensures Advances(s.c, DNext(s, DSelect(binding, subscription, rosMessage)).c)
  {
    hide MakeHint, HintExpired;
  }

  lemma DUnawareAdvances(s: State, throws: bool, clock: nat)
    requires DEnabled(s.c, DPrepare(throws, clock)) && !s.c.spinning
    requires !s.c.binding.aware
    ensures Advances(s.c, DNext(s, DPrepare(throws, clock)).c)
  {
    hide MakeHint, HintExpired;
  }

  lemma DUnfitAdvances(s: State, throws: bool, clock: nat)
    requires DEnabled(s.c, DPrepare(throws, clock)) && !s.c.spinning
    requires s.c.binding.aware && (!s.c.current.subscription || !s.c.rosMessage || throws)
    ensures Advances(s.c, DNext(s, DPrepare(throws, clock)).c)
  {
    hide MakeHint, HintExpired;
  }

  lemma DCreateAdvances(s: State, throws: bool, clock: nat)
    requires DEnabled(s.c, DPrepare(throws, clock)) && !s.c.spinning
    requires s.c.binding.aware && s.c.current.subscription && s.c.rosMessage && !throws
    ensures Advances(s.c, DNext(s, DPrepare(throws, clock)).c)
  {
    hide MakeHint, HintExpired;
  }

  lemma DPrepareAdvances(s: State, throws: bool, clock: nat)
    requires DEnabled(s.c, DPrepare(throws, clock)) && !s.c.spinning
    ensures Advances(s.c, DNext(s, DPrepare(throws, clock)).c)
  {
    hide DNext, Advances;
    if !s.c.binding.aware {
      DUnawareAdvances(s, throws, clock);
    } else if s.c.binding.aware && (!s.c.current.subscription || !s.c.rosMessage || throws) {
      DUnfitAdvances(s, throws, clock);
    } else {
      DCreateAdvances(s, throws, clock);
    }
  }

  lemma DTakeAdvances(s: State, outcome: TakeOutcome)
    requires DEnabled(s.c, DTake(outcome)) && !s.c.spinning
    ensures Advances(s.c, DNext(s, DTake(outcome)).c)
  {
    hide MakeHint, HintExpired;
    match outcome
    case Taken =>
    case NothingTaken =>
    case TakeThrows =>
  }

  lemma DUndescribedAdvances(s: State, throws: bool, jobId: nat, release: nat, observerThrows: bool)
    requires DEnabled(s.c, DExtract(throws, jobId, release, observerThrows)) && !s.c.spinning
    requires throws || jobId == 0 || release == 0
    ensures Advances(s.c, DNext(s, DExtract(throws, jobId, release, observerThrows)).c)
  {
    hide MakeHint, HintExpired;
  }

  lemma DDescribedAdvances(s: State, throws: bool, jobId: nat, release: nat, observerThrows: bool)
    requires DEnabled(s.c, DExtract(throws, jobId, release, observerThrows)) && !s.c.spinning
    requires !throws && jobId != 0 && release != 0
    ensures Advances(s.c, DNext(s, DExtract(throws, jobId, release, observerThrows)).c)
  {
    hide MakeHint, HintExpired;
  }

  lemma DExtractAdvances(s: State, throws: bool, jobId: nat, release: nat, observerThrows: bool)
    requires DEnabled(s.c, DExtract(throws, jobId, release, observerThrows)) && !s.c.spinning
    ensures Advances(s.c, DNext(s, DExtract(throws, jobId, release, observerThrows)).c)
  {
    hide DNext, Advances;
    if throws || jobId == 0 || release == 0 {
      DUndescribedAdvances(s, throws, jobId, release, observerThrows);
    } else {
      DDescribedAdvances(s, throws, jobId, release, observerThrows);
    }
  }

  lemma DCheckAdvances(s: State, clock: nat)
    requires DEnabled(s.c, DCheck(clock)) && !s.c.spinning
    ensures Advances(s.c, DNext(s, DCheck(clock)).c)
  {
    hide MakeHint, HintExpired;
    if Rejects(s.c.current, clock) { } else { }
  }

  lemma DDropAdvances(s: State, throws: bool)
    requires DEnabled(s.c, DDrop(throws)) && !s.c.spinning
    ensures Advances(s.c, DNext(s, DDrop(throws)).c)
  {
    hide MakeHint, HintExpired;
    if s.c.current.observer && throws { } else { }
  }

  lemma DPublishAdvances(s: State, throws: bool)
    requires DEnabled(s.c, DPublish(throws)) && !s.c.spinning
    ensures Advances(s.c, DNext(s, DPublish(throws)).c)
  {
    hide MakeHint, HintExpired;
    if throws { } else { }
  }

  lemma DUnwindAdvances(s: State)
    requires DEnabled(s.c, DUnwind) && !s.c.spinning
    ensures Advances(s.c, DNext(s, DUnwind).c)
  {
    hide MakeHint, HintExpired;
  }

  lemma DFinishAdvances(s: State, throws: bool)
    requires DEnabled(s.c, DFinish(throws)) && !s.c.spinning
    ensures Advances(s.c, DNext(s, DFinish(throws)).c) || DNext(s, DFinish(throws)).c == s.c.(dSleeping := true)
  {
    hide MakeHint, HintExpired;
    if !DGuard(s.c) { } else if !s.c.needsClear { } else if throws { } else { }
  }

  lemma DHandoffUses(s: State)
    requires DEnabled(s.c, DHandoff) && !s.c.spinning
    ensures Uses(s.c, DNext(s, DHandoff).c, DHandoff)
  {
  }

  lemma DNotifyUses(s: State)
    requires DEnabled(s.c, DNotify) && !s.c.spinning
    ensures Uses(s.c, DNext(s, DNotify).c, DNotify)
  {
  }

  lemma PlainDispatcherUses(s: State, a: Action)
    requires DEnabled(s.c, a) && !s.c.spinning
    requires a.DSpurious? || a.DContext? || a.DSelectNothing? || a.DSelectThrows? || a.DLeave? || a.DJoin?
    ensures Uses(s.c, DNext(s, a).c, a)
  {
    hide DWaitStep, DSelectStep, DPrepareStep, DTakeStep, DExtractStep, DCheckStep, DDropStep, DPublishStep;
    hide DHandoffStep, DFinishStep, DDispose, NotifyAll;
  }

  lemma DispatcherUses(s: State, a: Action)
    requires DEnabled(s.c, a) && !s.c.spinning
    ensures Uses(s.c, DNext(s, a).c, a)
  {
    hide DNext, Uses, Advances;
    match a {
      case DWait => DWaitAdvances(s);
      case DSelect(binding, subscription, rosMessage) => DSelectAdvances(s, binding, subscription, rosMessage);
      case DPrepare(throws, clock) => DPrepareAdvances(s, throws, clock);
      case DTake(outcome) => DTakeAdvances(s, outcome);
      case DExtract(throws, jobId, release, observerThrows) =>
        DExtractAdvances(s, throws, jobId, release, observerThrows);
      case DCheck(clock) => DCheckAdvances(s, clock);
      case DDrop(throws) => DDropAdvances(s, throws);
      case DPublish(throws) => DPublishAdvances(s, throws);
      case DUnwind => DUnwindAdvances(s);
      case DFinish(throws) => DFinishAdvances(s, throws);
      case DHandoff => DHandoffUses(s);
      case DNotify => DNotifyUses(s);
      case _ => PlainDispatcherUses(s, a);
    }
    if Productive(a) {
      if Advances(s.c, DNext(s, a).c) {
        AdvancesUses(s.c, DNext(s, a).c, a);
      } else if a.DWait? || a.DFinish? {
        DispatcherSleepUses(s.c, a);
      }
    }
  }

  lemma WWaitAdvances(s: State)
    requires WEnabled(s.c, WWait) && !s.c.spinning
    ensures WorkerAdvances(s.c, WNext(s, WWait).c) || WNext(s, WWait).c == s.c.(wSleeping := true) ||
            (s.c.pending.Some? && WNext(s, WWait).c == s.c.(pending := None, job := s.c.pending.value, w := Start))
  {
    hide MakeHint, HintExpired;
    match s.c.pending
    case Some(work) =>
    case None => if s.c.stop { } else { }
  }

  lemma WStartAdvances(s: State, clock: nat)
    requires WEnabled(s.c, WStart(clock)) && !s.c.spinning
    ensures WorkerAdvances(s.c, WNext(s, WStart(clock)).c)
  {
    hide MakeHint, HintExpired;
    if s.c.job.message && Rejects(s.c.job, clock) { } else { }
  }

  lemma WDropAdvances(s: State, throws: bool)
    requires WEnabled(s.c, WDrop(throws)) && !s.c.spinning
    ensures WorkerAdvances(s.c, WNext(s, WDrop(throws)).c)
  {
    hide MakeHint, HintExpired;
    if s.c.job.observer && throws { } else { }
  }

  lemma WReturnAdvances(s: State)
    requires WEnabled(s.c, WReturn) && !s.c.spinning
    ensures WorkerAdvances(s.c, WNext(s, WReturn).c)
  {
    hide MakeHint, HintExpired;
  }

  lemma WThrowAdvances(s: State)
    requires WEnabled(s.c, WThrow) && !s.c.spinning
    ensures WorkerAdvances(s.c, WNext(s, WThrow).c)
  {
    hide MakeHint, HintExpired;
    if s.c.job.message { } else { }
  }

  lemma WCleanupAdvances(s: State)
    requires WEnabled(s.c, WCleanup) && !s.c.spinning
    ensures WorkerAdvances(s.c, WNext(s, WCleanup).c)
  {
    hide MakeHint, HintExpired;
  }

  lemma WClearAdvances(s: State, throws: bool)
    requires WEnabled(s.c, WClear(throws)) && !s.c.spinning
    ensures WorkerAdvances(s.c, WNext(s, WClear(throws)).c)
  {
    hide MakeHint, HintExpired;
    if throws { } else { }
  }

  lemma WNotifyUses(s: State)
    requires WEnabled(s.c, WNotify) && !s.c.spinning
    ensures Uses(s.c, WNext(s, WNotify).c, WNotify)
  {
  }

  lemma WParkUses(s: State)
    requires WEnabled(s.c, WPark) && !s.c.spinning
    ensures Uses(s.c, WNext(s, WPark).c, WPark)
  {
  }

  lemma WFailUses(s: State)
    requires WEnabled(s.c, WFail) && !s.c.spinning
    ensures Uses(s.c, WNext(s, WFail).c, WFail)
  {
  }

  lemma PlainWorkerUses(s: State, a: Action)
    requires WEnabled(s.c, a) && !s.c.spinning
    requires a.WConfigure? || a.WReady? || a.WSpurious? || a.WFlag? || a.WCancel?
    ensures Uses(s.c, WNext(s, a).c, a)
  {
    hide WWaitStep, WStartStep, WDropStep, WReturnStep, WThrowStep, WClearStep, WDispose, WFailStep, NotifyAll;
  }

  lemma TakingUses(c: Shared, a: Action)
    requires !c.spinning && Productive(a) && c.pending.Some? && c.w.Parked?
    ensures Uses(c, c.(pending := None, job := c.pending.value, w := Start), a)
  {
  }

  lemma WorkerUses(s: State, a: Action)
    requires WEnabled(s.c, a) && !s.c.spinning
    ensures Uses(s.c, WNext(s, a).c, a)
  {
    hide WNext, Uses, WorkerAdvances;
    match a {
      case WWait => WWaitAdvances(s);
      case WStart(clock) => WStartAdvances(s, clock);
      case WDrop(throws) => WDropAdvances(s, throws);
      case WReturn => WReturnAdvances(s);
      case WThrow => WThrowAdvances(s);
      case WCleanup => WCleanupAdvances(s);
      case WClear(throws) => WClearAdvances(s, throws);
      case WNotify => WNotifyUses(s);
      case WPark => WParkUses(s);
      case WFail => WFailUses(s);
      case _ => PlainWorkerUses(s, a);
    }
    if Productive(a) {
      if WorkerAdvances(s.c, WNext(s, a).c) {
        AdvancesUses(s.c, WNext(s, a).c, a);
      } else if a.WWait? && s.c.pending.Some? {
        TakingUses(s.c, a);
        WorkerSleepUses(s.c, a);
      } else if a.WWait? {
        WorkerSleepUses(s.c, a);
      }
    }
  }

  /** Once `spinning` is false it stays so, and every action uses up what is left. */
  lemma NextUses(s: State, a: Action)
    requires Enabled(s.c, a) && !s.c.spinning
    ensures Uses(s.c, Next(s, a).c, a)
  {
    hide DNext, WNext, ActionsLeft;
    if DEnabled(s.c, a) {
      DispatcherUses(s, a);
    } else if WEnabled(s.c, a) {
      WorkerUses(s, a);
    } else {
      assert Next(s, a).c == s.c;
    }
  }

  /** The number of productive actions, and of others, in a sequence. */
  function CountProductive(actions: seq<Action>, productive: bool): nat {
    if actions == [] then 0
    else
      var n := |actions| - 1;
      CountProductive(actions[..n], productive) + Bit(Productive(actions[n]) == productive)
  }

  /** `actions` can be taken one after the other from `s`. */
  predicate CanTake(s: State, actions: seq<Action>)
    decreases |actions|, 0
  {
    actions == [] ||
    (var n := |actions| - 1; CanTake(s, actions[..n]) && Enabled(From(s, actions[..n]).c, actions[n]))
  }

  function From(s: State, actions: seq<Action>): State
    requires CanTake(s, actions)
    decreases |actions|, 1
  {
    if actions == [] then s else Next(From(s, actions[..|actions| - 1]), actions[|actions| - 1])
  }

  /** A cancelled spin ends: however the threads go on from a state with `spinning` false, they take at
      most `ActionsLeft` productive actions, plus one for each spurious wake-up; and until the dispatcher
      is done some thread has a productive action (`NeverStuck`). */
  lemma {:induction false} CancelledSpinEnds(s: State, actions: seq<Action>)
    requires !s.c.spinning && CanTake(s, actions)
    ensures !From(s, actions).c.spinning
    ensures CountProductive(actions, true) + ActionsLeft(From(s, actions).c) <=
            ActionsLeft(s.c) + CountProductive(actions, false)
    decreases |actions|
  {
    hide Next, Enabled, ActionsLeft, Productive;
    if actions != [] {
      var n := |actions| - 1;
      CancelledSpinEnds(s, actions[..n]);
      NextUses(From(s, actions[..n]), actions[n]);
    }
  }

  lemma {:induction false} FromReachable(s: State, actions: seq<Action>)
    requires Reachable(s) && CanTake(s, actions)
    ensures Reachable(From(s, actions))
    decreases |actions|
  {
    hide Reachable, Next, Enabled;
    if actions != [] {
      var n := |actions| - 1;
      FromReachable(s, actions[..n]);
      StepReachable(From(s, actions[..n]), actions[n]);
    }
  }

  /** ... so a run that no thread can carry on has ended with the dispatcher done. */
  lemma {:induction false} StoppedRunIsDone(s: State, actions: seq<Action>)
    requires Reachable(s) && CanTake(s, actions)
    requires forall a :: Productive(a) ==> !Enabled(From(s, actions).c, a)
    ensures From(s, actions).c.d.Done?
  {
    hide Reachable, CanTake, From, Enabled, Productive;
    FromReachable(s, actions);
    if !From(s, actions).c.d.Done? {
      NeverStuck(From(s, actions));
    }
  }
}
