/** The guarantees of `FreshnessExecutor::spin`, over all interleavings of dispatcher and worker. */
module ExecutorTheorems {
  import opened Options
  import opened Bits
  import opened Executor
  import opened ExecutorProofs
  import opened ExecutorSteps

  lemma CancelKeepsInv(s: State, id: nat)
    requires Inv(s, id)
    ensures Inv(s.(c := s.c.(spinning := false)), id)
  {
  }

  lemma StepKeepsInv(s: State, id: nat, a: Action)
    requires Inv(s, id) && Enabled(s.c, a)
    ensures Inv(Next(s, a), id)
  {
    hide Inv, DNext, WNext;
    if DEnabled(s.c, a) {
      DispatcherKeepsInv(s, id, a);
    } else if WEnabled(s.c, a) {
      WorkerKeepsInv(s, id, a);
    } else {
      CancelKeepsInv(s, id);
    }
  }

  lemma {:induction false} RunKeepsInv(actions: seq<Action>, id: nat)
    requires IsRun(actions)
    ensures Inv(After(actions), id)
    decreases |actions|
  {
    if actions != [] {
      RunKeepsInv(actions[..|actions| - 1], id);
      StepKeepsInv(After(actions[..|actions| - 1]), id, actions[|actions| - 1]);
    }
  }

  lemma ReachableInv(s: State, id: nat)
    requires Reachable(s)
    ensures Inv(s, id)
  {
    var actions :| IsRun(actions) && After(actions) == s;
    RunKeepsInv(actions, id);
  }

  // ---------------------------------------------------------------- hint ownership

  /** The last handed-over item is waiting for the worker, being worked on, or finished by a worker that
      has yet to park again. */
  predicate InCustody(s: State) {
    s.log.handed != [] && (s.c.pending.Some? || Working(s.c.w) || s.c.w.Park?)
  }

  /** From its handoff until the worker has parked again, an item keeps the worker's hint slot: no action
      of either thread publishes, clears or hands over in between, up to and including the one that parks
      the worker, except the worker's own clear, which is only possible once the item's message and
      callback group have been given back. Only these two actions end its custody. */
  lemma HintOwnership(s: State, a: Action)
    requires Reachable(s) && Enabled(s.c, a) && InCustody(s)
    ensures var s', item := Next(s, a), LastHanded(s);
            && s.c.slot == Some(item.hint)
            && (Owner(s.c) == Some(item) || (s.c.w.Park? && s.log.finished == s.log.handed))
            && s'.log.handed == s.log.handed
            && if a.WClear? then s.c.w.ClearHint? && OwnsNothing(s.c.job)
               else && s'.c.slot == s.c.slot && s'.log.sink == s.log.sink
                    && if a.WPark? then s'.c.w.Parked? && s'.c.idle else InCustody(s')
  {
    hide Inv, DNext, WNext, Owner;
    ReachableInv(s, 0);
    CustodyKeepsHint(s);
    if DEnabled(s.c, a) {
      DispatcherLeavesCustody(s, a);
    } else if WEnabled(s.c, a) {
      WorkerKeepsSlot(s, a);
    }
  }

  lemma CustodyKeepsHint(s: State)
    requires Inv(s, 0) && InCustody(s)
    ensures s.c.slot == Some(LastHanded(s).hint)
    ensures Owner(s.c) == Some(LastHanded(s)) || (s.c.w.Park? && s.log.finished == s.log.handed)
  {
  }

  lemma DispatcherLeavesCustody(s: State, a: Action)
    requires Inv(s, 0) && DEnabled(s.c, a) && InCustody(s)
    ensures var s' := DNext(s, a);
            && s'.c.slot == s.c.slot && s'.log == s.log && s'.c.pending == s.c.pending && s'.c.w == s.c.w
  {
    hide DSelectStep, DPrepareStep, DTakeStep, DExtractStep, DCheckStep, DDropStep, DPublishStep, DHandoffStep;
    hide DDispose;
    assert !InBody(s.c.d) && !s.c.idle && !s.c.error;
  }

  lemma WorkerKeepsSlot(s: State, a: Action)
    requires Inv(s, 0) && WEnabled(s.c, a) && InCustody(s)
    ensures var s' := WNext(s, a);
            && s'.log.handed == s.log.handed
            && if a.WClear? then s.c.w.ClearHint? && OwnsNothing(s.c.job)
               else && s'.c.slot == s.c.slot && s'.log.sink == s.log.sink
                    && if a.WPark? then s'.c.w.Parked? && s'.c.idle else InCustody(s')
  {
    var s' := WNext(s, a);
    match a
    case WWait => assert s.c.pending.Some?;
    case WStart(clock) => assert s'.c.w.DropLate? || s'.c.w.InCallback?;
    case WDrop(throws) => assert s'.c.w.Cleanup? || s'.c.w.Park?;
    case WReturn => assert s'.c.w.Park?;
    case WThrow => assert s'.c.w.Cleanup?;
    case WCleanup => assert s'.c.w.ClearHint?;
    case WClear(throws) => assert s'.c.w.ClearFlag? || s'.c.w.Fail?;
    case _ =>
  }

  /** The dispatcher publishes only over the hint of an item whose worker has parked. */
  lemma PublishFindsParkedWorker(s: State, a: Action)
    requires Reachable(s) && Enabled(s.c, a) && (a.DPublish? || a.DHandoff?)
    ensures var c := s.c;
            c.w.Parked? && c.idle && Owner(c).None? && !c.stop && !c.error
  {
    ReachableInv(s, 0);
    BodyFindsParkedWorker(s.c);
  }

  lemma BodyFindsParkedWorker(c: Shared)
    requires Control(c) && InBody(c.d)
    ensures c.w.Parked? && c.idle && Owner(c).None? && !c.stop && !c.error
  {
  }

  // ---------------------------------------------------------------- exactly-once resources

  /** In every reachable state a message has been returned at most once and has at most one owner, and
      when `spin` is over every created message was returned exactly once and every message-aware
      callback group was released exactly once, whatever path each of them took. */
  lemma ExactlyOnce(s: State, id: nat)
    requires Reachable(s)
    ensures && s.log.returned[id] + MessageOwners(s.c, id) == Bit(id in s.log.created)
            && s.log.released[id] + GroupOwners(s.c, id) == Bit(id in s.log.grabbed)
            && (s.c.d.Done? ==>
                  && s.log.returned[id] == Bit(id in s.log.created)
                  && s.log.released[id] == Bit(id in s.log.grabbed))
  {
    ReachableInv(s, id);
  }

  // ---------------------------------------------------------------- shutdown

  /** When `spin` is over, nothing that was handed over is lost and, if no sink call failed, the sink
      has seen the handed-over items in order followed by exactly one clear, or nothing at all. */
  lemma Shutdown(s: State)
    requires Reachable(s) && s.c.d.Done?
    ensures && s.log.finished == s.log.handed
            && s.c.pending.None?
            && (!s.log.sinkFailed ==>
                  && s.c.slot.None?
                  && s.log.sink == Publications(s.log.handed) + (if s.log.handed == [] then [] else [Cleared]))
  {
    ReachableInv(s, 0);
    assert s.c.idle && Owner(s.c).None?;
    if s.log.handed == [] {
      assert !Retired(s) && s.log.sink == s.log.sink + [];
    }
  }

  // ---------------------------------------------------------------- progress

  /** The dispatcher can only go on after some action of the worker. */
  predicate DispatcherBlocked(c: Shared) {
    c.dSleeping || (c.d.Join? && !c.w.ExitFailed? && !c.w.ExitStopped?)
  }

  /** One action the worker can take, other than waking up for no reason. */
  function WorkerChoice(c: Shared): Action {
    match c.w
    case Configure => WConfigure(false)
    case SetReady => WReady
    case NotifyReady => WNotify
    case Park => WPark
    case Parked => WWait
    case Start => WStart(c.now)
    case DropLate => WDrop(false)
    case InCallback => WReturn
    case Cleanup => WCleanup
    case ClearHint => WClear(false)
    case ClearFlag => WFlag
    case Fail => WFail
    case NotifyFail => WNotify
    case CancelSpin => WCancel
    case ExitFailed => WSpurious
    case ExitStopped => WSpurious
  }

  /** How far the worker can be from waking or releasing a blocked dispatcher. */
  function Distance(w: WorkerPc): nat {
    match w
    case Configure => 14
    case SetReady => 13
    case NotifyReady => 12
    case Parked => 11
    case Start => 10
    case DropLate => 9
    case InCallback => 9
    case Cleanup => 8
    case ClearHint => 7
    case ClearFlag => 6
    case Fail => 5
    case NotifyFail => 4
    case CancelSpin => 3
    case Park => 2
    case ExitFailed => 1
    case ExitStopped => 1
  }

  /** Whenever the dispatcher is blocked, the worker has an enabled action: it is neither asleep nor
      gone. In particular no wake-up is ever lost. */
  lemma BlockedDispatcherHasWorker(s: State)
    requires Reachable(s) && DispatcherBlocked(s.c)
    ensures var c := s.c;
            !c.wSleeping && WEnabled(c, WorkerChoice(c)) && !WorkerChoice(c).WSpurious?
  {
    ReachableInv(s, 0);
    var c := s.c;
    if c.dSleeping && c.w.Parked? {
      assert c.ready && !c.d.NotifyHandoff? && !c.d.NotifyStop?;
    }
  }

  /** ... and every such action either unblocks the dispatcher or brings the worker strictly closer to
      doing so, whatever the sink, the observer and the callback do: at most thirteen worker actions
      stand between a blocked dispatcher and its wake-up. */
  lemma WorkerUnblocksDispatcher(s: State, a: Action)
    requires Reachable(s) && DispatcherBlocked(s.c)
    requires WEnabled(s.c, a) && !a.WSpurious?
    ensures var c' := Next(s, a).c;
            !DispatcherBlocked(c') || Distance(c'.w) < Distance(s.c.w)
  {
    ReachableInv(s, 0);
    BlockedDispatcherHasWorker(s);
    CloserToUnblocking(s, a);
  }

  lemma CloserToUnblocking(s: State, a: Action)
    requires Inv(s, 0) && DispatcherBlocked(s.c) && WEnabled(s.c, a) && !a.WSpurious?
    ensures !DispatcherBlocked(WNext(s, a).c) || Distance(WNext(s, a).c.w) < Distance(s.c.w)
  {
    hide Slot, Retirement, History, Resources, Admission, HintExpired, MessageOf, GroupOf;
    var s' := WNext(s, a);
    match a
    case WWait => assert s.c.pending.Some? || s.c.stop;
    case WStart(clock) => assert s'.c.w.DropLate? || s'.c.w.InCallback?;
    case WDrop(throws) => assert s'.c.w.Cleanup? || s'.c.w.Park?;
    case WReturn => assert s'.c.w.Park?;
    case WThrow => assert s'.c.w.Cleanup?;
    case WClear(throws) => assert s'.c.w.ClearFlag? || s'.c.w.Fail?;
    case _ =>
  }

  // ---------------------------------------------------------------- admission

  /** Every observed selection is accounted for in every reachable state: its callback was entered, it
      was dropped before starting, an exception aborted it, or it is the single outstanding item. An
      abort happens at most once, and only in a `spin` that ends by rethrowing. */
  lemma AdmissionBalance(s: State)
    requires Reachable(s)
    ensures && s.log.selected == s.log.entered + s.log.dropped + s.log.aborted + Outstanding(s.c)
            && Outstanding(s.c) <= 1
            && s.log.aborted <= 1
            && (s.c.d.Done? ==> Outstanding(s.c) == 0 && (s.log.aborted == 1 ==> s.c.dispatchError))
  {
    ReachableInv(s, 0);
    OneOutstanding(s.c);
  }

  lemma OneOutstanding(c: Shared)
    requires Control(c)
    ensures Outstanding(c) <= 1
    ensures c.d.Done? ==> Outstanding(c) == 0
  {
  }

  /** At the worker's check, on every run: the callback is entered exactly when the work does not both
      ask to reject expired messages and lie past its deadline or stale bound at that instant; the code's
      further condition, that the work still owns a message, never decides. */
  lemma NoLateEntry(s: State, clock: nat)
    requires Reachable(s) && WEnabled(s.c, WStart(clock))
    ensures var s' := WNext(s, WStart(clock));
            if s.c.job.reject && HintExpired(s.c.job.hint, clock)
            then s'.c.w.DropLate? && s'.log == s.log
            else s'.c.w.InCallback? && s'.log == s.log.(entered := s.log.entered + Observed(s.c.job))
  {
    hide HintExpired;
    ReachableInv(s, 0);
    StartOwnsMessage(s);
  }

  lemma StartOwnsMessage(s: State)
    requires Inv(s, 0) && s.c.w.Start?
    ensures s.c.job.reject ==> s.c.job.message
  {
  }

  /** Expiry never un-happens: work the dispatcher rejects at one instant would be rejected by the
      worker's own check at every later instant. */
  lemma RejectionIsMonotone(work: Work, now: nat, later: nat)
    requires Rejects(work, now) && now <= later
    ensures Rejects(work, later)
  {
  }

  // ---------------------------------------------------------------- a complete run

  lemma InitReachable()
    ensures Reachable(INIT)
  {
    assert IsRun([]) && After([]) == INIT;
  }

  lemma StepReachable(s: State, a: Action)
    requires Reachable(s) && Enabled(s.c, a)
    ensures Reachable(Next(s, a))
  {
    hide Enabled, Next;
    var actions :| IsRun(actions) && After(actions) == s;
    var longer := actions + [a];
    assert longer[..|actions|] == actions;
    assert IsRun(longer) && After(longer) == Next(s, a);
  }

  lemma DStepReachable(s: State, a: Action)
    requires Reachable(s) && DEnabled(s.c, a)
    ensures Reachable(DNext(s, a))
  {
    hide Reachable, DNext;
    StepReachable(s, a);
  }

  lemma WStepReachable(s: State, a: Action)
    requires Reachable(s) && WEnabled(s.c, a) && !DEnabled(s.c, a)
    ensures Reachable(WNext(s, a))
  {
    hide Reachable, WNext;
    StepReachable(s, a);
  }

  /** The worker has started and parked; the dispatcher is about to select. */
  lemma Started() returns (s: State)
    ensures Reachable(s) && s.log == INIT.log
    ensures s.c == INIT.c.(d := Select, w := Parked, ready := true, idle := true)
  {
    hide Reachable;
    InitReachable();
    s := INIT;
    WStepReachable(s, WConfigure(false));
    s := WNext(s, WConfigure(false));
    WStepReachable(s, WReady);
    s := WNext(s, WReady);
    WStepReachable(s, WNotify);
    s := WNext(s, WNotify);
    WStepReachable(s, WPark);
    s := WNext(s, WPark);
    DStepReachable(s, DWait);
    s := DNext(s, DWait);
    DStepReachable(s, DContext(true));
    s := DNext(s, DContext(true));
    DStepReachable(s, DWait);
    s := DNext(s, DWait);
  }

  /** The work of a message-aware subscription whose message was taken and described. */
  function TakenWork(b: Binding, jobId: nat, release: nat): Work
    requires release <= U64_MAX
  {
    Work(0, MakeHint(b.profile, jobId, release), true, true, true, b.observer, b.profile.rejectExpired)
  }

  /** ... it selects a message-aware subscription, takes its message and describes it. */
  lemma Selected(b: Binding, jobId: nat, release: nat) returns (s: State)
    requires b.aware && 0 < jobId && 0 < release <= U64_MAX
    ensures Reachable(s) && s.c.d.Check? && s.c.current == TakenWork(b, jobId, release)
    ensures s.c == INIT.c.(d := Check, w := Parked, ready := true, idle := true, current := s.c.current,
                           binding := b, rosMessage := true, nextId := 1)
    ensures s.log == INIT.log.(grabbed := {0}, created := {0}, selected := Observed(s.c.current))
  {
    hide Reachable, MakeHint;
    s := Started();
    DStepReachable(s, DSelect(b, true, true));
    s := DNext(s, DSelect(b, true, true));
    DStepReachable(s, DPrepare(false, 0));
    s := DNext(s, DPrepare(false, 0));
    DStepReachable(s, DTake(Taken));
    s := DNext(s, DTake(Taken));
    DStepReachable(s, DExtract(false, jobId, release, false));
    s := DNext(s, DExtract(false, jobId, release, false));
  }

  /** ... and, finding it fresh, publishes its hint and hands it over. */
  lemma HandedOver(b: Binding, jobId: nat, release: nat, now: nat) returns (s: State)
    requires b.aware && 0 < jobId && 0 < release <= U64_MAX
    requires now <= U64_MAX && !Rejects(TakenWork(b, jobId, release), now)
    ensures var work := TakenWork(b, jobId, release);
            && Reachable(s)
            && s.c == INIT.c.(now := now, d := LoopHead, w := Parked, ready := true, needsClear := true,
                              pending := Some(work), slot := Some(work.hint), current := MovedFrom(work),
                              binding := b, rosMessage := true, nextId := 1)
            && s.log == INIT.log.(grabbed := {0}, created := {0}, selected := Observed(work),
                                  sink := [Published(ItemOf(work))], handed := [ItemOf(work)])
  {
    hide Reachable, MakeHint, HintExpired;
    s := Selected(b, jobId, release);
    DStepReachable(s, DCheck(now));
    s := DNext(s, DCheck(now));
    DStepReachable(s, DPublish(false));
    s := DNext(s, DPublish(false));
    DStepReachable(s, DHandoff);
    s := DNext(s, DHandoff);
    DStepReachable(s, DNotify);
    s := DNext(s, DNotify);
  }

  /** ... the worker runs the callback and parks. */
  lemma Executed(b: Binding, jobId: nat, release: nat, now: nat) returns (s: State)
    requires b.aware && 0 < jobId && 0 < release <= U64_MAX
    requires now <= U64_MAX && !Rejects(TakenWork(b, jobId, release), now)
    ensures var work := TakenWork(b, jobId, release);
            && Reachable(s)
            && s.c == INIT.c.(now := now, d := LoopHead, w := Parked, ready := true, needsClear := true,
                              idle := true, job := Emptied(work), slot := Some(work.hint),
                              current := MovedFrom(work), binding := b, rosMessage := true, nextId := 1)
            && s.log == INIT.log.(grabbed := {0}, created := {0}, selected := Observed(work), entered := Observed(work),
                                  returned := multiset{0}, released := multiset{0}, finished := [ItemOf(work)],
                                  sink := [Published(ItemOf(work))], handed := [ItemOf(work)])
  {
    hide Reachable, MakeHint, HintExpired;
    s := HandedOver(b, jobId, release, now);
    WStepReachable(s, WWait);
    s := WNext(s, WWait);
    WStepReachable(s, WStart(now));
    s := WNext(s, WStart(now));
    WStepReachable(s, WReturn);
    s := WNext(s, WReturn);
    WStepReachable(s, WPark);
    s := WNext(s, WPark);
  }

  /** For every message that is fresh when checked there is a run in which `spin` executes it and ends: the
      message and the group come back once, and the sink sees its hint and then the clear. */
  lemma SpinCanComplete(b: Binding, jobId: nat, release: nat, now: nat) returns (s: State)
    requires b.aware && 0 < jobId && 0 < release <= U64_MAX
    requires now <= U64_MAX && !Rejects(TakenWork(b, jobId, release), now)
    ensures var item := Item(0, MakeHint(b.profile, jobId, release));
            && Reachable(s) && s.c.d.Done? && !s.c.dispatchError && !s.c.error
            && s.log.handed == s.log.finished == [item] && s.log.sink == [Published(item), Cleared]
            && s.log.returned == s.log.released == multiset{0}
            && s.log.selected == s.log.entered == if b.observer then 1 else 0
  {
    hide Reachable, MakeHint, HintExpired;
    s := Executed(b, jobId, release, now);
    DStepReachable(s, DContext(false));
    s := DNext(s, DContext(false));
    DStepReachable(s, DLeave);
    s := DNext(s, DLeave);
    DStepReachable(s, DFinish(false));
    s := DNext(s, DFinish(false));
    DStepReachable(s, DNotify);
    s := DNext(s, DNotify);
    WStepReachable(s, WWait);
    s := WNext(s, WWait);
    DStepReachable(s, DJoin);
    s := DNext(s, DJoin);
  }
}
