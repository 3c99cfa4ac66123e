/** Each action of the protocol keeps the invariant `ExecutorProofs.Inv`. */
module ExecutorSteps {
  import opened Bits
  import opened Options
  import opened Executor
  import opened ExecutorProofs

  // ---------------------------------------------------------------- what changes hands

  predicate SameResources(log: Log, log': Log) {
    && log'.created == log.created && log'.grabbed == log.grabbed
    && log'.returned == log.returned && log'.released == log.released
  }

  /** The worker's own object must be empty by now. */
  predicate JobEmpty(w: WorkerPc) {
    !Working(w) || w.ClearHint?
  }

  lemma NothingChangesHands(s: State, s': State, id: nat)
    requires Resources(s, id) && SameResources(s.log, s'.log)
    requires s'.c.current == s.c.current && s'.c.pending == s.c.pending && s'.c.job == s.c.job
    requires s'.c.nextId == s.c.nextId && (s'.c.d.Prepare? ==> s.c.d.Prepare?)
    requires Preparing(s'.c.d) == Preparing(s.c.d) && JobEmpty(s'.c.w) == JobEmpty(s.c.w)
    ensures Resources(s', id)
  {
  }

  /** The dispatcher's object gives back what it owns. */
  lemma DisposeCurrent(s: State, s': State, id: nat)
    requires Resources(s, id) && s'.c.current == Emptied(s.c.current)
    requires SameResources(ReturnAndRelease(s.log, s.c.current), s'.log)
    requires s'.c.pending == s.c.pending && s'.c.job == s.c.job && s'.c.nextId == s.c.nextId
    requires !Preparing(s'.c.d) && s'.c.w == s.c.w
    ensures Resources(s', id)
  {
    assert OwnsNothing(s'.c.current);
    assert MessageOf(s.c.current)[id] == Bit(OwnsMessage(s.c.current, id));
    assert GroupOf(s.c.current)[id] == Bit(OwnsGroup(s.c.current, id));
  }

  /** The worker's object gives back what it owns. */
  lemma DisposeJob(s: State, s': State, id: nat)
    requires Resources(s, id) && s'.c.job == Emptied(s.c.job)
    requires SameResources(ReturnAndRelease(s.log, s.c.job), s'.log)
    requires s'.c.pending == s.c.pending && s'.c.current == s.c.current && s'.c.nextId == s.c.nextId
    requires s'.c.d == s.c.d
    ensures Resources(s', id)
  {
    assert OwnsNothing(s'.c.job);
    assert MessageOf(s.c.job)[id] == Bit(OwnsMessage(s.c.job, id));
    assert GroupOf(s.c.job)[id] == Bit(OwnsGroup(s.c.job, id));
  }

  lemma DExtractKeepsAdmission(s: State, throws: bool, jobId: nat, release: nat, observerThrows: bool)
    requires Control(s.c) && Admission(s) && DEnabled(s.c, DExtract(throws, jobId, release, observerThrows))
    ensures Admission(DNext(s, DExtract(throws, jobId, release, observerThrows)))
  {
    hide MakeHint;
    assert Outstanding(s.c) == 0 && s.c.pending.None? && s.c.w.Parked?;
    var s' := DNext(s, DExtract(throws, jobId, release, observerThrows));
    if throws || jobId == 0 || release == 0 { assert s'.c.d.Unwind?; }
    else if s.c.binding.observer && observerThrows { assert s'.c.d.Unwind?; }
    else { assert s'.c.d.Check?; }
  }

  // ---------------------------------------------------------------- one lemma per action

  lemma DWaitKeepsProtocol(s: State)
    requires Protocol(s) && DEnabled(s.c, DWait)
    ensures Protocol(DNext(s, DWait))
  {
    hide Publications, MessageOf, GroupOf, MakeHint, HintExpired;
    var s' := DNext(s, DWait);
    if !DGuard(s.c) { assert s'.c.d == s.c.d; }
    else if s.c.error { assert s'.c.d.Leave?; }
    else if s.c.d.WaitReady? { assert s'.c.d.LoopHead?; }
    else if !s.c.spinning { assert s'.c.d.Leave?; }
    else { assert s'.c.d.Select?; }
  }

  lemma KeepDWait(s: State, id: nat)
    requires Inv(s, id) && DEnabled(s.c, DWait)
    ensures Inv(DNext(s, DWait), id)
  {
    hide Control, Slot, Wakeups, Retirement, History, MakeHint, HintExpired, Resources;
    DWaitKeepsProtocol(s);
    var s' := DNext(s, DWait);
    if !DGuard(s.c) { assert s'.c.d == s.c.d; }
    else if s.c.error { assert s'.c.d.Leave?; }
    else if s.c.d.WaitReady? { assert s'.c.d.LoopHead?; }
    else if !s.c.spinning { assert s'.c.d.Leave?; }
    else { assert s'.c.d.Select?; }
    NothingChangesHands(s, s', id);
  }

  lemma DSpuriousKeepsProtocol(s: State)
    requires Protocol(s) && DEnabled(s.c, DSpurious)
    ensures Protocol(DNext(s, DSpurious))
  {
    hide Publications, MessageOf, GroupOf, MakeHint, HintExpired;
  }

  lemma KeepDSpurious(s: State, id: nat)
    requires Inv(s, id) && DEnabled(s.c, DSpurious)
    ensures Inv(DNext(s, DSpurious), id)
  {
    hide Control, Slot, Wakeups, Retirement, History, MakeHint, HintExpired, Resources;
    DSpuriousKeepsProtocol(s);
    var s' := DNext(s, DSpurious);
    NothingChangesHands(s, s', id);
  }

  lemma DContextKeepsProtocol(s: State, ok: bool)
    requires Protocol(s) && DEnabled(s.c, DContext(ok))
    ensures Protocol(DNext(s, DContext(ok)))
  {
    hide Publications, MessageOf, GroupOf, MakeHint, HintExpired;
  }

  lemma KeepDContext(s: State, id: nat, ok: bool)
    requires Inv(s, id) && DEnabled(s.c, DContext(ok))
    ensures Inv(DNext(s, DContext(ok)), id)
  {
    hide Control, Slot, Wakeups, Retirement, History, MakeHint, HintExpired, Resources;
    DContextKeepsProtocol(s, ok);
    var s' := DNext(s, DContext(ok));
    NothingChangesHands(s, s', id);
  }

  lemma DSelectNothingKeepsProtocol(s: State)
    requires Protocol(s) && DEnabled(s.c, DSelectNothing)
    ensures Protocol(DNext(s, DSelectNothing))
  {
    hide Publications, MessageOf, GroupOf, MakeHint, HintExpired;
  }

  lemma KeepDSelectNothing(s: State, id: nat)
    requires Inv(s, id) && DEnabled(s.c, DSelectNothing)
    ensures Inv(DNext(s, DSelectNothing), id)
  {
    hide Control, Slot, Wakeups, Retirement, History, MakeHint, HintExpired, Resources;
    DSelectNothingKeepsProtocol(s);
    var s' := DNext(s, DSelectNothing);
    NothingChangesHands(s, s', id);
  }

  lemma DSelectThrowsKeepsProtocol(s: State)
    requires Protocol(s) && DEnabled(s.c, DSelectThrows)
    ensures Protocol(DNext(s, DSelectThrows))
  {
    hide Publications, MessageOf, GroupOf, MakeHint, HintExpired;
  }

  lemma KeepDSelectThrows(s: State, id: nat)
    requires Inv(s, id) && DEnabled(s.c, DSelectThrows)
    ensures Inv(DNext(s, DSelectThrows), id)
  {
    hide Control, Slot, Wakeups, Retirement, History, MakeHint, HintExpired, Resources;
    DSelectThrowsKeepsProtocol(s);
    var s' := DNext(s, DSelectThrows);
    NothingChangesHands(s, s', id);
  }

  lemma DSelectKeepsProtocol(s: State, binding: Binding, subscription: bool, rosMessage: bool)
    requires Protocol(s) && DEnabled(s.c, DSelect(binding, subscription, rosMessage))
    ensures Protocol(DNext(s, DSelect(binding, subscription, rosMessage)))
  {
    hide Publications, MessageOf, GroupOf, MakeHint, HintExpired;
  }

  lemma KeepDSelect(s: State, id: nat, binding: Binding, subscription: bool, rosMessage: bool)
    requires Inv(s, id) && DEnabled(s.c, DSelect(binding, subscription, rosMessage))
    ensures Inv(DNext(s, DSelect(binding, subscription, rosMessage)), id)
  {
    hide Slot, Wakeups, Retirement, History, MakeHint, HintExpired;
    DSelectKeepsProtocol(s, binding, subscription, rosMessage);
  }

  lemma DPrepareKeepsProtocol(s: State, throws: bool, clock: nat)
    requires Protocol(s) && DEnabled(s.c, DPrepare(throws, clock))
    ensures Protocol(DNext(s, DPrepare(throws, clock)))
  {
    hide Publications, MessageOf, GroupOf, MakeHint, HintExpired;
    var s' := DNext(s, DPrepare(throws, clock));
    if !s.c.binding.aware { assert s'.c.d.Publish?; }
    else if !s.c.current.subscription || !s.c.rosMessage || throws { assert s'.c.d.Unwind?; }
    else { assert s'.c.d.Take?; }
  }

  lemma KeepDPrepare(s: State, id: nat, throws: bool, clock: nat)
    requires Inv(s, id) && DEnabled(s.c, DPrepare(throws, clock))
    ensures Inv(DNext(s, DPrepare(throws, clock)), id)
  {
    hide Control, Slot, Wakeups, Retirement, History, MakeHint, HintExpired;
    DPrepareKeepsProtocol(s, throws, clock);
    var s' := DNext(s, DPrepare(throws, clock));
    if !s.c.binding.aware { assert s'.c.d.Publish?; }
    else if !s.c.current.subscription || !s.c.rosMessage || throws { assert s'.c.d.Unwind?; }
    else { assert s'.c.d.Take?; }
  }

  lemma DTakeKeepsProtocol(s: State, outcome: TakeOutcome)
    requires Protocol(s) && DEnabled(s.c, DTake(outcome))
    ensures Protocol(DNext(s, DTake(outcome)))
  {
    hide Publications, MessageOf, GroupOf, MakeHint, HintExpired;
  }

  lemma KeepDTake(s: State, id: nat, outcome: TakeOutcome)
    requires Inv(s, id) && DEnabled(s.c, DTake(outcome))
    ensures Inv(DNext(s, DTake(outcome)), id)
  {
    hide Control, Slot, Wakeups, Retirement, History, MakeHint, HintExpired, Resources;
    DTakeKeepsProtocol(s, outcome);
    var s' := DNext(s, DTake(outcome));
    if outcome.NothingTaken? {
      DisposeCurrent(s, s', id);
    } else {
      NothingChangesHands(s, s', id);
    }
  }

  lemma DExtractKeepsProtocol(s: State, throws: bool, jobId: nat, release: nat, observerThrows: bool)
    requires Protocol(s) && DEnabled(s.c, DExtract(throws, jobId, release, observerThrows))
    ensures Protocol(DNext(s, DExtract(throws, jobId, release, observerThrows)))
  {
    hide Publications, MessageOf, GroupOf, MakeHint, HintExpired;
    var s' := DNext(s, DExtract(throws, jobId, release, observerThrows));
    if throws || jobId == 0 || release == 0 { assert s'.c.d.Unwind?; }
    else if s.c.binding.observer && observerThrows { assert s'.c.d.Unwind?; }
    else { assert s'.c.d.Check?; }
  }

  lemma KeepDExtract(s: State, id: nat, throws: bool, jobId: nat, release: nat, observerThrows: bool)
    requires Inv(s, id) && DEnabled(s.c, DExtract(throws, jobId, release, observerThrows))
    ensures Inv(DNext(s, DExtract(throws, jobId, release, observerThrows)), id)
  {
    hide Control, Slot, Wakeups, Retirement, History, MakeHint, HintExpired, Admission;
    DExtractKeepsProtocol(s, throws, jobId, release, observerThrows);
    var s' := DNext(s, DExtract(throws, jobId, release, observerThrows));
    if throws || jobId == 0 || release == 0 { assert s'.c.d.Unwind?; }
    else if s.c.binding.observer && observerThrows { assert s'.c.d.Unwind?; }
    else { assert s'.c.d.Check?; }
    DExtractKeepsAdmission(s, throws, jobId, release, observerThrows);
    assert MessageOwners(s'.c, id) == MessageOwners(s.c, id) && GroupOwners(s'.c, id) == GroupOwners(s.c, id);
  }

  lemma DCheckKeepsProtocol(s: State, clock: nat)
    requires Protocol(s) && DEnabled(s.c, DCheck(clock))
    ensures Protocol(DNext(s, DCheck(clock)))
  {
    hide Publications, MessageOf, GroupOf, MakeHint, HintExpired;
  }

  lemma KeepDCheck(s: State, id: nat, clock: nat)
    requires Inv(s, id) && DEnabled(s.c, DCheck(clock))
    ensures Inv(DNext(s, DCheck(clock)), id)
  {
    hide Control, Slot, Wakeups, Retirement, History, MakeHint, HintExpired, Resources;
    DCheckKeepsProtocol(s, clock);
    var s' := DNext(s, DCheck(clock));
    NothingChangesHands(s, s', id);
  }

  lemma DDropKeepsProtocol(s: State, throws: bool)
    requires Protocol(s) && DEnabled(s.c, DDrop(throws))
    ensures Protocol(DNext(s, DDrop(throws)))
  {
    hide Publications, MessageOf, GroupOf, MakeHint, HintExpired;
    var s' := DNext(s, DDrop(throws));
    if s.c.current.observer && throws { assert s'.c.d.Unwind?; } else { assert s'.c.d.LoopHead?; }
  }

  lemma KeepDDrop(s: State, id: nat, throws: bool)
    requires Inv(s, id) && DEnabled(s.c, DDrop(throws))
    ensures Inv(DNext(s, DDrop(throws)), id)
  {
    hide Control, Slot, Wakeups, Retirement, History, MakeHint, HintExpired, Resources;
    DDropKeepsProtocol(s, throws);
    var s' := DNext(s, DDrop(throws));
    if s.c.current.observer && throws {
      NothingChangesHands(s, s', id);
    } else {
      DisposeCurrent(s, s', id);
    }
  }

  lemma DPublishKeepsProtocol(s: State, throws: bool)
    requires Protocol(s) && DEnabled(s.c, DPublish(throws))
    ensures Protocol(DNext(s, DPublish(throws)))
  {
    hide Publications, MessageOf, GroupOf, MakeHint, HintExpired;
  }

  lemma KeepDPublish(s: State, id: nat, throws: bool)
    requires Inv(s, id) && DEnabled(s.c, DPublish(throws))
    ensures Inv(DNext(s, DPublish(throws)), id)
  {
    hide Control, Slot, Wakeups, Retirement, History, MakeHint, HintExpired, Resources;
    DPublishKeepsProtocol(s, throws);
    var s' := DNext(s, DPublish(throws));
    NothingChangesHands(s, s', id);
  }

  lemma DHandoffKeepsProtocol(s: State)
    requires Protocol(s) && DEnabled(s.c, DHandoff)
    ensures Protocol(DNext(s, DHandoff))
  {
    hide Publications, MessageOf, GroupOf, MakeHint, HintExpired;
    PublicationsAppend(s.log.handed, ItemOf(s.c.current));
    assert !Retired(s) && !Retired(DHandoffStep(s)) && Owner(s.c).None?;
  }

  lemma KeepDHandoff(s: State, id: nat)
    requires Inv(s, id) && DEnabled(s.c, DHandoff)
    ensures Inv(DNext(s, DHandoff), id)
  {
    hide Slot, Wakeups, Retirement, History, MakeHint, HintExpired;
    DHandoffKeepsProtocol(s);
    var s' := DNext(s, DHandoff);
    assert Outstanding(s'.c) == Outstanding(s.c);
    assert MessageOwners(s'.c, id) == MessageOwners(s.c, id) && GroupOwners(s'.c, id) == GroupOwners(s.c, id);
  }

  lemma DNotifyKeepsProtocol(s: State)
    requires Protocol(s) && DEnabled(s.c, DNotify)
    ensures Protocol(DNext(s, DNotify))
  {
    hide Publications, MessageOf, GroupOf, MakeHint, HintExpired;
  }

  lemma KeepDNotify(s: State, id: nat)
    requires Inv(s, id) && DEnabled(s.c, DNotify)
    ensures Inv(DNext(s, DNotify), id)
  {
    hide Control, Slot, Wakeups, Retirement, History, MakeHint, HintExpired, Resources;
    DNotifyKeepsProtocol(s);
    var s' := DNext(s, DNotify);
    NothingChangesHands(s, s', id);
  }

  lemma DUnwindKeepsProtocol(s: State)
    requires Protocol(s) && DEnabled(s.c, DUnwind)
    ensures Protocol(DNext(s, DUnwind))
  {
    hide Publications, MessageOf, GroupOf, MakeHint, HintExpired;
  }

  lemma KeepDUnwind(s: State, id: nat)
    requires Inv(s, id) && DEnabled(s.c, DUnwind)
    ensures Inv(DNext(s, DUnwind), id)
  {
    hide Control, Slot, Wakeups, Retirement, History, MakeHint, HintExpired, Resources;
    DUnwindKeepsProtocol(s);
    var s' := DNext(s, DUnwind);
    DisposeCurrent(s, s', id);
  }

  lemma DLeaveKeepsProtocol(s: State)
    requires Protocol(s) && DEnabled(s.c, DLeave)
    ensures Protocol(DNext(s, DLeave))
  {
    hide Publications, MessageOf, GroupOf, MakeHint, HintExpired;
  }

  lemma KeepDLeave(s: State, id: nat)
    requires Inv(s, id) && DEnabled(s.c, DLeave)
    ensures Inv(DNext(s, DLeave), id)
  {
    hide Control, Slot, Wakeups, Retirement, History, MakeHint, HintExpired, Resources;
    DLeaveKeepsProtocol(s);
    var s' := DNext(s, DLeave);
    NothingChangesHands(s, s', id);
  }

  lemma DFinishKeepsProtocol(s: State, throws: bool)
    requires Protocol(s) && DEnabled(s.c, DFinish(throws))
    ensures Protocol(DNext(s, DFinish(throws)))
  {
    hide Publications, MessageOf, GroupOf, MakeHint, HintExpired;
    var s' := DNext(s, DFinish(throws));
    if !DGuard(s.c) { assert s'.c.d.FinalWait?; }
    else if !s.c.needsClear { assert s'.log == s.log && s'.c.slot == s.c.slot; }
    else if throws { assert s'.log.sinkFailed && s'.c.slot == s.c.slot; }
    else { assert s'.c.slot.None? && !s'.c.needsClear; }
  }

  lemma KeepDFinish(s: State, id: nat, throws: bool)
    requires Inv(s, id) && DEnabled(s.c, DFinish(throws))
    ensures Inv(DNext(s, DFinish(throws)), id)
  {
    hide Control, Slot, Wakeups, Retirement, History, MakeHint, HintExpired, Resources;
    DFinishKeepsProtocol(s, throws);
    var s' := DNext(s, DFinish(throws));
    if !DGuard(s.c) { assert s'.c.d.FinalWait?; }
    else if !s.c.needsClear { assert s'.log == s.log && s'.c.slot == s.c.slot; }
    else if throws { assert s'.log.sinkFailed && s'.c.slot == s.c.slot; }
    else { assert s'.c.slot.None? && !s'.c.needsClear; }
    NothingChangesHands(s, s', id);
  }

  lemma DJoinKeepsProtocol(s: State)
    requires Protocol(s) && DEnabled(s.c, DJoin)
    ensures Protocol(DNext(s, DJoin))
  {
    hide Publications, MessageOf, GroupOf, MakeHint, HintExpired;
  }

  lemma KeepDJoin(s: State, id: nat)
    requires Inv(s, id) && DEnabled(s.c, DJoin)
    ensures Inv(DNext(s, DJoin), id)
  {
    hide Control, Slot, Wakeups, Retirement, History, MakeHint, HintExpired, Resources;
    DJoinKeepsProtocol(s);
    var s' := DNext(s, DJoin);
    NothingChangesHands(s, s', id);
  }

  lemma WConfigureKeepsProtocol(s: State, throws: bool)
    requires Protocol(s) && WEnabled(s.c, WConfigure(throws))
    ensures Protocol(WNext(s, WConfigure(throws)))
  {
    hide Publications, MessageOf, GroupOf, MakeHint, HintExpired;
  }

  lemma KeepWConfigure(s: State, id: nat, throws: bool)
    requires Inv(s, id) && WEnabled(s.c, WConfigure(throws))
    ensures Inv(WNext(s, WConfigure(throws)), id)
  {
    hide Control, Slot, Wakeups, Retirement, History, MakeHint, HintExpired, Resources;
    WConfigureKeepsProtocol(s, throws);
    var s' := WNext(s, WConfigure(throws));
    NothingChangesHands(s, s', id);
  }

  lemma WReadyKeepsProtocol(s: State)
    requires Protocol(s) && WEnabled(s.c, WReady)
    ensures Protocol(WNext(s, WReady))
  {
    hide Publications, MessageOf, GroupOf, MakeHint, HintExpired;
  }

  lemma KeepWReady(s: State, id: nat)
    requires Inv(s, id) && WEnabled(s.c, WReady)
    ensures Inv(WNext(s, WReady), id)
  {
    hide Control, Slot, Wakeups, Retirement, History, MakeHint, HintExpired, Resources;
    WReadyKeepsProtocol(s);
    var s' := WNext(s, WReady);
    NothingChangesHands(s, s', id);
  }

  lemma WNotifyKeepsProtocol(s: State)
    requires Protocol(s) && WEnabled(s.c, WNotify)
    ensures Protocol(WNext(s, WNotify))
  {
    hide Publications, MessageOf, GroupOf, MakeHint, HintExpired;
  }

  lemma KeepWNotify(s: State, id: nat)
    requires Inv(s, id) && WEnabled(s.c, WNotify)
    ensures Inv(WNext(s, WNotify), id)
  {
    hide Control, Slot, Wakeups, Retirement, History, MakeHint, HintExpired, Resources;
    WNotifyKeepsProtocol(s);
    var s' := WNext(s, WNotify);
    NothingChangesHands(s, s', id);
  }

  lemma WParkKeepsProtocol(s: State)
    requires Protocol(s) && WEnabled(s.c, WPark)
    ensures Protocol(WNext(s, WPark))
  {
    hide Publications, MessageOf, GroupOf, MakeHint, HintExpired;
  }

  lemma KeepWPark(s: State, id: nat)
    requires Inv(s, id) && WEnabled(s.c, WPark)
    ensures Inv(WNext(s, WPark), id)
  {
    hide Control, Slot, Wakeups, Retirement, History, MakeHint, HintExpired, Resources;
    WParkKeepsProtocol(s);
    var s' := WNext(s, WPark);
    NothingChangesHands(s, s', id);
  }

  lemma WWaitKeepsProtocol(s: State)
    requires Protocol(s) && WEnabled(s.c, WWait)
    ensures Protocol(WNext(s, WWait))
  {
    hide Publications, MessageOf, GroupOf, MakeHint, HintExpired;
    var s' := WNext(s, WWait);
    match s.c.pending
    case Some(work) => assert s'.c.w.Start? && Owner(s'.c) == Owner(s.c);
    case None => if s.c.stop { assert s'.c.w.ExitStopped?; } else { assert s'.c.w.Parked?; }
  }

  lemma KeepWWait(s: State, id: nat)
    requires Inv(s, id) && WEnabled(s.c, WWait)
    ensures Inv(WNext(s, WWait), id)
  {
    hide Slot, Wakeups, Retirement, History, MakeHint, HintExpired;
    WWaitKeepsProtocol(s);
    var s' := WNext(s, WWait);
    match s.c.pending
    case Some(work) => assert s'.c.w.Start? && Owner(s'.c) == Owner(s.c);
    case None => if s.c.stop { assert s'.c.w.ExitStopped?; } else { assert s'.c.w.Parked?; }
  }

  lemma WSpuriousKeepsProtocol(s: State)
    requires Protocol(s) && WEnabled(s.c, WSpurious)
    ensures Protocol(WNext(s, WSpurious))
  {
    hide Publications, MessageOf, GroupOf, MakeHint, HintExpired;
  }

  lemma KeepWSpurious(s: State, id: nat)
    requires Inv(s, id) && WEnabled(s.c, WSpurious)
    ensures Inv(WNext(s, WSpurious), id)
  {
    hide Control, Slot, Wakeups, Retirement, History, MakeHint, HintExpired, Resources;
    WSpuriousKeepsProtocol(s);
    var s' := WNext(s, WSpurious);
    NothingChangesHands(s, s', id);
  }

  lemma WStartKeepsProtocol(s: State, clock: nat)
    requires Protocol(s) && WEnabled(s.c, WStart(clock))
    ensures Protocol(WNext(s, WStart(clock)))
  {
    hide Publications, MessageOf, GroupOf, MakeHint, HintExpired;
    var s' := WNext(s, WStart(clock));
    if s.c.job.message && Rejects(s.c.job, clock) { assert s'.c.w.DropLate?; } else { assert s'.c.w.InCallback?; }
  }

  lemma KeepWStart(s: State, id: nat, clock: nat)
    requires Inv(s, id) && WEnabled(s.c, WStart(clock))
    ensures Inv(WNext(s, WStart(clock)), id)
  {
    hide Control, Slot, Wakeups, Retirement, History, MakeHint, HintExpired, Resources;
    WStartKeepsProtocol(s, clock);
    var s' := WNext(s, WStart(clock));
    if s.c.job.message && Rejects(s.c.job, clock) { assert s'.c.w.DropLate?; } else { assert s'.c.w.InCallback?; }
    NothingChangesHands(s, s', id);
  }

  lemma WDropKeepsProtocol(s: State, throws: bool)
    requires Protocol(s) && WEnabled(s.c, WDrop(throws))
    ensures Protocol(WNext(s, WDrop(throws)))
  {
    hide Publications, MessageOf, GroupOf, MakeHint, HintExpired;
    var s' := WNext(s, WDrop(throws));
    if s.c.job.observer && throws { assert s'.c.w.Cleanup?; } else { assert s'.c.w.Park?; }
  }

  lemma KeepWDrop(s: State, id: nat, throws: bool)
    requires Inv(s, id) && WEnabled(s.c, WDrop(throws))
    ensures Inv(WNext(s, WDrop(throws)), id)
  {
    hide Control, Slot, Wakeups, Retirement, History, MakeHint, HintExpired, Resources;
    WDropKeepsProtocol(s, throws);
    var s' := WNext(s, WDrop(throws));
    if s.c.job.observer && throws {
      NothingChangesHands(s, s', id);
    } else {
      DisposeJob(s, s', id);
    }
  }

  lemma WReturnKeepsProtocol(s: State)
    requires Protocol(s) && WEnabled(s.c, WReturn)
    ensures Protocol(WNext(s, WReturn))
  {
    hide Publications, MessageOf, GroupOf, MakeHint, HintExpired;
  }

  lemma KeepWReturn(s: State, id: nat)
    requires Inv(s, id) && WEnabled(s.c, WReturn)
    ensures Inv(WNext(s, WReturn), id)
  {
    hide Control, Slot, Wakeups, Retirement, History, MakeHint, HintExpired, Resources;
    WReturnKeepsProtocol(s);
    var s' := WNext(s, WReturn);
    DisposeJob(s, s', id);
  }

  lemma WThrowKeepsProtocol(s: State)
    requires Protocol(s) && WEnabled(s.c, WThrow)
    ensures Protocol(WNext(s, WThrow))
  {
    hide Publications, MessageOf, GroupOf, MakeHint, HintExpired;
    var s' := WNext(s, WThrow);
    if s.c.job.message { assert s'.c.job == Emptied(s.c.job); } else { assert s'.c.job == s.c.job && s'.log == s.log; }
  }

  lemma KeepWThrow(s: State, id: nat)
    requires Inv(s, id) && WEnabled(s.c, WThrow)
    ensures Inv(WNext(s, WThrow), id)
  {
    hide Control, Slot, Wakeups, Retirement, History, MakeHint, HintExpired, Resources;
    WThrowKeepsProtocol(s);
    var s' := WNext(s, WThrow);
    if s.c.job.message {
      DisposeJob(s, s', id);
    } else {
      NothingChangesHands(s, s', id);
    }
  }

  lemma WCleanupKeepsProtocol(s: State)
    requires Protocol(s) && WEnabled(s.c, WCleanup)
    ensures Protocol(WNext(s, WCleanup))
  {
    hide Publications, MessageOf, GroupOf, MakeHint, HintExpired;
  }

  lemma KeepWCleanup(s: State, id: nat)
    requires Inv(s, id) && WEnabled(s.c, WCleanup)
    ensures Inv(WNext(s, WCleanup), id)
  {
    hide Control, Slot, Wakeups, Retirement, History, MakeHint, HintExpired, Resources;
    WCleanupKeepsProtocol(s);
    var s' := WNext(s, WCleanup);
    DisposeJob(s, s', id);
  }

  lemma WClearKeepsProtocol(s: State, throws: bool)
    requires Protocol(s) && WEnabled(s.c, WClear(throws))
    ensures Protocol(WNext(s, WClear(throws)))
  {
    hide Publications, MessageOf, GroupOf, MakeHint, HintExpired;
    var s' := WNext(s, WClear(throws));
    if throws { assert s'.c.w.Fail?; } else { assert s'.c.w.ClearFlag?; }
  }

  lemma KeepWClear(s: State, id: nat, throws: bool)
    requires Inv(s, id) && WEnabled(s.c, WClear(throws))
    ensures Inv(WNext(s, WClear(throws)), id)
  {
    hide Control, Slot, Wakeups, Retirement, History, MakeHint, HintExpired, Resources;
    WClearKeepsProtocol(s, throws);
    var s' := WNext(s, WClear(throws));
    NothingChangesHands(s, s', id);
  }

  lemma WFlagKeepsProtocol(s: State)
    requires Protocol(s) && WEnabled(s.c, WFlag)
    ensures Protocol(WNext(s, WFlag))
  {
    hide Publications, MessageOf, GroupOf, MakeHint, HintExpired;
  }

  lemma KeepWFlag(s: State, id: nat)
    requires Inv(s, id) && WEnabled(s.c, WFlag)
    ensures Inv(WNext(s, WFlag), id)
  {
    hide Control, Slot, Wakeups, Retirement, History, MakeHint, HintExpired, Resources;
    WFlagKeepsProtocol(s);
    var s' := WNext(s, WFlag);
    NothingChangesHands(s, s', id);
  }

  lemma WFailKeepsProtocol(s: State)
    requires Protocol(s) && WEnabled(s.c, WFail)
    ensures Protocol(WNext(s, WFail))
  {
    hide Publications, MessageOf, GroupOf, MakeHint, HintExpired;
  }

  lemma KeepWFail(s: State, id: nat)
    requires Inv(s, id) && WEnabled(s.c, WFail)
    ensures Inv(WNext(s, WFail), id)
  {
    hide Control, Slot, Wakeups, Retirement, History, MakeHint, HintExpired, Resources;
    WFailKeepsProtocol(s);
    var s' := WNext(s, WFail);
    NothingChangesHands(s, s', id);
  }

  lemma WCancelKeepsProtocol(s: State)
    requires Protocol(s) && WEnabled(s.c, WCancel)
    ensures Protocol(WNext(s, WCancel))
  {
    hide Publications, MessageOf, GroupOf, MakeHint, HintExpired;
  }

  lemma KeepWCancel(s: State, id: nat)
    requires Inv(s, id) && WEnabled(s.c, WCancel)
    ensures Inv(WNext(s, WCancel), id)
  {
    hide Control, Slot, Wakeups, Retirement, History, MakeHint, HintExpired, Resources;
    WCancelKeepsProtocol(s);
    var s' := WNext(s, WCancel);
    NothingChangesHands(s, s', id);
  }

  /** Every dispatcher action keeps the invariant. */
  lemma DispatcherKeepsInv(s: State, id: nat, a: Action)
    requires Inv(s, id) && DEnabled(s.c, a)
    ensures Inv(DNext(s, a), id)
  {
    hide Inv, DNext;
    match a
    case DWait => KeepDWait(s, id);
    case DSpurious => KeepDSpurious(s, id);
    case DContext(ok) => KeepDContext(s, id, ok);
    case DSelectNothing => KeepDSelectNothing(s, id);
    case DSelectThrows => KeepDSelectThrows(s, id);
    case DSelect(binding, subscription, rosMessage) => KeepDSelect(s, id, binding, subscription, rosMessage);
    case DPrepare(throws, clock) => KeepDPrepare(s, id, throws, clock);
    case DTake(outcome) => KeepDTake(s, id, outcome);
    case DExtract(throws, jobId, release, observerThrows) =>
      KeepDExtract(s, id, throws, jobId, release, observerThrows);
    case DCheck(clock) => KeepDCheck(s, id, clock);
    case DDrop(throws) => KeepDDrop(s, id, throws);
    case DPublish(throws) => KeepDPublish(s, id, throws);
    case DHandoff => KeepDHandoff(s, id);
    case DNotify => KeepDNotify(s, id);
    case DUnwind => KeepDUnwind(s, id);
    case DLeave => KeepDLeave(s, id);
    case DFinish(throws) => KeepDFinish(s, id, throws);
    case DJoin => KeepDJoin(s, id);
  }

  /** Every worker action keeps the invariant. */
  lemma WorkerKeepsInv(s: State, id: nat, a: Action)
    requires Inv(s, id) && WEnabled(s.c, a)
    ensures Inv(WNext(s, a), id)
  {
    hide Inv, WNext;
    match a
    case WConfigure(throws) => KeepWConfigure(s, id, throws);
    case WReady => KeepWReady(s, id);
    case WNotify => KeepWNotify(s, id);
    case WPark => KeepWPark(s, id);
    case WWait => KeepWWait(s, id);
    case WSpurious => KeepWSpurious(s, id);
    case WStart(clock) => KeepWStart(s, id, clock);
    case WDrop(throws) => KeepWDrop(s, id, throws);
    case WReturn => KeepWReturn(s, id);
    case WThrow => KeepWThrow(s, id);
    case WCleanup => KeepWCleanup(s, id);
    case WClear(throws) => KeepWClear(s, id, throws);
    case WFlag => KeepWFlag(s, id);
    case WFail => KeepWFail(s, id);
    case WCancel => KeepWCancel(s, id);
  }
}
