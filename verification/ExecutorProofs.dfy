/** What every run of the dispatcher/worker protocol keeps. */
module ExecutorProofs {
  import opened Options
  import opened Bits
  import opened Executor

  // ---------------------------------------------------------------- control

  /** The dispatcher is between seeing the worker idle and handing over (or giving up) its work. */
  predicate InBody(d: DispatcherPc) {
    d.Select? || Preparing(d)
  }

  predicate Preparing(d: DispatcherPc) {
    d.Prepare? || d.Take? || d.Extract? || d.Check? || d.DropEarly? || d.Publish? || d.Handoff? || d.Unwind?
  }

  predicate AfterStop(d: DispatcherPc) {
    d.NotifyStop? || d.Join? || d.Done?
  }

  predicate Working(w: WorkerPc) {
    w.Start? || w.DropLate? || w.InCallback? || w.Cleanup? || w.ClearHint?
  }

  predicate WorkerFailed(w: WorkerPc) {
    w.NotifyFail? || w.CancelSpin? || w.ExitFailed?
  }

  predicate BeforeReady(w: WorkerPc) {
    w.Configure? || w.SetReady?
  }

  /** The flags are functions of the two program counters, and the dispatcher only selects, publishes
      and hands over while the worker is parked with an empty slot. */
  predicate Control(s: Shared) {
    && (s.idle <==> (s.w.Parked? && s.pending.None?) || WorkerFailed(s.w) || s.w.ExitStopped?)
    && (s.error <==> WorkerFailed(s.w))
    && (s.stop <==> s.error || AfterStop(s.d))
    && (s.ready ==> !BeforeReady(s.w))
    && (!BeforeReady(s.w) && !s.w.Fail? ==> s.ready)
    && (s.pending.Some? ==> s.w.Parked? && !InBody(s.d) && !AfterStop(s.d) && !s.d.WaitReady?)
    && (InBody(s.d) ==> s.w.Parked? && s.pending.None?)
    && (AfterStop(s.d) ==> s.idle)
    && (s.w.ExitStopped? ==> AfterStop(s.d))
    && (s.w.ExitFailed? ==> !s.spinning)
    && (s.wSleeping ==> s.w.Parked?)
    && (s.dSleeping ==> DWaiting(s.d))
    && s.now <= U64_MAX
  }

  // ---------------------------------------------------------------- the hint slot and the sink

  /** The item that has been handed over and that the worker has not finished or given up. */
  function Owner(c: Shared): Option<Item> {
    if c.pending.Some? then Some(ItemOf(c.pending.value))
    else if Working(c.w) then Some(ItemOf(c.job))
    else None
  }

  predicate Slot(c: Shared) {
    && (Owner(c).Some? ==> c.slot == Some(Owner(c).value.hint))
    && (c.d.Handoff? ==> c.slot == Some(c.current.hint))
  }

  /** The slot has been cleared since the last handoff. */
  predicate Retired(s: State) {
    s.c.w.ClearFlag? || (s.log.handed != [] && !s.c.needsClear)
  }

  function LastHanded(s: State): Item
    requires s.log.handed != []
  {
    s.log.handed[|s.log.handed| - 1]
  }

  /** When the completed hint still has to be cleared, and by whom. */
  predicate Retirement(s: State) {
    && (s.c.needsClear ==> s.log.handed != [])
    && (Owner(s.c).Some? || s.c.w.ClearFlag? ==> s.c.needsClear)
    && (BeforeReady(s.c.w) || s.c.d.WaitReady? ==> s.log.handed == [])
    && (Retired(s) ==> s.c.w.ClearFlag? || s.c.w.Fail? || WorkerFailed(s.c.w) || AfterStop(s.c.d))
    && (s.c.w.Fail? || WorkerFailed(s.c.w) ==> s.log.handed == [] || Retired(s) || s.log.sinkFailed)
    && (AfterStop(s.c.d) ==> !s.c.needsClear || s.log.sinkFailed)
    && (Retired(s) ==> s.c.slot.None?)
    && (s.c.slot.Some? ==> s.log.handed != [] || s.c.d.Handoff?)
    && (s.log.handed != [] && !Retired(s) && !s.c.d.Handoff? ==> s.c.slot == Some(LastHanded(s).hint))
  }

  function Publications(items: seq<Item>): seq<SinkOp> {
    if items == [] then []
    else Publications(items[..|items| - 1]) + [Published(items[|items| - 1])]
  }

  lemma {:induction false} PublicationsAppend(items: seq<Item>, item: Item)
    ensures Publications(items + [item]) == Publications(items) + [Published(item)]
  {
    assert (items + [item])[..|items|] == items;
  }

  /** The sink history, as long as no sink call has failed. */
  function ExpectedSink(s: State): seq<SinkOp> {
    if Retired(s) then Publications(s.log.handed) + [Cleared]
    else if s.c.d.Handoff? then Publications(s.log.handed) + [Published(ItemOf(s.c.current))]
    else Publications(s.log.handed)
  }

  predicate History(s: State) {
    && s.log.handed == (if Owner(s.c).Some? then s.log.finished + [Owner(s.c).value] else s.log.finished)
    && (s.log.sinkFailed || s.log.sink == ExpectedSink(s))
  }

  // ---------------------------------------------------------------- messages and callback groups

  predicate OwnsMessage(work: Work, id: nat) {
    work.message && work.subscription && work.id == id
  }

  predicate OwnsGroup(work: Work, id: nat) {
    work.group && work.id == id
  }

  predicate OwnsNothing(work: Work) {
    !work.message && !work.group
  }

  /** How many of the dispatcher's work, the pending slot and the worker's work own message `id`. */
  function MessageOwners(c: Shared, id: nat): nat {
    Bit(OwnsMessage(c.current, id)) + Bit(c.pending.Some? && OwnsMessage(c.pending.value, id)) +
    Bit(OwnsMessage(c.job, id))
  }

  function GroupOwners(c: Shared, id: nat): nat {
    Bit(OwnsGroup(c.current, id)) + Bit(c.pending.Some? && OwnsGroup(c.pending.value, id)) +
    Bit(OwnsGroup(c.job, id))
  }

  /** Message `id`, if it was created, is with the pool or with exactly one owner, and was never
      returned twice; likewise the callback group taken for executable `id`. */
  predicate Resources(s: State, id: nat) {
    && s.log.returned[id] + MessageOwners(s.c, id) == Bit(id in s.log.created)
    && s.log.released[id] + GroupOwners(s.c, id) == Bit(id in s.log.grabbed)
    && (id in s.log.created || id in s.log.grabbed ==> id < s.c.nextId)
    && (s.c.d.Prepare? && s.c.current.id == id ==> id < s.c.nextId && id !in s.log.created)
    && (s.c.d.Prepare? ==> !s.c.current.message)
    && (!Preparing(s.c.d) ==> OwnsNothing(s.c.current))
    && (!Working(s.c.w) || s.c.w.ClearHint? ==> OwnsNothing(s.c.job))
    && (s.c.current.message ==> s.c.current.subscription)
    && (s.c.pending.Some? && s.c.pending.value.message ==> s.c.pending.value.subscription)
    && (s.c.job.message ==> s.c.job.subscription)
  }

  // ---------------------------------------------------------------- observer events

  predicate Leaving(d: DispatcherPc) {
    d.Leave? || d.FinalWait? || AfterStop(d)
  }

  /** Items whose selection was observed and whose fate is still open. */
  function Outstanding(c: Shared): nat {
    (if c.d.Check? || c.d.DropEarly? || c.d.Publish? || c.d.Handoff? then Observed(c.current) else 0) +
    (if c.pending.Some? then Observed(c.pending.value) else 0) +
    (if c.w.Start? || c.w.DropLate? then Observed(c.job) else 0)
  }

  predicate Admission(s: State) {
    && s.log.selected == s.log.entered + s.log.dropped + s.log.aborted + Outstanding(s.c)
    && (s.c.dispatchError ==> Leaving(s.c.d))
    && (s.log.aborted == 0 || (s.log.aborted == 1 && (s.c.d.Unwind? || s.c.dispatchError)))
    && (s.c.d.Prepare? || s.c.d.Take? || s.c.d.Extract? ==> !s.c.current.observer)
    && RejectableOwnsMessage(s.c)
  }

  /** Work that may be rejected for its age still owns its message wherever that is checked. */
  predicate RejectableOwnsMessage(c: Shared) {
    && (c.d.Prepare? ==> !c.current.reject)
    && (c.d.Take? || c.d.Extract? ==> c.current.message)
    && (Preparing(c.d) && !c.d.Unwind? && c.current.reject ==> c.current.message)
    && (c.pending.Some? && c.pending.value.reject ==> c.pending.value.message)
    && (c.w.Start? && c.job.reject ==> c.job.message)
  }

  // ---------------------------------------------------------------- sleeping threads

  /** A sleeping thread whose condition already holds is about to be notified. */
  predicate Wakeups(c: Shared) {
    && (c.dSleeping && c.d.WaitReady? && c.ready ==> c.w.NotifyReady? || c.w.NotifyFail?)
    && (c.dSleeping && !c.d.WaitReady? && c.idle ==> c.w.NotifyFail?)
    && (c.wSleeping && (c.pending.Some? || c.stop) ==> c.d.NotifyHandoff? || c.d.NotifyStop?)
  }

  predicate Protocol(s: State) {
    Control(s.c) && Slot(s.c) && Wakeups(s.c) && Retirement(s) && History(s)
  }

  predicate Inv(s: State, id: nat) {
    Protocol(s) && Resources(s, id) && Admission(s)
  }
}
