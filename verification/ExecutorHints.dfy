/**
 What the hints say, and what becomes of exceptions: every hint the executor publishes carries the fields of
 the profile bound to its executable and the job id and release time it was given, by its message's metadata
 or by the executor; and `spin` rethrows exactly when one of its threads met an exception.

 `Facts` is kept beside the run by an observer of its actions; no action reads it.
 */
module ExecutorHints {
  import opened Bits
  import opened Options
  import opened Executor
  import opened ExecutorProofs
  import opened ExecutorTheorems

  datatype Metadata = Metadata(jobId: nat, release: nat)

  /** Which binding each selected executable has, which metadata it was given, and which executables without
      an extractor were prepared. */
  datatype Knowledge = Knowledge(bound: map<nat, Binding>, metadata: map<nat, Metadata>, stamped: seq<nat>)

  /** `seen` counts the messages whose selection an observer had to be told of; `failed` says that the
      dispatcher met an exception, `broken` that the worker did; `quit` that the dispatcher found the context
      invalid or the executor cancelled; `fit` that the executable last selected is
      a subscription to normal ROS messages. */
  datatype Facts = Facts(k: Knowledge, seen: nat, failed: bool, broken: bool, quit: bool, fit: bool)

  function NoFacts(): Facts { Facts(Knowledge(map[], map[], []), 0, false, false, false, false) }

  predicate Unaware(k: Knowledge, id: nat) {
    id in k.bound && !k.bound[id].aware
  }

  predicate HasObserver(k: Knowledge, id: nat) {
    id in k.bound && k.bound[id].observer
  }

  /** The knowledge added by one action. Executables are numbered in the order of their selection. */
  function Learned(k: Knowledge, c: Shared, a: Action): Knowledge {
    match a
    case DSelect(binding, _, _) => k.(bound := k.bound[c.nextId := binding])
    case DPrepare(_, clock) =>
      if !Unaware(k, c.current.id) then k
      else k.(metadata := k.metadata[c.current.id := Metadata(|k.stamped| + 1, clock)],
              stamped := k.stamped + [c.current.id])
    case DExtract(throws, jobId, release, _) =>
      if throws || jobId == 0 || release == 0 then k
      else k.(metadata := k.metadata[c.current.id := Metadata(jobId, release)])
    case _ => k
  }

  /** The dispatcher meets an exception. */
  predicate Fails(f: Facts, c: Shared, a: Action) {
    var observed := HasObserver(f.k, c.current.id);
    match a
    case DWait => DGuard(c) && c.error
    case DSelectThrows => true
    case DPrepare(createThrows, _) => !Unaware(f.k, c.current.id) && (createThrows || !f.fit)
    case DTake(outcome) => outcome.TakeThrows?
    case DExtract(throws, jobId, release, observerThrows) =>
      throws || jobId == 0 || release == 0 || (observed && observerThrows)
    case DDrop(observerThrows) => observed && observerThrows
    case DPublish(sinkThrows) => sinkThrows
    case DFinish(sinkThrows) => DGuard(c) && c.needsClear && sinkThrows
    case _ => false
  }

  /** The worker meets an exception. */
  predicate Breaks(c: Shared, a: Action) {
    match a
    case WConfigure(throws) => throws
    case WThrow => true
    case WDrop(observerThrows) => c.job.observer && observerThrows
    case _ => false
  }

  /** The dispatcher finds the context invalid or the executor cancelled. */
  predicate Quits(c: Shared, a: Action) {
    match a
    case DContext(ok) => !ok || !c.spinning
    case DWait => c.d.WaitIdle? && !c.spinning && !c.error
    case _ => false
  }

  predicate Sights(f: Facts, c: Shared, a: Action) {
    a.DExtract? && !a.extractorThrows && a.jobId != 0 && a.release != 0 && HasObserver(f.k, c.current.id)
  }

  function Noted(f: Facts, c: Shared, a: Action): Facts {
    Facts(Learned(f.k, c, a), f.seen + Bit(Sights(f, c, a)), f.failed || Fails(f, c, a), f.broken || Breaks(c, a),
          f.quit || Quits(c, a), if a.DSelect? then a.subscription && a.rosMessage else f.fit)
  }

  function FactsAfter(actions: seq<Action>): Facts
    requires IsRun(actions)
  {
    if actions == [] then NoFacts()
    else
      var n := |actions| - 1;
      Noted(FactsAfter(actions[..n]), After(actions[..n]).c, actions[n])
  }

  // ---------------------------------------------------------------- what a hint should say

  /** The hint of a job of profile `p` with the given identity and release time. */
  predicate Says(h: Hint, p: Profile, md: Metadata) {
    && h.stageId == p.stageId && h.classId == p.classId && h.jobId == md.jobId && h.release == md.release
    && h.stale == p.stale && h.budget == p.budget && h.slice == p.slice && h.weight == p.weight
    && (p.relativeDeadline == 0 ==> h.deadline == 0)
    && (p.relativeDeadline != 0 && md.release + p.relativeDeadline <= U64_MAX ==>
          h.deadline == md.release + p.relativeDeadline)
    && (p.relativeDeadline != 0 && md.release + p.relativeDeadline > U64_MAX ==> h.deadline == U64_MAX)
  }

  lemma MadeHintSays(p: Profile, jobId: nat, release: nat)
    requires release <= U64_MAX
    ensures Says(MakeHint(p, jobId, release), p, Metadata(jobId, release))
  {
  }

  predicate Known(k: Knowledge, id: nat, h: Hint) {
    id in k.bound && id in k.metadata && Says(h, k.bound[id].profile, k.metadata[id])
  }

  // ---------------------------------------------------------------- the invariant

  /** Executables without an extractor get the job ids 1, 2, 3 and so on, in the order of their dispatch. */
  predicate StampsOk(k: Knowledge) {
    && (forall i :: 0 <= i < |k.stamped| ==>
          && Unaware(k, k.stamped[i]) && k.stamped[i] in k.metadata
          && k.metadata[k.stamped[i]].jobId == i + 1)
    && (forall i, j :: 0 <= i < j < |k.stamped| ==> k.stamped[i] < k.stamped[j])
    && (forall id <- k.metadata :: Unaware(k, id) ==> id in k.stamped)
  }

  predicate FactsOk(k: Knowledge, nextId: nat, nextJobId: nat) {
    && (forall id <- k.bound :: id < nextId) && (forall id <- k.metadata :: id in k.bound)
    && nextJobId == |k.stamped| + 1 && StampsOk(k)
  }

  predicate SinkOk(k: Knowledge, sink: seq<SinkOp>) {
    forall i :: 0 <= i < |sink| && sink[i].Published? ==> Known(k, sink[i].item.id, sink[i].item.hint)
  }

  predicate Described(d: DispatcherPc) {
    d.Check? || d.DropEarly? || d.Publish? || d.Handoff?
  }

  /** What the dispatcher has at hand while it prepares an executable; and it drops early exactly what is to
      be rejected at the instant of its check. */
  predicate BodyOk(c: Shared, k: Knowledge) {
    && (Preparing(c.d) ==>
          c.current.id + 1 == c.nextId && c.current.id in k.bound && k.bound[c.current.id] == c.binding)
    && (c.d.Prepare? || c.d.Take? || c.d.Extract? ==> c.current.id !in k.metadata)
    && (c.d.Prepare? ==> !c.current.reject)
    && (c.d.Take? || c.d.Extract? || c.d.Check? || c.d.DropEarly? ==> c.binding.aware)
    && (Described(c.d) ==> Known(k, c.current.id, c.current.hint))
    && (Described(c.d) ==> c.current.reject == (c.binding.aware && c.binding.profile.rejectExpired))
    && (c.d.Check? || c.d.DropEarly? ==> c.current.observer == c.binding.observer)
    && (c.d.DropEarly? ==> Rejects(c.current, c.now))
    && (c.d.Publish? || c.d.Handoff? ==> !Rejects(c.current, c.now))
  }

  /** The worker is on its way out after an exception. */
  predicate GivingUp(w: WorkerPc) {
    w.Cleanup? || w.ClearHint? || w.ClearFlag? || w.Fail? || WorkerFailed(w)
  }

  predicate TroubleOk(c: Shared, f: Facts) {
    && (c.d.Prepare? ==> f.fit == (c.current.subscription && c.rosMessage))
    && (f.failed <==> c.dispatchError || c.d.Unwind?)
    && (f.broken <==> GivingUp(c.w))
    && (Leaving(c.d) <==> f.quit || c.dispatchError)
    && (c.d.Done? ==> c.w.ExitFailed? || c.w.ExitStopped?)
  }

  predicate HintsOk(s: State, f: Facts) {
    && FactsOk(f.k, s.c.nextId, s.c.nextJobId) && SinkOk(f.k, s.log.sink) && BodyOk(s.c, f.k)
    && TroubleOk(s.c, f) && s.log.selected == f.seen
  }

  // ---------------------------------------------------------------- new facts

  lemma BindingNoted(k: Knowledge, nextId: nat, nextJobId: nat, sink: seq<SinkOp>, b: Binding)
    requires FactsOk(k, nextId, nextJobId) && SinkOk(k, sink)
    ensures var k' := k.(bound := k.bound[nextId := b]); FactsOk(k', nextId + 1, nextJobId) && SinkOk(k', sink)
    ensures nextId !in k.metadata
  {
    var k' := k.(bound := k.bound[nextId := b]);
    assert forall id <- k.bound :: k'.bound[id] == k.bound[id];
    assert forall id <- k.metadata :: Unaware(k', id) == Unaware(k, id);
  }

  lemma MetadataNoted(k: Knowledge, nextId: nat, nextJobId: nat, sink: seq<SinkOp>, id: nat, md: Metadata)
    requires FactsOk(k, nextId, nextJobId) && SinkOk(k, sink)
    requires id in k.bound && id !in k.metadata && k.bound[id].aware
    ensures var k' := k.(metadata := k.metadata[id := md]); FactsOk(k', nextId, nextJobId) && SinkOk(k', sink)
  {
  }

  lemma StampNoted(k: Knowledge, nextId: nat, nextJobId: nat, sink: seq<SinkOp>, id: nat, clock: nat)
    requires FactsOk(k, nextId, nextJobId) && SinkOk(k, sink)
    requires Unaware(k, id) && id !in k.metadata && id + 1 == nextId
    ensures var k' := k.(metadata := k.metadata[id := Metadata(nextJobId, clock)], stamped := k.stamped + [id]);
            FactsOk(k', nextId, nextJobId + 1) && SinkOk(k', sink)
    ensures nextJobId == |k.stamped| + 1
  {
    hide Says;
    var k' := k.(metadata := k.metadata[id := Metadata(nextJobId, clock)], stamped := k.stamped + [id]);
    assert forall i :: 0 <= i < |k.stamped| ==> k'.stamped[i] == k.stamped[i] && k.stamped[i] < id;
    assert k'.stamped[|k.stamped|] == id;
  }

  lemma SinkMore(k: Knowledge, sink: seq<SinkOp>, op: SinkOp)
    requires SinkOk(k, sink) && (op.Published? ==> Known(k, op.item.id, op.item.hint))
    ensures SinkOk(k, sink + [op])
  {
    hide Known;
  }

  // ---------------------------------------------------------------- one lemma per action

  lemma DWaitKeepsHints(s: State, f: Facts)
    requires HintsOk(s, f) && Control(s.c) && DEnabled(s.c, DWait)
    ensures HintsOk(DNext(s, DWait), Noted(f, s.c, DWait))
  {
    hide FactsOk, SinkOk, Known, HintExpired, MakeHint;
    var s' := DNext(s, DWait);
    if !DGuard(s.c) { assert s'.c.d == s.c.d; }
    else if s.c.error { assert s'.c.d.Leave?; }
    else if s.c.d.WaitReady? { assert s'.c.d.LoopHead?; }
    else if !s.c.spinning { assert s'.c.d.Leave?; }
    else { assert s'.c.d.Select?; }
  }

  lemma DSpuriousKeepsHints(s: State, f: Facts)
    requires HintsOk(s, f) && Control(s.c) && DEnabled(s.c, DSpurious)
    ensures HintsOk(DNext(s, DSpurious), Noted(f, s.c, DSpurious))
  {
    hide FactsOk, SinkOk, Known, HintExpired, MakeHint;
  }

  lemma DContextKeepsHints(s: State, f: Facts, ok: bool)
    requires HintsOk(s, f) && Control(s.c) && DEnabled(s.c, DContext(ok))
    ensures HintsOk(DNext(s, DContext(ok)), Noted(f, s.c, DContext(ok)))
  {
    hide FactsOk, SinkOk, Known, HintExpired, MakeHint;
    if ok && s.c.spinning { } else { }
  }

  lemma DSelectNothingKeepsHints(s: State, f: Facts)
    requires HintsOk(s, f) && Control(s.c) && DEnabled(s.c, DSelectNothing)
    ensures HintsOk(DNext(s, DSelectNothing), Noted(f, s.c, DSelectNothing))
  {
    hide FactsOk, SinkOk, Known, HintExpired, MakeHint;
  }

  lemma DSelectThrowsKeepsHints(s: State, f: Facts)
    requires HintsOk(s, f) && Control(s.c) && DEnabled(s.c, DSelectThrows)
    ensures HintsOk(DNext(s, DSelectThrows), Noted(f, s.c, DSelectThrows))
  {
    hide FactsOk, SinkOk, Known, HintExpired, MakeHint;
  }

  lemma DSelectKeepsHints(s: State, f: Facts, binding: Binding, subscription: bool, rosMessage: bool)
    requires HintsOk(s, f) && Control(s.c) && DEnabled(s.c, DSelect(binding, subscription, rosMessage))
    ensures var a := DSelect(binding, subscription, rosMessage); HintsOk(DNext(s, a), Noted(f, s.c, a))
  {
    hide FactsOk, SinkOk, Known;
    BindingNoted(f.k, s.c.nextId, s.c.nextJobId, s.log.sink, binding);
  }

  lemma DUnawareKeepsHints(s: State, f: Facts, throws: bool, clock: nat)
    requires HintsOk(s, f) && Control(s.c) && DEnabled(s.c, DPrepare(throws, clock))
    requires !s.c.binding.aware
    ensures HintsOk(DNext(s, DPrepare(throws, clock)), Noted(f, s.c, DPrepare(throws, clock)))
  {
    hide FactsOk, SinkOk, Says, MakeHint, HintExpired;
    StampNoted(f.k, s.c.nextId, s.c.nextJobId, s.log.sink, s.c.current.id, clock);
    MadeHintSays(s.c.binding.profile, s.c.nextJobId, clock);
  }

  lemma DUnfitKeepsHints(s: State, f: Facts, throws: bool, clock: nat)
    requires HintsOk(s, f) && Control(s.c) && DEnabled(s.c, DPrepare(throws, clock))
    requires s.c.binding.aware && (!s.c.current.subscription || !s.c.rosMessage || throws)
    ensures HintsOk(DNext(s, DPrepare(throws, clock)), Noted(f, s.c, DPrepare(throws, clock)))
  {
    hide FactsOk, SinkOk, Known, MakeHint, HintExpired;
  }

  lemma DCreateKeepsHints(s: State, f: Facts, throws: bool, clock: nat)
    requires HintsOk(s, f) && Control(s.c) && DEnabled(s.c, DPrepare(throws, clock))
    requires s.c.binding.aware && s.c.current.subscription && s.c.rosMessage && !throws
    ensures HintsOk(DNext(s, DPrepare(throws, clock)), Noted(f, s.c, DPrepare(throws, clock)))
  {
    hide FactsOk, SinkOk, Known, MakeHint, HintExpired;
  }

  lemma DPrepareKeepsHints(s: State, f: Facts, throws: bool, clock: nat)
    requires HintsOk(s, f) && Control(s.c) && DEnabled(s.c, DPrepare(throws, clock))
    ensures HintsOk(DNext(s, DPrepare(throws, clock)), Noted(f, s.c, DPrepare(throws, clock)))
  {
    hide HintsOk, Control, Noted, DNext;
    if !s.c.binding.aware {
      DUnawareKeepsHints(s, f, throws, clock);
    } else if s.c.binding.aware && (!s.c.current.subscription || !s.c.rosMessage || throws) {
      DUnfitKeepsHints(s, f, throws, clock);
    } else {
      DCreateKeepsHints(s, f, throws, clock);
    }
  }

  lemma DTakeKeepsHints(s: State, f: Facts, outcome: TakeOutcome)
    requires HintsOk(s, f) && Control(s.c) && DEnabled(s.c, DTake(outcome))
    ensures HintsOk(DNext(s, DTake(outcome)), Noted(f, s.c, DTake(outcome)))
  {
    hide FactsOk, SinkOk, Known, HintExpired, MakeHint;
    match outcome
    case Taken => assert DNext(s, DTake(outcome)).c.d.Extract?;
    case NothingTaken => assert DNext(s, DTake(outcome)).c.d.LoopHead?;
    case TakeThrows => assert DNext(s, DTake(outcome)).c.d.Unwind?;
  }

  lemma DUndescribedKeepsHints(s: State, f: Facts, throws: bool, jobId: nat, release: nat, observerThrows: bool)
    requires HintsOk(s, f) && Control(s.c) && DEnabled(s.c, DExtract(throws, jobId, release, observerThrows))
    requires throws || jobId == 0 || release == 0
    ensures var a := DExtract(throws, jobId, release, observerThrows); HintsOk(DNext(s, a), Noted(f, s.c, a))
  {
    hide FactsOk, SinkOk, Known, Says, MakeHint, HintExpired;
  }

  lemma DDescribedKeepsHints(s: State, f: Facts, throws: bool, jobId: nat, release: nat, observerThrows: bool)
    requires HintsOk(s, f) && Control(s.c) && DEnabled(s.c, DExtract(throws, jobId, release, observerThrows))
    requires !throws && jobId != 0 && release != 0
    ensures var a := DExtract(throws, jobId, release, observerThrows); HintsOk(DNext(s, a), Noted(f, s.c, a))
  {
    hide FactsOk, SinkOk, Says, MakeHint, HintExpired;
    MetadataNoted(f.k, s.c.nextId, s.c.nextJobId, s.log.sink, s.c.current.id, Metadata(jobId, release));
    MadeHintSays(s.c.binding.profile, jobId, release);
    var s' := DNext(s, DExtract(throws, jobId, release, observerThrows));
    if s.c.binding.observer && observerThrows { assert s'.c.d.Unwind?; } else { assert s'.c.d.Check?; }
  }

  lemma DExtractKeepsHints(s: State, f: Facts, throws: bool, jobId: nat, release: nat, observerThrows: bool)
    requires HintsOk(s, f) && Control(s.c) && DEnabled(s.c, DExtract(throws, jobId, release, observerThrows))
    ensures var a := DExtract(throws, jobId, release, observerThrows); HintsOk(DNext(s, a), Noted(f, s.c, a))
  {
    hide HintsOk, Control, Noted, DNext;
    if throws || jobId == 0 || release == 0 {
      DUndescribedKeepsHints(s, f, throws, jobId, release, observerThrows);
    } else {
      DDescribedKeepsHints(s, f, throws, jobId, release, observerThrows);
    }
  }

  lemma DCheckKeepsHints(s: State, f: Facts, clock: nat)
    requires HintsOk(s, f) && Control(s.c) && DEnabled(s.c, DCheck(clock))
    ensures HintsOk(DNext(s, DCheck(clock)), Noted(f, s.c, DCheck(clock)))
  {
    hide FactsOk, SinkOk, Known, HintExpired, MakeHint;
    if Rejects(s.c.current, clock) { assert DNext(s, DCheck(clock)).c.d.DropEarly?; }
    else { assert DNext(s, DCheck(clock)).c.d.Publish?; }
  }

  lemma DDropKeepsHints(s: State, f: Facts, throws: bool)
    requires HintsOk(s, f) && Control(s.c) && DEnabled(s.c, DDrop(throws))
    ensures HintsOk(DNext(s, DDrop(throws)), Noted(f, s.c, DDrop(throws)))
  {
    hide FactsOk, SinkOk, Known, HintExpired, MakeHint;
    var s' := DNext(s, DDrop(throws));
    if s.c.current.observer && throws { assert s'.c.d.Unwind?; } else { assert s'.c.d.LoopHead?; }
  }

  lemma DPublishKeepsHints(s: State, f: Facts, throws: bool)
    requires HintsOk(s, f) && Control(s.c) && DEnabled(s.c, DPublish(throws))
    ensures HintsOk(DNext(s, DPublish(throws)), Noted(f, s.c, DPublish(throws)))
  {
    hide FactsOk, SinkOk, Known, HintExpired;
    SinkMore(f.k, s.log.sink, Published(ItemOf(s.c.current)));
    var s' := DNext(s, DPublish(throws));
    if throws { assert s'.c.d.Unwind?; } else { assert s'.c.d.Handoff?; }
  }

  lemma DHandoffKeepsHints(s: State, f: Facts)
    requires HintsOk(s, f) && Control(s.c) && DEnabled(s.c, DHandoff)
    ensures HintsOk(DNext(s, DHandoff), Noted(f, s.c, DHandoff))
  {
    hide FactsOk, SinkOk, Known, HintExpired, MakeHint;
  }

  lemma DNotifyKeepsHints(s: State, f: Facts)
    requires HintsOk(s, f) && Control(s.c) && DEnabled(s.c, DNotify)
    ensures HintsOk(DNext(s, DNotify), Noted(f, s.c, DNotify))
  {
    hide FactsOk, SinkOk, Known, HintExpired, MakeHint;
  }

  lemma DUnwindKeepsHints(s: State, f: Facts)
    requires HintsOk(s, f) && Control(s.c) && DEnabled(s.c, DUnwind)
    ensures HintsOk(DNext(s, DUnwind), Noted(f, s.c, DUnwind))
  {
    hide FactsOk, SinkOk, Known, HintExpired, MakeHint;
  }

  lemma DLeaveKeepsHints(s: State, f: Facts)
    requires HintsOk(s, f) && Control(s.c) && DEnabled(s.c, DLeave)
    ensures HintsOk(DNext(s, DLeave), Noted(f, s.c, DLeave))
  {
    hide FactsOk, SinkOk, Known, HintExpired, MakeHint;
  }

  lemma DFinishKeepsHints(s: State, f: Facts, throws: bool)
    requires HintsOk(s, f) && Control(s.c) && DEnabled(s.c, DFinish(throws))
    ensures HintsOk(DNext(s, DFinish(throws)), Noted(f, s.c, DFinish(throws)))
  {
    hide FactsOk, SinkOk, Known, HintExpired;
    SinkMore(f.k, s.log.sink, Cleared);
    var s' := DNext(s, DFinish(throws));
    if !DGuard(s.c) { assert s'.c.d.FinalWait?; }
    else if !s.c.needsClear { assert s'.log == s.log && s'.c.slot == s.c.slot; }
    else if throws { assert s'.log.sinkFailed && s'.c.slot == s.c.slot; }
    else { assert s'.c.slot.None? && !s'.c.needsClear; }
  }

  lemma DJoinKeepsHints(s: State, f: Facts)
    requires HintsOk(s, f) && Control(s.c) && DEnabled(s.c, DJoin)
    ensures HintsOk(DNext(s, DJoin), Noted(f, s.c, DJoin))
  {
    hide FactsOk, SinkOk, Known, HintExpired, MakeHint;
  }

  lemma WConfigureKeepsHints(s: State, f: Facts, throws: bool)
    requires HintsOk(s, f) && Control(s.c) && WEnabled(s.c, WConfigure(throws))
    ensures HintsOk(WNext(s, WConfigure(throws)), Noted(f, s.c, WConfigure(throws)))
  {
    hide FactsOk, SinkOk, Known, HintExpired, MakeHint;
  }

  lemma WReadyKeepsHints(s: State, f: Facts)
    requires HintsOk(s, f) && Control(s.c) && WEnabled(s.c, WReady)
    ensures HintsOk(WNext(s, WReady), Noted(f, s.c, WReady))
  {
    hide FactsOk, SinkOk, Known, HintExpired, MakeHint;
  }

  lemma WNotifyKeepsHints(s: State, f: Facts)
    requires HintsOk(s, f) && Control(s.c) && WEnabled(s.c, WNotify)
    ensures HintsOk(WNext(s, WNotify), Noted(f, s.c, WNotify))
  {
    hide FactsOk, SinkOk, Known, HintExpired, MakeHint;
  }

  lemma WParkKeepsHints(s: State, f: Facts)
    requires HintsOk(s, f) && Control(s.c) && WEnabled(s.c, WPark)
    ensures HintsOk(WNext(s, WPark), Noted(f, s.c, WPark))
  {
    hide FactsOk, SinkOk, Known, HintExpired, MakeHint;
  }

  lemma WWaitKeepsHints(s: State, f: Facts)
    requires HintsOk(s, f) && Control(s.c) && WEnabled(s.c, WWait)
    ensures HintsOk(WNext(s, WWait), Noted(f, s.c, WWait))
  {
    hide FactsOk, SinkOk, Known, HintExpired, MakeHint;
    var s' := WNext(s, WWait);
    match s.c.pending
    case Some(work) => assert s'.c.w.Start? && Owner(s'.c) == Owner(s.c);
    case None => if s.c.stop { assert s'.c.w.ExitStopped?; } else { assert s'.c.w.Parked?; }
  }

  lemma WSpuriousKeepsHints(s: State, f: Facts)
    requires HintsOk(s, f) && Control(s.c) && WEnabled(s.c, WSpurious)
    ensures HintsOk(WNext(s, WSpurious), Noted(f, s.c, WSpurious))
  {
    hide FactsOk, SinkOk, Known, HintExpired, MakeHint;
  }

  lemma WStartKeepsHints(s: State, f: Facts, clock: nat)
    requires HintsOk(s, f) && Control(s.c) && WEnabled(s.c, WStart(clock))
    ensures HintsOk(WNext(s, WStart(clock)), Noted(f, s.c, WStart(clock)))
  {
    hide FactsOk, SinkOk, Known, HintExpired, MakeHint;
    var s' := WNext(s, WStart(clock));
    if s.c.job.message && Rejects(s.c.job, clock) { assert s'.c.w.DropLate?; } else { assert s'.c.w.InCallback?; }
  }

  lemma WDropKeepsHints(s: State, f: Facts, throws: bool)
    requires HintsOk(s, f) && Control(s.c) && WEnabled(s.c, WDrop(throws))
    ensures HintsOk(WNext(s, WDrop(throws)), Noted(f, s.c, WDrop(throws)))
  {
    hide FactsOk, SinkOk, Known, HintExpired, MakeHint;
    var s' := WNext(s, WDrop(throws));
    if s.c.job.observer && throws { assert s'.c.w.Cleanup?; } else { assert s'.c.w.Park?; }
  }

  lemma WReturnKeepsHints(s: State, f: Facts)
    requires HintsOk(s, f) && Control(s.c) && WEnabled(s.c, WReturn)
    ensures HintsOk(WNext(s, WReturn), Noted(f, s.c, WReturn))
  {
    hide FactsOk, SinkOk, Known, HintExpired, MakeHint;
  }

  lemma WThrowKeepsHints(s: State, f: Facts)
    requires HintsOk(s, f) && Control(s.c) && WEnabled(s.c, WThrow)
    ensures HintsOk(WNext(s, WThrow), Noted(f, s.c, WThrow))
  {
    hide FactsOk, SinkOk, Known, HintExpired, MakeHint;
    var s' := WNext(s, WThrow);
    if s.c.job.message { assert s'.c.job == Emptied(s.c.job); } else { assert s'.c.job == s.c.job && s'.log == s.log; }
  }

  lemma WCleanupKeepsHints(s: State, f: Facts)
    requires HintsOk(s, f) && Control(s.c) && WEnabled(s.c, WCleanup)
    ensures HintsOk(WNext(s, WCleanup), Noted(f, s.c, WCleanup))
  {
    hide FactsOk, SinkOk, Known, HintExpired, MakeHint;
  }

  lemma WClearKeepsHints(s: State, f: Facts, throws: bool)
    requires HintsOk(s, f) && Control(s.c) && WEnabled(s.c, WClear(throws))
    ensures HintsOk(WNext(s, WClear(throws)), Noted(f, s.c, WClear(throws)))
  {
    hide FactsOk, SinkOk, Known, HintExpired;
    SinkMore(f.k, s.log.sink, Cleared);
    var s' := WNext(s, WClear(throws));
    if throws { assert s'.c.w.Fail?; } else { assert s'.c.w.ClearFlag?; }
  }

  lemma WFlagKeepsHints(s: State, f: Facts)
    requires HintsOk(s, f) && Control(s.c) && WEnabled(s.c, WFlag)
    ensures HintsOk(WNext(s, WFlag), Noted(f, s.c, WFlag))
  {
    hide FactsOk, SinkOk, Known, HintExpired, MakeHint;
  }

  lemma WFailKeepsHints(s: State, f: Facts)
    requires HintsOk(s, f) && Control(s.c) && WEnabled(s.c, WFail)
    ensures HintsOk(WNext(s, WFail), Noted(f, s.c, WFail))
  {
    hide FactsOk, SinkOk, Known, HintExpired, MakeHint;
  }

  lemma WCancelKeepsHints(s: State, f: Facts)
    requires HintsOk(s, f) && Control(s.c) && WEnabled(s.c, WCancel)
    ensures HintsOk(WNext(s, WCancel), Noted(f, s.c, WCancel))
  {
    hide FactsOk, SinkOk, Known, HintExpired, MakeHint;
  }

  lemma DispatcherKeepsHints(s: State, f: Facts, a: Action)
    requires HintsOk(s, f) && Control(s.c) && DEnabled(s.c, a)
    ensures HintsOk(DNext(s, a), Noted(f, s.c, a))
  {
    hide HintsOk, DNext, Noted, Control;
    match a {
      case DWait => DWaitKeepsHints(s, f);
      case DSpurious => DSpuriousKeepsHints(s, f);
      case DContext(ok) => DContextKeepsHints(s, f, ok);
      case DSelectNothing => DSelectNothingKeepsHints(s, f);
      case DSelectThrows => DSelectThrowsKeepsHints(s, f);
      case DSelect(binding, subscription, rosMessage) => DSelectKeepsHints(s, f, binding, subscription, rosMessage);
      case DPrepare(throws, clock) => DPrepareKeepsHints(s, f, throws, clock);
      case DTake(outcome) => DTakeKeepsHints(s, f, outcome);
      case DExtract(throws, jobId, release, observerThrows) =>
        DExtractKeepsHints(s, f, throws, jobId, release, observerThrows);
      case DCheck(clock) => DCheckKeepsHints(s, f, clock);
      case DDrop(throws) => DDropKeepsHints(s, f, throws);
      case DPublish(throws) => DPublishKeepsHints(s, f, throws);
      case DHandoff => DHandoffKeepsHints(s, f);
      case DNotify => DNotifyKeepsHints(s, f);
      case DUnwind => DUnwindKeepsHints(s, f);
      case DLeave => DLeaveKeepsHints(s, f);
      case DFinish(throws) => DFinishKeepsHints(s, f, throws);
      case DJoin => DJoinKeepsHints(s, f);
    }
  }

  lemma WorkerKeepsHints(s: State, f: Facts, a: Action)
    requires HintsOk(s, f) && Control(s.c) && WEnabled(s.c, a)
    ensures HintsOk(WNext(s, a), Noted(f, s.c, a))
  {
    hide HintsOk, WNext, Noted, Control;
    match a {
      case WConfigure(throws) => WConfigureKeepsHints(s, f, throws);
      case WReady => WReadyKeepsHints(s, f);
      case WNotify => WNotifyKeepsHints(s, f);
      case WPark => WParkKeepsHints(s, f);
      case WWait => WWaitKeepsHints(s, f);
      case WSpurious => WSpuriousKeepsHints(s, f);
      case WStart(clock) => WStartKeepsHints(s, f, clock);
      case WDrop(throws) => WDropKeepsHints(s, f, throws);
      case WReturn => WReturnKeepsHints(s, f);
      case WThrow => WThrowKeepsHints(s, f);
      case WCleanup => WCleanupKeepsHints(s, f);
      case WClear(throws) => WClearKeepsHints(s, f, throws);
      case WFlag => WFlagKeepsHints(s, f);
      case WFail => WFailKeepsHints(s, f);
      case WCancel => WCancelKeepsHints(s, f);
    }
  }

  lemma CancelKeepsHints(s: State, f: Facts)
    requires HintsOk(s, f)
    ensures HintsOk(s.(c := s.c.(spinning := false)), f)
  {
    hide FactsOk, SinkOk, Known, HintExpired;
  }

  lemma NextKeepsHints(s: State, f: Facts, a: Action)
    requires HintsOk(s, f) && Control(s.c) && Enabled(s.c, a)
    ensures HintsOk(Next(s, a), Noted(f, s.c, a))
  {
    hide HintsOk, DNext, WNext, Control;
    if DEnabled(s.c, a) {
      DispatcherKeepsHints(s, f, a);
    } else if WEnabled(s.c, a) {
      WorkerKeepsHints(s, f, a);
    } else {
      CancelKeepsHints(s, f);
    }
  }

  lemma {:induction false} RunKeepsHints(actions: seq<Action>)
    requires IsRun(actions)
    ensures HintsOk(After(actions), FactsAfter(actions))
    decreases |actions|
  {
    hide HintsOk, Noted, Next, Enabled;
    if actions == [] {
      InitialHints();
    } else {
      var n := |actions| - 1;
      RunKeepsHints(actions[..n]);
      RunKeepsInv(actions[..n], 0);
      NextKeepsHints(After(actions[..n]), FactsAfter(actions[..n]), actions[n]);
    }
  }

  lemma InitialHints()
    ensures HintsOk(INIT, NoFacts())
  {
  }

  // ---------------------------------------------------------------- the guarantees

  /** On every run, every hint the sink was given is that of an executable the executor selected: it carries
      the stage, class, stale bound, budget, slice and weight of the profile bound to the executable, the
      job id and release time it was given, and the deadline these make, or the greatest 64-bit value if
      that is smaller. */
  lemma {:induction false} PublishedHints(actions: seq<Action>, i: nat)
    requires IsRun(actions) && i < |After(actions).log.sink| && After(actions).log.sink[i].Published?
    ensures var item, k := After(actions).log.sink[i].item, FactsAfter(actions).k;
            && item.id in k.bound && item.id in k.metadata
            && var p, md, h := k.bound[item.id].profile, k.metadata[item.id], item.hint;
               && h.stageId == p.stageId && h.classId == p.classId && h.jobId == md.jobId && h.release == md.release
               && h.stale == p.stale && h.budget == p.budget && h.slice == p.slice && h.weight == p.weight
               && (if p.relativeDeadline == 0 then h.deadline == 0
                   else if md.release + p.relativeDeadline > U64_MAX then h.deadline == U64_MAX
                   else h.deadline == md.release + p.relativeDeadline)
  {
    hide IsRun, After, FactsAfter, FactsOk, BodyOk, TroubleOk;
    RunKeepsHints(actions);
  }

  /** On every run, the executables without an extractor have the job ids 1, 2, 3 and so on, in the order in
      which they were prepared, which is that of their selection. */
  lemma {:induction false} StampedInOrder(actions: seq<Action>, id: nat)
    requires IsRun(actions) && id in FactsAfter(actions).k.metadata && Unaware(FactsAfter(actions).k, id)
    ensures var k := FactsAfter(actions).k;
            && (exists i :: 0 <= i < |k.stamped| && k.stamped[i] == id && k.metadata[id].jobId == i + 1)
            && (forall i, j :: 0 <= i < j < |k.stamped| ==> k.stamped[i] < k.stamped[j])
  {
    hide IsRun, After, FactsAfter, SinkOk, BodyOk, TroubleOk;
    RunKeepsHints(actions);
  }

  /** On every run, the dispatcher's check drops a message before handing it over exactly when its profile
      asks to reject expired messages and it is past its deadline or stale bound at that instant: nothing of
      the kind is published, and nothing else is dropped early. */
  lemma {:induction false} EarlyDropIff(actions: seq<Action>)
    requires IsRun(actions)
    ensures var c := After(actions).c;
            && (c.d.DropEarly? ==> c.binding.profile.rejectExpired && HintExpired(c.current.hint, c.now))
            && (c.d.Publish? && c.binding.aware ==>
                  !(c.binding.profile.rejectExpired && HintExpired(c.current.hint, c.now)))
  {
    hide IsRun, After, FactsAfter, FactsOk, SinkOk, HintExpired, Known, TroubleOk;
    RunKeepsHints(actions);
  }

  /** On every run, the selections reported to observers are those of the described messages whose binding
      has an observer. */
  lemma {:induction false} EverySelectionObserved(actions: seq<Action>)
    requires IsRun(actions)
    ensures After(actions).log.selected == FactsAfter(actions).seen
  {
    hide IsRun, After, FactsAfter, FactsOk, SinkOk, BodyOk, TroubleOk;
    RunKeepsHints(actions);
  }

  /** The dispatcher leaves its loop exactly when it has found the context invalid or the executor cancelled,
      or has met an exception that it has cleaned up after. */
  lemma {:induction false} LeavesIff(actions: seq<Action>)
    requires IsRun(actions)
    ensures var c, f := After(actions).c, FactsAfter(actions);
            Leaving(c.d) <==> f.quit || (f.failed && !c.d.Unwind?)
  {
    hide IsRun, After, FactsAfter, FactsOk, SinkOk, BodyOk;
    RunKeepsInv(actions, 0);
    RunKeepsHints(actions);
  }

  /** When `spin` is over, it has an exception of the dispatcher to rethrow exactly if the dispatcher met one,
      and one of the worker exactly if the worker did. */
  lemma {:induction false} RethrowsIff(actions: seq<Action>)
    requires IsRun(actions) && After(actions).c.d.Done?
    ensures var c, f := After(actions).c, FactsAfter(actions);
            (c.dispatchError <==> f.failed) && (c.error <==> f.broken)
  {
    hide IsRun, After, FactsAfter, FactsOk, SinkOk, BodyOk;
    RunKeepsInv(actions, 0);
    RunKeepsHints(actions);
  }
}
