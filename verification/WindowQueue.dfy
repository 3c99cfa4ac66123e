/**
 The legacy demo's stage: a locked queue with stale eviction (`BlockingQueue`), its single consumer
 (`stage_worker`) and the fixed-window counters of demo/window_metrics.h.

 Every critical section of the queue and every completion of the consumer is one timestamped step; the
 timestamps are those the code itself reads. `Apply` is the meaning of one step; the class at the end
 holds the queue's own code and is proved against it.
 */
module WindowQueue {
  import opened Bits
  import opened Options

  datatype Item = Item(sequence: nat, ts: nat)

  /** `staleNs` zero means no staleness bound; `dropStale` makes the consumer skip stale items and the
      producers evict them; `cutoff` zero switches the window counters off. */
  datatype Config = Config(staleNs: nat, dropStale: bool, cutoff: nat)

  predicate IsStale(now: nat, item: Item, cfg: Config) {
    cfg.staleNs != 0 && now > item.ts && now - item.ts > cfg.staleNs
  }

  predicate Inside(now: nat, cfg: Config) {
    cfg.cutoff != 0 && now < cfg.cutoff
  }

  // ---------------------------------------------------------------- the queue

  datatype WindowStats = WindowStats(offered: nat, dequeued: nat, evicted: nat)

  /** `hint` is the consumer's entry in the hint map. */
  datatype Queue = Queue(
    items: seq<Item>, stop: bool, waiting: bool, evictedTotal: nat, window: WindowStats, hint: Option<Item>)

  function EmptyQueue(): Queue { Queue([], false, false, 0, WindowStats(0, 0, 0), None) }

  /** The items a producer keeps at `now`. */
  function Kept(items: seq<Item>, now: nat, cfg: Config): seq<Item> {
    if items == [] then []
    else
      Kept(items[..|items| - 1], now, cfg) +
      if cfg.dropStale && IsStale(now, items[|items| - 1], cfg) then [] else [items[|items| - 1]]
  }

  lemma {:induction false} KeptShorter(items: seq<Item>, now: nat, cfg: Config)
    ensures |Kept(items, now, cfg)| <= |items|
  {
    if items != [] {
      KeptShorter(items[..|items| - 1], now, cfg);
    }
  }

  function Evicted(items: seq<Item>, now: nat, cfg: Config): nat {
    KeptShorter(items, now, cfg);
    |items| - |Kept(items, now, cfg)|
  }

  function Pushed(q: Queue, v: Item, now: nat, cfg: Config): Queue {
    var n := Evicted(q.items, now, cfg);
    var inside := Inside(now, cfg);
    q.(items := Kept(q.items, now, cfg) + [v], evictedTotal := q.evictedTotal + n, waiting := false,
       window := q.window.(offered := q.window.offered + Bit(inside),
                           evicted := q.window.evicted + if inside then n else 0),
       hint := if q.waiting then Some(v) else q.hint)
  }

  /** The end of `pop`: take the front and publish its hint. */
  function TakeFront(q: Queue, now: nat, cfg: Config): Queue
    requires q.items != []
  {
    q.(items := q.items[1..], waiting := false, hint := Some(q.items[0]),
       window := q.window.(dequeued := q.window.dequeued + Bit(Inside(now, cfg))))
  }

  // ---------------------------------------------------------------- the stage

  /** Where the consumer is: between iterations, inside `cv_.wait`, holding a popped item, computing it,
      about to hand it to the next queue, or gone. */
  datatype Consumer =
    | Outside(last: Option<Item>)
    | InWait
    | Popped(item: Item)
    | Computing(item: Item)
    | Forwarding(item: Item)
    | Finished

  /** `windowForwarded` counts this stage's share of the next queue's `window.offered`. */
  datatype StageStats = StageStats(
    processed: nat, droppedStale: nat, windowStarted: nat, windowCompleted: nat, windowDropped: nat,
    windowForwarded: nat)

  datatype Stage = Stage(queue: Queue, consumer: Consumer, stats: StageStats)

  function NewStage(): Stage { Stage(EmptyQueue(), Outside(None), StageStats(0, 0, 0, 0, 0, 0)) }

  datatype Op =
    | PushOp(now: nat, item: Item)
    | PopOp(now: nat)
    | WakeOp(now: nat)
    | StartOp(now: nat)
    | CompleteOp(now: nat)
    | ForwardOp(now: nat)
    | ExitOp(now: nat)
    | StopOp(now: nat)

  predicate Enabled(s: Stage, op: Op) {
    match op
    case PushOp(_, _) => true
    case PopOp(_) => s.consumer.Outside?
    case WakeOp(_) => s.consumer.InWait?
    case StartOp(_) => s.consumer.Popped?
    case CompleteOp(_) => s.consumer.Computing?
    case ForwardOp(_) => s.consumer.Forwarding?
    case ExitOp(_) => s.consumer.Outside?
    case StopOp(_) => true
  }

  /** The loop test of `pop`, holding the lock. */
  function PopCheck(s: Stage, now: nat, cfg: Config): Stage {
    var q := s.queue;
    if q.stop then s.(queue := q.(waiting := false), consumer := Finished)
    else if q.items == [] then s.(queue := q.(waiting := true), consumer := InWait)
    else s.(queue := TakeFront(q, now, cfg), consumer := Popped(q.items[0]))
  }

  function Apply(s: Stage, op: Op, cfg: Config): Stage
    requires Enabled(s, op)
  {
    match op
    case PushOp(now, v) => s.(queue := Pushed(s.queue, v, now, cfg))
    case PopOp(now) => PopCheck(s, now, cfg)
    case WakeOp(now) => PopCheck(s, now, cfg)
    case StartOp(now) =>
      var started := s.stats.(windowStarted := s.stats.windowStarted + Bit(Inside(now, cfg)));
      if cfg.dropStale && IsStale(now, s.consumer.item, cfg) then
        s.(consumer := Outside(Some(s.consumer.item)),
           stats := started.(droppedStale := s.stats.droppedStale + 1,
                             windowDropped := s.stats.windowDropped + Bit(Inside(now, cfg))))
      else s.(consumer := Computing(s.consumer.item), stats := started)
    case CompleteOp(now) =>
      s.(consumer := Forwarding(s.consumer.item),
         stats := s.stats.(processed := s.stats.processed + 1,
                           windowCompleted := s.stats.windowCompleted + Bit(Inside(now, cfg))))
    case ForwardOp(now) =>
      s.(consumer := Outside(Some(s.consumer.item)),
         stats := s.stats.(windowForwarded := s.stats.windowForwarded + Bit(Inside(now, cfg))))
    case ExitOp(_) => s.(consumer := Finished)
    case StopOp(_) => s.(queue := s.queue.(stop := true))
  }

  /** A run: enabled steps whose timestamps never decrease. */
  predicate IsRun(ops: seq<Op>, cfg: Config)
    decreases |ops|, 0
  {
    ops == [] ||
    (var n := |ops| - 1;
     && IsRun(ops[..n], cfg) && Enabled(After(ops[..n], cfg), ops[n])
     && (n > 0 ==> ops[n - 1].now <= ops[n].now))
  }

  function After(ops: seq<Op>, cfg: Config): Stage
    requires IsRun(ops, cfg)
    decreases |ops|, 1
  {
    if ops == [] then NewStage() else Apply(After(ops[..|ops| - 1], cfg), ops[|ops| - 1], cfg)
  }

  // ---------------------------------------------------------------- cutoff reconstruction

  /** `WindowQueueStats::pending`, before it is known not to wrap. */
  function Pending(s: Stage): int {
    s.queue.window.offered - s.queue.window.dequeued - s.queue.window.evicted
  }

  /** The in-flight count of `print_window_stage`, before it is known not to wrap. */
  function InFlight(s: Stage): int {
    s.queue.window.dequeued - s.stats.windowCompleted - s.stats.windowDropped
  }

  /** While every step so far was inside the window, the counters describe the present. */
  predicate Present(s: Stage) {
    && Pending(s) == |s.queue.items| && InFlight(s) == Bit(Held(s))
    && s.queue.window.dequeued - s.stats.windowStarted == Bit(s.consumer.Popped?)
    && s.stats.windowCompleted - s.stats.windowForwarded == Bit(s.consumer.Forwarding?)
  }

  /** The consumer has taken an item and not finished with it. */
  predicate Held(s: Stage) {
    s.consumer.Popped? || s.consumer.Computing?
  }

  lemma NewIsPresent()
    ensures Present(NewStage())
  {
  }

  lemma ApplyInside(s: Stage, op: Op, cfg: Config)
    requires Present(s) && Enabled(s, op) && Inside(op.now, cfg)
    ensures Present(Apply(s, op, cfg))
  {
  }

  /** A step outside the window leaves every window counter alone. */
  lemma ApplyOutside(s: Stage, op: Op, cfg: Config)
    requires Enabled(s, op) && !Inside(op.now, cfg)
    ensures var s' := Apply(s, op, cfg);
            SameCounters(s', s)
  {
  }

  /** How many steps lie before the cutoff. */
  function BeforeCutoff(ops: seq<Op>, cfg: Config): (k: nat)
    ensures k <= |ops|
  {
    if ops == [] then 0
    else if Inside(ops[|ops| - 1].now, cfg) then |ops|
    else BeforeCutoff(ops[..|ops| - 1], cfg)
  }

  lemma {:induction false} PrefixIsRun(ops: seq<Op>, cfg: Config, k: nat)
    requires IsRun(ops, cfg) && k <= |ops|
    ensures IsRun(ops[..k], cfg)
  {
    if k < |ops| {
      var n := |ops| - 1;
      PrefixIsRun(ops[..n], cfg, k);
      assert ops[..n][..k] == ops[..k];
    } else {
      assert ops[..k] == ops;
    }
  }

  lemma {:induction false} InsideIsPrefix(ops: seq<Op>, cfg: Config, i: nat)
    requires IsRun(ops, cfg) && ops != [] && Inside(ops[|ops| - 1].now, cfg) && i < |ops|
    ensures Inside(ops[i].now, cfg)
  {
    var n := |ops| - 1;
    if i < n {
      InsideIsPrefix(ops[..n], cfg, i);
    }
  }

  lemma {:induction false} InsideRunIsPresent(ops: seq<Op>, cfg: Config)
    requires IsRun(ops, cfg) && (ops != [] ==> Inside(ops[|ops| - 1].now, cfg))
    ensures Present(After(ops, cfg))
  {
    hide Apply, Present, Enabled;
    if ops == [] {
      NewIsPresent();
    } else {
      var n := |ops| - 1;
      if n > 0 {
        InsideIsPrefix(ops, cfg, n - 1);
      }
      InsideRunIsPresent(ops[..n], cfg);
      ApplyInside(After(ops[..n], cfg), ops[n], cfg);
    }
  }

  /** Two states with the same window counters. */
  predicate SameCounters(s: Stage, t: Stage) {
    s.queue.window == t.queue.window &&
    s.stats == t.stats.(processed := s.stats.processed, droppedStale := s.stats.droppedStale)
  }

  lemma {:induction false} CountersStopAtCutoff(ops: seq<Op>, cfg: Config)
    requires IsRun(ops, cfg)
    ensures IsRun(ops[..BeforeCutoff(ops, cfg)], cfg)
    ensures var cut := After(ops[..BeforeCutoff(ops, cfg)], cfg);
            Present(cut) && SameCounters(After(ops, cfg), cut)
  {
    hide Apply, Enabled, Present;
    var n := |ops| - 1;
    if ops == [] || Inside(ops[n].now, cfg) {
      assert ops[..|ops|] == ops;
      InsideRunIsPresent(ops, cfg);
    } else {
      CountersStopAtCutoff(ops[..n], cfg);
      assert ops[..n][..BeforeCutoff(ops[..n], cfg)] == ops[..BeforeCutoff(ops, cfg)];
      ApplyOutside(After(ops[..n], cfg), ops[n], cfg);
    }
  }

  /** The first `k` operations, and no others, lie before the cutoff. */
  predicate SplitsAtCutoff(ops: seq<Op>, k: nat, cfg: Config) {
    forall i :: 0 <= i < |ops| ==> (i < k <==> cfg.cutoff > 0 && ops[i].now < cfg.cutoff)
  }

  lemma {:induction false} CutoffSplits(ops: seq<Op>, cfg: Config)
    requires IsRun(ops, cfg)
    ensures SplitsAtCutoff(ops, BeforeCutoff(ops, cfg), cfg)
  {
    hide After, Enabled, Apply;
    if ops != [] {
      var n := |ops| - 1;
      if Inside(ops[n].now, cfg) {
        forall i | 0 <= i < |ops| ensures Inside(ops[i].now, cfg) {
          InsideIsPrefix(ops, cfg, i);
        }
      } else {
        CutoffSplits(ops[..n], cfg);
      }
    }
  }

  /** At the end of any run, whatever happened after the cutoff, the window counters give the queue
      length and the in-flight count (zero or one) of the state after the last step before the cutoff,
      a state nobody looked at; neither subtraction wraps, everything offered is accounted for, and the
      next queue was delivered at most one item fewer than this stage completed, and never more. */
  lemma {:induction false} CutoffReconstruction(ops: seq<Op>, cfg: Config)
    requires IsRun(ops, cfg)
    ensures IsRun(ops[..BeforeCutoff(ops, cfg)], cfg)
    ensures SplitsAtCutoff(ops, BeforeCutoff(ops, cfg), cfg)
    ensures var end, cut := After(ops, cfg), After(ops[..BeforeCutoff(ops, cfg)], cfg);
            && Pending(end) == |cut.queue.items|
            && InFlight(end) == Bit(Held(cut))
            && end.queue.window.dequeued + end.queue.window.evicted <= end.queue.window.offered
            && end.stats.windowCompleted + end.stats.windowDropped <= end.queue.window.dequeued
            && end.queue.window.offered == end.stats.windowCompleted + end.stats.windowDropped +
                                           end.queue.window.evicted + Pending(end) + InFlight(end)
            && end.stats.windowStarted + Bit(cut.consumer.Popped?) == end.queue.window.dequeued
            && end.stats.windowForwarded + Bit(cut.consumer.Forwarding?) == end.stats.windowCompleted
  {
    hide IsRun, After, BeforeCutoff;
    CountersStopAtCutoff(ops, cfg);
    CutoffSplits(ops, cfg);
  }

  // ---------------------------------------------------------------- hints

  /** The consumer sleeps and has been promised `hint`'s item by a producer. */
  predicate Woken(s: Stage) {
    s.consumer.InWait? && !s.queue.waiting
  }

  predicate HintInv(s: Stage) {
    && (s.queue.waiting ==> s.consumer.InWait? && s.queue.items == [])
    && ((Held(s) || s.consumer.Forwarding?) ==> s.queue.hint == Some(s.consumer.item))
    && (s.consumer.Outside? && s.consumer.last.Some? ==> s.queue.hint == s.consumer.last)
    && (Woken(s) ==> s.queue.items != [] && s.queue.hint.Some?)
  }

  lemma {:induction false} RunKeepsHints(ops: seq<Op>, cfg: Config)
    requires IsRun(ops, cfg)
    ensures HintInv(After(ops, cfg))
  {
    if ops != [] {
      RunKeepsHints(ops[..|ops| - 1], cfg);
      ApplyKeepsHints(After(ops[..|ops| - 1], cfg), ops[|ops| - 1], cfg);
    }
  }

  lemma ApplyKeepsHints(s: Stage, op: Op, cfg: Config)
    requires HintInv(s) && Enabled(s, op)
    ensures HintInv(Apply(s, op, cfg))
  {
  }

  /** From the return of `pop` until the consumer waits again, the hint is exactly the popped item and no
      producer's push publishes over it. */
  lemma {:induction false} PoppedItemKeepsHint(ops: seq<Op>, cfg: Config, v: Item, now: nat)
    requires IsRun(ops, cfg)
    ensures var s := After(ops, cfg);
            && ((Held(s) || s.consumer.Forwarding?) ==> s.queue.hint == Some(s.consumer.item))
            && (s.consumer.Outside? && s.consumer.last.Some? ==> s.queue.hint == s.consumer.last)
            && (!s.consumer.InWait? ==> Pushed(s.queue, v, now, cfg).hint == s.queue.hint)
  {
    RunKeepsHints(ops, cfg);
  }

  lemma {:induction false} KeptAll(items: seq<Item>, now: nat, cfg: Config)
    requires !cfg.dropStale
    ensures Kept(items, now, cfg) == items
  {
    if items != [] {
      KeptAll(items[..|items| - 1], now, cfg);
    }
  }

  /** With eviction off, a consumer woken by a push has the hint of the queue's head until it pops,
      whatever is pushed in between. */
  lemma {:induction false} WokenHintIsHead(ops: seq<Op>, cfg: Config)
    requires IsRun(ops, cfg) && !cfg.dropStale
    ensures var s := After(ops, cfg); Woken(s) ==> s.queue.items != [] && s.queue.hint == Some(s.queue.items[0])
  {
    if ops != [] {
      var n := |ops| - 1;
      WokenHintIsHead(ops[..n], cfg);
      RunKeepsHints(ops[..n], cfg);
      if ops[n].PushOp? {
        KeptAll(After(ops[..n], cfg).queue.items, ops[n].now, cfg);
      }
    }
  }

  lemma {:induction false} KeptHead(items: seq<Item>, now: nat, cfg: Config)
    requires items != [] && !(cfg.dropStale && IsStale(now, items[0], cfg))
    ensures Kept(items, now, cfg) != [] && Kept(items, now, cfg)[0] == items[0]
  {
    if |items| > 1 {
      KeptHead(items[..|items| - 1], now, cfg);
    } else {
      assert items[..0] == [];
    }
  }

  lemma {:induction false} KeptFresh(items: seq<Item>, now: nat, cfg: Config, item: Item)
    requires cfg.dropStale && IsStale(now, item, cfg)
    ensures item !in Kept(items, now, cfg)
  {
    if items != [] {
      KeptFresh(items[..|items| - 1], now, cfg, item);
    }
  }

  lemma {:induction false} KeptFrom(items: seq<Item>, now: nat, cfg: Config, item: Item)
    ensures item in Kept(items, now, cfg) ==> item in items
  {
    if items != [] {
      KeptFrom(items[..|items| - 1], now, cfg, item);
    }
  }

  /** Some push since the one that woke the consumer found the promised item stale. */
  ghost predicate PromiseWentStale(ops: seq<Op>, cfg: Config)
    requires IsRun(ops, cfg)
  {
    ops != [] &&
    (var n := |ops| - 1;
     var s := After(ops[..n], cfg);
     Woken(s) && (PromiseWentStale(ops[..n], cfg) || StalePush(s, ops[n], cfg)))
  }

  predicate StalePush(s: Stage, op: Op, cfg: Config) {
    op.PushOp? && cfg.dropStale && s.queue.hint.Some? && IsStale(op.now, s.queue.hint.value, cfg)
  }

  /** No item is pushed twice. */
  predicate DistinctPushes(ops: seq<Op>) {
    forall i, j :: 0 <= i < j < |ops| && ops[i].PushOp? && ops[j].PushOp? ==> ops[i].item != ops[j].item
  }

  predicate PushedIn(ops: seq<Op>, v: Item) {
    exists i :: 0 <= i < |ops| && ops[i].PushOp? && ops[i].item == v
  }

  /** Queue and hint hold pushed items only. */
  predicate FromPushes(s: Stage, ops: seq<Op>) {
    (forall v <- s.queue.items :: PushedIn(ops, v)) && (s.queue.hint.Some? ==> PushedIn(ops, s.queue.hint.value))
  }

  lemma StepFromPushes(s: Stage, ops: seq<Op>, op: Op, cfg: Config)
    requires FromPushes(s, ops) && Enabled(s, op)
    ensures FromPushes(Apply(s, op, cfg), ops + [op])
  {
    var all := ops + [op];
    forall v | PushedIn(ops, v) ensures PushedIn(all, v) {
      var i :| 0 <= i < |ops| && ops[i].PushOp? && ops[i].item == v;
      assert all[i] == ops[i];
    }
    if op.PushOp? {
      assert all[|ops|] == op && PushedIn(all, op.item);
      forall v | v in Kept(s.queue.items, op.now, cfg) ensures PushedIn(all, v) {
        KeptFrom(s.queue.items, op.now, cfg, v);
      }
    }
  }

  lemma {:induction false} RunFromPushes(ops: seq<Op>, cfg: Config)
    requires IsRun(ops, cfg)
    ensures FromPushes(After(ops, cfg), ops)
  {
    hide Apply, Enabled, FromPushes;
    if ops == [] {
      NewFromPushes();
    } else {
      var n := |ops| - 1;
      RunFromPushes(ops[..n], cfg);
      StepFromPushes(After(ops[..n], cfg), ops[..n], ops[n], cfg);
      assert ops[..n] + [ops[n]] == ops;
    }
  }

  lemma NewFromPushes()
    ensures FromPushes(NewStage(), [])
  {
  }

  /** The promised item heads the queue, or (`lost`) has been evicted from it. */
  predicate Promise(s: Stage, lost: bool) {
    s.queue.items != [] && s.queue.hint.Some? &&
    if lost then s.queue.hint.value !in s.queue.items else s.queue.items[0] == s.queue.hint.value
  }

  lemma StepKeepsPromise(s: Stage, op: Op, cfg: Config, lost: bool)
    requires HintInv(s) && Enabled(s, op) && (Woken(s) ==> Promise(s, lost))
    requires op.PushOp? && s.queue.hint.Some? ==> s.queue.hint.value != op.item
    ensures var s' := Apply(s, op, cfg); Woken(s') ==> Promise(s', Woken(s) && (lost || StalePush(s, op, cfg)))
  {
    if op.PushOp? && Woken(s) {
      KeptFrom(s.queue.items, op.now, cfg, s.queue.hint.value);
      if StalePush(s, op, cfg) {
        KeptFresh(s.queue.items, op.now, cfg, s.queue.hint.value);
      } else if !lost {
        KeptHead(s.queue.items, op.now, cfg);
      }
    }
  }

  lemma {:induction false} RunKeepsPromise(ops: seq<Op>, cfg: Config)
    requires IsRun(ops, cfg) && DistinctPushes(ops)
    ensures Woken(After(ops, cfg)) ==> Promise(After(ops, cfg), PromiseWentStale(ops, cfg))
  {
    hide Apply, Enabled, Promise, HintInv;
    if ops != [] {
      var n := |ops| - 1;
      var s := After(ops[..n], cfg);
      RunKeepsPromise(ops[..n], cfg);
      RunKeepsHints(ops[..n], cfg);
      RunFromPushes(ops[..n], cfg);
      if ops[n].PushOp? && s.queue.hint.Some? {
        var i :| 0 <= i < n && ops[..n][i].PushOp? && ops[..n][i].item == s.queue.hint.value;
        assert ops[i].item != ops[n].item;
      }
      StepKeepsPromise(s, ops[n], cfg, PromiseWentStale(ops[..n], cfg));
    }
  }

  /** With eviction on, a woken consumer's hint names the queue's head exactly when no push since the
      waking one found the promised item stale; once one did, the item is gone from the queue. */
  lemma {:induction false} WokenHintIsHeadIff(ops: seq<Op>, cfg: Config)
    requires IsRun(ops, cfg) && DistinctPushes(ops) && Woken(After(ops, cfg))
    ensures var q := After(ops, cfg).queue;
            && q.items != [] && q.hint.Some?
            && (q.hint == Some(q.items[0]) <==> !PromiseWentStale(ops, cfg))
            && (PromiseWentStale(ops, cfg) ==> q.hint.value !in q.items)
  {
    hide IsRun, After, PromiseWentStale, DistinctPushes;
    RunKeepsPromise(ops, cfg);
  }

  lemma {:induction false} Extend(ops: seq<Op>, cfg: Config, op: Op)
    requires IsRun(ops, cfg) && Enabled(After(ops, cfg), op) && (ops != [] ==> ops[|ops| - 1].now <= op.now)
    ensures IsRun(ops + [op], cfg) && After(ops + [op], cfg) == Apply(After(ops, cfg), op, cfg)
  {
    assert (ops + [op])[..|ops|] == ops;
  }

  /** A new stage whose consumer has gone to sleep. */
  function Asleep(): Stage {
    NewStage().(queue := EmptyQueue().(waiting := true), consumer := InWait)
  }

  lemma {:induction false} FallsAsleep(cfg: Config, now: nat)
    ensures IsRun([PopOp(now)], cfg) && After([PopOp(now)], cfg) == Asleep()
  {
    hide IsRun, After;
    NothingRun(cfg);
    Extend([], cfg, PopOp(now));
    assert [] + [PopOp(now)] == [PopOp(now)];
  }

  lemma {:induction false} NothingRun(cfg: Config)
    ensures IsRun([], cfg) && After([], cfg) == NewStage()
  {
  }

  /** The sleeping consumer's stage after one push: awake, with the hint of the only item. */
  lemma Promised(cfg: Config, v: Item, now: nat)
    ensures var s := Apply(Asleep(), PushOp(now, v), cfg);
            && s.consumer.InWait? && !s.queue.waiting && s.queue.items == [v] && s.queue.hint == Some(v)
  {
    assert Kept([], now, cfg) == [];
  }

  lemma {:induction false} KeptNothing(cfg: Config, v: Item, now: nat)
    requires cfg.dropStale && IsStale(now, v, cfg)
    ensures Kept([v], now, cfg) == []
  {
    assert [v][..0] == [] && Kept([], now, cfg) == [];
  }

  /** ... and after a second push that finds the item stale. */
  lemma PromiseEvicted(s: Stage, cfg: Config, v: Item, w: Item, now: nat)
    requires cfg.dropStale && IsStale(now, v, cfg)
    requires s.consumer.InWait? && !s.queue.waiting && s.queue.items == [v] && s.queue.hint == Some(v)
    ensures var s' := Apply(s, PushOp(now, w), cfg);
            && s'.consumer.InWait? && !s'.queue.waiting && s'.queue.items == [w] && s'.queue.hint == Some(v)
  {
    hide Kept;
    KeptNothing(cfg, v, now);
    assert [] + [w] == [w];
  }

  /** Such runs exist for every configuration with eviction: the consumer sleeps, `v` wakes it, and a push
      of `w` that finds `v` stale evicts it before the consumer runs. With a bound of 5, `v` pushed at
      time 0 and `w` at time 6 are enough. */
  lemma {:induction false} WokenHintCanBeLost(cfg: Config, v: Item, w: Item, now: nat)
    requires cfg.dropStale && IsStale(now, v, cfg)
    ensures var ops := [PopOp(v.ts), PushOp(v.ts, v), PushOp(now, w)];
            && IsRun(ops, cfg)
            && Woken(After(ops, cfg))
            && After(ops, cfg).queue.hint == Some(v) && After(ops, cfg).queue.items == [w]
  {
    hide IsRun, After, Apply, Asleep;
    var a, b, c := PopOp(v.ts), PushOp(v.ts, v), PushOp(now, w);
    assert [a] + [b] == [a, b] && [a, b] + [c] == [a, b, c];
    FallsAsleep(cfg, v.ts);
    Promised(cfg, v, v.ts);
    Extend([a], cfg, b);
    PromiseEvicted(After([a, b], cfg), cfg, v, w, now);
    Extend([a, b], cfg, c);
  }

  // ---------------------------------------------------------------- eviction in place

  /** `items` is `before` with the stale among its first `seen` items erased; `i` of those remain. */
  predicate Scanned(before: seq<Item>, seen: nat, items: seq<Item>, i: nat, now: nat, cfg: Config) {
    && seen <= |before|
    && items == Kept(before[..seen], now, cfg) + before[seen..]
    && i == |Kept(before[..seen], now, cfg)|
  }

  /** `n` evictions have been counted, in the window only if `now` lies inside it. */
  predicate Tallied(n: int, total0: nat, total: nat, window0: WindowStats, window: WindowStats, now: nat, cfg: Config) {
    n >= 0 && total == total0 + n && window == window0.(evicted := window0.evicted + if Inside(now, cfg) then n else 0)
  }

  lemma TallyStep(n: int, total0: nat, total: nat, window0: WindowStats, window: WindowStats, now: nat, cfg: Config)
    requires Tallied(n, total0, total, window0, window, now, cfg)
    ensures var window' := if Inside(now, cfg) then window.(evicted := window.evicted + 1) else window;
            Tallied(n + 1, total0, total + 1, window0, window', now, cfg)
  {
  }

  lemma ScanStart(before: seq<Item>, now: nat, cfg: Config)
    ensures Scanned(before, 0, before, 0, now, cfg)
  {
    assert before[..0] == [];
  }

  lemma ScanStep(before: seq<Item>, seen: nat, items: seq<Item>, i: nat, now: nat, cfg: Config)
    requires Scanned(before, seen, items, i, now, cfg) && i < |items| && cfg.dropStale
    ensures if IsStale(now, items[i], cfg) then Scanned(before, seen + 1, items[..i] + items[i + 1..], i, now, cfg)
            else Scanned(before, seen + 1, items, i + 1, now, cfg)
  {
    assert before[..seen + 1][..seen] == before[..seen] && items[i] == before[seen];
  }

  lemma {:induction false} ScanEnd(before: seq<Item>, seen: nat, items: seq<Item>, i: nat, now: nat, cfg: Config)
    requires Scanned(before, seen, items, i, now, cfg) && i == |items|
    ensures seen == |before| && items == Kept(before, now, cfg)
  {
    assert before[..|before|] == before;
  }

  // ---------------------------------------------------------------- the class

  /** `BlockingQueue`. A call of `pop` is its two critical sections: up to the wait, and from a wake-up on. */
  class BlockingQueue {
    const cfg: Config
    var items: seq<Item>
    var stop: bool
    var waiting: bool
    var evictedTotal: nat
    var window: WindowStats
    var hint: Option<Item>

    function State(): Queue
      reads this
    {
      Queue(items, stop, waiting, evictedTotal, window, hint)
    }

    constructor (cfg: Config)
      ensures this.cfg == cfg && State() == EmptyQueue()
    {
      this.cfg := cfg;
      items, stop, waiting, evictedTotal, window, hint := [], false, false, 0, WindowStats(0, 0, 0), None;
    }

    /** `evict_stale_locked`: one pass over the queue, erasing in place. */
    method EvictStale(now: nat)
      modifies this`items, this`evictedTotal, this`window
      ensures items == Kept(old(items), now, cfg)
      ensures evictedTotal == old(evictedTotal) + Evicted(old(items), now, cfg)
      ensures var n := if Inside(now, cfg) then Evicted(old(items), now, cfg) else 0;
              window == old(window).(evicted := old(window.evicted) + n)
    {
      if !cfg.dropStale || cfg.staleNs == 0 {
        NothingStale(items, now, cfg);
        return;
      }
      var i := 0;
      ghost var before, seen := items, 0;
      ScanStart(before, now, cfg);
      while i < |items|
        invariant Scanned(before, seen, items, i, now, cfg)
        invariant Tallied(seen - i, old(evictedTotal), evictedTotal, old(window), window, now, cfg)
        decreases |items| - i
      {
        hide Scanned, Tallied;
        ScanStep(before, seen, items, i, now, cfg);
        TallyStep(seen - i, old(evictedTotal), evictedTotal, old(window), window, now, cfg);
        if IsStale(now, items[i], cfg) {
          items := items[..i] + items[i + 1..];
          evictedTotal := evictedTotal + 1;
          if Inside(now, cfg) {
            window := window.(evicted := window.evicted + 1);
          }
        } else {
          i := i + 1;
        }
        seen := seen + 1;
      }
      ScanEnd(before, seen, items, i, now, cfg);
    }

    method Push(v: Item, now: nat)
      modifies this
      ensures State() == Pushed(old(State()), v, now, cfg)
    {
      EvictStale(now);
      if Inside(now, cfg) {
        window := window.(offered := window.offered + 1);
      }
      if waiting {
        hint := Some(v);
        waiting := false;
      }
      items := items + [v];
    }

    /** Returns the popped item, or nothing after going to sleep or finding the queue stopped. */
    method PopSection(now: nat) returns (out: Option<Item>)
      modifies this
      ensures var s := PopCheck(Stage(old(State()), InWait, NewStage().stats), now, cfg);
              State() == s.queue && out == if s.consumer.Popped? then Some(s.consumer.item) else None
    {
      waiting := false;
      if !stop && items == [] {
        waiting := true;
        return None;
      }
      if stop {
        return None;
      }
      out := Some(items[0]);
      if Inside(now, cfg) {
        window := window.(dequeued := window.dequeued + 1);
      }
      items := items[1..];
      hint := out;
    }
  }

  lemma {:induction false} NothingStale(items: seq<Item>, now: nat, cfg: Config)
    requires !cfg.dropStale || cfg.staleNs == 0
    ensures Kept(items, now, cfg) == items
  {
    if items != [] {
      NothingStale(items[..|items| - 1], now, cfg);
    }
  }
}
