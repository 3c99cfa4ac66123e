/**
 First in, first out: the queue of the older demo against a ledger of its pushes. The ledger is written from
 the operations alone. A push adds an entry after striking out the queued ones that have grown too old; a
 pop takes the oldest entry still queued.
 */
module WindowLedger {
  import opened Bits
  import opened Options
  import opened WindowQueue

  datatype Fate = Queued | Taken | Evicted

  datatype Entry = Entry(item: Item, fate: Fate)

  // ---------------------------------------------------------------- the ledger

  /** The item has outlived the staleness bound, and the stage drops such items. */
  predicate TooOld(now: nat, item: Item, cfg: Config) {
    cfg.dropStale && cfg.staleNs > 0 && now - item.ts > cfg.staleNs
  }

  function Aging(e: Entry, now: nat, cfg: Config): Entry {
    if e.fate.Queued? && TooOld(now, e.item, cfg) then e.(fate := Evicted) else e
  }

  /** The queued entries that are too old are struck out. */
  function AgeOut(l: seq<Entry>, now: nat, cfg: Config): (r: seq<Entry>)
    ensures |r| == |l|
  {
    if l == [] then []
    else
      var n := |l| - 1;
      AgeOut(l[..n], now, cfg) + [Aging(l[n], now, cfg)]
  }

  /** The first queued entry, or the end. */
  function Oldest(l: seq<Entry>): (k: nat)
    ensures k <= |l| && (k < |l| ==> l[k].fate.Queued?)
    ensures forall i :: 0 <= i < k ==> !l[i].fate.Queued?
  {
    if l == [] then 0
    else
      var k := Oldest(l[..|l| - 1]);
      if k < |l| - 1 || l[|l| - 1].fate.Queued? then k else |l|
  }

  function TakeOldest(l: seq<Entry>): seq<Entry> {
    var k := Oldest(l);
    if k < |l| then l[k := l[k].(fate := Taken)] else l
  }

  predicate Stopped(ops: seq<Op>) {
    exists i :: 0 <= i < |ops| && ops[i].StopOp?
  }

  function Ledger(ops: seq<Op>, cfg: Config): seq<Entry> {
    if ops == [] then []
    else
      var n := |ops| - 1;
      var l := Ledger(ops[..n], cfg);
      match ops[n]
      case PushOp(now, item) => AgeOut(l, now, cfg) + [Entry(item, Queued)]
      case PopOp(_) => if Stopped(ops[..n]) then l else TakeOldest(l)
      case WakeOp(_) => if Stopped(ops[..n]) then l else TakeOldest(l)
      case _ => l
  }

  /** The items with a given fate, in push order. */
  function Listed(l: seq<Entry>, fate: Fate): seq<Item> {
    if l == [] then []
    else Listed(l[..|l| - 1], fate) + if l[|l| - 1].fate == fate then [l[|l| - 1].item] else []
  }

  /** All items but the evicted ones, in push order. */
  function Unevicted(l: seq<Entry>): seq<Item> {
    if l == [] then []
    else Unevicted(l[..|l| - 1]) + if l[|l| - 1].fate.Evicted? then [] else [l[|l| - 1].item]
  }

  function ItemsOf(l: seq<Entry>): seq<Item> {
    if l == [] then [] else ItemsOf(l[..|l| - 1]) + [l[|l| - 1].item]
  }

  function PushedItems(ops: seq<Op>): seq<Item> {
    if ops == [] then []
    else
      var n := |ops| - 1;
      PushedItems(ops[..n]) + if ops[n].PushOp? then [ops[n].item] else []
  }

  // ---------------------------------------------------------------- what the stage does

  /** Whether the last operation popped an item. */
  predicate JustPopped(ops: seq<Op>, cfg: Config)
    requires IsRun(ops, cfg) && ops != []
  {
    (ops[|ops| - 1].PopOp? || ops[|ops| - 1].WakeOp?) && After(ops, cfg).consumer.Popped?
  }

  /** The items the consumer has popped, in that order. */
  function PoppedItems(ops: seq<Op>, cfg: Config): seq<Item>
    requires IsRun(ops, cfg)
  {
    if ops == [] then []
    else PoppedItems(ops[..|ops| - 1], cfg) + if JustPopped(ops, cfg) then [After(ops, cfg).consumer.item] else []
  }

  // ---------------------------------------------------------------- facts about ledgers

  lemma {:induction false} ListedAppend(a: seq<Entry>, b: seq<Entry>, fate: Fate)
    ensures Listed(a + b, fate) == Listed(a, fate) + Listed(b, fate)
  {
    if b == [] {
      assert a + b == a;
    } else {
      var n := |b| - 1;
      assert (a + b)[..|a| + n] == a + b[..n];
      ListedAppend(a, b[..n], fate);
    }
  }

  lemma {:induction false} ListedNone(l: seq<Entry>, fate: Fate)
    requires forall i :: 0 <= i < |l| ==> l[i].fate != fate
    ensures Listed(l, fate) == []
  {
    if l != [] {
      ListedNone(l[..|l| - 1], fate);
    }
  }

  lemma {:induction false} ListedOne(e: Entry, fate: Fate)
    ensures Listed([e], fate) == if e.fate == fate then [e.item] else []
  {
    assert [e][..0] == [] && Listed([], fate) == [];
  }

  /** What was taken was pushed before what is still queued. */
  predicate TakenFirst(l: seq<Entry>) {
    forall i, j :: 0 <= i < j < |l| ==> !(l[i].fate.Queued? && l[j].fate.Taken?)
  }

  lemma {:induction false} TakenThenQueued(l: seq<Entry>)
    requires TakenFirst(l)
    ensures Unevicted(l) == Listed(l, Taken) + Listed(l, Queued)
  {
    if l != [] {
      var n := |l| - 1;
      TakenThenQueued(l[..n]);
      if l[n].fate.Taken? {
        ListedNone(l[..n], Queued);
      }
    }
  }

  lemma {:induction false} ListedAround(a: seq<Entry>, e: Entry, b: seq<Entry>, fate: Fate)
    ensures Listed(a + [e] + b, fate) == Listed(a, fate) + (if e.fate == fate then [e.item] else []) + Listed(b, fate)
  {
    hide Listed;
    ListedAppend(a + [e], b, fate);
    ListedAppend(a, [e], fate);
    ListedOne(e, fate);
  }

  predicate Moves(l: seq<Entry>, r: seq<Entry>) {
    var q := Listed(l, Queued);
    && |r| == |l| && q != [] && Listed(r, Queued) == q[1..] && Listed(r, Taken) == Listed(l, Taken) + [q[0]]
    && Listed(r, Evicted) == Listed(l, Evicted)
  }

  lemma {:induction false} TakingMoves(a: seq<Entry>, e: Entry, b: seq<Entry>)
    requires e.fate.Queued? && Listed(a, Queued) == [] && Listed(b, Taken) == []
    ensures Moves(a + [e] + b, a + [e.(fate := Taken)] + b)
  {
    hide Listed;
    ListedAround(a, e, b, Queued);
    ListedAround(a, e, b, Taken);
    ListedAround(a, e, b, Evicted);
    var e' := e.(fate := Taken);
    ListedAround(a, e', b, Queued);
    ListedAround(a, e', b, Taken);
    ListedAround(a, e', b, Evicted);
  }

  lemma {:induction false} TakeOldestMoves(l: seq<Entry>)
    requires TakenFirst(l)
    ensures TakenFirst(TakeOldest(l))
    ensures if Listed(l, Queued) == [] then TakeOldest(l) == l else Moves(l, TakeOldest(l))
  {
    hide Listed;
    var k := Oldest(l);
    ListedNone(l[..k], Queued);
    if k < |l| {
      ListedNone(l[k + 1..], Taken);
      TakingMoves(l[..k], l[k], l[k + 1..]);
      assert l == l[..k] + [l[k]] + l[k + 1..];
      assert TakeOldest(l) == l[..k] + [l[k].(fate := Taken)] + l[k + 1..];
    } else {
      assert l[..k] == l;
    }
  }

  lemma {:induction false} KeptMore(items: seq<Item>, item: Item, now: nat, cfg: Config)
    ensures Kept(items + [item], now, cfg) ==
            if TooOld(now, item, cfg) then Kept(items, now, cfg) else Kept(items, now, cfg) + [item]
  {
    assert (items + [item])[..|items|] == items;
  }

  /** `r` is `l` with the queued entries that are too old struck out, as far as the lists show. */
  predicate Aged(l: seq<Entry>, r: seq<Entry>, now: nat, cfg: Config) {
    && Listed(r, Queued) == Kept(Listed(l, Queued), now, cfg)
    && Listed(r, Taken) == Listed(l, Taken)
    && |Listed(r, Evicted)| == |Listed(l, Evicted)| + |Listed(l, Queued)| - |Listed(r, Queued)|
  }

  lemma {:induction false} AgedMore(l: seq<Entry>, r: seq<Entry>, e: Entry, now: nat, cfg: Config)
    requires Aged(l, r, now, cfg)
    ensures Aged(l + [e], r + [Aging(e, now, cfg)], now, cfg)
  {
    ListedMore(l, e);
    ListedMore(r, Aging(e, now, cfg));
    KeptMore(Listed(l, Queued), e.item, now, cfg);
    hide Listed, Kept;
    if e.fate.Queued? {
      if TooOld(now, e.item, cfg) { assert Aging(e, now, cfg).fate.Evicted?; } else { assert Aging(e, now, cfg) == e; }
    }
  }

  lemma {:induction false} AgeOutKeeps(l: seq<Entry>, now: nat, cfg: Config)
    ensures Aged(l, AgeOut(l, now, cfg), now, cfg)
  {
    if l != [] {
      var n := |l| - 1;
      AgeOutKeeps(l[..n], now, cfg);
      hide Aged;
      AgedMore(l[..n], AgeOut(l[..n], now, cfg), l[n], now, cfg);
      assert l[..n] + [l[n]] == l;
    }
  }

  lemma {:induction false} AgeOutItems(l: seq<Entry>, now: nat, cfg: Config)
    ensures ItemsOf(AgeOut(l, now, cfg)) == ItemsOf(l)
  {
    if l != [] {
      var n := |l| - 1;
      AgeOutItems(l[..n], now, cfg);
      assert AgeOut(l, now, cfg)[..n] == AgeOut(l[..n], now, cfg);
    }
  }

  lemma {:induction false} ListedMore(l: seq<Entry>, e: Entry)
    ensures forall fate ::
              Listed(l + [e], fate) == if e.fate == fate then Listed(l, fate) + [e.item] else Listed(l, fate)
  {
    assert (l + [e])[..|l|] == l;
  }

  lemma {:induction false} AgeOutAt(l: seq<Entry>, now: nat, cfg: Config, i: nat)
    requires i < |l|
    ensures AgeOut(l, now, cfg)[i].fate == l[i].fate || (l[i].fate.Queued? && AgeOut(l, now, cfg)[i].fate.Evicted?)
  {
    var n := |l| - 1;
    if i < n {
      AgeOutAt(l[..n], now, cfg, i);
    }
  }

  lemma {:induction false} ItemsAfterTaking(l: seq<Entry>)
    ensures ItemsOf(TakeOldest(l)) == ItemsOf(l)
  {
    var k := Oldest(l);
    if k < |l| {
      SameItems(l, TakeOldest(l));
    }
  }

  lemma {:induction false} SameItems(a: seq<Entry>, b: seq<Entry>)
    requires |a| == |b| && forall i :: 0 <= i < |a| ==> a[i].item == b[i].item
    ensures ItemsOf(a) == ItemsOf(b)
  {
    if a != [] {
      SameItems(a[..|a| - 1], b[..|b| - 1]);
    }
  }

  // ---------------------------------------------------------------- the queue keeps the ledger

  /** The stage's queue, what its consumer popped and its eviction count are as the ledger says. */
  predicate Agrees(s: Stage, popped: seq<Item>, l: seq<Entry>) {
    && s.queue.items == Listed(l, Queued) && popped == Listed(l, Taken) && TakenFirst(l)
    && s.queue.evictedTotal == |Listed(l, Evicted)|
  }

  lemma {:induction false} PushAgrees(s: Stage, popped: seq<Item>, l: seq<Entry>, now: nat, item: Item, cfg: Config)
    requires Agrees(s, popped, l)
    ensures Agrees(Apply(s, PushOp(now, item), cfg), popped, AgeOut(l, now, cfg) + [Entry(item, Queued)])
  {
    hide Kept;
    var aged, e := AgeOut(l, now, cfg), Entry(item, Queued);
    AgeOutKeeps(l, now, cfg);
    KeptShorter(s.queue.items, now, cfg);
    forall fate: Fate
      ensures Listed(aged + [e], fate) == Listed(aged, fate) + if fate.Queued? then [item] else []
    {
      ListedAppend(aged, [e], fate);
      ListedOne(e, fate);
    }
    forall i, j | 0 <= i < j < |aged + [e]| ensures !((aged + [e])[i].fate.Queued? && (aged + [e])[j].fate.Taken?) {
      if j < |l| {
        AgeOutAt(l, now, cfg, i);
        AgeOutAt(l, now, cfg, j);
      }
    }
  }

  lemma PopAgrees(s: Stage, popped: seq<Item>, l: seq<Entry>, op: Op, cfg: Config)
    requires Agrees(s, popped, l) && Enabled(s, op) && (op.PopOp? || op.WakeOp?)
    ensures var s' := Apply(s, op, cfg);
            Agrees(s', popped + (if s'.consumer.Popped? then [s'.consumer.item] else []),
                   if s.queue.stop then l else TakeOldest(l))
  {
    hide Listed, TakenFirst;
    TakeOldestMoves(l);
  }

  lemma OtherAgrees(s: Stage, popped: seq<Item>, l: seq<Entry>, op: Op, cfg: Config)
    requires Agrees(s, popped, l) && Enabled(s, op) && !op.PushOp? && !op.PopOp? && !op.WakeOp?
    ensures Agrees(Apply(s, op, cfg), popped, l)
  {
    hide Listed, TakenFirst;
  }

  lemma StopStays(s: Stage, op: Op, cfg: Config)
    requires Enabled(s, op)
    ensures Apply(s, op, cfg).queue.stop == (s.queue.stop || op.StopOp?)
  {
  }

  lemma StoppedMore(ops: seq<Op>)
    requires ops != []
    ensures var n := |ops| - 1; Stopped(ops) == (Stopped(ops[..n]) || ops[n].StopOp?)
  {
    var n := |ops| - 1;
    if i :| 0 <= i < n && ops[..n][i].StopOp? {
      assert ops[i].StopOp?;
    }
  }

  lemma {:induction false} RunAgrees(ops: seq<Op>, cfg: Config)
    requires IsRun(ops, cfg)
    ensures Agrees(After(ops, cfg), PoppedItems(ops, cfg), Ledger(ops, cfg))
    ensures After(ops, cfg).queue.stop == Stopped(ops)
  {
    hide Apply, Enabled, Stopped, Agrees;
    if ops == [] {
      NewAgrees();
    } else {
      var n := |ops| - 1;
      var s, l, popped := After(ops[..n], cfg), Ledger(ops[..n], cfg), PoppedItems(ops[..n], cfg);
      RunAgrees(ops[..n], cfg);
      StopStays(s, ops[n], cfg);
      StoppedMore(ops);
      match ops[n] {
        case PushOp(now, item) => PushAgrees(s, popped, l, now, item, cfg);
        case PopOp(now) => PopAgrees(s, popped, l, ops[n], cfg);
        case WakeOp(now) => PopAgrees(s, popped, l, ops[n], cfg);
        case _ => OtherAgrees(s, popped, l, ops[n], cfg);
      }
      assert popped + [] == popped;
    }
  }

  lemma NewAgrees()
    ensures Agrees(NewStage(), [], []) && !Stopped([])
  {
  }

  lemma {:induction false} LedgerItems(ops: seq<Op>, cfg: Config)
    ensures ItemsOf(Ledger(ops, cfg)) == PushedItems(ops)
  {
    if ops != [] {
      var n := |ops| - 1;
      var l := Ledger(ops[..n], cfg);
      LedgerItems(ops[..n], cfg);
      match ops[n] {
        case PushOp(now, item) =>
          AgeOutItems(l, now, cfg);
          var aged := AgeOut(l, now, cfg);
          assert (aged + [Entry(item, Queued)])[..|aged|] == aged;
        case PopOp(_) => ItemsAfterTaking(l);
        case WakeOp(_) => ItemsAfterTaking(l);
        case _ =>
      }
    }
  }

  // ---------------------------------------------------------------- the guarantees

  /** For every interleaving of producers and the consumer: the items popped so far, followed by those in the
      queue, are the pushed items in push order, less those that a later push found queued and older than
      the bound; as many as those have been counted as evicted. */
  lemma {:induction false} FifoOrder(ops: seq<Op>, cfg: Config)
    requires IsRun(ops, cfg)
    ensures var s, l := After(ops, cfg), Ledger(ops, cfg);
            && PoppedItems(ops, cfg) + s.queue.items == Unevicted(l)
            && s.queue.items == Listed(l, Queued) && PoppedItems(ops, cfg) == Listed(l, Taken)
            && s.queue.evictedTotal == |Listed(l, Evicted)|
            && ItemsOf(l) == PushedItems(ops)
  {
    hide IsRun, After, Ledger, PoppedItems, Listed, Unevicted, ItemsOf;
    RunAgrees(ops, cfg);
    LedgerItems(ops, cfg);
    TakenThenQueued(Ledger(ops, cfg));
  }

  lemma {:induction false} NothingEvicted(l: seq<Entry>)
    requires forall i :: 0 <= i < |l| ==> !l[i].fate.Evicted?
    ensures Unevicted(l) == ItemsOf(l)
  {
    if l != [] {
      NothingEvicted(l[..|l| - 1]);
    }
  }

  lemma {:induction false} NothingAgesOut(ops: seq<Op>, cfg: Config, i: nat)
    requires !cfg.dropStale && i < |Ledger(ops, cfg)|
    ensures !Ledger(ops, cfg)[i].fate.Evicted?
  {
    var n := |ops| - 1;
    var l := Ledger(ops[..n], cfg);
    if i < |l| {
      NothingAgesOut(ops[..n], cfg, i);
      if ops[n].PushOp? {
        AgeOutNothing(l, ops[n].now, cfg);
      }
    }
  }

  lemma {:induction false} AgeOutNothing(l: seq<Entry>, now: nat, cfg: Config)
    requires !cfg.dropStale
    ensures AgeOut(l, now, cfg) == l
  {
    if l != [] {
      AgeOutNothing(l[..|l| - 1], now, cfg);
    }
  }

  /** With eviction off nothing is lost: popped and queued items together are the pushed ones, in order. */
  lemma {:induction false} FifoWithoutEviction(ops: seq<Op>, cfg: Config)
    requires IsRun(ops, cfg) && !cfg.dropStale
    ensures PoppedItems(ops, cfg) + After(ops, cfg).queue.items == PushedItems(ops)
  {
    hide IsRun, After, Ledger, PoppedItems, Listed, Unevicted, ItemsOf;
    FifoOrder(ops, cfg);
    forall i | 0 <= i < |Ledger(ops, cfg)| ensures !Ledger(ops, cfg)[i].fate.Evicted? {
      NothingAgesOut(ops, cfg, i);
    }
    NothingEvicted(Ledger(ops, cfg));
  }

  /** A pop, or the check after a wake-up, ends the consumer if the queue was stopped, puts it to sleep if
      nothing is queued, and otherwise hands it the oldest item still queued. */
  lemma {:induction false} PopOutcome(ops: seq<Op>, cfg: Config, op: Op)
    requires IsRun(ops, cfg) && Enabled(After(ops, cfg), op) && (op.PopOp? || op.WakeOp?)
    ensures var s, l := Apply(After(ops, cfg), op, cfg), Ledger(ops, cfg);
            s.consumer == if Stopped(ops) then Finished
                          else if Oldest(l) == |l| then InWait
                          else Popped(l[Oldest(l)].item)
  {
    hide IsRun, After, Ledger, PoppedItems, Stopped;
    RunAgrees(ops, cfg);
    OldestIsFirst(Ledger(ops, cfg));
  }

  lemma {:induction false} OldestIsFirst(l: seq<Entry>)
    ensures Listed(l, Queued) == [] <==> Oldest(l) == |l|
    ensures Oldest(l) < |l| ==> Listed(l, Queued) != [] && Listed(l, Queued)[0] == l[Oldest(l)].item
  {
    if l != [] {
      OldestIsFirst(l[..|l| - 1]);
    }
  }

  /** A woken consumer of a running queue whose promised item was not evicted pops exactly that item. */
  lemma {:induction false} WokenConsumerPopsPromise(ops: seq<Op>, cfg: Config, now: nat)
    requires IsRun(ops, cfg) && DistinctPushes(ops) && Woken(After(ops, cfg)) && !Stopped(ops)
    requires !PromiseWentStale(ops, cfg)
    ensures var s := After(ops, cfg);
            s.queue.hint.Some? && Apply(s, WakeOp(now), cfg).consumer == Popped(s.queue.hint.value)
  {
    hide IsRun, After, PromiseWentStale, DistinctPushes, Stopped, Ledger, PoppedItems;
    RunAgrees(ops, cfg);
    WokenHintIsHeadIff(ops, cfg);
  }

  /** The consumer skips a popped item exactly when it is older than the bound at that moment and the stage
      drops such items; otherwise it computes it. */
  lemma StartDecision(s: Stage, now: nat, cfg: Config)
    requires s.consumer.Popped?
    ensures var item, s' := s.consumer.item, Apply(s, StartOp(now), cfg);
            if cfg.dropStale && cfg.staleNs > 0 && now - item.ts > cfg.staleNs
            then s'.consumer == Outside(Some(item)) && s'.stats.droppedStale == s.stats.droppedStale + 1
            else s'.consumer == Computing(item) && s'.stats.droppedStale == s.stats.droppedStale
  {
  }

  /** Every popped item was completed, skipped as stale, or is the one the consumer holds. */
  lemma {:induction false} PoppedAreHandled(ops: seq<Op>, cfg: Config)
    requires IsRun(ops, cfg)
    ensures var s := After(ops, cfg);
            |PoppedItems(ops, cfg)| == s.stats.processed + s.stats.droppedStale + Bit(Held(s))
  {
    hide Apply, Enabled;
    if ops != [] {
      var n := |ops| - 1;
      PoppedAreHandled(ops[..n], cfg);
      StepHandles(After(ops[..n], cfg), ops[n], cfg);
    }
  }

  lemma StepHandles(s: Stage, op: Op, cfg: Config)
    requires Enabled(s, op)
    ensures var s' := Apply(s, op, cfg);
            s'.stats.processed + s'.stats.droppedStale + Bit(Held(s')) ==
            s.stats.processed + s.stats.droppedStale + Bit(Held(s)) +
            Bit((op.PopOp? || op.WakeOp?) && s'.consumer.Popped?)
  {
  }
}
