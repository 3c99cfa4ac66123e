/**
 What the dependent graph answers to each call of any sequence, said of the calls before it and their
 replies: when it throws, when it accepts an offer, and how it numbers batches and ticks.
 */
module GraphCalls {
  import opened Bits
  import opened Options
  import opened Graph
  import opened GraphProofs

  // ---------------------------------------------------------------- replies

  /** The reply to call `i`. */
  function ReplyTo(capacity: nat, limit: nat, calls: seq<Call>, i: nat): Reply
    requires i < |calls|
  {
    Do(Run(capacity, limit, calls[..i]).core, calls[i]).1
  }

  predicate Took(capacity: nat, limit: nat, calls: seq<Call>, i: nat)
    requires i < |calls|
  {
    !ReplyTo(capacity, limit, calls, i).Throws?
  }

  function TimeOf(call: Call): nat {
    match call
    case Offer(_, arrival) => arrival
    case Select(t) => t
    case Complete(_, t) => t
    case Tick(t, _, _) => t
  }

  predicate Offers(call: Call, s: Stream) {
    call.Offer? && call.m.stream == s
  }

  lemma ReplyInFront(capacity: nat, limit: nat, calls: seq<Call>, k: nat, i: nat)
    requires i < k <= |calls|
    ensures ReplyTo(capacity, limit, calls[..k], i) == ReplyTo(capacity, limit, calls, i)
  {
    assert calls[..k][..i] == calls[..i];
  }

  // ---------------------------------------------------------------- one call

  lemma CallMovesClock(c: Core, call: Call)
    ensures var (c', reply) := Do(c, call);
            if reply.Throws? then c' == c else c'.clock == TimeOf(call) >= c.clock
  {
  }

  lemma CallMovesLast(c: Core, call: Call, s: Stream)
    ensures var (c', reply) := Do(c, call);
            LaneOf(c', s).last == if !reply.Throws? && Offers(call, s) then Some(call.m.sequence) else LaneOf(c, s).last
  {
  }

  lemma CallMovesRunning(c: Core, call: Call)
    ensures var (c', reply) := Do(c, call);
            c'.running == if reply.Selected? && reply.batch.Some? then reply.batch
                          else if reply.Completed? then None else c.running
  {
    hide Merge, OfStream, Without, Retained;
  }

  lemma CallNumbers(c: Core, call: Call)
    ensures var (c', reply) := Do(c, call);
            && c'.nextBatch == c.nextBatch + Bit(reply.Selected? && reply.batch.Some?)
            && c'.nextTick == c.nextTick + Bit(reply.Controlled?)
            && (reply.Selected? && reply.batch.Some? ==> reply.batch.value.id == c.nextBatch)
            && (reply.Controlled? ==> reply.control.tick == c.nextTick && call.Tick? &&
                                      reply.control.setpoint == call.setpoint && reply.control.release == call.t)
  {
    hide Merge, OfStream, Without, Retained;
  }

  lemma CallCounts(c: Core, call: Call, s: Stream)
    ensures var (c', reply) := Do(c, call);
            var n, n' := LaneOf(c, s).counts, LaneOf(c', s).counts;
            && n'.offered == n.offered + Bit(!reply.Throws? && Offers(call, s))
            && n'.dropped == n.dropped + Bit(reply == Offered(false) && Offers(call, s))
  {
    hide Merge, OfStream, Without, Retained;
  }

  lemma CallThrows(c: Core, call: Call)
    ensures Do(c, call).1.Throws? <==>
            || TimeOf(call) < c.clock
            || (call.Offer? && call.m.source > call.arrival)
            || (call.Offer? && LaneOf(c, call.m.stream).last.Some? &&
                call.m.sequence <= LaneOf(c, call.m.stream).last.value)
            || (call.Complete? && (c.running.None? || c.running.value.id != call.id))
  {
    hide Merge, OfStream, Without, Retained;
  }

  // ---------------------------------------------------------------- what the fields remember

  /** Which calls did not throw. */
  function Taken(capacity: nat, limit: nat, calls: seq<Call>): (taken: seq<bool>)
    ensures |taken| == |calls|
  {
    if calls == [] then []
    else Taken(capacity, limit, calls[..|calls| - 1]) + [Took(capacity, limit, calls, |calls| - 1)]
  }

  lemma {:induction false} TakenAt(capacity: nat, limit: nat, calls: seq<Call>, i: nat)
    requires i < |calls|
    ensures Taken(capacity, limit, calls)[i] == Took(capacity, limit, calls, i)
  {
    hide Do, Run;
    var n := |calls| - 1;
    if i < n {
      TakenAt(capacity, limit, calls[..n], i);
      ReplyInFront(capacity, limit, calls, n, i);
    }
  }

  /** `clock` is the greatest time of the calls that were taken. */
  predicate RemembersTime(calls: seq<Call>, taken: seq<bool>, clock: nat)
    requires |taken| == |calls|
  {
    && (forall i :: 0 <= i < |calls| && taken[i] ==> TimeOf(calls[i]) <= clock)
    && (clock == 0 || exists i :: 0 <= i < |calls| && taken[i] && TimeOf(calls[i]) == clock)
  }

  lemma TimeStep(calls: seq<Call>, taken: seq<bool>, clock: nat, call: Call, took: bool, clock': nat)
    requires |taken| == |calls| && RemembersTime(calls, taken, clock)
    requires clock <= clock' == if took then TimeOf(call) else clock
    ensures RemembersTime(calls + [call], taken + [took], clock')
  {
    var calls', taken' := calls + [call], taken + [took];
    assert calls'[|calls|] == call && taken'[|calls|] == took;
    if !took && clock != 0 {
      var i :| 0 <= i < |calls| && taken[i] && TimeOf(calls[i]) == clock;
      assert taken'[i] && TimeOf(calls'[i]) == clock;
    }
  }

  lemma {:induction false} ClockIsLatest(capacity: nat, limit: nat, calls: seq<Call>)
    ensures RemembersTime(calls, Taken(capacity, limit, calls), Run(capacity, limit, calls).core.clock)
  {
    hide Do;
    if calls != [] {
      var n := |calls| - 1;
      var front, w := calls[..n], Run(capacity, limit, calls[..n]);
      ClockIsLatest(capacity, limit, front);
      CallMovesClock(w.core, calls[n]);
      hide RemembersTime;
      assert front + [calls[n]] == calls;
      TimeStep(front, Taken(capacity, limit, front), w.core.clock, calls[n], Took(capacity, limit, calls, n),
               Run(capacity, limit, calls).core.clock);
    }
  }

  /** `last` is the greatest sequence number of the stream's offers that were taken. */
  predicate RemembersSequence(calls: seq<Call>, taken: seq<bool>, s: Stream, last: Option<nat>)
    requires |taken| == |calls|
  {
    && (forall i :: 0 <= i < |calls| && taken[i] && Offers(calls[i], s) ==>
          last.Some? && calls[i].m.sequence <= last.value)
    && (last.Some? ==>
          exists i :: 0 <= i < |calls| && taken[i] && Offers(calls[i], s) && calls[i].m.sequence == last.value)
  }

  lemma SequenceStep(calls: seq<Call>, taken: seq<bool>, s: Stream, last: Option<nat>, call: Call, took: bool,
                     last': Option<nat>)
    requires |taken| == |calls| && RemembersSequence(calls, taken, s, last)
    requires last' == if took && Offers(call, s) then Some(call.m.sequence) else last
    requires last.Some? ==> last'.Some? && last.value <= last'.value
    ensures RemembersSequence(calls + [call], taken + [took], s, last')
  {
    var calls', taken' := calls + [call], taken + [took];
    assert calls'[|calls|] == call && taken'[|calls|] == took;
    if last.Some? && !(took && Offers(call, s)) {
      var i :| 0 <= i < |calls| && taken[i] && Offers(calls[i], s) && calls[i].m.sequence == last.value;
      assert taken'[i] && Offers(calls'[i], s) && calls'[i].m.sequence == last.value;
    }
  }

  lemma {:induction false} LastIsHighest(capacity: nat, limit: nat, calls: seq<Call>, s: Stream)
    ensures RemembersSequence(calls, Taken(capacity, limit, calls), s, LaneOf(Run(capacity, limit, calls).core, s).last)
  {
    hide Do;
    if calls != [] {
      var n := |calls| - 1;
      var front, w := calls[..n], Run(capacity, limit, calls[..n]);
      LastIsHighest(capacity, limit, front, s);
      CallMovesLast(w.core, calls[n], s);
      CallThrows(w.core, calls[n]);
      hide RemembersSequence;
      assert front + [calls[n]] == calls;
      SequenceStep(front, Taken(capacity, limit, front), s, LaneOf(w.core, s).last, calls[n],
                   Took(capacity, limit, calls, n), LaneOf(Run(capacity, limit, calls).core, s).last);
    }
  }

  /** Batch `b` was selected by an earlier call and not completed since. */
  predicate Outstanding(capacity: nat, limit: nat, calls: seq<Call>, b: Batch) {
    exists i :: 0 <= i < |calls| && ReplyTo(capacity, limit, calls, i) == Selected(Some(b)) &&
                forall j :: i < j < |calls| ==> !ReplyTo(capacity, limit, calls, j).Completed?
  }

  lemma OutstandingMore(capacity: nat, limit: nat, calls: seq<Call>, b: Batch)
    requires calls != []
    ensures var n := |calls| - 1; var reply := ReplyTo(capacity, limit, calls, n);
            Outstanding(capacity, limit, calls, b) <==>
            reply == Selected(Some(b)) || (Outstanding(capacity, limit, calls[..n], b) && !reply.Completed?)
  {
    hide Do, Run;
    var n := |calls| - 1;
    forall i | 0 <= i < n ensures ReplyTo(capacity, limit, calls[..n], i) == ReplyTo(capacity, limit, calls, i) {
      ReplyInFront(capacity, limit, calls, n, i);
    }
    hide ReplyTo;
    if i :| 0 <= i < n && ReplyTo(capacity, limit, calls[..n], i) == Selected(Some(b)) &&
            (forall j :: i < j < n ==> !ReplyTo(capacity, limit, calls[..n], j).Completed?) {
      assert ReplyTo(capacity, limit, calls, i) == Selected(Some(b));
    }
    if i :| 0 <= i < |calls| && ReplyTo(capacity, limit, calls, i) == Selected(Some(b)) &&
            (forall j :: i < j < |calls| ==> !ReplyTo(capacity, limit, calls, j).Completed?) {
      assert i < n ==> ReplyTo(capacity, limit, calls[..n], i) == Selected(Some(b));
    }
  }

  /** The running batch is the one selected and not completed; there is never a second one. */
  lemma {:induction false} RunningIsOutstanding(capacity: nat, limit: nat, calls: seq<Call>, b: Batch)
    ensures Run(capacity, limit, calls).core.running == Some(b) <==> Outstanding(capacity, limit, calls, b)
  {
    hide Do, Outstanding;
    if calls == [] {
      NoneOutstanding(capacity, limit, b);
    } else {
      var n := |calls| - 1;
      var c := Run(capacity, limit, calls[..n]).core;
      RunningIsOutstanding(capacity, limit, calls[..n], b);
      CallMovesRunning(c, calls[n]);
      SelectsOnlyWhenIdle(c, calls[n]);
      OutstandingMore(capacity, limit, calls, b);
    }
  }

  lemma {:induction false} NoneOutstanding(capacity: nat, limit: nat, b: Batch)
    ensures !Outstanding(capacity, limit, [], b)
  {
  }

  lemma SelectsOnlyWhenIdle(c: Core, call: Call)
    ensures var reply := Do(c, call).1; reply.Selected? && reply.batch.Some? ==> c.running.None?
  {
    hide Merge, OfStream, Without, Retained;
  }

  // ---------------------------------------------------------------- when a call throws

  /** A call of any run throws exactly when an earlier call that did not throw has a later time, or it offers
      a measurement from the future or one that does not follow every earlier one of its stream, or it
      completes a batch that is not outstanding. */
  lemma {:induction false} ThrowsIff(capacity: nat, limit: nat, calls: seq<Call>, i: nat)
    requires i < |calls|
    ensures var call := calls[i];
            !Took(capacity, limit, calls, i) <==>
            || (exists j :: 0 <= j < i && Took(capacity, limit, calls, j) && TimeOf(call) < TimeOf(calls[j]))
            || (call.Offer? && call.m.source > call.arrival)
            || (call.Offer? && exists j :: 0 <= j < i && Took(capacity, limit, calls, j) &&
                                           Offers(calls[j], call.m.stream) && call.m.sequence <= calls[j].m.sequence)
            || (call.Complete? && !CompletesOutstanding(capacity, limit, calls[..i], call.id))
  {
    hide Do, Run, Outstanding;
    var call, front := calls[i], calls[..i];
    forall j | 0 <= j < i ensures ReplyTo(capacity, limit, front, j) == ReplyTo(capacity, limit, calls, j) {
      ReplyInFront(capacity, limit, calls, i, j);
    }
    hide ReplyTo;
    ReplyIs(capacity, limit, calls, i);
    CallThrows(Run(capacity, limit, front).core, call);
    LaterThanClock(capacity, limit, front, TimeOf(call));
    if call.Offer? {
      NotAboveLast(capacity, limit, front, call.m.stream, call.m.sequence);
    } else if call.Complete? {
      CompletesRunning(capacity, limit, front, call.id);
    }
    assert forall j :: 0 <= j < i ==> front[j] == calls[j];
  }

  lemma {:induction false} ReplyIs(capacity: nat, limit: nat, calls: seq<Call>, i: nat)
    requires i < |calls|
    ensures ReplyTo(capacity, limit, calls, i) == Do(Run(capacity, limit, calls[..i]).core, calls[i]).1
  {
  }

  ghost predicate CompletesOutstanding(capacity: nat, limit: nat, calls: seq<Call>, id: nat) {
    exists b :: Outstanding(capacity, limit, calls, b) && b.id == id
  }

  lemma {:induction false} CompletesRunning(capacity: nat, limit: nat, calls: seq<Call>, id: nat)
    ensures var running := Run(capacity, limit, calls).core.running;
            CompletesOutstanding(capacity, limit, calls, id) <==> running.Some? && running.value.id == id
  {
    hide Run, Outstanding;
    var running := Run(capacity, limit, calls).core.running;
    if running.Some? {
      RunningIsOutstanding(capacity, limit, calls, running.value);
    }
    if b :| Outstanding(capacity, limit, calls, b) && b.id == id {
      RunningIsOutstanding(capacity, limit, calls, b);
    }
  }

  lemma {:induction false} LaterThanClock(capacity: nat, limit: nat, calls: seq<Call>, t: nat)
    ensures t < Run(capacity, limit, calls).core.clock <==>
            exists j :: 0 <= j < |calls| && Took(capacity, limit, calls, j) && t < TimeOf(calls[j])
  {
    hide Run, Took, Taken;
    ClockIsLatest(capacity, limit, calls);
    forall j | 0 <= j < |calls| ensures Taken(capacity, limit, calls)[j] == Took(capacity, limit, calls, j) {
      TakenAt(capacity, limit, calls, j);
    }
  }

  lemma {:induction false} NotAboveLast(capacity: nat, limit: nat, calls: seq<Call>, s: Stream, sequence: nat)
    ensures var last := LaneOf(Run(capacity, limit, calls).core, s).last;
            last.Some? && sequence <= last.value <==>
            exists j :: 0 <= j < |calls| && Took(capacity, limit, calls, j) && Offers(calls[j], s) &&
                        sequence <= calls[j].m.sequence
  {
    hide Run, Took, Taken;
    LastIsHighest(capacity, limit, calls, s);
    forall j | 0 <= j < |calls| ensures Taken(capacity, limit, calls)[j] == Took(capacity, limit, calls, j) {
      TakenAt(capacity, limit, calls, j);
    }
  }

  // ---------------------------------------------------------------- when an offer is accepted

  /** As many accepted measurements of the stream wait as the inbox holds. */
  predicate Full(w: World, s: Stream) {
    var tr := TraceOf(w.history, s);
    |tr.accepted| - |tr.consumed| - |InFlight(w.core, s)| >= w.core.capacity
  }

  /** An offer of any run that does not throw is accepted, and then waits last in its inbox, exactly when
      fewer measurements of its stream wait than the capacity; otherwise nothing changes but the counters. */
  lemma {:induction false} AcceptedIff(capacity: nat, limit: nat, calls: seq<Call>, m: Measurement, arrival: nat)
    requires !Do(Run(capacity, limit, calls).core, Offer(m, arrival)).1.Throws?
    ensures var w := Run(capacity, limit, calls);
            var (c, reply) := Do(w.core, Offer(m, arrival));
            && w.core.capacity == capacity
            && reply == Offered(!Full(w, m.stream))
            && LaneOf(c, m.stream).inbox == LaneOf(w.core, m.stream).inbox + if Full(w, m.stream) then [] else [m]
  {
    hide Run;
    RunKeepsInv(capacity, limit, calls);
    RunKeepsLimits(capacity, limit, calls);
    InboxIsWaiting(Run(capacity, limit, calls), m.stream);
  }

  lemma {:induction false} RunKeepsLimits(capacity: nat, limit: nat, calls: seq<Call>)
    ensures var c := Run(capacity, limit, calls).core; c.capacity == capacity && c.limit == limit
  {
    hide Do;
    if calls != [] {
      var n := |calls| - 1;
      RunKeepsLimits(capacity, limit, calls[..n]);
      CallKeepsLimits(Run(capacity, limit, calls[..n]).core, calls[n]);
    }
  }

  lemma CallKeepsLimits(c: Core, call: Call)
    ensures Do(c, call).0.capacity == c.capacity && Do(c, call).0.limit == c.limit
  {
    hide Merge, OfStream, Without, Retained;
  }

  lemma InboxIsWaiting(w: World, s: Stream)
    requires Inv(w)
    ensures var tr := TraceOf(w.history, s);
            |LaneOf(w.core, s).inbox| == |tr.accepted| - |tr.consumed| - |InFlight(w.core, s)|
    ensures |LaneOf(w.core, s).inbox| <= w.core.capacity
  {
    hide OfStream, Retained;
  }

  /** The number of calls that offered a measurement of the stream without throwing: all of them, or those
      made while its inbox was full. */
  function OffersMade(capacity: nat, limit: nat, calls: seq<Call>, s: Stream, full: bool): nat {
    if calls == [] then 0
    else
      var n := |calls| - 1;
      OffersMade(capacity, limit, calls[..n], s, full) +
      Bit(&& Took(capacity, limit, calls, n) && Offers(calls[n], s)
          && (full ==> Full(Run(capacity, limit, calls[..n]), s)))
  }

  /** The counters: every offer that does not throw is counted, and as dropped exactly those that found the
      inbox full. */
  lemma {:induction false} OfferCounts(capacity: nat, limit: nat, calls: seq<Call>, s: Stream)
    ensures var counts := LaneOf(Run(capacity, limit, calls).core, s).counts;
            && counts.offered == OffersMade(capacity, limit, calls, s, false)
            && counts.dropped == OffersMade(capacity, limit, calls, s, true)
  {
    hide Do, Full;
    if calls != [] {
      var n := |calls| - 1;
      var c := Run(capacity, limit, calls[..n]).core;
      OfferCounts(capacity, limit, calls[..n], s);
      CallCounts(c, calls[n], s);
      if Took(capacity, limit, calls, n) && Offers(calls[n], s) {
        AcceptedIff(capacity, limit, calls[..n], calls[n].m, calls[n].arrival);
      }
    }
  }

  // ---------------------------------------------------------------- numbers and times

  /** How many batches, or control ticks, the calls have produced. */
  function Produced(capacity: nat, limit: nat, calls: seq<Call>, ticks: bool): nat {
    if calls == [] then 0
    else
      var n := |calls| - 1;
      var reply := ReplyTo(capacity, limit, calls, n);
      Produced(capacity, limit, calls[..n], ticks) +
      Bit(if ticks then reply.Controlled? else reply.Selected? && reply.batch.Some?)
  }

  lemma {:induction false} NextNumbers(capacity: nat, limit: nat, calls: seq<Call>)
    ensures var c := Run(capacity, limit, calls).core;
            && c.nextBatch == 1 + Produced(capacity, limit, calls, false)
            && c.nextTick == 1 + Produced(capacity, limit, calls, true)
  {
    hide Do;
    if calls != [] {
      var n := |calls| - 1;
      NextNumbers(capacity, limit, calls[..n]);
      CallNumbers(Run(capacity, limit, calls[..n]).core, calls[n]);
    }
  }

  /** Batches and control ticks are numbered 1, 2, 3 and so on, each in the order of the calls; a tick carries
      the call's setpoint and time. */
  lemma {:induction false} NumberedInOrder(capacity: nat, limit: nat, calls: seq<Call>, i: nat)
    requires i < |calls|
    ensures var reply := ReplyTo(capacity, limit, calls, i);
            && (reply.Selected? && reply.batch.Some? ==>
                  reply.batch.value.id == 1 + Produced(capacity, limit, calls[..i], false))
            && (reply.Controlled? ==>
                  && reply.control.tick == 1 + Produced(capacity, limit, calls[..i], true) && calls[i].Tick?
                  && reply.control.setpoint == calls[i].setpoint && reply.control.release == calls[i].t)
  {
    hide Do, Run;
    ReplyIs(capacity, limit, calls, i);
    NextNumbers(capacity, limit, calls[..i]);
    CallNumbers(Run(capacity, limit, calls[..i]).core, calls[i]);
  }

  /** Call `i` completed a batch and no later one did. */
  predicate LastCompletion(capacity: nat, limit: nat, calls: seq<Call>, i: nat)
    requires i < |calls|
  {
    && calls[i].Complete? && ReplyTo(capacity, limit, calls, i).Completed?
    && forall j :: i < j < |calls| ==> !ReplyTo(capacity, limit, calls, j).Completed?
  }

  lemma CallMovesLatest(c: Core, call: Call)
    ensures var (c', reply) := Do(c, call);
            && (reply.Completed? ==> call.Complete? && c'.latest.Some? && c'.latest.value.batchId == call.id &&
                                     c'.latest.value.completed == call.t)
            && (!reply.Completed? ==> c'.latest == c.latest)
  {
    hide Merge, OfStream, Without, Retained;
  }

  /** The snapshot names the batch completed last and the time of its completion; there is none exactly
      until a batch is completed. */
  lemma {:induction false} SnapshotIsLastCompletion(capacity: nat, limit: nat, calls: seq<Call>)
    ensures var latest := Run(capacity, limit, calls).core.latest;
            && (latest.Some? ==> exists i :: 0 <= i < |calls| && LastCompletion(capacity, limit, calls, i) &&
                                             latest.value.batchId == calls[i].id &&
                                             latest.value.completed == calls[i].t)
            && (latest.None? ==> forall i :: 0 <= i < |calls| ==> !ReplyTo(capacity, limit, calls, i).Completed?)
  {
    hide Do;
    if calls != [] {
      var n := |calls| - 1;
      SnapshotIsLastCompletion(capacity, limit, calls[..n]);
      CallMovesLatest(Run(capacity, limit, calls[..n]).core, calls[n]);
      forall i | 0 <= i < n ensures ReplyTo(capacity, limit, calls[..n], i) == ReplyTo(capacity, limit, calls, i) {
        ReplyInFront(capacity, limit, calls, n, i);
      }
      var latest := Run(capacity, limit, calls[..n]).core.latest;
      if ReplyTo(capacity, limit, calls, n).Completed? {
        assert LastCompletion(capacity, limit, calls, n);
      } else if latest.Some? {
        var i :| 0 <= i < n && LastCompletion(capacity, limit, calls[..n], i) &&
                 latest.value.batchId == calls[..n][i].id && latest.value.completed == calls[..n][i].t;
        assert LastCompletion(capacity, limit, calls, i);
      }
    }
  }
}
