/** What every sequence of calls on the dependent graph keeps, and what its batches and snapshots mean. */
module GraphProofs {
  import opened Options
  import opened Graph

  // ---------------------------------------------------------------- every call keeps the invariant

  lemma OfferKeepsStream(c: Core, tr: Trace, s: Stream, m: Measurement, arrival: nat)
    requires StreamInv(c, tr, s)
    ensures var (c', reply) := DoOffer(c, m, arrival);
            StreamInv(c', Record(tr, s, Offer(m, arrival), c.running, reply), s)
  {
    var (c', reply) := DoOffer(c, m, arrival);
    var tr' := Record(tr, s, Offer(m, arrival), c.running, reply);
    if !reply.Throws? && m.stream == s && reply == Offered(true) {
      var lane := LaneOf(c, s);
      assert tr'.accepted == tr.consumed + InFlight(c, s) + (lane.inbox + [m]);
      assert forall i :: 0 <= i < |tr.accepted| ==> tr.accepted[i] in tr.accepted;
    }
  }

  lemma {:induction false} SplitInbox(inputs: seq<Measurement>, rest: seq<Measurement>, inbox: seq<Measurement>,
                                      s: Stream)
    requires OfStream(inputs + rest, s) == inbox
    ensures OfStream(inputs, s) + Without(inbox, |OfStream(inputs, s)|) == inbox
  {
    OfStreamAppend(inputs, rest, s);
  }

  lemma InboxBelongs(c: Core, tr: Trace, s: Stream)
    requires StreamInv(c, tr, s)
    ensures Belong(LaneOf(c, s).inbox, s, c.clock)
  {
    var lane := LaneOf(c, s);
    var n := |tr.accepted| - |lane.inbox|;
    assert forall i :: 0 <= i < |lane.inbox| ==> lane.inbox[i] == tr.accepted[n + i];
  }

  /** Selecting moves the front of the merge from the inboxes into the running batch. */
  lemma SelectMoves(w: World, t: nat)
    requires Inv(w) && DoSelect(w.core, t).1.Selected? && DoSelect(w.core, t).1.batch.Some?
    ensures var c, c' := w.core, DoSelect(w.core, t).0;
            && OfStream(c'.running.value.inputs, Imu) + c'.imu.inbox == c.imu.inbox
            && OfStream(c'.running.value.inputs, Camera) + c'.camera.inbox == c.camera.inbox
            && BatchInv(c')
  {
    var c := w.core;
    InboxBelongs(c, w.history.imu, Imu);
    InboxBelongs(c, w.history.camera, Camera);
    MergeStreams(c.imu.inbox, c.camera.inbox, Imu);
    MergeStreams(c.imu.inbox, c.camera.inbox, Camera);
    var merged := Merge(c.imu.inbox, c.camera.inbox);
    var k := Min(c.limit, |merged|);
    assert merged[..k] + merged[k..] == merged;
    SplitInbox(merged[..k], merged[k..], c.imu.inbox, Imu);
    SplitInbox(merged[..k], merged[k..], c.camera.inbox, Camera);
  }

  lemma {:induction false} SelectKeepsStream(c: Core, c': Core, tr: Trace, s: Stream)
    requires StreamInv(c, tr, s) && c.running.None? && c'.running.Some?
    requires OfStream(c'.running.value.inputs, s) + LaneOf(c', s).inbox == LaneOf(c, s).inbox
    requires c'.clock >= c.clock && c'.capacity == c.capacity
    requires LaneOf(c', s) == LaneOf(c, s).(inbox := LaneOf(c', s).inbox)
    ensures StreamInv(c', tr, s)
  {
    hide OfStream;
    assert tr.consumed + [] + LaneOf(c, s).inbox == tr.consumed + InFlight(c', s) + LaneOf(c', s).inbox;
  }

  lemma SelectKeepsInv(w: World, t: nat)
    requires Inv(w)
    ensures Inv(Next(w, Select(t)))
  {
    hide Merge, OfStream, Without, Retained;
    var (c', reply) := DoSelect(w.core, t);
    if reply.Selected? && reply.batch.Some? {
      SelectMoves(w, t);
      hide StreamInv;
      SelectKeepsStream(w.core, c', w.history.imu, Imu);
      SelectKeepsStream(w.core, c', w.history.camera, Camera);
    }
  }

  lemma {:induction false} RetainedAppend(last: Option<Measurement>, a: seq<Measurement>, b: seq<Measurement>)
    ensures Retained(last, a + b) == Retained(Retained(last, a), b)
  {
    if b == [] {
      assert a + b == a;
    } else {
      var n := |b| - 1;
      assert (a + b)[..|a| + n] == a + b[..n];
      RetainedAppend(last, a, b[..n]);
    }
  }

  lemma CompleteKeepsInv(w: World, id: nat, t: nat)
    requires Inv(w)
    ensures Inv(Next(w, Complete(id, t)))
  {
    hide OfStream;
    var (c', reply) := DoComplete(w.core, id, t);
    if reply.Completed? {
      var inputs := w.core.running.value.inputs;
      RetainedAppend(None, w.history.imu.consumed, OfStream(inputs, Imu));
      RetainedAppend(None, w.history.camera.consumed, OfStream(inputs, Camera));
      CompleteKeepsStream(w.core, w.history.imu, Imu, id, t);
      CompleteKeepsStream(w.core, w.history.camera, Camera, id, t);
    }
  }

  lemma CompleteKeepsStream(c: Core, tr: Trace, s: Stream, id: nat, t: nat)
    requires StreamInv(c, tr, s) && DoComplete(c, id, t).1.Completed?
    ensures StreamInv(DoComplete(c, id, t).0, Record(tr, s, Complete(id, t), c.running, DoComplete(c, id, t).1), s)
  {
    hide OfStream, Retained;
    var inFlight, inbox := InFlight(c, s), LaneOf(c, s).inbox;
    assert tr.consumed + inFlight + inbox == (tr.consumed + inFlight) + [] + inbox;
  }

  lemma NextKeepsInv(w: World, call: Call)
    requires Inv(w)
    ensures Inv(Next(w, call))
  {
    hide Merge, OfStream, Without, Retained, Increasing;
    match call
    case Offer(m, arrival) =>
      OfferKeepsStream(w.core, w.history.imu, Imu, m, arrival);
      OfferKeepsStream(w.core, w.history.camera, Camera, m, arrival);
    case Select(t) => SelectKeepsInv(w, t);
    case Complete(id, t) => CompleteKeepsInv(w, id, t);
    case Tick(t, setpoint, maxAge) =>
  }

  lemma {:induction false} RunKeepsInv(capacity: nat, limit: nat, calls: seq<Call>)
    ensures Inv(Run(capacity, limit, calls))
  {
    if calls != [] {
      RunKeepsInv(capacity, limit, calls[..|calls| - 1]);
      NextKeepsInv(Run(capacity, limit, calls[..|calls| - 1]), calls[|calls| - 1]);
    }
  }

  lemma InboxesBounded(w: World)
    requires Inv(w)
    ensures |w.core.imu.inbox| <= w.core.capacity && |w.core.camera.inbox| <= w.core.capacity
  {
  }

  // ---------------------------------------------------------------- history refinement

  /** After any sequence of calls, each stream's consumed measurements, then those of the running batch,
      then those in the inbox are exactly the accepted offers in order, with strictly increasing
      sequence numbers; so nothing offered is lost or counted twice. */
  lemma {:induction false} HistoryRefinement(capacity: nat, limit: nat, calls: seq<Call>, s: Stream)
    ensures var w := Run(capacity, limit, calls);
            var lane, tr := LaneOf(w.core, s), TraceOf(w.history, s);
            && tr.accepted == tr.consumed + InFlight(w.core, s) + lane.inbox
            && Increasing(tr.accepted)
            && lane.counts.offered == lane.counts.dropped + lane.counts.consumed + |lane.inbox| + |InFlight(w.core, s)|
  {
    RunKeepsInv(capacity, limit, calls);
  }

  // ---------------------------------------------------------------- snapshot and freshness

  /** `m` is the last element of `ms` among those with the greatest source time. */
  ghost predicate LastNewest(m: Measurement, ms: seq<Measurement>) {
    exists i :: 0 <= i < |ms| && ms[i] == m && NewestAt(ms, i)
  }

  predicate NewestAt(ms: seq<Measurement>, i: nat)
    requires i < |ms|
  {
    forall j :: 0 <= j < |ms| ==> if j <= i then ms[j].source <= ms[i].source else ms[j].source < ms[i].source
  }

  lemma {:induction false} RetainedIsLastNewest(ms: seq<Measurement>)
    ensures Retained(None, ms).None? <==> ms == []
    ensures ms != [] ==> LastNewest(Retained(None, ms).value, ms)
  {
    if ms != [] {
      var n := |ms| - 1;
      RetainedIsLastNewest(ms[..n]);
      if n == 0 {
        assert NewestAt(ms, 0);
      } else {
        var kept := Retained(None, ms[..n]).value;
        var i :| 0 <= i < n && ms[..n][i] == kept && NewestAt(ms[..n], i);
        assert forall j :: 0 <= j < n ==> ms[..n][j] == ms[j];
        if ms[n].source >= kept.source {
          assert NewestAt(ms, n);
        } else {
          assert NewestAt(ms, i);
        }
      }
    }
  }

  function RetainedOf(c: Core, s: Stream): Option<Measurement> {
    if s.Imu? then SnapshotOr(c.latest).imu else SnapshotOr(c.latest).camera
  }

  /** After any run the snapshot retains, per stream, the last consumed of the newest measurements ever
      completed, and nothing exactly when nothing of that stream was completed. */
  lemma {:induction false} SnapshotMeaning(capacity: nat, limit: nat, calls: seq<Call>, s: Stream)
    ensures var w := Run(capacity, limit, calls);
            var consumed, kept := TraceOf(w.history, s).consumed, RetainedOf(w.core, s);
            && (kept.None? <==> consumed == [])
            && (kept.Some? ==> LastNewest(kept.value, consumed))
  {
    RunKeepsInv(capacity, limit, calls);
    RetainedIsLastNewest(TraceOf(Run(capacity, limit, calls).history, s).consumed);
  }

  lemma {:induction false} RetainedMonotone(last: Option<Measurement>, ms: seq<Measurement>)
    ensures last.Some? ==> Retained(last, ms).Some? && last.value.source <= Retained(last, ms).value.source
  {
    if ms != [] {
      RetainedMonotone(last, ms[..|ms| - 1]);
    }
  }

  /** No call ever makes the retained measurement of a stream older, or forgets it. */
  lemma SnapshotNeverOlder(c: Core, call: Call, s: Stream)
    ensures var before, after := RetainedOf(c, s), RetainedOf(Do(c, call).0, s);
            before.Some? ==> after.Some? && before.value.source <= after.value.source
  {
    if call.Complete? && c.running.Some? {
      RetainedMonotone(RetainedOf(c, s), OfStream(c.running.value.inputs, s));
    }
  }

  /** A control tick after any run: it is missing iff no IMU measurement was ever completed, and usable
      iff some completed IMU measurement is within the age bound; the age subtraction never wraps. */
  lemma {:induction false} ControlFreshness(capacity: nat, limit: nat, calls: seq<Call>, t: nat, setpoint: nat,
                                            maxAge: nat)
    requires t >= Run(capacity, limit, calls).core.clock
    ensures var w := Run(capacity, limit, calls);
            var reply, consumed := Do(w.core, Tick(t, setpoint, maxAge)).1, w.history.imu.consumed;
            && reply.Controlled? && reply.control.snapshot == w.core.latest
            && (forall m <- consumed :: m.source <= t)
            && (RetainedOf(w.core, Imu).Some? ==> RetainedOf(w.core, Imu).value.source <= t)
            && (reply.control.outcome == Missing <==> consumed == [])
            && (reply.control.outcome == Usable <==> exists m <- consumed :: t - m.source <= maxAge)
  {
    var w := Run(capacity, limit, calls);
    RunKeepsInv(capacity, limit, calls);
    FreshnessFromHistory(w, t, maxAge);
  }

  lemma FreshnessFromHistory(w: World, t: nat, maxAge: nat)
    requires Inv(w) && t >= w.core.clock
    ensures var outcome, consumed := FreshnessOf(w.core.latest, t, maxAge), w.history.imu.consumed;
            && (forall m <- consumed :: m.source <= t)
            && (RetainedOf(w.core, Imu).Some? ==> RetainedOf(w.core, Imu).value.source <= t)
            && (outcome == Missing <==> consumed == [])
            && (outcome == Usable <==> exists m <- consumed :: t - m.source <= maxAge)
  {
    var tr := w.history.imu;
    RetainedIsLastNewest(tr.consumed);
    forall m | m in tr.consumed ensures m.source <= t {
      var i :| 0 <= i < |tr.consumed| && tr.consumed[i] == m;
      assert tr.accepted[i] == m;
    }
    if tr.consumed != [] {
      var kept := Retained(None, tr.consumed).value;
      var i :| 0 <= i < |tr.consumed| && tr.consumed[i] == kept && NewestAt(tr.consumed, i);
      assert forall m <- tr.consumed :: m.source <= kept.source;
    }
  }

  // ---------------------------------------------------------------- merge batching

  /** Whenever it may, `select` takes the first min(limit, total) elements of the merge of the inboxes,
      leaves inboxes that merge to the rest, and finds nothing only in an empty graph. */
  lemma SelectTakesMergePrefix(w: World, t: nat)
    requires Inv(w) && w.core.running.None? && w.core.clock <= t && w.core.limit > 0
    ensures var (c', reply) := Do(w.core, Select(t));
            var merged := Merge(w.core.imu.inbox, w.core.camera.inbox);
            var n := Min(w.core.limit, |merged|);
            && reply.Selected?
            && (reply.batch.None? <==> merged == [])
            && (reply.batch.Some? ==>
                  && reply.batch.value.inputs == merged[..n]
                  && Merge(c'.imu.inbox, c'.camera.inbox) == merged[n..])
  {
    InboxBelongs(w.core, w.history.imu, Imu);
    InboxBelongs(w.core, w.history.camera, Camera);
    var merged := Merge(w.core.imu.inbox, w.core.camera.inbox);
    MergeRest(w.core.imu.inbox, w.core.camera.inbox, Min(w.core.limit, |merged|));
  }

  /** `x` may come before `y`: it is older, or as old and not a camera measurement before an IMU one. */
  predicate MayPrecede(x: Measurement, y: Measurement) {
    x.source < y.source || (x.source == y.source && !(x.stream.Camera? && y.stream.Imu?))
  }

  predicate InSourceOrder(ms: seq<Measurement>) {
    forall i, j :: 0 <= i < j < |ms| ==> MayPrecede(ms[i], ms[j])
  }

  /** Inboxes whose source times never decrease merge into source-time order with the IMU first on ties. */
  lemma {:induction false} MergeInSourceOrder(a: seq<Measurement>, b: seq<Measurement>)
    requires Pure(a, Imu) && Pure(b, Camera) && InSourceOrder(a) && InSourceOrder(b)
    ensures InSourceOrder(Merge(a, b))
    ensures forall m <- Merge(a, b) :: m in a || m in b
    decreases |a| + |b|
  {
    if a != [] && b != [] {
      var cameraFirst := b[0].source < a[0].source;
      var head := if cameraFirst then b[0] else a[0];
      var rest := if cameraFirst then Merge(a, b[1..]) else Merge(a[1..], b);
      if cameraFirst {
        MergeInSourceOrder(a, b[1..]);
      } else {
        MergeInSourceOrder(a[1..], b);
      }
      forall m | m in rest ensures MayPrecede(head, m) {
        HeadPrecedes(a, b, head, m);
      }
      assert Merge(a, b) == [head] + rest;
    }
  }

  lemma HeadPrecedes(a: seq<Measurement>, b: seq<Measurement>, head: Measurement, m: Measurement)
    requires a != [] && b != [] && Pure(a, Imu) && Pure(b, Camera) && InSourceOrder(a) && InSourceOrder(b)
    requires head == if b[0].source < a[0].source then b[0] else a[0]
    requires if b[0].source < a[0].source then m in a || m in b[1..] else m in a[1..] || m in b
    ensures MayPrecede(head, m)
  {
  }

  /** One select/complete round. */
  function Round(w: World, t: nat): World {
    Next(Next(w, Select(t)), Complete(w.core.nextBatch, t))
  }

  /** Repeated select/complete rounds at time `t` until `select` finds nothing; the batches taken. */
  ghost function Drain(w: World, t: nat): seq<seq<Measurement>>
    requires Inv(w) && w.core.running.None? && w.core.clock <= t && w.core.limit > 0
    decreases |Merge(w.core.imu.inbox, w.core.camera.inbox)|
  {
    var reply := Do(w.core, Select(t)).1;
    RoundShrinks(w, t);
    if reply.batch.None? then [] else [reply.batch.value.inputs] + Drain(Round(w, t), t)
  }

  lemma RoundShrinks(w: World, t: nat)
    requires Inv(w) && w.core.running.None? && w.core.clock <= t && w.core.limit > 0
    ensures var merged, w' := Merge(w.core.imu.inbox, w.core.camera.inbox), Round(w, t);
            var reply := Do(w.core, Select(t)).1;
            && reply.Selected? && (reply.batch.None? <==> merged == [])
            && (merged != [] ==>
                  && Inv(w') && w'.core.running.None? && w'.core.clock <= t && w'.core.limit == w.core.limit
                  && reply.batch.value.inputs == merged[..Min(w.core.limit, |merged|)]
                  && Merge(w'.core.imu.inbox, w'.core.camera.inbox) == merged[Min(w.core.limit, |merged|)..])
  {
    SelectTakesMergePrefix(w, t);
    NextKeepsInv(w, Select(t));
    NextKeepsInv(Next(w, Select(t)), Complete(w.core.nextBatch, t));
    var merged := Merge(w.core.imu.inbox, w.core.camera.inbox);
    if merged != [] {
      hide Merge, OfStream, Retained, Inv;
      var c' := Next(w, Select(t)).core;
      assert c'.running.Some? && c'.running.value.id == w.core.nextBatch && c'.clock == t;
    }
  }

  function Flatten(batches: seq<seq<Measurement>>): seq<Measurement> {
    if batches == [] then [] else batches[0] + Flatten(batches[1..])
  }

  /** Draining yields the same overall sequence for every batch limit, namely the merge of the inboxes,
      and takes exactly as many rounds as there are limit-sized portions in it, rounded up. */
  lemma {:induction false} DrainOrder(w: World, t: nat)
    requires Inv(w) && w.core.running.None? && w.core.clock <= t && w.core.limit > 0
    ensures var merged, rounds := Merge(w.core.imu.inbox, w.core.camera.inbox), |Drain(w, t)|;
            && Flatten(Drain(w, t)) == merged
            && |merged| <= rounds * w.core.limit
            && (merged != [] ==> (rounds - 1) * w.core.limit < |merged|)
            && (merged == [] ==> rounds == 0)
    decreases |Merge(w.core.imu.inbox, w.core.camera.inbox)|
  {
    hide Merge, Inv, Do, Round;
    RoundShrinks(w, t);
    var merged, limit := Merge(w.core.imu.inbox, w.core.camera.inbox), w.core.limit;
    if merged != [] {
      var n, w' := Min(limit, |merged|), Round(w, t);
      DrainOrder(w', t);
      var rest := Drain(w', t);
      assert Drain(w, t) == [merged[..n]] + rest;
      assert Drain(w, t)[1..] == rest;
      assert merged[..n] + merged[n..] == merged;
      OneMoreRound(|rest|, limit, |merged|);
    }
  }

  lemma OneMoreRound(rounds: nat, limit: nat, total: nat)
    requires total > 0 && limit > 0
    requires var left := total - Min(limit, total);
             left <= rounds * limit && (left > 0 ==> (rounds - 1) * limit < left) && (left == 0 ==> rounds == 0)
    ensures total <= (rounds + 1) * limit && rounds * limit < total
  {
    assert (rounds + 1) * limit == rounds * limit + limit;
    assert (rounds - 1) * limit == rounds * limit - limit;
  }
}
