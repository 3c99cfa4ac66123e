/**
 The dependent graph of demo/dependent_graph.h: two bounded inboxes, merge batching, one running
 batch, the retained snapshot and control freshness.

 `Do` is the meaning of one call on the graph's fields. A call that throws is `Throws` and leaves the
 fields alone. The class at the end has the loops of the original and is proved against `Do`.
 */
module Graph {
  import opened Options

  datatype Stream = Imu | Camera

  datatype Measurement = Measurement(stream: Stream, sequence: nat, source: nat)

  datatype Counts = Counts(offered: nat, dropped: nat, consumed: nat)

  datatype Batch = Batch(id: nat, inputs: seq<Measurement>)

  datatype Snapshot = Snapshot(batchId: nat, completed: nat, imu: Option<Measurement>, camera: Option<Measurement>)

  datatype Outcome = Usable | Stale | Missing

  datatype Control = Control(tick: nat, setpoint: nat, release: nat, outcome: Outcome, snapshot: Option<Snapshot>)

  /** What the graph keeps for one stream. */
  datatype Lane = Lane(inbox: seq<Measurement>, counts: Counts, last: Option<nat>)

  datatype Core = Core(
    capacity: nat, limit: nat, imu: Lane, camera: Lane, running: Option<Batch>, latest: Option<Snapshot>,
    nextBatch: nat, nextTick: nat, clock: nat)

  function LaneOf(c: Core, s: Stream): Lane {
    if s.Imu? then c.imu else c.camera
  }

  function WithLane(c: Core, s: Stream, lane: Lane): Core {
    if s.Imu? then c.(imu := lane) else c.(camera := lane)
  }

  function EmptyLane(): Lane { Lane([], Counts(0, 0, 0), None) }

  function NewGraph(capacity: nat, limit: nat): Core {
    Core(capacity, limit, EmptyLane(), EmptyLane(), None, None, 1, 1, 0)
  }

  // ---------------------------------------------------------------- calls and replies

  datatype Call =
    | Offer(m: Measurement, arrival: nat)
    | Select(t: nat)
    | Complete(id: nat, t: nat)
    | Tick(t: nat, setpoint: nat, maxAge: nat)

  datatype Reply =
    | Throws
    | Offered(accepted: bool)
    | Selected(batch: Option<Batch>)
    | Completed(snapshot: Snapshot)
    | Controlled(control: Control)

  predicate OfferThrows(c: Core, m: Measurement, arrival: nat) {
    var last := LaneOf(c, m.stream).last;
    m.source > arrival || (last.Some? && m.sequence <= last.value) || arrival < c.clock
  }

  function DoOffer(c: Core, m: Measurement, arrival: nat): (Core, Reply) {
    var lane := LaneOf(c, m.stream);
    var n := lane.counts;
    if OfferThrows(c, m, arrival) then (c, Throws)
    else if |lane.inbox| == c.capacity then
      (WithLane(c.(clock := arrival), m.stream,
                lane.(counts := n.(offered := n.offered + 1, dropped := n.dropped + 1), last := Some(m.sequence))),
       Offered(false))
    else
      (WithLane(c.(clock := arrival), m.stream,
                Lane(lane.inbox + [m], n.(offered := n.offered + 1), Some(m.sequence))),
       Offered(true))
  }

  /** The two inboxes in source-time order, the IMU first on ties. */
  function Merge(a: seq<Measurement>, b: seq<Measurement>): seq<Measurement>
    decreases |a| + |b|
  {
    if a == [] then b
    else if b == [] then a
    else if b[0].source < a[0].source then [b[0]] + Merge(a, b[1..])
    else [a[0]] + Merge(a[1..], b)
  }

  function OfStream(ms: seq<Measurement>, s: Stream): seq<Measurement> {
    if ms == [] then []
    else OfStream(ms[..|ms| - 1], s) + if ms[|ms| - 1].stream == s then [ms[|ms| - 1]] else []
  }

  function Min(a: nat, b: nat): nat { if a < b then a else b }

  /** A batch is a prefix of the merge; what it took leaves the inboxes. */
  function DoSelect(c: Core, t: nat): (Core, Reply) {
    if t < c.clock then (c, Throws)
    else if c.running.Some? then (c.(clock := t), Selected(None))
    else
      var merged := Merge(c.imu.inbox, c.camera.inbox);
      var inputs := merged[..Min(c.limit, |merged|)];
      if inputs == [] then (c.(clock := t), Selected(None))
      else
        var batch := Batch(c.nextBatch, inputs);
        (c.(clock := t, nextBatch := c.nextBatch + 1, running := Some(batch),
            imu := c.imu.(inbox := Without(c.imu.inbox, |OfStream(inputs, Imu)|)),
            camera := c.camera.(inbox := Without(c.camera.inbox, |OfStream(inputs, Camera)|))),
         Selected(Some(batch)))
  }

  function Without(ms: seq<Measurement>, n: nat): seq<Measurement> {
    if n <= |ms| then ms[n..] else []
  }

  /** The newer of what was retained and `m`; on equal source times the later one. */
  function Newer(last: Option<Measurement>, m: Measurement): Option<Measurement> {
    if last.None? || m.source >= last.value.source then Some(m) else last
  }

  /** The measurement retained after consuming `ms` in order. */
  function Retained(last: Option<Measurement>, ms: seq<Measurement>): Option<Measurement> {
    if ms == [] then last else Newer(Retained(last, ms[..|ms| - 1]), ms[|ms| - 1])
  }

  function Consume(lane: Lane, n: nat): Lane {
    lane.(counts := lane.counts.(consumed := lane.counts.consumed + n))
  }

  function SnapshotOr(latest: Option<Snapshot>): Snapshot {
    if latest.Some? then latest.value else Snapshot(0, 0, None, None)
  }

  function DoComplete(c: Core, id: nat, t: nat): (Core, Reply) {
    if c.running.None? || c.running.value.id != id || t < c.clock then (c, Throws)
    else
      var imus, cameras := OfStream(c.running.value.inputs, Imu), OfStream(c.running.value.inputs, Camera);
      var kept := SnapshotOr(c.latest);
      var s := Snapshot(id, t, Retained(kept.imu, imus), Retained(kept.camera, cameras));
      (c.(clock := t, running := None, latest := Some(s),
          imu := Consume(c.imu, |imus|), camera := Consume(c.camera, |cameras|)),
       Completed(s))
  }

  function FreshnessOf(latest: Option<Snapshot>, t: nat, maxAge: nat): Outcome {
    if latest.None? || latest.value.imu.None? then Missing
    else if t - latest.value.imu.value.source <= maxAge then Usable
    else Stale
  }

  function DoTick(c: Core, t: nat, setpoint: nat, maxAge: nat): (Core, Reply) {
    if t < c.clock then (c, Throws)
    else (c.(clock := t, nextTick := c.nextTick + 1),
          Controlled(Control(c.nextTick, setpoint, t, FreshnessOf(c.latest, t, maxAge), c.latest)))
  }

  function Do(c: Core, call: Call): (Core, Reply) {
    match call
    case Offer(m, arrival) => DoOffer(c, m, arrival)
    case Select(t) => DoSelect(c, t)
    case Complete(id, t) => DoComplete(c, id, t)
    case Tick(t, setpoint, maxAge) => DoTick(c, t, setpoint, maxAge)
  }

  /** A call that throws changes nothing. */
  lemma ThrowsKeepsState(c: Core, call: Call)
    ensures Do(c, call).1.Throws? ==> Do(c, call).0 == c
  {
  }

  // ---------------------------------------------------------------- histories

  /** The accepted offers and the completed measurements of one stream, in call order. */
  datatype Trace = Trace(accepted: seq<Measurement>, consumed: seq<Measurement>)

  datatype History = History(imu: Trace, camera: Trace)

  function TraceOf(h: History, s: Stream): Trace {
    if s.Imu? then h.imu else h.camera
  }

  /** What one call, seen from outside by its reply, adds to the history of stream `s`. */
  function Record(tr: Trace, s: Stream, call: Call, running: Option<Batch>, reply: Reply): Trace {
    if call.Offer? && call.m.stream == s && reply == Offered(true) then tr.(accepted := tr.accepted + [call.m])
    else if reply.Completed? && running.Some? then tr.(consumed := tr.consumed + OfStream(running.value.inputs, s))
    else tr
  }

  datatype World = World(core: Core, history: History)

  function Next(w: World, call: Call): World {
    var (core, reply) := Do(w.core, call);
    World(core, History(Record(w.history.imu, Imu, call, w.core.running, reply),
                        Record(w.history.camera, Camera, call, w.core.running, reply)))
  }

  function Run(capacity: nat, limit: nat, calls: seq<Call>): World {
    if calls == [] then World(NewGraph(capacity, limit), History(Trace([], []), Trace([], [])))
    else Next(Run(capacity, limit, calls[..|calls| - 1]), calls[|calls| - 1])
  }

  function InFlight(c: Core, s: Stream): seq<Measurement> {
    if c.running.Some? then OfStream(c.running.value.inputs, s) else []
  }

  predicate Increasing(ms: seq<Measurement>) {
    forall i, j :: 0 <= i < j < |ms| ==> ms[i].sequence < ms[j].sequence
  }

  predicate Belong(ms: seq<Measurement>, s: Stream, clock: nat) {
    forall i :: 0 <= i < |ms| ==> ms[i].stream == s && ms[i].source <= clock
  }

  /** Consumed, running and waiting measurements are the accepted offers, in order; the counters count. */
  predicate StreamInv(c: Core, tr: Trace, s: Stream) {
    var lane := LaneOf(c, s);
    && tr.accepted == tr.consumed + InFlight(c, s) + lane.inbox
    && Increasing(tr.accepted) && Belong(tr.accepted, s, c.clock)
    && (forall m <- tr.accepted :: lane.last.Some? && m.sequence <= lane.last.value)
    && lane.counts.offered == lane.counts.dropped + |tr.accepted|
    && lane.counts.consumed == |tr.consumed|
    && |lane.inbox| <= c.capacity
  }

  predicate SnapshotInv(c: Core, h: History) {
    && SnapshotOr(c.latest).imu == Retained(None, h.imu.consumed)
    && SnapshotOr(c.latest).camera == Retained(None, h.camera.consumed)
  }

  predicate BatchInv(c: Core) {
    c.running.Some? ==> 0 < |c.running.value.inputs| <= c.limit && c.running.value.id < c.nextBatch
  }

  predicate Inv(w: World) {
    && StreamInv(w.core, w.history.imu, Imu) && StreamInv(w.core, w.history.camera, Camera)
    && SnapshotInv(w.core, w.history) && BatchInv(w.core)
  }

  // ---------------------------------------------------------------- facts about merge and filter

  lemma {:induction false} OfStreamAppend(a: seq<Measurement>, b: seq<Measurement>, s: Stream)
    ensures OfStream(a + b, s) == OfStream(a, s) + OfStream(b, s)
  {
    if b == [] {
      assert a + b == a;
    } else {
      var n := |b| - 1;
      assert (a + b)[..|a| + n] == a + b[..n];
      OfStreamAppend(a, b[..n], s);
    }
  }

  lemma {:induction false} OfStreamPure(ms: seq<Measurement>, s: Stream, r: Stream)
    requires Pure(ms, r)
    ensures OfStream(ms, s) == if s == r then ms else []
  {
    if ms != [] {
      OfStreamPure(ms[..|ms| - 1], s, r);
    }
  }

  predicate Pure(ms: seq<Measurement>, s: Stream) {
    forall i :: 0 <= i < |ms| ==> ms[i].stream == s
  }

  /** Merging loses nothing and keeps each stream in order. */
  lemma {:induction false} MergeStreams(a: seq<Measurement>, b: seq<Measurement>, s: Stream)
    requires Pure(a, Imu) && Pure(b, Camera)
    ensures OfStream(Merge(a, b), s) == if s.Imu? then a else b
    decreases |a| + |b|
  {
    hide OfStream;
    if a == [] {
      OfStreamPure(b, s, Camera);
    } else if b == [] {
      OfStreamPure(a, s, Imu);
    } else if b[0].source < a[0].source {
      MergeStreams(a, b[1..], s);
      OfStreamHead(b[0], Merge(a, b[1..]), s);
      assert [b[0]] + b[1..] == b;
    } else {
      MergeStreams(a[1..], b, s);
      OfStreamHead(a[0], Merge(a[1..], b), s);
      assert [a[0]] + a[1..] == a;
    }
  }

  lemma {:induction false} OfStreamHead(m: Measurement, rest: seq<Measurement>, s: Stream)
    ensures OfStream([m] + rest, s) == if m.stream == s then [m] + OfStream(rest, s) else OfStream(rest, s)
  {
    OfStreamAppend([m], rest, s);
    assert [m][..0] == [];
    assert OfStream([m], s) == if m.stream == s then [m] else [];
  }

  /** What is left in the inboxes after taking `k` elements still merges to the rest of the merge. */
  lemma {:induction false} MergeRest(a: seq<Measurement>, b: seq<Measurement>, k: nat)
    requires Pure(a, Imu) && Pure(b, Camera) && k <= |Merge(a, b)|
    ensures var inputs := Merge(a, b)[..k];
            Merge(Without(a, |OfStream(inputs, Imu)|), Without(b, |OfStream(inputs, Camera)|)) == Merge(a, b)[k..]
    decreases k
  {
    hide Merge, OfStream;
    MergeOfNothing();
    if k > 0 {
      MergeLength(a, b);
      MergeHead(a, b);
      var inputs := Merge(a, b)[..k];
      if a == [] || (b != [] && b[0].source < a[0].source) {
        MergeRest(a, b[1..], k - 1);
        var rest := Merge(a, b[1..])[..k - 1];
        assert inputs == [b[0]] + rest;
        OfStreamHead(b[0], rest, Imu);
        OfStreamHead(b[0], rest, Camera);
      } else {
        MergeRest(a[1..], b, k - 1);
        var rest := Merge(a[1..], b)[..k - 1];
        assert inputs == [a[0]] + rest;
        OfStreamHead(a[0], rest, Imu);
        OfStreamHead(a[0], rest, Camera);
      }
    }
  }

  lemma {:induction false} MergeLength(a: seq<Measurement>, b: seq<Measurement>)
    ensures |Merge(a, b)| == |a| + |b|
    decreases |a| + |b|
  {
    if a != [] && b != [] {
      if b[0].source < a[0].source {
        MergeLength(a, b[1..]);
      } else {
        MergeLength(a[1..], b);
      }
    }
  }

  // ---------------------------------------------------------------- the class

  /** `Graph`. The caller serializes access. */
  class DependentGraph {
    const capacity: nat
    const limit: nat
    var imu: Lane
    var camera: Lane
    var running: Option<Batch>
    var latest: Option<Snapshot>
    var nextBatch: nat
    var nextTick: nat
    var clock: nat

    function State(): Core
      reads this
    {
      Core(capacity, limit, imu, camera, running, latest, nextBatch, nextTick, clock)
    }

    /** `index` only ever files a measurement under its own stream. */
    ghost predicate Valid()
      reads this
    {
      Pure(imu.inbox, Imu) && Pure(camera.inbox, Camera)
    }

    constructor (capacity: nat, limit: nat)
      requires capacity > 0 && limit > 0
      ensures Valid() && State() == NewGraph(capacity, limit)
    {
      this.capacity, this.limit := capacity, limit;
      imu, camera, running, latest := EmptyLane(), EmptyLane(), None, None;
      nextBatch, nextTick, clock := 1, 1, 0;
    }

    method Offer(m: Measurement, arrival: nat) returns (r: Reply)
      requires Valid()
      modifies this
      ensures Valid() && (State(), r) == Do(old(State()), Call.Offer(m, arrival))
    {
      var lane := if m.stream.Imu? then imu else camera;
      if m.source > arrival || (lane.last.Some? && m.sequence <= lane.last.value) {
        return Throws;
      }
      if arrival < clock {
        return Throws;
      }
      clock := arrival;
      lane := lane.(last := Some(m.sequence), counts := lane.counts.(offered := lane.counts.offered + 1));
      if |lane.inbox| == capacity {
        lane := lane.(counts := lane.counts.(dropped := lane.counts.dropped + 1));
        r := Offered(false);
      } else {
        lane := lane.(inbox := lane.inbox + [m]);
        r := Offered(true);
      }
      if m.stream.Imu? {
        imu := lane;
      } else {
        camera := lane;
      }
    }

    method Select(t: nat) returns (r: Reply)
      requires Valid()
      modifies this
      ensures Valid() && (State(), r) == Do(old(State()), Call.Select(t))
    {
      if t < clock {
        return Throws;
      }
      clock := t;
      if running.Some? {
        return Selected(None);
      }
      var inputs, imus, cameras := FillBatch(imu.inbox, camera.inbox, limit);
      imu, camera := imu.(inbox := imus), camera.(inbox := cameras);
      if inputs == [] {
        return Selected(None);
      }
      var batch := Batch(nextBatch, inputs);
      nextBatch := nextBatch + 1;
      running := Some(batch);
      return Selected(Some(batch));
    }

    method Complete(id: nat, t: nat) returns (r: Reply)
      requires Valid()
      modifies this
      ensures Valid() && (State(), r) == Do(old(State()), Call.Complete(id, t))
    {
      if running.None? || running.value.id != id {
        return Throws;
      }
      if t < clock {
        return Throws;
      }
      clock := t;
      var inputs := running.value.inputs;
      var kept := SnapshotOr(latest);
      var imus, cameras, lastImu, lastCamera := ConsumeBatch(inputs, kept.imu, kept.camera);
      imu, camera := Consume(imu, imus), Consume(camera, cameras);
      var s := Snapshot(id, t, lastImu, lastCamera);
      latest := Some(s);
      running := None;
      return Completed(s);
    }

    method Tick(t: nat, setpoint: nat, maxAge: nat) returns (r: Reply)
      requires Valid()
      modifies this
      ensures Valid() && (State(), r) == Do(old(State()), Call.Tick(t, setpoint, maxAge))
    {
      if t < clock {
        return Throws;
      }
      clock := t;
      var outcome := Missing;
      if latest.Some? && latest.value.imu.Some? {
        outcome := if t - latest.value.imu.value.source <= maxAge then Usable else Stale;
      }
      r := Controlled(Control(nextTick, setpoint, t, outcome, latest));
      nextTick := nextTick + 1;
    }
  }

  /** The original's constructor: it refuses a zero capacity or a zero batch limit. */
  method Construct(capacity: nat, limit: nat) returns (g: Option<DependentGraph>)
    ensures g.None? <==> capacity == 0 || limit == 0
    ensures g.Some? ==> fresh(g.value) && g.value.Valid() && g.value.State() == NewGraph(capacity, limit)
  {
    if capacity == 0 || limit == 0 {
      return None;
    }
    var graph := new DependentGraph(capacity, limit);
    return Some(graph);
  }

  /** The loop of `select`: repeatedly move the older front, the IMU's on ties. */
  method FillBatch(imus: seq<Measurement>, cameras: seq<Measurement>, limit: nat)
    returns (inputs: seq<Measurement>, a: seq<Measurement>, b: seq<Measurement>)
    requires Pure(imus, Imu) && Pure(cameras, Camera)
    ensures var merged := Merge(imus, cameras); inputs == merged[..Min(limit, |merged|)]
    ensures a == Without(imus, |OfStream(inputs, Imu)|) && Pure(a, Imu)
    ensures b == Without(cameras, |OfStream(inputs, Camera)|) && Pure(b, Camera)
    ensures inputs == [] ==> a == imus && b == cameras
  {
    hide Merge, OfStream;
    inputs, a, b := [], imus, cameras;
    MergeOfNothing();
    while |inputs| < limit && (a != [] || b != [])
      invariant |inputs| <= limit && Pure(a, Imu) && Pure(b, Camera)
      invariant inputs + Merge(a, b) == Merge(imus, cameras)
      invariant OfStream(inputs, Imu) + a == imus && OfStream(inputs, Camera) + b == cameras
      decreases |a| + |b|
    {
      var takeCamera := a == [];
      if a != [] && b != [] && b[0].source < a[0].source {
        takeCamera := true;
      }
      MergeHead(a, b);
      if takeCamera {
        OfStreamLast(inputs, b[0], Imu);
        OfStreamLast(inputs, b[0], Camera);
        inputs, b := inputs + [b[0]], b[1..];
      } else {
        OfStreamLast(inputs, a[0], Imu);
        OfStreamLast(inputs, a[0], Camera);
        inputs, a := inputs + [a[0]], a[1..];
      }
    }
  }

  /** The loop of `complete`: count the batch by stream and retain the newest of each. */
  method ConsumeBatch(inputs: seq<Measurement>, imu: Option<Measurement>, camera: Option<Measurement>)
    returns (imus: nat, cameras: nat, lastImu: Option<Measurement>, lastCamera: Option<Measurement>)
    ensures imus == |OfStream(inputs, Imu)| && cameras == |OfStream(inputs, Camera)|
    ensures lastImu == Retained(imu, OfStream(inputs, Imu))
    ensures lastCamera == Retained(camera, OfStream(inputs, Camera))
  {
    hide OfStream, Retained;
    imus, cameras, lastImu, lastCamera := 0, 0, imu, camera;
    MergeOfNothing();
    RetainedNothing(imu);
    RetainedNothing(camera);
    for j := 0 to |inputs|
      invariant imus == |OfStream(inputs[..j], Imu)| && cameras == |OfStream(inputs[..j], Camera)|
      invariant lastImu == Retained(imu, OfStream(inputs[..j], Imu))
      invariant lastCamera == Retained(camera, OfStream(inputs[..j], Camera))
    {
      var m := inputs[j];
      assert inputs[..j + 1] == inputs[..j] + [m];
      OfStreamLast(inputs[..j], m, Imu);
      OfStreamLast(inputs[..j], m, Camera);
      if m.stream.Imu? {
        RetainedLast(imu, OfStream(inputs[..j], Imu), m);
        imus := imus + 1;
        lastImu := if lastImu.None? || m.source >= lastImu.value.source then Some(m) else lastImu;
      } else {
        RetainedLast(camera, OfStream(inputs[..j], Camera), m);
        cameras := cameras + 1;
        lastCamera := if lastCamera.None? || m.source >= lastCamera.value.source then Some(m) else lastCamera;
      }
    }
    assert inputs[..|inputs|] == inputs;
  }

  lemma MergeOfNothing()
    ensures Merge([], []) == [] && OfStream([], Imu) == [] && OfStream([], Camera) == []
  {
  }

  lemma {:induction false} RetainedNothing(last: Option<Measurement>)
    ensures Retained(last, []) == last
  {
  }

  lemma {:induction false} RetainedLast(last: Option<Measurement>, ms: seq<Measurement>, m: Measurement)
    ensures Retained(last, ms + [m]) == Newer(Retained(last, ms), m)
  {
    assert (ms + [m])[..|ms|] == ms;
  }

  lemma {:induction false} OfStreamLast(ms: seq<Measurement>, m: Measurement, s: Stream)
    ensures OfStream(ms + [m], s) == if m.stream == s then OfStream(ms, s) + [m] else OfStream(ms, s)
  {
    assert (ms + [m])[..|ms|] == ms;
  }

  /** The head of the merge and what it leaves. */
  lemma {:induction false} MergeHead(a: seq<Measurement>, b: seq<Measurement>)
    requires a != [] || b != []
    ensures Merge(a, b) == if a == [] || (b != [] && b[0].source < a[0].source)
                           then [b[0]] + Merge(a, b[1..]) else [a[0]] + Merge(a[1..], b)
  {
    if a == [] {
      assert b == [b[0]] + b[1..];
    } else if b == [] {
      assert a == [a[0]] + a[1..];
    }
  }
}
