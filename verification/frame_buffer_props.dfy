/** Properties of the viewer frame buffer over whole runs: the bounds hold in
    every reachable state, counters only grow, capacity drops keep the newest
    three frames in arrival order, and every received frame is accounted for. */
module FrameBufferProps {
  import opened Util
  import opened FrameBuffer

  /** Everything that can happen to a manager. The load and error callbacks
      only fire for a decode that was started; with none in flight they are
      no-ops here. */
  datatype Event =
    | Arrive(data: string, at: int)
    | Tick(at: int)
    | Loaded(at: int)
    | Failed(at: int)
    | Clear
    | Teardown

  function StepEv(m: Manager, e: Event): Manager
  {
    match e
    case Arrive(data, at) => AddFrame(m, data, at)
    case Tick(at) => RenderTick(m, at)
    case Loaded(at) => if m.IsProcessing() then CompleteDecode(m, at, true) else m
    case Failed(at) => if m.IsProcessing() then CompleteDecode(m, at, false) else m
    case Clear => ClearBuffer(m)
    case Teardown => Destroy(m)
  }

  function Run(m: Manager, evs: seq<Event>): Manager
    decreases |evs|
  {
    if |evs| == 0 then m else Run(StepEv(m, evs[0]), evs[1..])
  }

  /** Each step keeps the buffer at three frames or fewer and the latency
      window at thirty samples or fewer, and never lowers a counter. */
  lemma StepValid(m: Manager, e: Event)
    requires Valid(m)
    ensures Valid(StepEv(m, e))
    ensures StepEv(m, e).droppedFrames >= m.droppedFrames
    ensures StepEv(m, e).processedFrames >= m.processedFrames
  {
  }

  /** The bounds hold after any run from a valid state, and the cumulative
      counters never decrease. */
  lemma {:induction false} RunValid(m: Manager, evs: seq<Event>)
    requires Valid(m)
    ensures Valid(Run(m, evs))
    ensures Run(m, evs).droppedFrames >= m.droppedFrames
    ensures Run(m, evs).processedFrames >= m.processedFrames
    decreases |evs|
  {
    if |evs| > 0 {
      StepValid(m, evs[0]);
      RunValid(StepEv(m, evs[0]), evs[1..]);
    }
  }

  /** Every reachable state is valid. */
  lemma ReachableValid(evs: seq<Event>)
    ensures Valid(Run(Init(), evs))
  {
    RunValid(Init(), evs);
  }

  // ---------------------------------------------------------------------------
  // Accounting

  /** Frames the manager holds or has counted. */
  function Accounted(m: Manager): nat
  {
    |m.buffer| + (if m.IsProcessing() then 1 else 0) + m.droppedFrames + m.processedFrames
  }

  /** Frames a step discards without counting them: the queue emptied by
      `clearBuffer`/`destroy`, or a frame whose decode failed. */
  function Uncounted(m: Manager, e: Event): nat
  {
    match e
    case Clear => |m.buffer|
    case Teardown => |m.buffer|
    case Failed(_) => if m.IsProcessing() then 1 else 0
    case _ => 0
  }

  function Arrivals(evs: seq<Event>): nat
    decreases |evs|
  {
    if |evs| == 0 then 0 else (if evs[0].Arrive? then 1 else 0) + Arrivals(evs[1..])
  }

  function UncountedRun(m: Manager, evs: seq<Event>): nat
    decreases |evs|
  {
    if |evs| == 0 then 0 else Uncounted(m, evs[0]) + UncountedRun(StepEv(m, evs[0]), evs[1..])
  }

  lemma StepAccounted(m: Manager, e: Event)
    ensures Accounted(StepEv(m, e)) + Uncounted(m, e) == Accounted(m) + (if e.Arrive? then 1 else 0)
  {
  }

  /** No frame goes missing: each arrival ends up queued, in flight, dropped,
      processed, or discarded by a clear or a failed decode. */
  lemma {:induction false} RunAccounted(m: Manager, evs: seq<Event>)
    ensures Accounted(Run(m, evs)) + UncountedRun(m, evs) == Accounted(m) + Arrivals(evs)
    decreases |evs|
  {
    if |evs| > 0 {
      StepAccounted(m, evs[0]);
      RunAccounted(StepEv(m, evs[0]), evs[1..]);
    }
  }

  // ---------------------------------------------------------------------------
  // Capacity drops

  /** The newest `MaxBufferSize` elements of `s`. */
  function Newest(s: seq<BufferedFrame>): (r: seq<BufferedFrame>)
    ensures |r| <= MaxBufferSize
  {
    if |s| <= MaxBufferSize then s else s[|s| - MaxBufferSize..]
  }

  /** Arrivals with no rendering in between; the last arrival is added last. */
  function AddAll(m: Manager, arrivals: seq<(string, int)>): Manager
    decreases |arrivals|
  {
    if |arrivals| == 0 then m
    else
      var last := arrivals[|arrivals| - 1];
      AddFrame(AddAll(m, arrivals[..|arrivals| - 1]), last.0, last.1)
  }

  function AsFrames(arrivals: seq<(string, int)>): (r: seq<BufferedFrame>)
    ensures |r| == |arrivals|
    ensures forall i :: 0 <= i < |arrivals| ==> r[i] == BufferedFrame(arrivals[i].0, arrivals[i].1, arrivals[i].1)
  {
    seq(|arrivals|, i requires 0 <= i < |arrivals| => BufferedFrame(arrivals[i].0, arrivals[i].1, arrivals[i].1))
  }

  lemma AsFramesSnoc(arrivals: seq<(string, int)>)
    requires |arrivals| > 0
    ensures var last := arrivals[|arrivals| - 1];
            AsFrames(arrivals) == AsFrames(arrivals[..|arrivals| - 1]) + [BufferedFrame(last.0, last.1, last.1)]
  {
  }

  lemma NewestPush(s: seq<BufferedFrame>, f: BufferedFrame)
    ensures Newest(Newest(s) + [f]) == Newest(s + [f])
  {
    if |s| > MaxBufferSize {
      assert Newest(s) + [f] == (s + [f])[|s| - MaxBufferSize..];
    }
  }

  /** Adding to a buffer that holds the newest frames of `x` leaves the
      newest frames of `x` plus the arrival; a frame leaves the window
      exactly when one is counted dropped. */
  lemma AddFrameOnNewest(b: Manager, x: seq<BufferedFrame>, data: string, at: int)
    requires b.buffer == Newest(x)
    ensures AddFrame(b, data, at).buffer == Newest(x + [BufferedFrame(data, at, at)])
    ensures AddFrame(b, data, at).droppedFrames + |Newest(x + [BufferedFrame(data, at, at)])|
            == b.droppedFrames + |Newest(x)| + 1
    ensures AddFrame(b, data, at).processedFrames == b.processedFrames
  {
    var f := BufferedFrame(data, at, at);
    NewestPush(x, f);
    if |b.buffer| >= MaxBufferSize {
      assert b.buffer[1..] + [f] == Newest(b.buffer + [f]);
    }
  }

  /** Arrivals with no rendering in between leave exactly the newest three
      frames of everything received, in arrival order, and count every other
      frame as dropped. */
  lemma {:induction false} AddAllKeepsNewest(m: Manager, arrivals: seq<(string, int)>)
    requires |m.buffer| <= MaxBufferSize
    ensures AddAll(m, arrivals).buffer == Newest(m.buffer + AsFrames(arrivals))
    ensures AddAll(m, arrivals).droppedFrames + |Newest(m.buffer + AsFrames(arrivals))|
            == m.droppedFrames + |m.buffer| + |arrivals|
    ensures AddAll(m, arrivals).processedFrames == m.processedFrames
    decreases |arrivals|
  {
    if |arrivals| == 0 {
      assert m.buffer + AsFrames(arrivals) == m.buffer;
    } else {
      var init := arrivals[..|arrivals| - 1];
      var last := arrivals[|arrivals| - 1];
      var f := BufferedFrame(last.0, last.1, last.1);
      AddAllKeepsNewest(m, init);
      var x := m.buffer + AsFrames(init);
      AddFrameOnNewest(AddAll(m, init), x, last.0, last.1);
      AsFramesSnoc(arrivals);
      assert m.buffer + AsFrames(arrivals) == x + [f];
    }
  }

  /** Five frames into an empty buffer with no rendering: the buffer holds
      the third, fourth and fifth, and two frames were dropped. */
  lemma FiveFrames(m: Manager, f1: string, f2: string, f3: string, f4: string, f5: string, t: int)
    requires m.buffer == []
    ensures var r := AddAll(m, [(f1, t), (f2, t), (f3, t), (f4, t), (f5, t)]);
            && r.buffer == [BufferedFrame(f3, t, t), BufferedFrame(f4, t, t), BufferedFrame(f5, t, t)]
            && r.droppedFrames == m.droppedFrames + 2
  {
    var a := [(f1, t), (f2, t), (f3, t), (f4, t), (f5, t)];
    AddAllKeepsNewest(m, a);
    assert m.buffer + AsFrames(a) == AsFrames(a);
  }

  // ---------------------------------------------------------------------------
  // Facts as written

  /** `destroy` does not cancel the render loop: a frame added afterwards is
      still picked up by the next due tick. */
  lemma RenderingOutlivesDestroy(m: Manager, data: string, now: int)
    requires !m.IsProcessing() && TickDue(m, now)
    ensures RenderTick(AddFrame(Destroy(m), data, now), now).decoding == Some(BufferedFrame(data, now, now))
  {
  }

  /** A tick while a decode is in flight dequeues nothing, yet consumes the
      render slot: the next tick has to wait a full interval again. */
  lemma BusyTickConsumesSlot(m: Manager, now: int)
    requires m.IsProcessing() && |m.buffer| > 0 && TickDue(m, now)
    ensures RenderTick(m, now).buffer == m.buffer
    ensures RenderTick(m, now).lastFrameTime == now
  {
  }

  /** The latency recorded for a frame runs from its receipt, so the time it
      spent queued counts, but not the time before it arrived. */
  lemma LatencyFromReceipt(m: Manager, data: string, arrive: int, start: int, done: int)
    requires Valid(m) && !m.IsProcessing() && m.buffer == [] && TickDue(m, start)
    requires start - arrive <= MaxFrameAge
    ensures var m1 := RenderTick(AddFrame(m, data, arrive), start);
            && m1.IsProcessing()
            && var m2 := CompleteDecode(m1, done, true);
               m2.latencyHistory[|m2.latencyHistory| - 1] == done - arrive
  {
  }
}
