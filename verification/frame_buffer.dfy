/** The viewer's frame buffer (`VideoStreamManager`): a FIFO of at most three
    received frames, a render tick that hands at most one frame per interval
    to a two-phase decode (start, then the image's load or error callback),
    a staleness drop, a 30-sample latency window and cumulative counters.
    Time is the integer millisecond reading `now` passed to every step. */
module FrameBuffer {
  import opened Util

  const MaxBufferSize: nat := 3
  const TargetFps: nat := 30
  /** Frames older than this many milliseconds at dequeue time are dropped. */
  const MaxFrameAge: int := 200
  const LatencyWindow: nat := 30

  /** A buffered frame; `timestamp` and `receivedAt` are both the arrival time. */
  datatype BufferedFrame = BufferedFrame(data: string, timestamp: int, receivedAt: int)

  /** The manager's state. `decoding` is the frame whose image is loading:
      the frame the load callback captured, present exactly while the
      `isProcessing` flag is set. */
  datatype Manager = Manager(
    buffer: seq<BufferedFrame>,
    decoding: Option<BufferedFrame>,
    lastFrameTime: int,
    droppedFrames: nat,
    processedFrames: nat,
    latencyHistory: seq<int>)
  {
    predicate IsProcessing() { decoding.Some? }
  }

  /** The state right after construction. */
  function Init(): (m: Manager)
    ensures m.buffer == [] && !m.IsProcessing() && m.droppedFrames == 0 && m.processedFrames == 0
    ensures m.latencyHistory == [] && m.lastFrameTime == 0
  {
    Manager([], None, 0, 0, 0, [])
  }

  /** The bounds every reachable state respects. */
  predicate Valid(m: Manager)
  {
    |m.buffer| <= MaxBufferSize && |m.latencyHistory| <= LatencyWindow
  }

  /** `addFrame` at `now`: a full buffer first loses its oldest frame, which
      counts as dropped; the new frame always goes last. */
  function AddFrame(m: Manager, data: string, now: int): (r: Manager)
    ensures |m.buffer| <= MaxBufferSize ==> |r.buffer| <= MaxBufferSize
    ensures |r.buffer| > 0 && r.buffer[|r.buffer| - 1] == BufferedFrame(data, now, now)
    ensures |m.buffer| >= MaxBufferSize ==>
              r.buffer == m.buffer[1..] + [BufferedFrame(data, now, now)] && r.droppedFrames == m.droppedFrames + 1
    ensures |m.buffer| < MaxBufferSize ==>
              r.buffer == m.buffer + [BufferedFrame(data, now, now)] && r.droppedFrames == m.droppedFrames
    ensures r == m.(buffer := r.buffer, droppedFrames := r.droppedFrames)
  {
    var frame := BufferedFrame(data, now, now);
    if |m.buffer| >= MaxBufferSize then
      m.(buffer := m.buffer[1..] + [frame], droppedFrames := m.droppedFrames + 1)
    else
      m.(buffer := m.buffer + [frame])
  }

  /** `processNextFrame` at `now`: nothing happens while a decode is in
      flight or the buffer is empty. Otherwise the head frame is taken; if it
      has waited longer than 200 ms it is dropped, else its decode starts. */
  function ProcessNextFrame(m: Manager, now: int): (r: Manager)
    ensures m.IsProcessing() || |m.buffer| == 0 ==> r == m
    ensures !m.IsProcessing() && |m.buffer| > 0 ==>
              r.buffer == m.buffer[1..]
              && r.lastFrameTime == m.lastFrameTime
              && r.processedFrames == m.processedFrames
              && r.latencyHistory == m.latencyHistory
    ensures !m.IsProcessing() && |m.buffer| > 0 && now - m.buffer[0].receivedAt > MaxFrameAge ==>
              r.droppedFrames == m.droppedFrames + 1 && !r.IsProcessing()
    ensures !m.IsProcessing() && |m.buffer| > 0 && now - m.buffer[0].receivedAt <= MaxFrameAge ==>
              r.droppedFrames == m.droppedFrames && r.decoding == Some(m.buffer[0])
  {
    if m.IsProcessing() || |m.buffer| == 0 then m
    else
      var frame := m.buffer[0];
      if now - frame.receivedAt > MaxFrameAge then
        m.(buffer := m.buffer[1..], droppedFrames := m.droppedFrames + 1)
      else
        m.(buffer := m.buffer[1..], decoding := Some(frame))
  }

  /** The render gate: at least `1000 / TargetFps` ms since the last
      processed tick, written without division. */
  predicate TickDue(m: Manager, now: int)
  {
    TargetFps * (now - m.lastFrameTime) >= 1000
  }

  /** One render tick at `now`: when the interval has elapsed and the buffer
      is non-empty, `processNextFrame` runs once and the tick time is
      recorded, even if a decode in flight made that call a no-op. */
  function RenderTick(m: Manager, now: int): (r: Manager)
    ensures TickDue(m, now) && |m.buffer| > 0 ==> r == ProcessNextFrame(m, now).(lastFrameTime := now)
    ensures !(TickDue(m, now) && |m.buffer| > 0) ==> r == m
    ensures r.lastFrameTime != m.lastFrameTime ==> TickDue(m, now) && |m.buffer| > 0
    // at most one frame leaves the buffer per tick
    ensures |r.buffer| >= |m.buffer| - 1
  {
    if TickDue(m, now) && |m.buffer| > 0 then ProcessNextFrame(m, now).(lastFrameTime := now)
    else m
  }

  /** The latency window after recording `sample`: the newest 30 samples. */
  function PushLatency(h: seq<int>, sample: int): (r: seq<int>)
    ensures |h| <= LatencyWindow ==> |r| <= LatencyWindow
    ensures |r| > 0 && r[|r| - 1] == sample
    ensures |h| < LatencyWindow ==> r == h + [sample]
    ensures |h| == LatencyWindow ==> r == h[1..] + [sample]
  {
    var pushed := h + [sample];
    if |pushed| > LatencyWindow then pushed[1..] else pushed
  }

  /** The image's load (`ok`) or error callback for the frame in flight, at
      `now`. A load records the latency since the frame's receipt and counts
      the frame processed; an error only clears the in-flight flag. */
  function CompleteDecode(m: Manager, now: int, ok: bool): (r: Manager)
    requires m.IsProcessing()
    ensures !r.IsProcessing()
    ensures r.buffer == m.buffer && r.lastFrameTime == m.lastFrameTime
    ensures r.droppedFrames == m.droppedFrames
    ensures ok ==> r.processedFrames == m.processedFrames + 1
                   && r.latencyHistory == PushLatency(m.latencyHistory, now - m.decoding.value.timestamp)
    ensures !ok ==> r.processedFrames == m.processedFrames && r.latencyHistory == m.latencyHistory
  {
    if ok then
      m.(decoding := None,
         latencyHistory := PushLatency(m.latencyHistory, now - m.decoding.value.timestamp),
         processedFrames := m.processedFrames + 1)
    else
      m.(decoding := None)
  }

  /** `clearBuffer`: only the queued frames go; counters, latency history
      and an in-flight decode are kept. */
  function ClearBuffer(m: Manager): (r: Manager)
    ensures r.buffer == [] && r.lastFrameTime == m.lastFrameTime
    ensures r.droppedFrames == m.droppedFrames && r.processedFrames == m.processedFrames
    ensures r.latencyHistory == m.latencyHistory && r.decoding == m.decoding
  {
    m.(buffer := [])
  }

  /** `destroy`: empties the buffer exactly as `clearBuffer` does; it does
      not stop the render loop. */
  function Destroy(m: Manager): (r: Manager)
    ensures r.buffer == [] && r.droppedFrames == m.droppedFrames
    ensures r.processedFrames == m.processedFrames && r.latencyHistory == m.latencyHistory
    // the decode in flight still completes and the render clock is untouched
    ensures r.decoding == m.decoding && r.lastFrameTime == m.lastFrameTime
  {
    ClearBuffer(m)
  }

  /** The integer parts of `getStats`. */
  datatype Stats = Stats(bufferSize: nat, droppedFrames: nat, processedFrames: nat)

  function GetStats(m: Manager): (s: Stats)
    ensures s.bufferSize == |m.buffer|
    ensures s.droppedFrames == m.droppedFrames && s.processedFrames == m.processedFrames
  {
    Stats(|m.buffer|, m.droppedFrames, m.processedFrames)
  }
}
