/**
 * Helper.cs: `StreamDataAsync`, the relay that copies yt-dlp's output into ffmpeg's input
 * through a FIFO of chunks, holding data back while playback is paused.
 *
 * The yt-dlp stream is the sequence of chunks its reads return, after which a read returns 0.
 * Whether the bot is paused and whether the token has been cancelled are read from `signals`,
 * one entry per pass of the loop; past the end of `signals` the bot is playing and nothing is
 * cancelled. The length of each pacing delay is left out; a write records whether one
 * followed it.
 */
module HelperRelay {
  import opened Wrappers

  type byte = bv8

  /** The size of the read buffer. */
  const BufferSize: nat := 4096

  /** What a read can return: between 1 and 4096 bytes. */
  predicate IsChunk(c: seq<byte>) {
    0 < |c| <= BufferSize
  }

  predicate AllChunks(source: seq<seq<byte>>) {
    forall i :: 0 <= i < |source| ==> IsChunk(source[i])
  }

  /**
   * One pass of the loop as the relay sees it: `musicBot.isPaused`, the token at the top of
   * the loop, and the token just after the read.
   */
  datatype Signal = Signal(paused: bool, cancelledAtTop: bool, cancelledAfterRead: bool)

  /** The signal of pass `t`: playing and not cancelled once `signals` is used up. */
  function SignalAt(signals: seq<Signal>, t: nat): (s: Signal)
    ensures t >= |signals| ==> !s.paused && !s.cancelledAtTop && !s.cancelledAfterRead
  {
    if t < |signals| then signals[t] else Signal(false, false, false)
  }

  predicate NoCancel(signals: seq<Signal>) {
    forall t :: 0 <= t < |signals| ==> !signals[t].cancelledAtTop && !signals[t].cancelledAfterRead
  }

  predicate AnyPaused(signals: seq<Signal>) {
    exists t :: 0 <= t < |signals| && signals[t].paused
  }

  /** Why the loop ended: the token was cancelled, or the stream ended with nothing queued. */
  datatype Exit = Cancelled | EndOfStream

  /** `n` copies of `b`. */
  function Repeat(b: bool, n: nat): (r: seq<bool>)
    ensures |r| == n && forall j :: 0 <= j < n ==> r[j] == b
  {
    seq(n, _ => b)
  }

  function Max(a: int, b: int): int {
    if a < b then b else a
  }

  /** The state of one `StreamDataAsync` call. */
  class Relay {
    /** The 4096-byte read buffer. */
    const buffer: array<byte>
    const maxQueueSize: int
    /** Everything the yt-dlp stream will return, chunk by chunk. */
    const source: seq<seq<byte>>
    /** How many chunks have been read. */
    var readPos: nat
    /** `dataQueue`: chunks read and not yet written. */
    var dataQueue: seq<seq<byte>>
    var wasPaused: bool
    /** The chunks written to ffmpeg, in order. */
    var written: seq<seq<byte>>
    /** For each written chunk, whether a pacing delay followed it. */
    var paced: seq<bool>

    /** A delay follows a write only once a pause has been seen, and from then on follows every write. */
    predicate Paced()
      reads this
    {
      && |paced| == |written|
      && (forall j :: 0 <= j < |paced| && paced[j] ==> wasPaused)
      && (forall i, j :: 0 <= i < j < |paced| && paced[i] ==> paced[j])
    }

    /** Between passes, every chunk read so far is either written or queued, in order. */
    predicate Valid()
      reads this
    {
      && buffer.Length == BufferSize
      && AllChunks(source)
      && readPos <= |source|
      && source[..readPos] == written + dataQueue
      && Paced()
    }

    constructor(source: seq<seq<byte>>, maxQueueSize: int)
      requires AllChunks(source)
      ensures Valid() && fresh(buffer)
      ensures this.source == source && this.maxQueueSize == maxQueueSize
      ensures readPos == 0 && dataQueue == [] && !wasPaused && written == [] && paced == []
    {
      buffer := new byte[BufferSize];
      this.maxQueueSize := maxQueueSize;
      this.source := source;
      readPos := 0;
      dataQueue := [];
      wasPaused := false;
      written := [];
      paced := [];
    }

    /**
     * `ytdlpStream.ReadAsync(buffer)`: the next chunk lands at the start of the buffer, or 0
     * at the end of the stream. The chunk is not queued yet.
     */
    method Read() returns (bytesRead: nat)
      requires Valid()
      modifies this, buffer
      ensures old(readPos) < |source| ==>
        readPos == old(readPos) + 1 && bytesRead == |source[old(readPos)]|
        && buffer[..bytesRead] == source[old(readPos)]
      ensures old(readPos) == |source| ==> readPos == old(readPos) && bytesRead == 0
      ensures bytesRead <= BufferSize
      ensures dataQueue == old(dataQueue) && written == old(written) && paced == old(paced)
      ensures wasPaused == old(wasPaused)
    {
      if readPos == |source| {
        return 0;
      }
      var chunk := source[readPos];
      forall i | 0 <= i < |chunk| {
        buffer[i] := chunk[i];
      }
      assert buffer[..|chunk|] == chunk;
      bytesRead := |chunk|;
      readPos := readPos + 1;
    }

    /** The inner loop: while chunks are queued and playback is not paused, write the oldest. */
    method Drain(paused: bool)
      requires Valid()
      modifies this
      ensures Valid()
      ensures paused ==> written == old(written) && dataQueue == old(dataQueue) && paced == old(paced)
      ensures !paused ==> dataQueue == [] && written == old(written) + old(dataQueue)
      ensures !paused ==> paced == old(paced) + Repeat(wasPaused, |old(dataQueue)|)
      ensures readPos == old(readPos) && wasPaused == old(wasPaused)
    {
      ghost var pending := dataQueue;
      ghost var k := 0;
      while |dataQueue| > 0 && !paused
        invariant Valid()
        invariant readPos == old(readPos) && wasPaused == old(wasPaused)
        invariant 0 <= k <= |pending| && dataQueue == pending[k..]
        invariant paused ==> k == 0
        invariant written == old(written) + pending[..k]
        invariant paced == old(paced) + Repeat(wasPaused, k)
        decreases |dataQueue|
      {
        var queuedData := dataQueue[0];
        dataQueue := dataQueue[1..];
        assert pending[..k + 1] == pending[..k] + [queuedData];
        written := written + [queuedData];
        assert Repeat(wasPaused, k + 1) == Repeat(wasPaused, k) + [wasPaused];
        paced := paced + [wasPaused];
        k := k + 1;
      }
      if !paused {
        assert pending[..k] == pending;
      } else {
        assert pending[..k] == [];
      }
    }

    /**
     * One pass of the loop body, after the check at its top. Paused, the flag `wasPaused`
     * becomes set, and with `maxQueueSize` chunks queued the pass ends without reading.
     * Otherwise it reads; a cancelled token, or an empty read with nothing queued, ends the
     * relay. A chunk read is queued, and unless paused the queue is then written out.
     */
    method Pass(signal: Signal) returns (exit: Option<Exit>)
      requires Valid()
      modifies this, buffer
      ensures exit != Some(Cancelled) ==> Valid()
      ensures Paced() && written <= source && old(readPos) <= readPos <= |source|
      ensures wasPaused == (old(wasPaused) || signal.paused)
      ensures signal.paused ==> written == old(written) && paced == old(paced)
      ensures signal.paused && |old(dataQueue)| >= maxQueueSize ==>
        exit == None && readPos == old(readPos) && dataQueue == old(dataQueue)
      ensures signal.paused ==> |dataQueue| <= Max(|old(dataQueue)|, maxQueueSize)
      ensures !signal.paused && exit == None ==> dataQueue == []
      ensures !signal.paused && exit == None ==> readPos > old(readPos) || old(dataQueue) != []
      ensures exit == Some(Cancelled) <==> signal.cancelledAfterRead && !(signal.paused && |old(dataQueue)| >= maxQueueSize)
      ensures exit == Some(EndOfStream) ==> readPos == |source| && dataQueue == []
      ensures |paced| > |old(paced)| ==> paced[|paced| - 1] == wasPaused
    {
      if signal.paused {
        wasPaused := true;
        if |dataQueue| >= maxQueueSize {
          return None;
        }
      }
      ghost var before := readPos;
      WrittenFirst(source, before, written, dataQueue);
      var bytesRead := Read();
      if signal.cancelledAfterRead || (bytesRead <= 0 && |dataQueue| <= 0) {
        return if signal.cancelledAfterRead then Some(Cancelled) else Some(EndOfStream);
      }
      if bytesRead > 0 {
        var data := buffer[..bytesRead];
        assert source[..readPos] == source[..before] + [data];
        dataQueue := dataQueue + [data];
      }
      Drain(signal.paused);
      exit := None;
    }
  }

  /**
   * `StreamDataAsync`: runs the loop until the token is cancelled or the stream ends with
   * nothing queued. What it writes is always the source read so far, in order; it reaches
   * the end of the stream, having written every chunk, unless it is cancelled; a delay
   * follows a write only once a pause has been seen, and then follows every later write.
   */
  method StreamData(source: seq<seq<byte>>, maxQueueSize: int, signals: seq<Signal>)
    returns (written: seq<seq<byte>>, paced: seq<bool>, exit: Exit)
    requires AllChunks(source)
    ensures written <= source
    ensures exit == EndOfStream ==> written == source
    ensures NoCancel(signals) ==> exit == EndOfStream
    ensures |paced| == |written|
    ensures forall i, j :: 0 <= i < j < |paced| && paced[i] ==> paced[j]
    ensures (exists j :: 0 <= j < |paced| && paced[j]) ==> AnyPaused(signals)
  {
    var relay := new Relay(source, maxQueueSize);
    var t: nat := 0;
    exit := Cancelled;
    while true
      invariant relay.Valid() && relay.source == source && relay.maxQueueSize == maxQueueSize
      invariant relay.wasPaused ==> AnyPaused(signals)
      invariant |relay.dataQueue| <= Max(maxQueueSize, 0)
      decreases if t < |signals| then |signals| - t else 0, |source| - relay.readPos, |relay.dataQueue|
    {
      var signal := SignalAt(signals, t);
      if signal.cancelledAtTop {
        WrittenFirst(source, relay.readPos, relay.written, relay.dataQueue);
        exit := Cancelled;
        break;
      }
      if signal.paused {
        assert signals[t].paused;
      }
      var result := relay.Pass(signal);
      if result.Some? {
        exit := result.value;
        break;
      }
      t := t + 1;
    }
    written, paced := relay.written, relay.paced;
  }

  /** What was written and what is queued, read so far, is where the source starts. */
  lemma WrittenFirst(source: seq<seq<byte>>, readPos: nat, written: seq<seq<byte>>, queued: seq<seq<byte>>)
    requires readPos <= |source| && source[..readPos] == written + queued
    ensures written <= source
  {
    assert written == source[..|written|];
  }
}
