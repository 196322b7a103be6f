/**
 * The buffer bookkeeping of core/audio_io.py: the full-duplex stream
 * callback of `AudioIO` (record blocks while recording, play a signal block
 * by block through a cursor) and the ring buffer and bounded chunk queue of
 * `ContinuousRecorder`. Audio is mono; a block is a sequence of samples.
 */
module AudioBuffers {
  import opened Wrappers
  import Bounded

  // ---------------------------------------------------------------------
  // Playback cursor

  /**
   * `n` output samples starting at `index` of `signal`, silence past its end:
   * the block the stream callback writes for a cursor at `index`.
   */
  function Padded(signal: seq<real>, index: nat, n: nat): (block: seq<real>)
    ensures |block| == n
  {
    seq(n, k requires 0 <= k < n => if index + k < |signal| then signal[index + k] else 0.0)
  }

  /**
   * Blocks written one after another tile the signal: a block of `f` samples
   * from `index` followed by a block of `g` from the advanced cursor is the
   * block of `f + g` samples from `index`.
   */
  lemma PaddedSplit(signal: seq<real>, index: nat, f: nat, g: nat)
    requires index <= |signal|
    ensures var next := if index + f < |signal| then index + f else |signal|;
            Padded(signal, index, f) + Padded(signal, next, g) == Padded(signal, index, f + g)
  {
  }

  /** A signal played from the start in blocks of `frames` samples: the blocks' concatenation. */
  function PlayBlocks(signal: seq<real>, index: nat, frames: nat, count: nat): (out: seq<real>)
    requires index <= |signal|
    ensures |out| == frames * count
    decreases count
  {
    if count == 0 then []
    else
      var next := if index + frames < |signal| then index + frames else |signal|;
      Padded(signal, index, frames) + PlayBlocks(signal, next, frames, count - 1)
  }

  /** However the stream's blocks fall, the listener hears the signal followed by silence. */
  lemma {:induction false} PlayBlocksIsSignal(signal: seq<real>, index: nat, frames: nat, count: nat)
    requires index <= |signal|
    ensures PlayBlocks(signal, index, frames, count) == Padded(signal, index, frames * count)
    decreases count
  {
    if count > 0 {
      var next := if index + frames < |signal| then index + frames else |signal|;
      PlayBlocksIsSignal(signal, next, frames, count - 1);
      PaddedSplit(signal, index, frames, frames * (count - 1));
      assert frames + frames * (count - 1) == frames * count;
    }
  }

  /** `np.concatenate` of recorded blocks, in order. */
  function Concat(blocks: seq<seq<real>>): (r: seq<real>)
  {
    if blocks == [] then [] else Concat(blocks[..|blocks| - 1]) + blocks[|blocks| - 1]
  }

  /** Recording one more block extends the concatenation by exactly that block. */
  lemma ConcatAppend(blocks: seq<seq<real>>, b: seq<real>)
    ensures Concat(blocks + [b]) == Concat(blocks) + b
  {
    assert (blocks + [b])[..|blocks|] == blocks;
  }

  /** The concatenation holds every sample of every block: its length is the sum of theirs. */
  lemma {:induction false} ConcatLength(blocks: seq<seq<real>>, frames: nat)
    requires forall i :: 0 <= i < |blocks| ==> |blocks[i]| == frames
    ensures |Concat(blocks)| == frames * |blocks|
  {
    if blocks != [] {
      var init := blocks[..|blocks| - 1];
      ConcatLength(init, frames);
      assert |Concat(blocks)| == |Concat(init)| + |blocks[|blocks| - 1]|;
      assert frames * |init| + frames == frames * |blocks|;
    }
  }

  class AudioIO {
    var isRecording: bool
    var recordingBuffer: seq<seq<real>>
    var streamOpen: bool
    var playBuffer: Option<seq<real>>
    var playIndex: nat
    /** Signals handed to the device directly because no stream was open. */
    var directPlays: seq<seq<real>>

    ghost predicate Valid()
      reads this
    {
      playIndex <= |playBuffer.GetOr([])|
    }

    constructor ()
      ensures Valid()
      ensures !isRecording && recordingBuffer == [] && !streamOpen
      ensures playBuffer == None && playIndex == 0 && directPlays == []
    {
      isRecording := false;
      recordingBuffer := [];
      streamOpen := false;
      playBuffer := None;
      playIndex := 0;
      directPlays := [];
    }

    /**
     * `_audio_callback` for a mono block of `frames` samples: record a copy
     * of the input while recording, and fill the output from the play cursor,
     * padding with silence once the signal runs out.
     */
    method AudioCallback(indata: seq<real>, outdata: array<real>, frames: nat)
      requires Valid()
      requires outdata.Length == frames
      modifies this, outdata
      ensures Valid()
      ensures recordingBuffer == if old(isRecording) then old(recordingBuffer) + [indata] else old(recordingBuffer)
      ensures outdata[..] == Padded(old(playBuffer).GetOr([]), old(playIndex), frames)
      ensures playBuffer == old(playBuffer)
      ensures playIndex == if old(playIndex) + frames < |playBuffer.GetOr([])| then old(playIndex) + frames
                           else |playBuffer.GetOr([])|
      ensures isRecording == old(isRecording) && streamOpen == old(streamOpen) && directPlays == old(directPlays)
    {
      if isRecording {
        recordingBuffer := recordingBuffer + [indata];
      }
      if playBuffer.Some? && playIndex < |playBuffer.value| {
        var signal := playBuffer.value;
        var endIndex := if playIndex + frames < |signal| then playIndex + frames else |signal|;
        var chunk := signal[playIndex..endIndex];
        if |chunk| < frames {
          forall k | 0 <= k < |chunk| {
            outdata[k] := chunk[k];
          }
          forall k | |chunk| <= k < frames {
            outdata[k] := 0.0;
          }
          playIndex := |signal|;
        } else {
          forall k | 0 <= k < frames {
            outdata[k] := chunk[k];
          }
          playIndex := playIndex + frames;
        }
      } else {
        forall k | 0 <= k < frames {
          outdata[k] := 0.0;
        }
      }
    }

    /** `play_sound`: with a stream open, load the signal and rewind the cursor. */
    method PlaySound(signal: seq<real>)
      requires Valid()
      modifies this
      ensures Valid()
      ensures old(streamOpen) ==> playBuffer == Some(signal) && playIndex == 0 && directPlays == old(directPlays)
      ensures !old(streamOpen) ==>
                playBuffer == old(playBuffer) && playIndex == old(playIndex)
                && directPlays == old(directPlays) + [signal]
      ensures isRecording == old(isRecording) && recordingBuffer == old(recordingBuffer) && streamOpen == old(streamOpen)
    {
      if streamOpen {
        playBuffer := Some(signal);
        playIndex := 0;
      } else {
        directPlays := directPlays + [signal];
      }
    }

    /** `start_stream`: (re)open the duplex stream and record from it. */
    method StartStream()
      requires Valid()
      modifies this
      ensures Valid()
      ensures streamOpen && isRecording
      ensures recordingBuffer == old(recordingBuffer) && playBuffer == old(playBuffer)
      ensures playIndex == old(playIndex) && directPlays == old(directPlays)
    {
      if streamOpen {
        StopStream();
      }
      streamOpen := true;
      isRecording := true;
    }

    method StopStream()
      requires Valid()
      modifies this
      ensures Valid()
      ensures !streamOpen && !isRecording
      ensures recordingBuffer == old(recordingBuffer) && playBuffer == old(playBuffer)
      ensures playIndex == old(playIndex) && directPlays == old(directPlays)
    {
      isRecording := false;
      streamOpen := false;
    }

    /** `start_recording`: drop earlier blocks and record. */
    method StartRecording()
      requires Valid()
      modifies this
      ensures Valid()
      ensures isRecording && recordingBuffer == []
      ensures streamOpen == old(streamOpen) && playBuffer == old(playBuffer)
      ensures playIndex == old(playIndex) && directPlays == old(directPlays)
    {
      recordingBuffer := [];
      isRecording := true;
    }

    /** `stop_recording`: stop and hand back every recorded block, concatenated in order. */
    method StopRecording() returns (recorded: seq<real>)
      requires Valid()
      modifies this
      ensures Valid()
      ensures recorded == Concat(old(recordingBuffer))
      ensures !isRecording && recordingBuffer == []
      ensures streamOpen == old(streamOpen) && playBuffer == old(playBuffer)
      ensures playIndex == old(playIndex) && directPlays == old(directPlays)
    {
      isRecording := false;
      if recordingBuffer != [] {
        recorded := Concat(recordingBuffer);
        recordingBuffer := [];
      } else {
        recorded := [];
      }
    }
  }

  // ---------------------------------------------------------------------
  // ContinuousRecorder

  /** `queue.Queue(maxsize=100)` of `ContinuousRecorder`. */
  const MaxQueued: nat := 100

  /** The ring read from the write index on: the samples oldest first. */
  function Unrolled(ring: seq<real>, writeIndex: nat): (r: seq<real>)
    requires writeIndex <= |ring|
    ensures |r| == |ring|
    ensures forall i :: 0 <= i < |r| ==>
              r[i] == if writeIndex + i < |ring| then ring[writeIndex + i] else ring[writeIndex + i - |ring|]
  {
    ring[writeIndex..] + ring[..writeIndex]
  }

  /**
   * The two slice assignments of `_callback`: the chunk goes at the write
   * index, and what does not fit before the end goes at the start.
   */
  function RingWrite(ring: seq<real>, writeIndex: nat, data: seq<real>): (r: seq<real>)
    requires writeIndex < |ring| && writeIndex + |data| <= 2 * |ring|
    ensures |r| == |ring|
    ensures forall p :: 0 <= p < |ring| ==>
              r[p] == if p + |ring| < writeIndex + |data| then data[p + |ring| - writeIndex]
                      else if writeIndex <= p < writeIndex + |data| then data[p - writeIndex]
                      else ring[p]
  {
    var end := writeIndex + |data|;
    if end <= |ring| then
      ring[..writeIndex] + data + ring[end..]
    else
      var first := |ring| - writeIndex;
      var once := ring[..writeIndex] + data[..first];
      data[first..] + once[end - |ring|..]
  }

  /** `x % size` for `x` within one buffer length of the range [0, size). */
  lemma ModNear(x: int, size: int)
    requires 0 < size && -size <= x <= 2 * size
    ensures x % size == if x < 0 then x + size else if x < size then x else if x < 2 * size then x - size else 0
  {
    if x < 0 {
      assert x == -1 * size + (x + size);
    } else if x >= 2 * size {
      assert x == 2 * size;
    } else if x >= size {
      assert x == 1 * size + (x - size);
    }
  }

  /**
   * A write keeps the ring in chronological order: read from the new write
   * index, it holds the newest `|ring|` samples of what it held before
   * followed by the chunk.
   */
  lemma RingWriteKeepsOrder(ring: seq<real>, writeIndex: nat, data: seq<real>, w: nat)
    requires writeIndex < |ring| && writeIndex + |data| <= 2 * |ring|
    requires w == (writeIndex + |data|) % |ring|
    ensures w < |ring|
    ensures Unrolled(RingWrite(ring, writeIndex, data), w)
            == Bounded.Last(Unrolled(ring, writeIndex) + data, |ring|)
  {
    var size, end := |ring|, writeIndex + |data|;
    ModNear(end, size);
    var u := Unrolled(ring, writeIndex) + data;
    assert u == ring[writeIndex..] + (ring[..writeIndex] + data);
    assert Bounded.Last(u, size) == u[|data|..];
    if end < size {
      RingWriteWithin(ring, writeIndex, data, w);
    } else if end == size {
      RingWriteToEnd(ring, writeIndex, data, w);
    } else if end < 2 * size {
      RingWriteAcross(ring, writeIndex, data, w);
    } else {
      RingWriteTwice(ring, writeIndex, data, w);
    }
  }

  /** A chunk that ends before the end of the ring. */
  lemma RingWriteWithin(ring: seq<real>, writeIndex: nat, data: seq<real>, w: nat)
    requires w == writeIndex + |data| < |ring|
    ensures Unrolled(RingWrite(ring, writeIndex, data), w)
            == (ring[writeIndex..] + (ring[..writeIndex] + data))[|data|..]
  {
    var end := writeIndex + |data|;
    var r := RingWrite(ring, writeIndex, data);
    assert r == (ring[..writeIndex] + data) + ring[end..];
    assert r[end..] == ring[end..];
    assert r[..end] == ring[..writeIndex] + data;
    assert ring[writeIndex..] == ring[writeIndex..end] + ring[end..];
  }

  /** A chunk that ends exactly at the end of the ring. */
  lemma RingWriteToEnd(ring: seq<real>, writeIndex: nat, data: seq<real>, w: nat)
    requires writeIndex < |ring| == writeIndex + |data| && w == 0
    ensures Unrolled(RingWrite(ring, writeIndex, data), w)
            == (ring[writeIndex..] + (ring[..writeIndex] + data))[|data|..]
  {
    assert RingWrite(ring, writeIndex, data) == ring[..writeIndex] + data + ring[|ring|..];
  }

  /** A chunk that wraps around to the start of the ring. */
  lemma RingWriteAcross(ring: seq<real>, writeIndex: nat, data: seq<real>, w: nat)
    requires writeIndex < |ring| < writeIndex + |data| < 2 * |ring|
    requires w == writeIndex + |data| - |ring|
    ensures Unrolled(RingWrite(ring, writeIndex, data), w)
            == (ring[writeIndex..] + (ring[..writeIndex] + data))[|data|..]
  {
    var first := |ring| - writeIndex;
    var newer := ring[..writeIndex];
    var once := newer + data[..first];
    var r := RingWrite(ring, writeIndex, data);
    assert r == data[first..] + once[w..];
    assert r[w..] == once[w..] && r[..w] == data[first..];
    assert (ring[writeIndex..] + (newer + data))[|data|..] == (newer + data)[w..];
    assert data == data[..first] + data[first..];
    if w <= writeIndex {
      assert once[w..] == newer[w..] + data[..first];
      assert (newer + data)[w..] == newer[w..] + data;
    } else {
      assert once[w..] == data[w - writeIndex..first];
      assert (newer + data)[w..] == data[w - writeIndex..];
      assert data[w - writeIndex..] == data[w - writeIndex..first] + data[first..];
    }
  }

  /** A chunk that ends a whole ring past the end: only its own newest samples remain. */
  lemma RingWriteTwice(ring: seq<real>, writeIndex: nat, data: seq<real>, w: nat)
    requires writeIndex < |ring| && writeIndex + |data| == 2 * |ring| && w == 0
    ensures Unrolled(RingWrite(ring, writeIndex, data), w)
            == (ring[writeIndex..] + (ring[..writeIndex] + data))[|data|..]
  {
    var first := |ring| - writeIndex;
    var once := ring[..writeIndex] + data[..first];
    assert RingWrite(ring, writeIndex, data) == data[first..] + once[|ring|..];
    assert once[|ring|..] == [];
    assert (ring[writeIndex..] + (ring[..writeIndex] + data))[|data|..] == data[first..];
  }

  /**
   * The ring write of `_callback` in place: the chunk goes at the write
   * index, and what does not fit before the end goes at the start.
   */
  method WriteRing(ring: array<real>, writeIndex: nat, data: seq<real>)
    requires writeIndex < ring.Length && writeIndex + |data| <= 2 * ring.Length
    modifies ring
    ensures ring[..] == RingWrite(old(ring[..]), writeIndex, data)
  {
    var endIndex := writeIndex + |data|;
    if endIndex <= ring.Length {
      forall k | 0 <= k < |data| {
        ring[writeIndex + k] := data[k];
      }
    } else {
      var firstPart := ring.Length - writeIndex;
      forall k | 0 <= k < firstPart {
        ring[writeIndex + k] := data[k];
      }
      forall k | 0 <= k < endIndex - ring.Length {
        ring[k] := data[firstPart + k];
      }
    }
  }

  class ContinuousRecorder {
    const bufferSize: nat
    var buffer: array<real>
    var writeIndex: nat
    var queue: seq<seq<real>>
    var isRunning: bool
    /** Every sample written so far, after `bufferSize` zeros for the initial buffer. */
    ghost var history: seq<real>

    ghost predicate Valid()
      reads this, buffer
    {
      && buffer.Length == bufferSize > 0
      && writeIndex < bufferSize
      && |queue| <= MaxQueued
      && Unrolled(buffer[..], writeIndex) == Bounded.Last(history, bufferSize)
    }

    constructor (bufferSize: nat)
      requires bufferSize > 0
      ensures Valid() && fresh(buffer)
      ensures this.bufferSize == bufferSize && writeIndex == 0 && queue == [] && !isRunning
      ensures buffer[..] == seq(bufferSize, _ => 0.0) && history == buffer[..]
    {
      this.bufferSize := bufferSize;
      buffer := new real[bufferSize](_ => 0.0);
      writeIndex := 0;
      queue := [];
      isRunning := false;
      history := seq(bufferSize, _ => 0.0);
      new;
      assert buffer[..] == history;
      assert Unrolled(buffer[..], 0) == buffer[..];
    }

    /**
     * `_callback` for a mono chunk: write it into the ring at the write
     * index, wrapping around, advance the write index, and queue a copy
     * unless the queue is full. Chunks that would wrap more than once are
     * refused by numpy's slice assignment and are excluded.
     */
    method Callback(data: seq<real>)
      requires Valid()
      requires writeIndex + |data| <= 2 * bufferSize
      modifies this, buffer
      ensures Valid() && buffer == old(buffer)
      ensures buffer[..] == RingWrite(old(buffer[..]), old(writeIndex), data)
      ensures writeIndex == (old(writeIndex) + |data|) % bufferSize
      ensures history == old(history) + data
      ensures queue == if |old(queue)| < MaxQueued then old(queue) + [data] else old(queue)
      ensures isRunning == old(isRunning)
    {
      ghost var before := buffer[..];
      ghost var unrolled := Unrolled(before, writeIndex);
      assert unrolled == Bounded.Last(history, bufferSize);
      WriteRing(buffer, writeIndex, data);
      ghost var after := buffer[..];
      assert after == RingWrite(before, writeIndex, data);
      assert |before| == bufferSize;
      var next := (writeIndex + |data|) % bufferSize;
      RingWriteKeepsOrder(before, writeIndex, data, next);
      Bounded.LastConcat(history, data, bufferSize);
      assert Unrolled(after, next) == Bounded.Last(unrolled + data, bufferSize);
      writeIndex := next;
      history := history + data;
      if |queue| < MaxQueued {
        queue := queue + [data];
      }
    }

    /**
     * `get_recent_data` for a request of `samples` samples: capped at the
     * buffer size, the newest samples in chronological order. As written, a
     * request for 0 samples yields the whole buffer and a negative one some
     * other non-empty suffix.
     */
    method GetRecentData(samples: int) returns (r: seq<real>)
      requires Valid()
      ensures 0 < |r| <= bufferSize
      ensures r == Bounded.Last(history, |r|)
      ensures samples > 0 ==> |r| == if samples < bufferSize then samples else bufferSize
      ensures samples == 0 ==> |r| == bufferSize
    {
      var count := if samples < bufferSize then samples else bufferSize;
      var startIndex := (writeIndex - count) % bufferSize;
      StartIndex(writeIndex, count, bufferSize, startIndex);
      if startIndex < writeIndex {
        r := buffer[startIndex..writeIndex];
      } else {
        r := buffer[startIndex..] + buffer[..writeIndex];
      }
      RecentIsNewest(buffer[..], writeIndex, startIndex);
      NewestOfHistory(history, Unrolled(buffer[..], writeIndex), bufferSize, |r|);
    }

    /** `get_recent_data` with requests of zero or fewer samples answered by nothing. */
    method GetRecentDataCorrected(samples: int) returns (r: seq<real>)
      requires Valid()
      ensures |history| >= bufferSize
      ensures r == RecentData(history, bufferSize, samples)
    {
      if samples <= 0 {
        return [];
      }
      r := GetRecentData(samples);
    }

    method Start()
      requires Valid()
      modifies this
      ensures Valid() && isRunning
      ensures buffer == old(buffer) && writeIndex == old(writeIndex)
      ensures queue == old(queue) && history == old(history)
    {
      if isRunning {
        return;
      }
      isRunning := true;
    }

    method Stop()
      requires Valid()
      modifies this
      ensures Valid() && !isRunning
      ensures buffer == old(buffer) && writeIndex == old(writeIndex)
      ensures queue == old(queue) && history == old(history)
    {
      isRunning := false;
    }
  }

  /** Where `get_recent_data` starts reading for a request of `count` samples. */
  lemma StartIndex(writeIndex: nat, count: int, size: nat, startIndex: int)
    requires writeIndex < size && count <= size
    requires startIndex == (writeIndex - count) % size
    ensures 0 <= startIndex < size
    ensures 0 <= count <= writeIndex ==> startIndex == writeIndex - count
    ensures writeIndex < count ==> startIndex == writeIndex - count + size
  {
    if 0 <= count {
      ModNear(writeIndex - count, size);
    }
  }

  /** Both read branches of `get_recent_data` return a non-empty suffix of the unrolled ring. */
  lemma RecentIsNewest(ring: seq<real>, writeIndex: nat, startIndex: int)
    requires writeIndex < |ring| && 0 <= startIndex < |ring|
    ensures var r := if startIndex < writeIndex then ring[startIndex..writeIndex]
                     else ring[startIndex..] + ring[..writeIndex];
            0 < |r| <= |ring| && r == Bounded.Last(Unrolled(ring, writeIndex), |r|)
  {
    var u := Unrolled(ring, writeIndex);
    var r := if startIndex < writeIndex then ring[startIndex..writeIndex]
             else ring[startIndex..] + ring[..writeIndex];
    var t := Bounded.Last(u, |r|);
    forall i | 0 <= i < |r|
      ensures r[i] == t[i]
    {
    }
  }

  /** The newest `n <= size` of the newest `size` samples are the newest `n` of all. */
  lemma NewestOfHistory(history: seq<real>, window: seq<real>, size: nat, n: nat)
    requires window == Bounded.Last(history, size) && |window| == size && n <= size
    ensures Bounded.Last(window, n) == Bounded.Last(history, n)
  {
  }

  // ---------------------------------------------------------------------
  // Reading recent samples, as intended

  /**
   * The newest `samples` samples, capped at the buffer size, and nothing for
   * a request of zero or fewer samples.
   */
  function RecentData(history: seq<real>, bufferSize: nat, samples: int): (r: seq<real>)
    requires |history| >= bufferSize
    ensures |r| == if samples <= 0 then 0 else if samples < bufferSize then samples else bufferSize
    ensures forall i :: 0 <= i < |r| ==> r[i] == history[|history| - |r| + i]
  {
    if samples <= 0 then [] else Bounded.Last(history, if samples < bufferSize then samples else bufferSize)
  }
}
