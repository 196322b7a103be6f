# BeepBeep acoustic ranging: a Dafny model of the measurement bookkeeping

BeepBeep measures the distance between two devices with sound. The target
device asks the anchor device to start. Each device then plays a chirp and
records both its own chirp and the peer's. The peak positions on each
device's own sample clock feed the BeepBeep two-way formula:

    D = c/2 * ((tA3 - tA1) - (tB3 - tB1)) / sr + (dAA + dBB) / 2

Because only each device's own intervals are used, the clocks never need to
be synchronised.

This project models the bookkeeping around that measurement:

- the distance arithmetic and the ranging session record;
- the filter chain (an outlier gate with a median smoother, a Kalman filter
  and a moving average);
- the ranging engine's state machine, validity gates, smoothing window,
  history and counters;
- the audio buffers (the duplex stream callback with its playback cursor,
  the record buffer, and the ring buffer and bounded queue of the continuous
  recorder);
- the newline-delimited JSON message layer, with dispatch by message type.

The files and modules are:

- `wrappers.dfy` (`Wrappers`): `Option`, standing in for Python's `None`.
- `stats.dfy` (`Stats`): numpy's sum, mean, population variance, min, max,
  median and the MAD, over exact reals, with their range facts.
- `bounded.dfy` (`Bounded`): `deque(maxlen=n)`. Keeping a list to its
  newest `n` values keeps exactly the newest `n` values in order.
- `signal_processor.dfy` (`SignalProcessing`): core/signal_processor.py.
- `filters.dfy` (`Filters`): core/filters.py.
- `audio_io.dfy` (`AudioBuffers`): core/audio_io.py.
- `network.dfy` (`Network`): core/network.py.
- `ranging_engine.dfy` (`RangingEngineModel`): core/ranging_engine.py.

Objects whose fields the program updates in place are classes, with
`modifies` frames and a `Valid()` invariant. The continuous recorder's ring
buffer is an `array` written in place. The playback callback fills the
output block, which is also an `array`. Pure computations are functions,
and the properties that relate several calls are lemmas.

The parts that are not code in this repository become parameters:

- the peak positions found by chirp detection;
- the JSON encoder and parser;
- the outcome of a socket `connect` or `sendall`;
- the current time.

Each message the engine hands to `send_message`, and each call it makes to a
user callback, is recorded in a log on the object. A logged message may still
have been refused or lost by the network manager; the engine never looks at
the outcome.

## Model

| member | source | states |
|---|---|---|
| Stats.Median | core/filters.py:67 | numpy's median of the sorted values (middle one, or the mean of the two middle ones). `MedianInRange` and `MedianOfConstant` bound it by the values' extremes and fix it on a constant sequence. |
| Stats.Mad | core/filters.py:70 | The median of the absolute deviations from the median. `MadNonNegative` shows it is never negative. |
| Stats.Variance | core/filters.py:74 | The mean squared deviation from the mean (numpy's population `std`, squared). `VarianceNonNegative` shows it is never negative. |
| Stats.MedianInRange | core/filters.py:67 | The median of values in [lo, hi] lies in [lo, hi]. |
| Stats.MadNonNegative | core/filters.py:70 | The median absolute deviation is never negative. |
| Stats.VarianceNonNegative | core/filters.py:74 | The population variance, the square of numpy's `std`, is never negative. |
| Stats.MeanInRange | core/filters.py:230 | The mean of values in [lo, hi] lies in [lo, hi]. |
| Bounded.Append | core/filters.py:44 | A `deque(maxlen=cap)` append never exceeds the cap. The new value is last. Below the cap nothing is lost. At the cap exactly the oldest value is evicted. |
| Bounded.AppendAllIsLast | core/filters.py:24-25 | A bounded window fed any sequence of values holds exactly the newest `cap` of everything it has seen, oldest first. |
| SignalProcessing.ClampAtZero | core/signal_processor.py:174 | `max(0, x)`: the result is never negative, and equals `x` unless `x` is negative. |
| SignalProcessing.RangingSignal | core/signal_processor.py:62-81 | The ranging signal is `int(sr*0.05)` zeros, then the chirp copied unchanged, then `int(sr*0.3)` zeros. Its length is the sum of the three. |
| SignalProcessing.DefaultSignalLayout | core/signal_processor.py:71-72 | At 44100 Hz the silences are 2205 and 13230 samples. |
| SignalProcessing.BeepBeep | core/signal_processor.py:145-174 | The result is never negative. It equals `c/2*((tA3-tA1)-(tB3-tB1))/sr + (dAA+dBB)/2` when that is non-negative, and 0 otherwise. A missing self distance uses the processor's `d_self`. |
| SignalProcessing.BeepBeepClockOffsetInvariant | core/signal_processor.py:168-169 | Shifting both of A's timestamps, or both of B's, by any offset leaves the distance unchanged. |
| SignalProcessing.BeepBeepDefaults | core/signal_processor.py:162-165 | Omitting `d_aa` and `d_bb` is the same as passing `d_self` for both. |
| SignalProcessing.BeepBeepRecoversDistance | core/signal_processor.py:149-172 | If the four timestamps are the true arrival times on two clocks with arbitrary offsets, the formula returns the true distance exactly. |
| SignalProcessing.DistanceSimple | core/signal_processor.py:176-188 | The one-way distance is `c * samples / sr` when that is non-negative, and 0 otherwise. |
| SignalProcessing.DistanceTof | core/signal_processor.py:190-206 | The time of flight is halved only for a round trip. The result is `c*tof - d_self` when that is non-negative, and 0 otherwise. |
| SignalProcessing.TofRoundTripIsHalfOneWay | core/signal_processor.py:202-206 | A round trip of twice a one-way time gives the same distance as that one-way time. |
| SignalProcessing.TofAgreesWithSimple | core/signal_processor.py:176-206 | With no self distance, the one-way ToF of an interval in samples is the simple distance of that interval. |
| SignalProcessing.SessionDistance | core/signal_processor.py:272-284 | A record yields a distance exactly when all four times are present, and it is never negative. The remote `t_other` is passed as `t_b1` and the remote `t_self` as `t_b3`. |
| SignalProcessing.SessionSidesAgree | core/signal_processor.py:275-284 | Two sessions that exchanged their local times compute the same distance. |
| SignalProcessing.CountWithDistance | core/signal_processor.py:302 | The number of records that carry a distance never exceeds the number of records. |
| SignalProcessing.CountWithDistanceAppend | core/signal_processor.py:302 | Appending a record adds one to the count exactly when that record carries a distance. |
| SignalProcessing.RangingSession.constructor | core/signal_processor.py:212-229 | A new session has no records, no open measurement and the default processor. |
| SignalProcessing.RangingSession.StartMeasurement | core/signal_processor.py:231-239 | Opens a new measurement for the session's role with no times and no distance. The stored records keep their contents and no longer share the open one. |
| SignalProcessing.RangingSession.RecordLocalDetection | core/signal_processor.py:241-250 | With an open measurement and at least two positions, stores `positions[0]` as `t_self` and `positions[1]` as `t_other`, also in every stored record that is the open one. Otherwise nothing changes. |
| SignalProcessing.RangingSession.RecordRemoteDetection | core/signal_processor.py:252-260 | Replaces the open measurement's remote times, also in every stored record that is the open one. Without an open measurement nothing changes. |
| SignalProcessing.RangingSession.CalculateFinalDistance | core/signal_processor.py:262-290 | Returns a distance exactly when a measurement is open with all four times. Then it stores the distance and appends the open record itself, so earlier stored copies of it take the new distance too. Otherwise nothing changes. |
| SignalProcessing.RangingSession.StatisticsCount | core/signal_processor.py:292-308 | No statistics when no record carries a distance. Otherwise the count is the number of records with a distance. |
| SignalProcessing.StatisticsCountIsLength | core/signal_processor.py:285-308 | Every stored record carries a distance, so the count is the number of records, and there are no statistics exactly when there are no records. |
| Filters.ExceedsScaledStdCorrect | core/filters.py:74-77 | Comparing squares decides `dev > k * std` exactly, for every factor `k` and every positive `std`. |
| Filters.StdFloorOnVariance | core/filters.py:74-75 | `std < 1e-6` holds exactly when `std*std < 1e-12`. |
| Filters.IsOutlier | core/filters.py:52-82 | A value is rejected only when at least three values are stored. With a non-negative threshold, a value equal to the window median is never rejected. |
| Filters.OutlierMonotoneInThreshold | core/filters.py:77-82 | A value rejected at a threshold is rejected at every smaller non-negative threshold, on both the MAD and the std branch. |
| Filters.StableSeriesSummary | core/filters.py:67-70 | The window [1.0, 1.02, 0.98, 1.01, 1.0] has median 1.0 and MAD 0.01. |
| Filters.StableSeriesRejectsSpike | core/filters.py:67-82 | Against that window, at the default threshold 2.0, the value 5.0 is rejected and 1.0 is accepted. |
| Filters.ApplyFilter | core/filters.py:84-99 | Gives 0.0 for an empty window and the single value for one element. Otherwise the result lies between the window's minimum and maximum. |
| Filters.DistanceFilter.constructor | core/filters.py:14-25 | Both windows start empty, with the given size and threshold. |
| Filters.DistanceFilter.AddMeasurement | core/filters.py:27-50 | Returns None exactly when the value is an outlier for the stored window, and then neither window changes. The first three values are always accepted. An accepted value is appended with eviction, and the filter of the new window is returned and recorded. |
| Filters.DistanceFilter.Reset | core/filters.py:125-128 | Both windows become empty. |
| Filters.DistanceFilter.StatisticsCount | core/filters.py:108-122 | The count never exceeds the window size, and is 0 exactly when no filtered value is stored. |
| Filters.KalmanGain | core/filters.py:171 | With positive prediction error and measurement variance, the gain lies strictly between 0 and 1. |
| Filters.KalmanStep | core/filters.py:166-173 | The estimate moves by the gain times the innovation (the measurement minus the prediction). |
| Filters.GainBounds | core/filters.py:171-173 | The gain lies in (0, 1), and `(1 - gain) * pe == gain * mv`. |
| Filters.PosteriorErrorBounds | core/filters.py:173 | The new estimate error is positive and below both the prediction error and the measurement variance. |
| Filters.KalmanStepContracts | core/filters.py:166-175 | A step puts the estimate between the prediction and the measurement, strictly between them when they differ. It leaves an error that is positive and below both the prediction error and the measurement variance. |
| Filters.KalmanFilter.constructor | core/filters.py:134-148 | Starts at estimate 0.0, error 1.0, uninitialised. |
| Filters.KalmanFilter.Update | core/filters.py:150-175 | The first call returns the measurement, sets initialised and keeps error 1.0. Later calls perform one Kalman step. The error stays positive. |
| Filters.KalmanFilter.Reset | core/filters.py:177-181 | Restores estimate 0.0, error 1.0, uninitialised. |
| Filters.LinearWeights | core/filters.py:201-202 | One weight per window slot. `LinearWeightsValues` and `LinearWeightsIncreasing` give each weight and show they increase. |
| Filters.LinearWeightsValues | core/filters.py:201-202 | Weight `k` is `(k+1)` divided by the positive sum `1 + ... + n`. |
| Filters.LinearWeightsIncreasing | core/filters.py:201-202 | Later weights are strictly larger. |
| Filters.WindowWeights | core/filters.py:225-226 | One weight per stored value, taken from the tail of the linear weights. `WindowWeightsConvex` shows they are positive, increasing and sum to 1. |
| Filters.WindowWeightsConvex | core/filters.py:225-226 | The renormalised tail used for `n` stored values is positive and strictly increasing (newer values weigh more), and it sums to 1. |
| Filters.DotInRange | core/filters.py:227 | A convex combination of values in [lo, hi] lies in [lo, hi]. |
| Filters.MovingAverage | core/filters.py:216-230 | Gives 0.0 for no values. Otherwise the weighted or plain average lies between the window's minimum and maximum. |
| Filters.MovingAverageFilter.constructor | core/filters.py:187-204 | Starts with no values, the given size and the weighting flag. |
| Filters.MovingAverageFilter.Update | core/filters.py:206-230 | The value is appended with eviction, keeping at most `window_size` values. The result is the moving average of the new window. |
| Filters.MovingAverageFilter.Reset | core/filters.py:232-234 | The window becomes empty. |
| AudioBuffers.Padded | core/audio_io.py:97-108 | One played block is exactly `frames` samples. `PaddedSplit` shows consecutive blocks join into one longer block. |
| AudioBuffers.PlayBlocks | core/audio_io.py:96-110 | `count` callbacks produce `frames * count` samples. `PlayBlocksIsSignal` shows they are the signal from the cursor on, then silence. |
| AudioBuffers.PaddedSplit | core/audio_io.py:97-108 | Two consecutive blocks, the second from the advanced cursor, are the one block of their combined length. |
| AudioBuffers.PlayBlocksIsSignal | core/audio_io.py:96-110 | However many blocks of whatever size are played, the output is the signal from the cursor on, then silence. |
| AudioBuffers.Concat | core/audio_io.py:182-184 | The recorded blocks joined in order. `ConcatAppend` and `ConcatLength` show how it grows and how long it is. |
| AudioBuffers.ConcatAppend | core/audio_io.py:88-90 | Recording one more block extends the concatenation by exactly that block. |
| AudioBuffers.ConcatLength | core/audio_io.py:182-184 | The concatenation of `k` blocks of `frames` samples holds `k * frames` samples. |
| AudioBuffers.AudioIO.constructor | core/audio_io.py:18-45 | Not recording, no stream, no play buffer, cursor 0, empty record buffer. |
| AudioBuffers.AudioIO.AudioCallback | core/audio_io.py:79-110 | While recording, exactly one copy of the input block is appended; otherwise the buffer is untouched. The output block is the signal from the cursor, zero-padded, and all zero when nothing is left. The cursor advances by `frames`, or jumps to the end, and never passes it. |
| AudioBuffers.AudioIO.PlaySound | core/audio_io.py:142-163 | With a stream open, loads the signal and rewinds the cursor. Without one, the signal is played directly and the stream state is unchanged. |
| AudioBuffers.AudioIO.StartStream | core/audio_io.py:112-132 | The stream is (re)opened and recording is on. The buffers and cursor are unchanged. |
| AudioBuffers.AudioIO.StopStream | core/audio_io.py:134-140 | The stream is closed and recording is off. The buffers and cursor are unchanged. |
| AudioBuffers.AudioIO.StartRecording | core/audio_io.py:165-169 | The record buffer becomes empty and recording is on. |
| AudioBuffers.AudioIO.StopRecording | core/audio_io.py:171-185 | Returns every recorded block concatenated in order (empty if none). Leaves the buffer empty and recording off. |
| AudioBuffers.RingWrite | core/audio_io.py:265-276 | After a write, position `p` of the ring holds the chunk's sample for `p` when the write covers `p` (directly or after wrapping). Every other position is unchanged. |
| AudioBuffers.RingWriteKeepsOrder | core/audio_io.py:267-276 | The new write index is within the ring. Read from it, the ring holds the newest `buffer_size` samples of its old contents followed by the chunk. |
| AudioBuffers.WriteRing | core/audio_io.py:267-274 | The in-place slice assignments on the array produce exactly `RingWrite` of its old contents. |
| AudioBuffers.ContinuousRecorder.constructor | core/audio_io.py:235-256 | The ring is `buffer_size` zeros, the write index 0 and the queue empty, and the recorder is not running. |
| AudioBuffers.ContinuousRecorder.Callback | core/audio_io.py:258-282 | The ring is written with wrap-around and the index advances by the chunk length modulo `buffer_size`. The ring stays the newest `buffer_size` samples ever written, in order. A chunk is queued only while fewer than 100 are queued; otherwise the queue is unchanged. |
| AudioBuffers.ContinuousRecorder.GetRecentData | core/audio_io.py:307-329 | As written: the result is always a non-empty run of the newest samples, in chronological order. A positive request gets `min(samples, buffer_size)` samples. A request of 0 gets the whole buffer. |
| AudioBuffers.ContinuousRecorder.GetRecentDataCorrected | core/audio_io.py:307-329 | Returns `RecentData` of everything written: nothing for a request of 0 or fewer samples. |
| AudioBuffers.ContinuousRecorder.Start | core/audio_io.py:284-297 | The recorder is running. The ring, index and queue are unchanged. |
| AudioBuffers.ContinuousRecorder.Stop | core/audio_io.py:299-305 | The recorder is not running. The ring, index and queue are unchanged. |
| AudioBuffers.StartIndex | core/audio_io.py:321 | `(write_index - samples) % buffer_size` lies in the ring. It is `write_index - samples` when that is non-negative, and wraps by one buffer length otherwise. |
| AudioBuffers.RecentIsNewest | core/audio_io.py:323-329 | Both read branches return a non-empty run that ends at the write index: the newest samples of the ring, in order. |
| AudioBuffers.RecentData | core/audio_io.py:317-329 | The intended read: `min(samples, buffer_size)` samples, none for a request of 0 or fewer samples. They are the last ones written, in chronological order. |
| Network.IndexOfIsFirst | core/network.py:164 | `split(b'\n', 1)` splits at the first newline: none occurs before it. |
| Network.SplitLines | core/network.py:163-164 | The framing loop: extracted lines and leftover. `SplitLinesNewlineFree`, `SplitLinesStep`, `SplitLinesReassembles` and `SplitLinesOfJoin` show the parts hold no newline, split at the first newline, reassemble the buffer and invert joining. |
| Network.SplitLinesNewlineFree | core/network.py:163-164 | After the framing loop, neither an extracted line nor the leftover buffer holds a newline. |
| Network.SplitLinesStep | core/network.py:163-164 | Framing a buffer with a newline yields the text before the first newline, followed by the framing of what comes after it. |
| Network.SplitLinesReassembles | core/network.py:160-164 | The extracted lines, each followed by a newline, then the leftover, give back the whole buffer. |
| Network.SplitLinesOfJoin | core/network.py:163-164 | Newline-free lines written with terminators, followed by a newline-free rest, frame back into exactly those lines and that rest. |
| Network.SingleFrame | core/network.py:219 | A frame `text + '\n'` whose text has no newline yields that text as its only line, with nothing left over. |
| Network.DataOrEmpty | core/network.py:213 | `data or {}`: truthy data is kept; missing or falsy data becomes `{}`. |
| Network.Envelope | core/network.py:211-215 | The envelope has exactly the keys `type`, `data` and `timestamp`, holding the type, `data or {}` and the time. |
| Network.Interpret | core/network.py:181-194 | A call is made only for a registered type, with `data` defaulting to `{}` and `timestamp` to 0. A string type is called exactly when registered. A non-object message, or a list or object type, raises. |
| Network.HandleLine | core/network.py:165-169 | A line that is not JSON is skipped. A line that is not UTF-8 raises. |
| Network.HandleLines | core/network.py:163-169 | Lines are handled in order, with at most one handler call per line. |
| Network.BadJsonLineIsSkipped | core/network.py:165-169 | Handling lines around a line that fails JSON decoding makes the same calls as if that line had never arrived, so later lines are still processed. |
| Network.HandleLinesAppend | core/network.py:163-167 | Handling one more line only adds that line's calls after the earlier ones. |
| Network.HandleLinesPrefix | core/network.py:171-175 | Once a line has raised, the lines after it add nothing. |
| Network.EnvelopeIsDelivered | core/network.py:211-220 | A frame built by `send_message` for a registered type, fed to the framing loop on an empty buffer, calls that type's handler exactly once with the envelope's data and timestamp and leaves nothing over. This assumes the encoder emits no newline and the parser reads back what it wrote. |
| Network.NetworkManager.constructor | core/network.py:28-53 | Not connected or running, no handlers, nothing sent or dispatched. |
| Network.NetworkManager.RegisterHandler | core/network.py:55-63 | The type's handler is replaced, and every other type keeps its handler or its absence. |
| Network.NetworkManager.Connected | core/network.py:84-102 | Accepting a connection marks it up, notifies once, and starts a receive loop with an empty buffer. |
| Network.NetworkManager.ConnectToServer | core/network.py:108-145 | Returns whether `connect` succeeded. On success the connection is up and receiving; on failure the connection state is unchanged. |
| Network.NetworkManager.EndReceiveLoop | core/network.py:177-179 | When the receive loop exits, the connection is down and `on_disconnect` runs once. |
| Network.NetworkManager.HandleMessage | core/network.py:181-194 | Records exactly the handler call `Interpret` determines (none for an unknown type), and reports whether the message raises. |
| Network.NetworkManager.ReceiveLine | core/network.py:165-169 | Decodes one line and handles it as `HandleLine` determines. |
| Network.NetworkManager.ProcessLines | core/network.py:163-169 | The framing loop makes exactly the calls of `HandleLines` on the buffer's lines, in order. Without an error it leaves exactly the unterminated rest. |
| Network.NetworkManager.ReceiveChunk | core/network.py:151-179 | An empty chunk ends the loop and disconnects. Otherwise the chunk is appended and the complete lines are handled in order. The loop continues with the leftover bytes as its buffer, unless a line raised, which ends it. |
| Network.NetworkManager.SendMessage | core/network.py:196-224 | Refused, with nothing sent, when not connected. Otherwise the frame sent is the serialised envelope followed by exactly one newline, and the result is the transport's outcome. |
| Network.NetworkManager.Close | core/network.py:247-252 | The loop and connection are marked down before DISCONNECT is sent, so nothing goes out. |
| Network.NetworkManager.LoopCheck | core/network.py:151 | After `close`, the receive loop's `while self.running` test fails. The loop ends, leaving the connection down after one `on_disconnect`. |
| RangingEngineModel.Evaluate | core/ranging_engine.py:271-307 | Accepts only with two local and two remote detections, and then exactly when both intervals lie in `[int(sr*0.001), int(sr*0.5)]` and the BeepBeep distance of the first two of each is at most 50. Any accepted distance lies in [0, 50]. |
| RangingEngineModel.EvaluateClockOffsetInvariant | core/ranging_engine.py:279-286 | Shifting all of one device's detections by any offset changes neither the verdict nor the distance. |
| RangingEngineModel.EvaluateRecoversDistance | core/ranging_engine.py:279-307 | Detections that are true arrival times, for devices at most 50 m apart with plausible intervals, are accepted with the true distance. |
| RangingEngineModel.Filtered | core/ranging_engine.py:326-333 | The median of 3 or more recent distances, else their mean. `FilteredInRange` and `MedianFilterIgnoresOneSpike` bound it and show it discards one spike. |
| RangingEngineModel.FilteredInRange | core/ranging_engine.py:326-333 | The filtered value lies between the window's extremes. A lone value passes through. |
| RangingEngineModel.MedianFilterIgnoresOneSpike | core/ranging_engine.py:326-328 | In a window of three or more values that agree except for one, the filtered value is the agreed value. |
| RangingEngineModel.SlideIsBoundedAppend | core/ranging_engine.py:321-323 | Append-then-`pop(0)` (or `[-100:]`) on a list within its cap keeps the newest `cap` values in arrival order. |
| RangingEngineModel.SuccessRate | core/ranging_engine.py:407 | `successful / max(1, measurements)` is non-negative. It is at most 1 when successes do not exceed measurements. |
| RangingEngineModel.RangingEngine.constructor | core/ranging_engine.py:26-67 | Idle, not ranging, not connected, empty windows and history, zero counters, default processor. |
| RangingEngineModel.RangingEngine.SetState | core/ranging_engine.py:139-143 | The state is set and reported once to `on_state_changed`. |
| RangingEngineModel.RangingEngine.OnConnected | core/ranging_engine.py:104-108 | Connected, reported once. |
| RangingEngineModel.RangingEngine.OnDisconnected | core/ranging_engine.py:110-115 | Not connected, not ranging, idle, reported once. |
| RangingEngineModel.RangingEngine.StartRanging | core/ranging_engine.py:167-185 | Refused with one error report when not connected, with ranging unchanged. Otherwise returns True and is ranging. |
| RangingEngineModel.RangingEngine.StopRanging | core/ranging_engine.py:187-190 | Not ranging, idle. |
| RangingEngineModel.RangingEngine.RangingLoopStep | core/ranging_engine.py:194-200 | The loop body runs only while ranging and connected. A target counts a measurement, passes through SENDING, RECEIVING and PROCESSING, hands over START_RANGING then its detections under the new id, and keeps them as local detections. Otherwise nothing is counted or sent. |
| RangingEngineModel.RangingEngine.DoTargetRanging | core/ranging_engine.py:210-243 | Counts one measurement. Passes through SENDING, RECEIVING and PROCESSING. Sends START_RANGING and then DETECTION_RESULT, both with the new measurement id. Replaces the local detections. |
| RangingEngineModel.RangingEngine.DoAnchorRanging | core/ranging_engine.py:245-269 | Passes through RECEIVING, SENDING and PROCESSING, and sends the detections without an id. Counts nothing. |
| RangingEngineModel.RangingEngine.OnStartRanging | core/ranging_engine.py:117-121 | Only an anchor answers: it passes through RECEIVING, SENDING and PROCESSING, hands over its detections without an id and keeps them as local detections. Any other role changes nothing. |
| RangingEngineModel.RangingEngine.OnDetectionResult | core/ranging_engine.py:127-130 | A missing `detections` field counts as none. A rejected exchange changes nothing else: windows, history, state, messages and counters. An accepted one smooths the distance, becomes IDLE, hands over exactly one DISTANCE_RESULT and counts one success. |
| RangingEngineModel.RangingEngine.OnDistanceResult | core/ranging_engine.py:132-137 | A missing distance changes nothing. A reported one is smoothed without the 0-50 m check: it enters the recent window and the history with its filtered value, is reported to the callback, and the engine becomes IDLE. |
| RangingEngineModel.RangingEngine.CalculateDistance | core/ranging_engine.py:271-316 | When `Evaluate` rejects, nothing changes: windows, history, messages and counters. When it accepts, the distance is smoothed, exactly one DISTANCE_RESULT is sent and one success is counted. |
| RangingEngineModel.RangingEngine.Send | core/ranging_engine.py:219-221 | A `send_message` call is logged once, at the end. The START_RANGING and DISTANCE_RESULT tallies grow by one for exactly those kinds. |
| RangingEngineModel.RangingEngine.Publish | core/ranging_engine.py:309-316 | An in-range distance is smoothed, then sent once as a DISTANCE_RESULT, then counted once as a success. The counters keep matching the messages sent. |
| RangingEngineModel.RangingEngine.UpdateDistance | core/ranging_engine.py:318-359 | The raw value enters the 5-value window, and the window's filtered value becomes the current distance. The history gains `(filtered, raw)`, capped at 100. `on_distance_updated` gets the raw value. Then the engine is idle. |
| RangingEngineModel.RangingEngine.PushDistance | core/ranging_engine.py:321-344 | The window and history steps of `_update_distance`, keeping both within their caps. |
| RangingEngineModel.RangingEngine.PushRecent | core/ranging_engine.py:321-323 | Append then `pop(0)` when over 5 keeps the newest 5 in order. |
| RangingEngineModel.RangingEngine.PushHistory | core/ranging_engine.py:336-344 | Append then keep the last 100 entries. |
| RangingEngineModel.RangingEngine.Close | core/ranging_engine.py:414-417 | The engine stops ranging and is idle. |
| RangingEngineModel.RangingEngine.Statistics | core/ranging_engine.py:388-408 | Nothing before the first distance. Afterwards the count is the history length (at most 100), the mean lies between min and max, the variance is non-negative, and the success rate is `successful / max(1, measurements)`. |

The engine keeps three invariants as `Valid()` through every operation:

- the current distance is the newest history entry's filtered value;
- `measurement_count` equals the number of START_RANGING messages handed to
  `send_message`;
- `successful_count` equals the number of DISTANCE_RESULT messages handed to
  `send_message`, and
  every one of those distances lies in [0, 50].

## Left out

- Chirp generation and detection (Butterworth filtering, cross-correlation,
  peak finding, the Hann-windowed chirp) are floating-point numerics. The
  chirp is an opaque sample sequence, and the detected peak positions are
  passed in as a parameter.
- Threads, locks, sleeps, wall-clock time and the FPS counter are not
  modelled. One iteration of a loop, or one event, is one method call, and
  `time.time()` is a parameter where it is stored.
- Sockets and audio devices are not modelled: accept, connect, recv,
  sendall, streams, `play_and_record`, `record_for_duration`, `get_devices`,
  `get_local_ip` and `UDPBroadcaster`. The outcomes the code branches on are
  parameters.
- JSON encoding and decoding are not modelled. The encoder and the parser
  are function parameters, and the end-to-end lemma assumes only that the
  encoder emits no newline and that the parser reads back what it wrote.
- `sync_time` is not modelled. It sends requests and never reads a
  response, so `time_offset` stays 0.
- `SimplifiedRangingEngine` and `do_single_measurement` are not modelled.
  They are thin audio wrappers around `calculate_distance_simple`.
- The GUI, export and hardware-test scripts are not part of this model.
- Floating-point rounding and float32 samples are not modelled: distances,
  variances and samples are exact reals. `int(sr*x)` is exact integer
  division (`sr/20`, `3*sr/10`, `sr/1000`, `sr/2`).
- Audio is mono. Multi-channel blocks, the `status` printout and
  `on_audio_data` are not modelled.
- Blocking playback waits are not modelled.
- Handler exceptions are not modelled: `_handle_message` catches them, and
  the dispatch log records the call.
- The engine's wiring of its handlers to the network manager is not
  modelled. The no-op `_on_chirp_sent` handler is left out, and so are
  `start_server` and `connect_to_anchor`, which only delegate.
- Filters.IsOutlier: numpy's `std` is a square root. The model compares
  squares against the population variance instead. `ExceedsScaledStdCorrect`
  and `StdFloorOnVariance` show the two comparisons agree.
- Filters.KalmanFilter.constructor: requires a non-negative process variance
  and a positive measurement variance. The code accepts any values, but with
  others the gain's denominator can vanish.
- AudioBuffers.ContinuousRecorder.constructor: requires a positive buffer
  size. With size 0, the code's `% self.buffer_size` divides by zero.
- AudioBuffers.ContinuousRecorder.Callback: requires the chunk to end within
  two buffer lengths of the write index. A longer chunk is refused by numpy's
  slice assignment.
- AudioBuffers.ContinuousRecorder.GetRecentData: takes the sample count
  `int(duration * sample_rate)` instead of the duration.
- Filters.DistanceFilter.StatisticsCount: models only the `count` of
  `get_statistics`; mean, std, median, min and max are not modelled.
- SignalProcessing.RangingSession.StatisticsCount: models only the `count`
  of `get_statistics`; the numpy summaries are not modelled.
- RangingEngineModel.RangingEngine.Statistics: the frame rate is left out,
  and `std` appears as its square, the variance.
- RangingEngineModel.RangingEngine.OnDistanceResult: the handler's first
  assignment of the raw value to `current_distance` is not modelled,
  because `_update_distance` overwrites it at once.
- RangingEngineModel.RangingEngine.StartRanging: does not model the loop
  thread it starts or the FPS reset. `RangingLoopStep` is one pass of that
  loop.
- RangingEngineModel.RangingEngine.Close: models only the engine side. The
  network side is `Network.NetworkManager.Close`.
- Network.NetworkManager.SendMessage: a `sendall` that fails part way is not
  modelled. Its success is a parameter.
- The engine's `outbox` logs calls to `send_message`, not delivered
  messages. A send refused while disconnected (core/network.py:207-209), or
  one whose `sendall` fails (core/network.py:222-224), is still logged and
  still counted. So is `measurement_count` in the source
  (core/ranging_engine.py:213), since the engine ignores the result.
- The `remote_data` dictionary given to `record_remote_detection` is stored
  by reference. Later changes the caller makes to it are not modelled; the
  sharing between the open measurement and the stored records is.
- Network.NetworkManager.Close: closing the sockets is not modelled.

## Findings

| source | as written | input that shows it | evidently intended | confidence | as-written member | corrected member |
|---|---|---|---|---|---|---|
| core/audio_io.py:317-329 | `get_recent_data` computes `start_index = (write_index - samples) % buffer_size`. For `samples == 0` this equals `write_index`, so the `else` branch returns the whole buffer. | `duration = 0` (or any duration below one sample period), so `samples == 0` | A request for zero samples returns no samples | not executed | AudioBuffers.ContinuousRecorder.GetRecentData | AudioBuffers.ContinuousRecorder.GetRecentDataCorrected |
