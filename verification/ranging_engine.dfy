/**
 * The ranging engine (core/ranging_engine.py): the bookkeeping that ties
 * detections, the BeepBeep formula, smoothing and the peer messages
 * together.
 *
 * Audio capture and chirp detection happen outside this model: a ranging
 * round receives the detected peak positions as a parameter. Messages the
 * engine hands to its network manager are appended to `outbox`, and the
 * user callbacks (`on_state_changed`, `on_connection_changed`,
 * `on_distance_updated`, `on_error`) are recorded as logs of their
 * arguments.
 */
module RangingEngineModel {
  import opened Wrappers
  import opened Stats
  import Bounded
  import opened SignalProcessing

  datatype EngineState = Idle | Waiting | Sending | Receiving | Processing

  /** The messages the engine sends to its peer, with their payloads. */
  datatype Outgoing =
    | StartRangingMsg(id: nat)
    | DetectionMsg(detections: seq<int>, measurementId: Option<nat>)
    | DistanceMsg(distance: real)

  /** An entry of `distance_history` (its wall-clock stamp is not modelled). */
  datatype HistoryEntry = HistoryEntry(distance: real, rawDistance: real)

  /** The parts of `get_statistics` that do not depend on time. */
  datatype EngineStatistics = EngineStatistics(
    count: nat, mean: real, variance: real, min: real, max: real, successRate: real)

  const FilterWindowSize: nat := 5
  const HistoryCap: nat := 100
  /** Largest distance `_calculate_distance` publishes, in metres. */
  const MaxDistance: real := 50.0

  /** `int(sample_rate * 0.001)`: about 0.3 m of sound travel. */
  function MinTimeDiff(sr: SampleRate): nat { sr / 1000 }

  /** `int(sample_rate * 0.5)`: about 85 m of sound travel. */
  function MaxTimeDiff(sr: SampleRate): nat { sr / 2 }

  predicate PlausibleInterval(sr: SampleRate, delta: int)
  {
    MinTimeDiff(sr) <= delta <= MaxTimeDiff(sr)
  }

  // ---------------------------------------------------------------------
  // Evaluating one exchange of detections

  /**
   * What `_calculate_distance` accepts: the first two local and the first
   * two remote detections, both intervals plausible, and a BeepBeep
   * distance of at most 50 m. Any later detections are ignored.
   */
  function Evaluate(p: Processor, local: seq<int>, remote: seq<int>): (r: Option<real>)
    ensures r.Some? ==> |local| >= 2 && |remote| >= 2 && 0.0 <= r.value <= MaxDistance
    ensures r.Some? ==> r.value == BeepBeep(p, local[0], local[1], remote[0], remote[1], None, None)
    ensures |local| >= 2 && |remote| >= 2 ==>
              (r.Some? <==>
                 PlausibleInterval(p.sampleRate, local[1] - local[0])
                 && PlausibleInterval(p.sampleRate, remote[1] - remote[0])
                 && BeepBeep(p, local[0], local[1], remote[0], remote[1], None, None) <= MaxDistance)
  {
    if |local| < 2 || |remote| < 2 then None
    else
      var deltaA := local[1] - local[0];
      var deltaB := remote[1] - remote[0];
      if deltaA < MinTimeDiff(p.sampleRate) || deltaB < MinTimeDiff(p.sampleRate) then None
      else if deltaA > MaxTimeDiff(p.sampleRate) || deltaB > MaxTimeDiff(p.sampleRate) then None
      else
        var distance := BeepBeep(p, local[0], local[1], remote[0], remote[1], None, None);
        if distance < 0.0 || distance > MaxDistance then None else Some(distance)
  }

  /** Every detection moved by the same clock offset. */
  function Shift(s: seq<int>, offset: int): (t: seq<int>)
    ensures |t| == |s|
    ensures forall i :: 0 <= i < |s| ==> t[i] == s[i] + offset
  {
    seq(|s|, i requires 0 <= i < |s| => s[i] + offset)
  }

  /** The devices' clocks need not agree: offsetting either device's detections changes nothing. */
  lemma EvaluateClockOffsetInvariant(p: Processor, local: seq<int>, remote: seq<int>,
                                     offsetA: int, offsetB: int)
    ensures Evaluate(p, Shift(local, offsetA), Shift(remote, offsetB)) == Evaluate(p, local, remote)
  {
    if |local| >= 2 && |remote| >= 2 {
      var l, r := Shift(local, offsetA), Shift(remote, offsetB);
      assert l[1] - l[0] == local[1] - local[0];
      assert r[1] - r[0] == remote[1] - remote[0];
      BeepBeepClockOffsetInvariant(p, local[0], local[1], remote[0], remote[1], None, None, offsetA, offsetB);
    }
  }

  /**
   * When the four detections are the true arrival times on each device's
   * clock (each device `dSelf` from its own speaker), the devices are
   * `dist` <= 50 m apart and both intervals are plausible, the engine
   * accepts the exchange and recovers `dist` exactly.
   */
  lemma EvaluateRecoversDistance(p: Processor, tA1: int, tA3: int, tB1: int, tB3: int,
                                 dist: real, eA: real, eB: real, offA: real, offB: real)
    requires p.speedOfSound > 0.0 && 0.0 <= dist <= MaxDistance
    requires Seconds(p, tA1) == eA + p.dSelf / p.speedOfSound + offA
    requires Seconds(p, tA3) == eB + dist / p.speedOfSound + offA
    requires Seconds(p, tB1) == eA + dist / p.speedOfSound + offB
    requires Seconds(p, tB3) == eB + p.dSelf / p.speedOfSound + offB
    requires PlausibleInterval(p.sampleRate, tA3 - tA1) && PlausibleInterval(p.sampleRate, tB3 - tB1)
    ensures Evaluate(p, [tA1, tA3], [tB1, tB3]) == Some(dist)
  {
    BeepBeepRecoversDistance(p, tA1, tA3, tB1, tB3, dist, p.dSelf, p.dSelf, eA, eB, offA, offB);
    BeepBeepDefaults(p, tA1, tA3, tB1, tB3);
  }

  // ---------------------------------------------------------------------
  // Smoothing

  /**
   * The filtered distance of a window: its median from three values on
   * (the median filter is switched on), the mean of two, the value itself
   * when alone.
   */
  function Filtered(window: seq<real>): real
    requires |window| > 0
  {
    if |window| >= 3 then Median(window)
    else if |window| == 2 then Mean(window)
    else window[0]
  }

  /** The filtered value lies between the window's extremes; a lone value passes through. */
  lemma FilteredInRange(window: seq<real>)
    requires |window| > 0
    ensures MinOf(window) <= Filtered(window) <= MaxOf(window)
    ensures |window| == 1 ==> Filtered(window) == window[0]
  {
    InRangeOfMinMax(window);
    if |window| >= 3 {
      MedianInRange(window, MinOf(window), MaxOf(window));
    } else if |window| == 2 {
      MeanInRange(window, MinOf(window), MaxOf(window));
    }
  }

  lemma {:induction false} CountAtMostLength(s: seq<real>, c: real)
    ensures multiset(s)[c] <= |s|
  {
    if s != [] {
      assert s == [s[0]] + s[1..];
      CountAtMostLength(s[1..], c);
    }
  }

  lemma {:induction false} ConstantCount(s: seq<real>, c: real)
    requires forall i :: 0 <= i < |s| ==> s[i] == c
    ensures multiset(s)[c] == |s|
  {
    if s != [] {
      assert s == [s[0]] + s[1..];
      ConstantCount(s[1..], c);
    }
  }

  /** A sequence equal to `c` everywhere but at `k` holds `c` at least |s| - 1 times. */
  lemma AllButOneCount(s: seq<real>, c: real, k: int)
    requires 0 <= k < |s|
    requires forall i :: 0 <= i < |s| && i != k ==> s[i] == c
    ensures multiset(s)[c] >= |s| - 1
  {
    var a, d := s[..k], s[k + 1..];
    assert s == a + [s[k]] + d;
    assert forall i :: 0 <= i < |d| ==> d[i] == s[k + 1 + i];
    ConstantCount(a, c);
    ConstantCount(d, c);
  }

  /** If at most one element differs from `c`, of any two positions one holds `c`. */
  lemma AtMostOneOther(s: seq<real>, c: real, i: int, j: int)
    requires 0 <= i < j < |s|
    requires multiset(s)[c] >= |s| - 1
    ensures s[i] == c || s[j] == c
  {
    var a, b, d := s[..i], s[i + 1..j], s[j + 1..];
    assert s == a + [s[i]] + b + [s[j]] + d;
    CountAtMostLength(a, c);
    CountAtMostLength(b, c);
    CountAtMostLength(d, c);
    assert multiset(s)[c] == multiset(a)[c] + multiset([s[i]])[c] + multiset(b)[c]
                             + multiset([s[j]])[c] + multiset(d)[c];
  }

  /**
   * Why the median filter is on: in a window of three or more readings of
   * the same distance, one wild reading does not move the filtered value.
   */
  lemma MedianFilterIgnoresOneSpike(window: seq<real>, c: real, k: int)
    requires |window| >= 3 && 0 <= k < |window|
    requires forall i :: 0 <= i < |window| && i != k ==> window[i] == c
    ensures Filtered(window) == c
  {
    SortSpec(window);
    var t := Sort(window);
    AllButOneCount(window, c, k);
    forall j | 1 <= j <= |t| - 2
      ensures t[j] == c
    {
      AtMostOneOther(t, c, 0, j);
      AtMostOneOther(t, c, j, |t| - 1);
    }
    var m := |t| / 2;
    assert 1 <= m <= |t| - 2;
    if |t| % 2 == 0 {
      assert t[m - 1] == c && t[m] == c;
    }
  }

  // ---------------------------------------------------------------------
  // Message counts

  function CountStarts(o: seq<Outgoing>): nat
  {
    if o == [] then 0
    else (if o[0].StartRangingMsg? then 1 else 0) + CountStarts(o[1..])
  }

  function CountResults(o: seq<Outgoing>): nat
  {
    if o == [] then 0
    else (if o[0].DistanceMsg? then 1 else 0) + CountResults(o[1..])
  }

  /** Every DISTANCE_RESULT in `o` carries a distance in [0, 50]. */
  predicate PublishedInRange(o: seq<Outgoing>)
  {
    o == [] || ((o[0].DistanceMsg? ==> 0.0 <= o[0].distance <= MaxDistance) && PublishedInRange(o[1..]))
  }

  lemma {:induction false} CountsAppend(o: seq<Outgoing>, m: Outgoing)
    ensures CountStarts(o + [m]) == CountStarts(o) + (if m.StartRangingMsg? then 1 else 0)
    ensures CountResults(o + [m]) == CountResults(o) + (if m.DistanceMsg? then 1 else 0)
    ensures PublishedInRange(o + [m]) <==>
              PublishedInRange(o) && (m.DistanceMsg? ==> 0.0 <= m.distance <= MaxDistance)
  {
    if o != [] {
      assert (o + [m])[1..] == o[1..] + [m];
      CountsAppend(o[1..], m);
    }
  }

  /**
   * One step of a list kept to `cap` entries: append, and drop the oldest
   * entry when that overflows (`append` + `pop(0)`, or `[-cap:]`).
   */
  function Slide<T>(w: seq<T>, v: T, cap: nat): seq<T>
    requires 0 < cap
  {
    if |w| < cap then w + [v] else w[1..] + [v]
  }

  /**
   * For a list within its cap, a slide step is a bounded deque append, so
   * the list holds the newest `cap` values in arrival order.
   */
  lemma SlideIsBoundedAppend<T>(w: seq<T>, v: T, cap: nat)
    requires 0 < cap && |w| <= cap
    ensures Slide(w, v, cap) == Bounded.Append(w, v, cap)
    ensures Slide(w, v, cap) == Bounded.Last(w + [v], cap)
  {
  }

  /** The smoothed values of a history. */
  function Distances(h: seq<HistoryEntry>): (ds: seq<real>)
    ensures |ds| == |h|
    ensures forall i :: 0 <= i < |h| ==> ds[i] == h[i].distance
  {
    seq(|h|, i requires 0 <= i < |h| => h[i].distance)
  }

  /** `successful_count / max(1, measurement_count)`. */
  function SuccessRate(successful: nat, measurements: nat): (r: real)
    ensures r >= 0.0
    ensures measurements == 0 ==> r == successful as real
    ensures successful <= measurements ==> r <= 1.0
  {
    var d := if measurements > 1 then measurements else 1;
    if successful <= measurements then
      DivMonotoneOrEqual(successful as real, d as real);
      successful as real / d as real
    else
      successful as real / d as real
  }

  lemma DivMonotoneOrEqual(a: real, d: real)
    requires 0.0 <= a <= d && d > 0.0
    ensures a / d <= 1.0
  {
    if 0.0 < a < d {
      DivBelowOne(a, d);
    } else if a == d {
      DivSelf(d);
    }
  }

  class RangingEngine {
    const role: string
    const processor: Processor
    var state: EngineState
    var isRanging: bool
    var isConnected: bool
    var localDetections: seq<int>
    var remoteDetections: seq<int>
    var currentDistance: Option<real>
    var distanceHistory: seq<HistoryEntry>
    var recentDistances: seq<real>
    var measurementCount: nat
    var successfulCount: nat
    /** Every message handed to the network manager, in order. */
    var outbox: seq<Outgoing>
    /** Arguments of `on_state_changed`. */
    var stateChanges: seq<EngineState>
    /** First arguments of `on_connection_changed`. */
    var connectionChanges: seq<bool>
    /** Arguments of `on_distance_updated`: raw distances. */
    var distanceUpdates: seq<real>
    /** Calls of `on_error`. */
    var errorReports: nat

    /**
     * Bounded windows; ranging only while connected; the current distance
     * is the newest history entry's filtered value and that entry's raw
     * value is the newest in the window; the counters count the messages
     * sent; every published distance lies in [0, 50].
     */
    ghost predicate Valid()
      reads this`recentDistances, this`distanceHistory, this`currentDistance,
            this`isRanging, this`isConnected, this`measurementCount, this`successfulCount, this`outbox
    {
      WindowsValid() && (isRanging ==> isConnected) && MessagesCounted()
    }

    ghost predicate WindowsValid()
      reads this`recentDistances, this`distanceHistory, this`currentDistance
    {
      |recentDistances| <= FilterWindowSize
      && |distanceHistory| <= HistoryCap
      && (currentDistance.None? <==> distanceHistory == [])
      && (distanceHistory != [] ==>
            recentDistances != []
            && currentDistance == Some(distanceHistory[|distanceHistory| - 1].distance)
            && distanceHistory[|distanceHistory| - 1].rawDistance == recentDistances[|recentDistances| - 1])
    }

    ghost predicate MessagesCounted()
      reads this`measurementCount, this`successfulCount, this`outbox
    {
      measurementCount == CountStarts(outbox)
      && successfulCount == CountResults(outbox)
      && PublishedInRange(outbox)
    }

    constructor (role: string, sampleRate: SampleRate, referenceChirp: seq<real>)
      ensures Valid()
      ensures this.role == role
      ensures processor == Processor(sampleRate, DefaultSpeedOfSound, DefaultSelfDistance, referenceChirp)
      ensures state == Idle && !isRanging && !isConnected
      ensures localDetections == [] && remoteDetections == [] && currentDistance == None
      ensures distanceHistory == [] && recentDistances == []
      ensures measurementCount == 0 && successfulCount == 0
      ensures outbox == [] && stateChanges == [] && connectionChanges == []
      ensures distanceUpdates == [] && errorReports == 0
    {
      this.role := role;
      processor := Processor(sampleRate, DefaultSpeedOfSound, DefaultSelfDistance, referenceChirp);
      state := Idle;
      isRanging := false;
      isConnected := false;
      localDetections := [];
      remoteDetections := [];
      currentDistance := None;
      distanceHistory := [];
      recentDistances := [];
      measurementCount := 0;
      successfulCount := 0;
      outbox := [];
      stateChanges := [];
      connectionChanges := [];
      distanceUpdates := [];
      errorReports := 0;
    }

    /** `_set_state`. */
    method SetState(newState: EngineState)
      modifies this`state, this`stateChanges
      ensures state == newState && stateChanges == old(stateChanges) + [newState]
    {
      state := newState;
      stateChanges := stateChanges + [newState];
    }

    /** `_on_connected`. */
    method OnConnected()
      requires Valid()
      modifies this`isConnected, this`connectionChanges
      ensures Valid()
      ensures isConnected && connectionChanges == old(connectionChanges) + [true]
    {
      isConnected := true;
      connectionChanges := connectionChanges + [true];
    }

    /** `_on_disconnected`: disconnected, not ranging, idle. */
    method OnDisconnected()
      requires Valid()
      modifies this`isConnected, this`isRanging, this`state, this`stateChanges, this`connectionChanges
      ensures Valid()
      ensures !isConnected && !isRanging && state == Idle
      ensures stateChanges == old(stateChanges) + [Idle]
      ensures connectionChanges == old(connectionChanges) + [false]
    {
      StopRanging();
      isConnected := false;
      connectionChanges := connectionChanges + [false];
    }

    /**
     * `start_ranging` (the loop thread it starts is not modelled): refused
     * with an error report when disconnected, otherwise ranging.
     */
    method StartRanging() returns (ok: bool)
      requires Valid()
      modifies this`isRanging, this`errorReports
      ensures Valid()
      ensures ok == old(isConnected)
      ensures !ok ==> isRanging == old(isRanging) && errorReports == old(errorReports) + 1
      ensures ok ==> isRanging && errorReports == old(errorReports)
    {
      if !isConnected {
        errorReports := errorReports + 1;
        return false;
      }
      if isRanging {
        return true;
      }
      isRanging := true;
      return true;
    }

    /** `stop_ranging`. */
    method StopRanging()
      requires Valid()
      modifies this`isRanging, this`state, this`stateChanges
      ensures Valid()
      ensures !isRanging && state == Idle && stateChanges == old(stateChanges) + [Idle]
    {
      isRanging := false;
      SetState(Idle);
    }

    /**
     * One pass of `_ranging_loop`'s body: a target runs a ranging round with
     * the peaks detected in its recording; an anchor only waits.
     */
    method RangingLoopStep(detections: seq<int>) returns (ran: bool)
      requires Valid()
      modifies this`state, this`stateChanges, this`measurementCount, this`outbox, this`localDetections
      ensures Valid()
      ensures ran <==> old(isRanging) && old(isConnected)
      ensures ran && role == "target" ==>
                measurementCount == old(measurementCount) + 1
                && outbox == old(outbox) + [StartRangingMsg(measurementCount),
                                            DetectionMsg(detections, Some(measurementCount))]
                && stateChanges == old(stateChanges) + [Sending, Receiving, Processing]
                && state == Processing && localDetections == detections
      ensures !(ran && role == "target") ==>
                measurementCount == old(measurementCount) && outbox == old(outbox)
                && state == old(state) && stateChanges == old(stateChanges)
                && localDetections == old(localDetections)
    {
      ran := isRanging && isConnected;
      if ran && role == "target" {
        DoTargetRanging(detections);
      }
    }

    /** Hands a message to the network manager. */
    method Send(m: Outgoing)
      modifies this`outbox
      ensures outbox == old(outbox) + [m]
      ensures CountStarts(outbox) == CountStarts(old(outbox)) + (if m.StartRangingMsg? then 1 else 0)
      ensures CountResults(outbox) == CountResults(old(outbox)) + (if m.DistanceMsg? then 1 else 0)
      ensures PublishedInRange(outbox) <==>
                PublishedInRange(old(outbox)) && (m.DistanceMsg? ==> 0.0 <= m.distance <= MaxDistance)
    {
      CountsAppend(outbox, m);
      outbox := outbox + [m];
    }

    /**
     * `_do_target_ranging`: a new measurement id, START_RANGING, then this
     * device's detections, passing through SENDING, RECEIVING, PROCESSING.
     */
    method DoTargetRanging(detections: seq<int>)
      requires MessagesCounted()
      modifies this`state, this`stateChanges, this`measurementCount, this`outbox, this`localDetections
      ensures MessagesCounted()
      ensures measurementCount == old(measurementCount) + 1
      ensures outbox == old(outbox) + [StartRangingMsg(measurementCount),
                                       DetectionMsg(detections, Some(measurementCount))]
      ensures stateChanges == old(stateChanges) + [Sending, Receiving, Processing]
      ensures state == Processing
      ensures localDetections == detections
    {
      SetState(Sending);
      measurementCount := measurementCount + 1;
      Send(StartRangingMsg(measurementCount));
      SetState(Receiving);
      SetState(Processing);
      localDetections := detections;
      Send(DetectionMsg(detections, Some(measurementCount)));
    }

    /** `_do_anchor_ranging`: no measurement id and no count; this device's detections go out. */
    method DoAnchorRanging(detections: seq<int>)
      requires MessagesCounted()
      modifies this`state, this`stateChanges, this`outbox, this`localDetections
      ensures MessagesCounted()
      ensures outbox == old(outbox) + [DetectionMsg(detections, None)]
      ensures stateChanges == old(stateChanges) + [Receiving, Sending, Processing]
      ensures state == Processing
      ensures localDetections == detections
    {
      SetState(Receiving);
      SetState(Sending);
      SetState(Processing);
      localDetections := detections;
      Send(DetectionMsg(detections, None));
    }

    /** `_on_start_ranging`: only an anchor answers a START_RANGING request. */
    method OnStartRanging(detections: seq<int>)
      requires Valid()
      modifies this`state, this`stateChanges, this`outbox, this`localDetections
      ensures Valid()
      ensures role == "anchor" ==> outbox == old(outbox) + [DetectionMsg(detections, None)]
                                   && localDetections == detections && state == Processing
                                   && stateChanges == old(stateChanges) + [Receiving, Sending, Processing]
      ensures role != "anchor" ==>
                outbox == old(outbox) && localDetections == old(localDetections)
                && state == old(state) && stateChanges == old(stateChanges)
    {
      if role == "anchor" {
        DoAnchorRanging(detections);
      }
    }

    /** `_on_detection_result`: a missing `detections` field counts as none. */
    method OnDetectionResult(detections: Option<seq<int>>)
      requires Valid()
      modifies this`remoteDetections, this`recentDistances, this`currentDistance,
               this`distanceHistory, this`distanceUpdates, this`state, this`stateChanges,
               this`outbox, this`successfulCount
      ensures Valid()
      ensures remoteDetections == detections.GetOr([])
      ensures var r := Evaluate(processor, localDetections, detections.GetOr([]));
              r.None? ==>
                recentDistances == old(recentDistances) && currentDistance == old(currentDistance)
                && distanceHistory == old(distanceHistory) && distanceUpdates == old(distanceUpdates)
                && state == old(state) && stateChanges == old(stateChanges)
                && outbox == old(outbox) && successfulCount == old(successfulCount)
      ensures var r := Evaluate(processor, localDetections, detections.GetOr([]));
              r.Some? ==>
                recentDistances == Slide(old(recentDistances), r.value, FilterWindowSize)
                && currentDistance == Some(Filtered(recentDistances))
                && distanceHistory == Slide(old(distanceHistory),
                                            HistoryEntry(Filtered(recentDistances), r.value), HistoryCap)
                && distanceUpdates == old(distanceUpdates) + [r.value]
                && state == Idle && stateChanges == old(stateChanges) + [Idle]
                && outbox == old(outbox) + [DistanceMsg(r.value)]
                && successfulCount == old(successfulCount) + 1
    {
      remoteDetections := detections.GetOr([]);
      CalculateDistance();
    }

    /**
     * `_on_distance_result`: a distance reported by the peer is smoothed
     * like one computed here, without the 0-50 m check. (The handler's
     * preliminary assignment of the raw value to `current_distance` is
     * overwritten by `_update_distance` at once.)
     */
    method OnDistanceResult(distance: Option<real>)
      requires Valid()
      modifies this`recentDistances, this`currentDistance, this`distanceHistory,
               this`distanceUpdates, this`state, this`stateChanges
      ensures Valid()
      ensures distance.None? ==>
                recentDistances == old(recentDistances) && currentDistance == old(currentDistance)
                && distanceHistory == old(distanceHistory) && distanceUpdates == old(distanceUpdates)
                && state == old(state) && stateChanges == old(stateChanges)
      ensures distance.Some? ==>
                recentDistances == Slide(old(recentDistances), distance.value, FilterWindowSize)
                && currentDistance == Some(Filtered(recentDistances))
                && distanceHistory == Slide(old(distanceHistory),
                                            HistoryEntry(Filtered(recentDistances), distance.value), HistoryCap)
                && distanceUpdates == old(distanceUpdates) + [distance.value]
                && state == Idle && stateChanges == old(stateChanges) + [Idle]
    {
      if distance.Some? {
        UpdateDistance(distance.value);
      }
    }

    /**
     * `_calculate_distance`: publishes exactly when `Evaluate` accepts the
     * stored detections, and then smooths, sends one DISTANCE_RESULT and
     * counts one success; otherwise nothing changes.
     */
    method CalculateDistance()
      requires WindowsValid() && MessagesCounted()
      modifies this`recentDistances, this`currentDistance, this`distanceHistory,
               this`distanceUpdates, this`state, this`stateChanges, this`outbox, this`successfulCount
      ensures WindowsValid() && MessagesCounted()
      ensures var r := Evaluate(processor, localDetections, remoteDetections);
              r.None? ==>
                recentDistances == old(recentDistances) && currentDistance == old(currentDistance)
                && distanceHistory == old(distanceHistory) && distanceUpdates == old(distanceUpdates)
                && state == old(state) && stateChanges == old(stateChanges)
                && outbox == old(outbox) && successfulCount == old(successfulCount)
      ensures var r := Evaluate(processor, localDetections, remoteDetections);
              r.Some? ==>
                recentDistances == Slide(old(recentDistances), r.value, FilterWindowSize)
                && currentDistance == Some(Filtered(recentDistances))
                && distanceHistory == Slide(old(distanceHistory),
                                                     HistoryEntry(Filtered(recentDistances), r.value), HistoryCap)
                && distanceUpdates == old(distanceUpdates) + [r.value]
                && state == Idle && stateChanges == old(stateChanges) + [Idle]
                && outbox == old(outbox) + [DistanceMsg(r.value)]
                && successfulCount == old(successfulCount) + 1
    {
      if |localDetections| < 2 || |remoteDetections| < 2 {
        return;
      }
      var tA1 := localDetections[0];
      var tA3 := localDetections[1];
      var tB1 := remoteDetections[0];
      var tB3 := remoteDetections[1];
      var deltaA := tA3 - tA1;
      var deltaB := tB3 - tB1;
      var maxTimeDiff := MaxTimeDiff(processor.sampleRate);
      var minTimeDiff := MinTimeDiff(processor.sampleRate);
      if deltaA < minTimeDiff || deltaB < minTimeDiff {
        return;
      }
      if deltaA > maxTimeDiff || deltaB > maxTimeDiff {
        return;
      }
      var distance := BeepBeep(processor, tA1, tA3, tB1, tB3, None, None);
      if distance < 0.0 || distance > MaxDistance {
        return;
      }
      Publish(distance);
    }

    /**
     * The accepting tail of `_calculate_distance`: an in-range distance is
     * smoothed, sent as one DISTANCE_RESULT and counted as one success.
     */
    method Publish(distance: real)
      requires WindowsValid() && MessagesCounted()
      requires 0.0 <= distance <= MaxDistance
      modifies this`recentDistances, this`currentDistance, this`distanceHistory,
               this`distanceUpdates, this`state, this`stateChanges, this`outbox, this`successfulCount
      ensures WindowsValid() && MessagesCounted()
      ensures recentDistances == Slide(old(recentDistances), distance, FilterWindowSize)
      ensures currentDistance == Some(Filtered(recentDistances))
      ensures distanceHistory == Slide(old(distanceHistory),
                                       HistoryEntry(Filtered(recentDistances), distance), HistoryCap)
      ensures distanceUpdates == old(distanceUpdates) + [distance]
      ensures state == Idle && stateChanges == old(stateChanges) + [Idle]
      ensures outbox == old(outbox) + [DistanceMsg(distance)]
      ensures successfulCount == old(successfulCount) + 1
    {
      UpdateDistance(distance);
      Send(DistanceMsg(distance));
      successfulCount := successfulCount + 1;
    }

    /**
     * `_update_distance`: the raw value enters the five-value window, the
     * window's filtered value becomes the current distance and is logged
     * in the history with the raw value, which is also reported; then idle.
     */
    method UpdateDistance(distance: real)
      requires WindowsValid()
      modifies this`recentDistances, this`currentDistance, this`distanceHistory,
               this`distanceUpdates, this`state, this`stateChanges
      ensures WindowsValid()
      ensures recentDistances == Slide(old(recentDistances), distance, FilterWindowSize)
      ensures currentDistance == Some(Filtered(recentDistances))
      ensures distanceHistory == Slide(old(distanceHistory),
                                                HistoryEntry(Filtered(recentDistances), distance), HistoryCap)
      ensures distanceUpdates == old(distanceUpdates) + [distance]
      ensures state == Idle && stateChanges == old(stateChanges) + [Idle]
    {
      PushDistance(distance);
      distanceUpdates := distanceUpdates + [distance];
      SetState(Idle);
    }

    /** The window and history part of `_update_distance`. */
    method PushDistance(distance: real)
      requires WindowsValid()
      modifies this`recentDistances, this`currentDistance, this`distanceHistory
      ensures WindowsValid()
      ensures recentDistances == Slide(old(recentDistances), distance, FilterWindowSize)
      ensures currentDistance == Some(Filtered(recentDistances))
      ensures distanceHistory == Slide(old(distanceHistory),
                                                HistoryEntry(Filtered(recentDistances), distance), HistoryCap)
    {
      PushRecent(distance);
      var filtered := Filtered(recentDistances);
      currentDistance := Some(filtered);
      PushHistory(HistoryEntry(filtered, distance));
    }

    /** `recent_distances.append(d)`, then `pop(0)` when over the window size. */
    method PushRecent(distance: real)
      requires |recentDistances| <= FilterWindowSize
      modifies this`recentDistances
      ensures recentDistances == Slide(old(recentDistances), distance, FilterWindowSize)
    {
      recentDistances := recentDistances + [distance];
      if |recentDistances| > FilterWindowSize {
        recentDistances := recentDistances[1..];
      }
    }

    /** `distance_history.append(entry)`, then keep the newest 100 entries. */
    method PushHistory(entry: HistoryEntry)
      requires |distanceHistory| <= HistoryCap
      modifies this`distanceHistory
      ensures distanceHistory == Slide(old(distanceHistory), entry, HistoryCap)
    {
      distanceHistory := distanceHistory + [entry];
      if |distanceHistory| > HistoryCap {
        distanceHistory := distanceHistory[|distanceHistory| - HistoryCap..];
      }
    }

    /** `close`, as far as the engine goes: ranging stops (the network side is `NetworkManager.Close`). */
    method Close()
      requires Valid()
      modifies this`isRanging, this`state, this`stateChanges
      ensures Valid()
      ensures !isRanging && state == Idle && stateChanges == old(stateChanges) + [Idle]
    {
      StopRanging();
    }

    /**
     * `get_statistics` without the frame rate: nothing before the first
     * distance, then the count and summary of the smoothed history and the
     * success rate.
     */
    function Statistics(): (r: Option<EngineStatistics>)
      reads this
      requires Valid()
      ensures r.None? <==> distanceHistory == []
      ensures r.Some? ==> r.value.count == |distanceHistory| <= HistoryCap
      ensures r.Some? ==> r.value.min <= r.value.mean <= r.value.max
      ensures r.Some? ==> r.value.variance >= 0.0
      ensures r.Some? ==> r.value.successRate == SuccessRate(successfulCount, measurementCount)
    {
      if distanceHistory == [] then None
      else
        var ds := Distances(distanceHistory);
        InRangeOfMinMax(ds);
        MeanInRange(ds, MinOf(ds), MaxOf(ds));
        VarianceNonNegative(ds);
        Some(EngineStatistics(|ds|, Mean(ds), Variance(ds), MinOf(ds), MaxOf(ds),
                              SuccessRate(successfulCount, measurementCount)))
    }
  }
}
