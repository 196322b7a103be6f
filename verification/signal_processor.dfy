/**
 * Distance arithmetic and per-session record keeping of the acoustic ranger
 * (core/signal_processor.py).
 *
 * Sample positions are integers; seconds, speeds and distances are reals.
 * The reference chirp is produced once at start-up by floating-point signal
 * code that is not part of this model, so a `Processor` carries it as an
 * uninterpreted sequence of samples.
 */
module SignalProcessing {
  import opened Wrappers

  type SampleRate = r: int | r > 0 witness 44100

  const DefaultSampleRate: SampleRate := 44100
  /** Speed of sound in m/s. */
  const DefaultSpeedOfSound: real := 343.0
  /** Default speaker-to-microphone distance of a device, in metres. */
  const DefaultSelfDistance: real := 0.15

  /**
   * A configured signal processor: sample rate, speed of sound, the
   * device's own speaker-to-microphone distance and its reference chirp.
   */
  datatype Processor = Processor(
    sampleRate: SampleRate,
    speedOfSound: real,
    dSelf: real,
    referenceChirp: seq<real>)

  function DefaultProcessor(chirp: seq<real>): Processor
  {
    Processor(DefaultSampleRate, DefaultSpeedOfSound, DefaultSelfDistance, chirp)
  }

  /** A count of samples expressed in seconds. */
  function Seconds(p: Processor, samples: int): real
  {
    samples as real / p.sampleRate as real
  }

  /** Python's `max(0, x)`. */
  function ClampAtZero(x: real): (r: real)
    ensures r >= 0.0
    ensures r == x || (x < 0.0 && r == 0.0)
  {
    if x > 0.0 then x else 0.0
  }

  // ---------------------------------------------------------------------
  // The ranging signal: 50 ms of silence, the chirp, 300 ms of silence.

  /** `int(sample_rate * 0.05)`. */
  function SilenceBefore(sr: SampleRate): nat { sr / 20 }

  /** `int(sample_rate * 0.3)`. */
  function SilenceAfter(sr: SampleRate): nat { 3 * sr / 10 }

  function Zeros(n: nat): (z: seq<real>)
    ensures |z| == n
    ensures forall i :: 0 <= i < n ==> z[i] == 0.0
  {
    seq(n, _ => 0.0)
  }

  function RangingSignal(p: Processor): (s: seq<real>)
    ensures |s| == SilenceBefore(p.sampleRate) + |p.referenceChirp| + SilenceAfter(p.sampleRate)
    ensures forall i :: 0 <= i < SilenceBefore(p.sampleRate) ==> s[i] == 0.0
    ensures forall k :: 0 <= k < |p.referenceChirp| ==>
              s[SilenceBefore(p.sampleRate) + k] == p.referenceChirp[k]
    ensures forall i :: SilenceBefore(p.sampleRate) + |p.referenceChirp| <= i < |s| ==> s[i] == 0.0
  {
    Zeros(SilenceBefore(p.sampleRate)) + p.referenceChirp + Zeros(SilenceAfter(p.sampleRate))
  }

  /** The silence lengths at the default sample rate: 2205 and 13230 samples. */
  lemma DefaultSignalLayout(chirp: seq<real>)
    ensures |RangingSignal(DefaultProcessor(chirp))| == 2205 + |chirp| + 13230
  {
  }

  // ---------------------------------------------------------------------
  // Distance formulas

  /**
   * BeepBeep two-way ranging. Device A hears its own chirp at `tA1` and B's
   * at `tA3`; device B hears A's chirp at `tB1` and its own at `tB3`, each on
   * its own clock. A missing self distance falls back to the processor's.
   */
  function BeepBeep(p: Processor, tA1: int, tA3: int, tB1: int, tB3: int,
                    dAA: Option<real>, dBB: Option<real>): (d: real)
    ensures d >= 0.0
    ensures var formula := p.speedOfSound / 2.0 * (((tA3 - tA1) - (tB3 - tB1)) as real / p.sampleRate as real)
                           + (dAA.GetOr(p.dSelf) + dBB.GetOr(p.dSelf)) / 2.0;
            (formula >= 0.0 ==> d == formula) && (formula < 0.0 ==> d == 0.0)
  {
    var a := dAA.GetOr(p.dSelf);
    var b := dBB.GetOr(p.dSelf);
    var deltaA := Seconds(p, tA3 - tA1);
    var deltaB := Seconds(p, tB3 - tB1);
    var distance := (p.speedOfSound / 2.0) * (deltaA - deltaB) + (a + b) / 2.0;
    assert deltaA - deltaB == ((tA3 - tA1) - (tB3 - tB1)) as real / p.sampleRate as real;
    ClampAtZero(distance)
  }

  /** Only intervals matter: shifting both of A's timestamps, or both of B's, changes nothing. */
  lemma BeepBeepClockOffsetInvariant(p: Processor, tA1: int, tA3: int, tB1: int, tB3: int,
                                     dAA: Option<real>, dBB: Option<real>, offsetA: int, offsetB: int)
    ensures BeepBeep(p, tA1 + offsetA, tA3 + offsetA, tB1 + offsetB, tB3 + offsetB, dAA, dBB)
         == BeepBeep(p, tA1, tA3, tB1, tB3, dAA, dBB)
  {
    assert (tA3 + offsetA) - (tA1 + offsetA) == tA3 - tA1;
    assert (tB3 + offsetB) - (tB1 + offsetB) == tB3 - tB1;
  }

  /** An omitted self distance is the processor's `dSelf`. */
  lemma BeepBeepDefaults(p: Processor, tA1: int, tA3: int, tB1: int, tB3: int)
    ensures BeepBeep(p, tA1, tA3, tB1, tB3, None, None)
         == BeepBeep(p, tA1, tA3, tB1, tB3, Some(p.dSelf), Some(p.dSelf))
  {
  }

  /**
   * The formula recovers the true distance. Let A emit at absolute time `eA`
   * and B at `eB`, the devices be `dist` apart with self distances `dAA`,
   * `dBB`, and A's and B's clocks run `offA` and `offB` ahead of absolute
   * time. If every timestamp (converted to seconds) is the true arrival time
   * on the device's own clock, the result is `dist`, whatever the offsets.
   */
  lemma {:induction false} BeepBeepRecoversDistance(
      p: Processor, tA1: int, tA3: int, tB1: int, tB3: int,
      dist: real, dAA: real, dBB: real, eA: real, eB: real, offA: real, offB: real)
    requires p.speedOfSound > 0.0 && dist >= 0.0
    requires Seconds(p, tA1) == eA + dAA / p.speedOfSound + offA
    requires Seconds(p, tA3) == eB + dist / p.speedOfSound + offA
    requires Seconds(p, tB1) == eA + dist / p.speedOfSound + offB
    requires Seconds(p, tB3) == eB + dBB / p.speedOfSound + offB
    ensures BeepBeep(p, tA1, tA3, tB1, tB3, Some(dAA), Some(dBB)) == dist
  {
    var c := p.speedOfSound;
    var sr := p.sampleRate as real;
    assert Seconds(p, tA3 - tA1) == Seconds(p, tA3) - Seconds(p, tA1);
    assert Seconds(p, tB3 - tB1) == Seconds(p, tB3) - Seconds(p, tB1);
    var deltaA := Seconds(p, tA3 - tA1);
    var deltaB := Seconds(p, tB3 - tB1);
    assert deltaA - deltaB == (2.0 * dist - dAA - dBB) / c;
    assert c / 2.0 * ((2.0 * dist - dAA - dBB) / c) == dist - (dAA + dBB) / 2.0;
  }

  /** One-way distance from an interval in samples. */
  function DistanceSimple(p: Processor, samples: int): (d: real)
    ensures d >= 0.0
    ensures var formula := p.speedOfSound * (samples as real / p.sampleRate as real);
            (formula >= 0.0 ==> d == formula) && (formula < 0.0 ==> d == 0.0)
  {
    var timeDiff := Seconds(p, samples);
    ClampAtZero(p.speedOfSound * timeDiff)
  }

  /** Distance from a time of flight in seconds, halved for a round trip, less `dSelf`. */
  function DistanceTof(p: Processor, sendTime: real, receiveTime: real, isRoundtrip: bool): (d: real)
    ensures d >= 0.0
    ensures var tof := if isRoundtrip then (receiveTime - sendTime) / 2.0 else receiveTime - sendTime;
            (p.speedOfSound * tof - p.dSelf >= 0.0 ==> d == p.speedOfSound * tof - p.dSelf)
            && (p.speedOfSound * tof - p.dSelf < 0.0 ==> d == 0.0)
  {
    var tof := receiveTime - sendTime;
    var tof' := if isRoundtrip then tof / 2.0 else tof;
    ClampAtZero(p.speedOfSound * tof' - p.dSelf)
  }

  /** A round trip of length 2t gives the same distance as a one-way flight of length t. */
  lemma TofRoundTripIsHalfOneWay(p: Processor, sendTime: real, oneWay: real)
    ensures DistanceTof(p, sendTime, sendTime + 2.0 * oneWay, true)
         == DistanceTof(p, sendTime, sendTime + oneWay, false)
  {
  }

  /** With no self distance, a one-way time of flight is the simple distance of the same interval. */
  lemma TofAgreesWithSimple(p: Processor, samples: int)
    requires p.dSelf == 0.0
    ensures DistanceTof(p, 0.0, Seconds(p, samples), false) == DistanceSimple(p, samples)
  {
  }

  // ---------------------------------------------------------------------
  // RangingSession

  /** The `t_self` / `t_other` entries of a `local_times` or `remote_times` dictionary. */
  datatype Times = Times(tSelf: Option<int>, tOther: Option<int>)

  const NoTimes := Times(None, None)

  /** One measurement record (its wall-clock stamps are not part of this model). */
  datatype Measurement = Measurement(
    role: string,
    localTimes: Times,
    remoteTimes: Times,
    distance: Option<real>)

  /** Whether all four times of a measurement are present. */
  predicate Complete(m: Measurement)
  {
    m.localTimes.tSelf.Some? && m.localTimes.tOther.Some?
    && m.remoteTimes.tSelf.Some? && m.remoteTimes.tOther.Some?
  }

  /**
   * The distance `calculate_final_distance` computes for a record: the local
   * pair is A's (own, other) and the remote pair is B's, passed as
   * `t_b1 = remote t_other`, `t_b3 = remote t_self`.
   */
  function SessionDistance(p: Processor, m: Measurement): (r: Option<real>)
    ensures r.Some? <==> Complete(m)
    ensures r.Some? ==> r.value >= 0.0
    ensures r.Some? ==> r.value == BeepBeep(p, m.localTimes.tSelf.value, m.localTimes.tOther.value,
                                             m.remoteTimes.tOther.value, m.remoteTimes.tSelf.value,
                                             None, None)
  {
    var l := m.localTimes;
    var rt := m.remoteTimes;
    if l.tSelf.Some? && l.tOther.Some? && rt.tSelf.Some? && rt.tOther.Some? then
      Some(BeepBeep(p, l.tSelf.value, l.tOther.value, rt.tOther.value, rt.tSelf.value, None, None))
    else
      None
  }

  /**
   * Two sessions that exchanged their local times compute the same distance:
   * each device's record names its own and the other's chirp, and the
   * formula is symmetric in the two labelled intervals.
   */
  lemma SessionSidesAgree(p: Processor, mine: Times, theirs: Times, role1: string, role2: string)
    requires mine.tSelf.Some? && mine.tOther.Some? && theirs.tSelf.Some? && theirs.tOther.Some?
    ensures SessionDistance(p, Measurement(role1, mine, theirs, None))
         == SessionDistance(p, Measurement(role2, theirs, mine, None))
  {
    var a1, a3 := mine.tSelf.value, mine.tOther.value;
    var b3, b1 := theirs.tSelf.value, theirs.tOther.value;
    assert (a3 - a1) - (b3 - b1) == (b1 - b3) - (a1 - a3);
  }

  /** How many stored measurements carry a distance. */
  function CountWithDistance(ms: seq<Measurement>): (n: nat)
    ensures n <= |ms|
  {
    if ms == [] then 0
    else (if ms[0].distance.Some? then 1 else 0) + CountWithDistance(ms[1..])
  }

  lemma {:induction false} CountAllWithDistance(ms: seq<Measurement>)
    requires forall i :: 0 <= i < |ms| ==> ms[i].distance.Some?
    ensures CountWithDistance(ms) == |ms|
  {
    if ms != [] {
      CountAllWithDistance(ms[1..]);
    }
  }

  lemma {:induction false} CountWithDistanceAppend(ms: seq<Measurement>, m: Measurement)
    ensures CountWithDistance(ms + [m]) == CountWithDistance(ms) + (if m.distance.Some? then 1 else 0)
  {
    if ms == [] {
      assert ms + [m] == [m];
    } else {
      assert (ms + [m])[1..] == ms[1..] + [m];
      CountWithDistanceAppend(ms[1..], m);
    }
  }

  /** `ms` with every position in `at` replaced by `m`. */
  function Overwrite(ms: seq<Measurement>, at: set<nat>, m: Measurement): (r: seq<Measurement>)
    ensures |r| == |ms|
    ensures forall i :: 0 <= i < |ms| && i in at ==> r[i] == m
    ensures forall i :: 0 <= i < |ms| && i !in at ==> r[i] == ms[i]
  {
    seq(|ms|, i requires 0 <= i < |ms| => if i in at then m else ms[i])
  }

  class RangingSession {
    const role: string
    const processor: Processor
    var measurements: seq<Measurement>
    var current: Option<Measurement>
    /**
     * Positions of `measurements` that hold the current record itself rather
     * than a copy of it: `calculate_final_distance` stores the live record, so
     * every later change to the current record also shows at these positions.
     */
    var live: set<nat>

    /**
     * Every stored record has a distance: records are stored only after one is
     * computed; and the positions in `live` hold exactly the current record.
     */
    ghost predicate Valid()
      reads this
    {
      && (forall i :: 0 <= i < |measurements| ==> measurements[i].distance.Some?)
      && (forall i :: i in live ==> i < |measurements| && current.Some? && measurements[i] == current.value)
    }

    constructor (role: string, referenceChirp: seq<real>)
      ensures Valid()
      ensures this.role == role && processor == DefaultProcessor(referenceChirp)
      ensures measurements == [] && current == None && live == {}
    {
      this.role := role;
      processor := DefaultProcessor(referenceChirp);
      measurements := [];
      current := None;
      live := {};
    }

    /** Starts a fresh record; records stored earlier keep their last contents. */
    method StartMeasurement()
      requires Valid()
      modifies this
      ensures Valid()
      ensures current == Some(Measurement(role, NoTimes, NoTimes, None))
      ensures measurements == old(measurements) && live == {}
    {
      current := Some(Measurement(role, NoTimes, NoTimes, None));
      live := {};
    }

    /**
     * Stores the first two detected positions as own and other arrival, in the
     * current record and in every stored position that holds it.
     */
    method RecordLocalDetection(chirpPositions: seq<int>)
      requires Valid()
      modifies this
      ensures Valid()
      ensures live == old(live)
      ensures old(current).Some? && |chirpPositions| >= 2 ==>
                current == Some(old(current).value.(localTimes := Times(Some(chirpPositions[0]), Some(chirpPositions[1]))))
                && measurements == Overwrite(old(measurements), live, current.value)
      ensures !(old(current).Some? && |chirpPositions| >= 2) ==>
                current == old(current) && measurements == old(measurements)
    {
      if current.Some? && |chirpPositions| >= 2 {
        current := Some(current.value.(localTimes := Times(Some(chirpPositions[0]), Some(chirpPositions[1]))));
        measurements := Overwrite(measurements, live, current.value);
      }
    }

    /**
     * Replaces the remote times with the peer's record, in the current record
     * and in every stored position that holds it.
     */
    method RecordRemoteDetection(remoteData: Times)
      requires Valid()
      modifies this
      ensures Valid()
      ensures live == old(live)
      ensures old(current).Some? ==>
                current == Some(old(current).value.(remoteTimes := remoteData))
                && measurements == Overwrite(old(measurements), live, current.value)
      ensures old(current).None? ==> current == None && measurements == old(measurements)
    {
      if current.Some? {
        current := Some(current.value.(remoteTimes := remoteData));
        measurements := Overwrite(measurements, live, current.value);
      }
    }

    /**
     * With all four times present, computes the BeepBeep distance, writes it
     * into the current record and appends that record itself to the history:
     * the positions already holding it take the new distance as well.
     */
    method CalculateFinalDistance() returns (r: Option<real>)
      requires Valid()
      modifies this
      ensures Valid()
      ensures r.Some? <==> old(current).Some? && Complete(old(current).value)
      ensures r.None? ==> current == old(current) && measurements == old(measurements) && live == old(live)
      ensures r.Some? ==>
                r == SessionDistance(processor, old(current).value)
                && current == Some(old(current).value.(distance := r))
                && measurements == Overwrite(old(measurements), old(live), current.value) + [current.value]
                && live == old(live) + {|old(measurements)|}
    {
      if current.None? {
        return None;
      }
      var m := current.value;
      var l := m.localTimes;
      var rt := m.remoteTimes;
      if l.tSelf.Some? && l.tOther.Some? && rt.tSelf.Some? && rt.tOther.Some? {
        var distance := BeepBeep(processor, l.tSelf.value, l.tOther.value, rt.tOther.value, rt.tSelf.value, None, None);
        current := Some(m.(distance := Some(distance)));
        measurements := Overwrite(measurements, live, current.value) + [current.value];
        live := live + {|measurements| - 1};
        return Some(distance);
      }
      return None;
    }

    /** The `count` of `get_statistics`, or None when it reports nothing. */
    function StatisticsCount(): (r: Option<nat>)
      reads this
      ensures r.None? <==> CountWithDistance(measurements) == 0
      ensures r.Some? ==> r.value == CountWithDistance(measurements)
    {
      if measurements == [] then None
      else
        var n := CountWithDistance(measurements);
        if n == 0 then None else Some(n)
    }
  }

  /** Since every stored record has a distance, the count is the number of records. */
  lemma StatisticsCountIsLength(session: RangingSession)
    requires session.Valid()
    ensures session.StatisticsCount() == if session.measurements == [] then None else Some(|session.measurements|)
  {
    CountAllWithDistance(session.measurements);
  }
}
