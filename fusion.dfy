/**
 * The sensor-fusion tick of a controller view: IMU packets produced when a
 * controller reports new sensor data, optical packets produced from the
 * multi-camera estimate, and `updateStateAndPredict`, which drains both
 * queues, orders the packets by time, keeps at most the newest 100 and
 * hands each one to the pose filter with a clamped time step.
 *
 * Timestamps are ticks of the high-resolution clock, in nanoseconds. The
 * pose filter itself is not modelled: every call to its `update` is
 * recorded in `filterLog` instead.
 */
module Fusion {
  import opened Common

  const NanosPerSecond: int := 1000000000

  /** `k_min_time_delta_seconds` (2500 Hz) and `k_max_time_delta_seconds` (30 Hz). */
  const MinTimeDelta: real := 1.0 / 2500.0
  const MaxTimeDelta: real := 1.0 / 30.0

  /** `k_max_process_count`: packets processed per tick. */
  const MaxProcessCount: nat := 100

  datatype SensorPayload =
    /** Accelerometer and gyroscope reading number `frame` of one input report. */
    | ImuReading(frame: nat)
    /** An optical measurement; `None` where the packet leaves the field cleared. */
    | OpticalReading(orientation: Option<Quat>, position: Option<Vec3>, area: real)

  datatype SensorPacket = SensorPacket(timestamp: int, payload: SensorPayload)

  /** One call `m_pose_filter->update(time_delta_seconds, packet)`. */
  datatype FilterCall = FilterCall(dt: real, packet: SensorPacket)

  // ---------------------------------------------------------------------
  // Packet builders

  /**
   * The IMU packets one input report yields. A PSMove with PS4 firmware
   * sends one reading; an older PSMove sends two, the earlier one stamped
   * half way back to the previous report and dropped when there is no
   * previous report (`sinceLast` is zero). DS4 and virtual controllers send
   * one packet at `now`.
   */
  function ImuPackets(device: DeviceType, isPS4Firmware: bool, now: int, sinceLast: int): (r: seq<SensorPacket>)
    requires device != PSNavi
    ensures |r| == 1 || |r| == 2
    ensures r[|r| - 1].timestamp == now
    ensures |r| == 2 <==> device == PSMove && !isPS4Firmware && sinceLast != 0
    ensures forall k :: 0 <= k < |r| ==> r[k].payload.ImuReading?
    ensures |r| == 2 ==> r[0].payload.frame == 0 && r[1].payload.frame == 1
    ensures |r| == 2 && sinceLast > 0 ==> now - sinceLast < r[0].timestamp <= now
  {
    if device == PSMove && !isPS4Firmware then
      var startFrame := if sinceLast == 0 then 1 else 0;
      var stamps := [now - TruncDiv(sinceLast, 2), now];
      if startFrame == 1 then [SensorPacket(stamps[1], ImuReading(1))]
      else [SensorPacket(stamps[0], ImuReading(0)), SensorPacket(stamps[1], ImuReading(1))]
    else
      [SensorPacket(now, ImuReading(0))]
  }

  /**
   * The optical packet posted for the multi-camera estimate `est`. PSMove
   * and virtual controllers have no optical orientation and send identity;
   * the DS4 sends its orientation when valid and zeroes a projection area
   * not above `ds4MinScreenArea`. Position and area are filled in only
   * while the estimate is tracking.
   */
  function OpticalPacket(device: DeviceType, now: int, est: OpticalEstimate, ds4MinScreenArea: real): (p: SensorPacket)
    requires device != PSNavi
    ensures p.timestamp == now && p.payload.OpticalReading?
    ensures p.payload.position.Some? <==> est.tracking
    ensures est.tracking ==> p.payload.position.value == est.position
    ensures !est.tracking ==> p.payload.area == 0.0
    ensures device != PSDualShock4 ==> p.payload.orientation == Some(ClearedQuat)
    ensures device != PSDualShock4 && est.tracking ==> p.payload.area == est.area
    ensures device == PSDualShock4 ==>
      p.payload.orientation == (if est.orientationValid then Some(est.orientation) else None)
    ensures device == PSDualShock4 && est.tracking ==>
      p.payload.area == (if est.area > ds4MinScreenArea then est.area else 0.0)
  {
    var orientation :=
      if device == PSDualShock4 then (if est.orientationValid then Some(est.orientation) else None)
      else Some(ClearedQuat);
    var area :=
      if !est.tracking then 0.0
      else if device == PSDualShock4 then (if est.area > ds4MinScreenArea then est.area else 0.0)
      else est.area;
    SensorPacket(now, OpticalReading(orientation, if est.tracking then Some(est.position) else None, area))
  }

  // ---------------------------------------------------------------------
  // Specification of one tick

  function TimestampKey(p: SensorPacket): real { p.timestamp as real }

  /** The packets in processing order: sorted by ascending timestamp. */
  function SortedPackets(packets: seq<SensorPacket>): seq<SensorPacket>
  {
    if |packets| > 1 then SortBy(packets, TimestampKey) else packets
  }

  /** The packets a tick processes: the newest `MaxProcessCount` of the sorted ones. */
  function Batch(packets: seq<SensorPacket>): seq<SensorPacket>
  {
    var s := SortedPackets(packets);
    if |s| > MaxProcessCount then s[|s| - MaxProcessCount..] else s
  }

  /** The packets a tick discards. */
  function Dropped(packets: seq<SensorPacket>): seq<SensorPacket>
  {
    var s := SortedPackets(packets);
    if |s| > MaxProcessCount then s[..|s| - MaxProcessCount] else []
  }

  /** The filter time step for a packet stamped `ts` after the last update. */
  function TimeDelta(lastValid: bool, last: int, ts: int): (dt: real)
    ensures MinTimeDelta <= dt <= MaxTimeDelta
    ensures !lastValid ==> dt == MaxTimeDelta
    ensures lastValid && MinTimeDelta <= (ts - last) as real / NanosPerSecond as real <= MaxTimeDelta ==>
      dt == (ts - last) as real / NanosPerSecond as real
  {
    if lastValid then ClampR((ts - last) as real / NanosPerSecond as real, MinTimeDelta, MaxTimeDelta)
    else MaxTimeDelta
  }

  /** The filter calls made for `batch`, starting from the given last-update state. */
  function FilterCalls(batch: seq<SensorPacket>, lastValid: bool, last: int): seq<FilterCall>
    decreases |batch|
  {
    if batch == [] then []
    else [FilterCall(TimeDelta(lastValid, last, batch[0].timestamp), batch[0])]
         + FilterCalls(batch[1..], true, batch[0].timestamp)
  }

  // ---------------------------------------------------------------------
  // Properties of the tick

  /**
   * At most 100 packets are processed, in non-decreasing timestamp order;
   * together with the dropped ones they are exactly the packets that
   * arrived, exactly max(n - 100, 0) are dropped, and no dropped packet is
   * newer than a processed one.
   */
  lemma BatchProperties(packets: seq<SensorPacket>)
    ensures |Batch(packets)| <= MaxProcessCount
    ensures |Batch(packets)| == MinI(|packets|, MaxProcessCount)
    ensures |Dropped(packets)| == MaxI(|packets| - MaxProcessCount, 0)
    ensures SortedBy(Batch(packets), TimestampKey)
    ensures multiset(Dropped(packets)) + multiset(Batch(packets)) == multiset(packets)
    ensures forall i, j :: 0 <= i < |Dropped(packets)| && 0 <= j < |Batch(packets)| ==>
      Dropped(packets)[i].timestamp <= Batch(packets)[j].timestamp
  {
    var s := SortedPackets(packets);
    if |packets| > 1 {
      SortByCorrect(packets, TimestampKey);
    }
    assert SortedBy(s, TimestampKey);
    assert multiset(s) == multiset(packets);
    if |s| > MaxProcessCount {
      var c := |s| - MaxProcessCount;
      assert s == s[..c] + s[c..];
      var b := s[c..];
      var d := s[..c];
      forall i, j | 0 <= i < |d| && 0 <= j < |b| ensures d[i].timestamp <= b[j].timestamp {
        assert d[i] == s[i] && b[j] == s[c + j];
        assert TimestampKey(s[i]) <= TimestampKey(s[c + j]);
      }
      forall i, j | 0 <= i < j < |b| ensures TimestampKey(b[i]) <= TimestampKey(b[j]) {
        assert b[i] == s[c + i] && b[j] == s[c + j];
      }
    }
  }

  /**
   * Every time step handed to the filter lies in [1/2500, 1/30]; the first
   * packet after the last-update timestamp was invalidated gets exactly
   * 1/30; every later packet's step is measured from the packet before it.
   */
  lemma {:induction false} FilterCallsProperties(batch: seq<SensorPacket>, lastValid: bool, last: int)
    ensures |FilterCalls(batch, lastValid, last)| == |batch|
    ensures forall k :: 0 <= k < |batch| ==>
      FilterCalls(batch, lastValid, last)[k].packet == batch[k]
      && MinTimeDelta <= FilterCalls(batch, lastValid, last)[k].dt <= MaxTimeDelta
    ensures |batch| > 0 ==>
      FilterCalls(batch, lastValid, last)[0].dt == TimeDelta(lastValid, last, batch[0].timestamp)
    ensures |batch| > 0 && !lastValid ==> FilterCalls(batch, lastValid, last)[0].dt == MaxTimeDelta
    ensures forall k :: 0 < k < |batch| ==>
      FilterCalls(batch, lastValid, last)[k].dt == TimeDelta(true, batch[k - 1].timestamp, batch[k].timestamp)
    decreases |batch|
  {
    if batch != [] {
      var rest := batch[1..];
      FilterCallsProperties(rest, true, batch[0].timestamp);
      var calls := FilterCalls(batch, lastValid, last);
      assert calls == [FilterCall(TimeDelta(lastValid, last, batch[0].timestamp), batch[0])]
                      + FilterCalls(rest, true, batch[0].timestamp);
      forall k | 0 < k < |batch|
        ensures calls[k].packet == batch[k]
        ensures calls[k].dt == TimeDelta(true, batch[k - 1].timestamp, batch[k].timestamp)
      {
        assert calls[k] == FilterCalls(rest, true, batch[0].timestamp)[k - 1];
        assert rest[k - 1] == batch[k];
        if k > 1 {
          assert rest[k - 2] == batch[k - 1];
        }
      }
    }
  }

  /** A tick's filter calls arrive in non-decreasing timestamp order. */
  lemma TickCallsOrdered(packets: seq<SensorPacket>, lastValid: bool, last: int)
    ensures forall i, j :: 0 <= i < j < |FilterCalls(Batch(packets), lastValid, last)| ==>
      FilterCalls(Batch(packets), lastValid, last)[i].packet.timestamp
        <= FilterCalls(Batch(packets), lastValid, last)[j].packet.timestamp
  {
    var b := Batch(packets);
    BatchProperties(packets);
    FilterCallsProperties(b, lastValid, last);
    var calls := FilterCalls(b, lastValid, last);
    forall i, j | 0 <= i < j < |calls| ensures calls[i].packet.timestamp <= calls[j].packet.timestamp {
      assert calls[i].packet == b[i] && calls[j].packet == b[j];
      assert TimestampKey(b[i]) <= TimestampKey(b[j]);
    }
  }

  // ---------------------------------------------------------------------
  // The state a controller view keeps for fusion

  class PoseFusion {
    /** `m_PoseSensorIMUPacketQueue`, filled by the device thread. */
    var imuQueue: seq<SensorPacket>
    /** `m_PoseSensorOpticalPacketQueue`, filled by the optical update. */
    var opticalQueue: seq<SensorPacket>
    var lastSensorDataTimestamp: int
    var lastSensorDataTimestampValid: bool
    var lastFilterUpdateTimestamp: int
    var lastFilterUpdateTimestampValid: bool
    /** Set by `markStateAsUnpublished`. */
    var unpublished: bool
    /** Every call made to the pose filter's `update`, oldest first. */
    ghost var filterLog: seq<FilterCall>

    /** A freshly opened controller: no timestamps, nothing queued. */
    constructor ()
      ensures imuQueue == [] && opticalQueue == []
      ensures !lastSensorDataTimestampValid && !lastFilterUpdateTimestampValid
      ensures !unpublished && filterLog == []
    {
      imuQueue, opticalQueue := [], [];
      lastSensorDataTimestamp, lastSensorDataTimestampValid := 0, false;
      lastFilterUpdateTimestamp, lastFilterUpdateTimestampValid := 0, false;
      unpublished := false;
      filterLog := [];
    }

    /** Re-opening the device forgets the last filter update. */
    method ResetFilterTimestamp()
      modifies this`lastFilterUpdateTimestampValid
      ensures !lastFilterUpdateTimestampValid
    {
      lastFilterUpdateTimestampValid := false;
    }

    /**
     * `notifySensorDataReceived`: the time since the previous report (zero
     * for the first one) is measured, `now` becomes the previous report,
     * and the device's IMU packets are queued.
     */
    method NotifySensorDataReceived(now: int, device: DeviceType, isPS4Firmware: bool)
      requires device != PSNavi
      modifies this`lastSensorDataTimestamp, this`lastSensorDataTimestampValid, this`imuQueue
      ensures lastSensorDataTimestamp == now && lastSensorDataTimestampValid
      ensures imuQueue == old(imuQueue) + ImuPackets(device, isPS4Firmware, now,
        if old(lastSensorDataTimestampValid) then now - old(lastSensorDataTimestamp) else 0)
    {
      var sinceLast := 0;
      if lastSensorDataTimestampValid {
        sinceLast := now - lastSensorDataTimestamp;
      }
      lastSensorDataTimestamp := now;
      lastSensorDataTimestampValid := true;
      imuQueue := imuQueue + ImuPackets(device, isPS4Firmware, now, sinceLast);
    }

    /** Queues the optical packet built from the multi-camera estimate. */
    method PostOpticalPacket(device: DeviceType, now: int, est: OpticalEstimate, ds4MinScreenArea: real)
      requires device != PSNavi
      modifies this`opticalQueue
      ensures opticalQueue == old(opticalQueue) + [OpticalPacket(device, now, est, ds4MinScreenArea)]
    {
      opticalQueue := opticalQueue + [OpticalPacket(device, now, est, ds4MinScreenArea)];
    }

    /**
     * `updateStateAndPredict`: drain the IMU queue, then the optical
     * queue, sort, trim to the newest 100, and feed each packet to the
     * filter, oldest first.
     */
    method UpdateStateAndPredict()
      modifies this
      ensures imuQueue == [] && opticalQueue == []
      ensures filterLog == old(filterLog)
        + FilterCalls(Batch(old(imuQueue) + old(opticalQueue)),
                      old(lastFilterUpdateTimestampValid), old(lastFilterUpdateTimestamp))
      ensures var b := Batch(old(imuQueue) + old(opticalQueue));
        if b == [] then
          lastFilterUpdateTimestampValid == old(lastFilterUpdateTimestampValid)
          && lastFilterUpdateTimestamp == old(lastFilterUpdateTimestamp)
          && unpublished == old(unpublished)
        else
          lastFilterUpdateTimestampValid && lastFilterUpdateTimestamp == b[|b| - 1].timestamp && unpublished
      ensures lastSensorDataTimestamp == old(lastSensorDataTimestamp)
      ensures lastSensorDataTimestampValid == old(lastSensorDataTimestampValid)
    {
      var packets := DrainQueues();
      if |packets| > 1 {
        packets := SortBy(packets, TimestampKey);
        if |packets| > MaxProcessCount {
          packets := packets[|packets| - MaxProcessCount..];
        }
      }
      assert packets == Batch(old(imuQueue) + old(opticalQueue));
      ProcessPackets(packets);
    }

    /** Moves every queued packet, IMU queue first, into one sequence. */
    method DrainQueues() returns (packets: seq<SensorPacket>)
      modifies this`imuQueue, this`opticalQueue
      ensures packets == old(imuQueue) + old(opticalQueue)
      ensures imuQueue == [] && opticalQueue == []
    {
      packets := [];
      while |imuQueue| > 0
        invariant packets + imuQueue == old(imuQueue)
        invariant opticalQueue == old(opticalQueue)
        decreases |imuQueue|
      {
        packets := packets + [imuQueue[0]];
        imuQueue := imuQueue[1..];
      }
      while |opticalQueue| > 0
        invariant packets + opticalQueue == old(imuQueue) + old(opticalQueue)
        invariant imuQueue == []
        decreases |opticalQueue|
      {
        packets := packets + [opticalQueue[0]];
        opticalQueue := opticalQueue[1..];
      }
    }

    /** Feeds `batch` to the filter in order, advancing the last-update timestamp. */
    method ProcessPackets(batch: seq<SensorPacket>)
      modifies this`lastFilterUpdateTimestamp, this`lastFilterUpdateTimestampValid, this`unpublished, this`filterLog
      ensures filterLog == old(filterLog)
        + FilterCalls(batch, old(lastFilterUpdateTimestampValid), old(lastFilterUpdateTimestamp))
      ensures batch == [] ==> (lastFilterUpdateTimestampValid == old(lastFilterUpdateTimestampValid)
        && lastFilterUpdateTimestamp == old(lastFilterUpdateTimestamp) && unpublished == old(unpublished))
      ensures batch != [] ==> (lastFilterUpdateTimestampValid
        && lastFilterUpdateTimestamp == batch[|batch| - 1].timestamp && unpublished)
    {
      var i := 0;
      while i < |batch|
        invariant 0 <= i <= |batch|
        invariant old(filterLog) + FilterCalls(batch, old(lastFilterUpdateTimestampValid), old(lastFilterUpdateTimestamp))
          == filterLog + FilterCalls(batch[i..], lastFilterUpdateTimestampValid, lastFilterUpdateTimestamp)
        invariant i == 0 ==> (lastFilterUpdateTimestampValid == old(lastFilterUpdateTimestampValid)
          && lastFilterUpdateTimestamp == old(lastFilterUpdateTimestamp) && unpublished == old(unpublished))
        invariant i > 0 ==> (lastFilterUpdateTimestampValid
          && lastFilterUpdateTimestamp == batch[i - 1].timestamp && unpublished)
      {
        var p := batch[i];
        var dt := MaxTimeDelta;
        if lastFilterUpdateTimestampValid {
          dt := ClampR((p.timestamp - lastFilterUpdateTimestamp) as real / NanosPerSecond as real,
                       MinTimeDelta, MaxTimeDelta);
        }
        assert batch[i..] == [p] + batch[i + 1..];
        lastFilterUpdateTimestamp := p.timestamp;
        lastFilterUpdateTimestampValid := true;
        filterLog := filterLog + [FilterCall(dt, p)];
        unpublished := true;
        i := i + 1;
      }
      assert batch[i..] == [];
    }
  }
}
