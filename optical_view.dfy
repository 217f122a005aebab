/**
 * The controller view's optical state and the loops of
 * `updateOpticalPoseEstimation` and the two multi-tracker averaging
 * routines, written as methods over that state and proved to compute the
 * specification functions of module Optical.
 *
 * The per-(tracker, controller) occlusion arrays and the per-controller
 * position history are `static` locals in the source; here they are the
 * fields of the one controller whose view this object is.
 */
module ControllerOptics {
  import opened Common
  import opened Optical
  import opened Fusion

  class OpticalPoseView {
    const device: DeviceType
    const trackerCount: nat
    /** `m_tracker_pose_estimations`, one per tracker id. */
    var trackerEstimates: seq<OpticalEstimate>
    /** `m_multicam_pose_estimation`. */
    var multicam: OpticalEstimate
    /** This controller's column of `occluded_tracker_ids`. */
    var occludedFlags: seq<bool>
    /** This controller's column of `occluded_projection_tracker_ids`. */
    var occludedCenters: seq<Point2>
    /** This controller's row of `average_world_position_history`. */
    const positionHistory: array<Vec3>
    /** This controller's entry of `history_count`. */
    var historyCount: int
    /** The pose filter whose optical queue receives the packets. */
    const fusion: PoseFusion

    ghost predicate Valid()
      reads this, positionHistory
    {
      |trackerEstimates| == trackerCount && |occludedFlags| == trackerCount && |occludedCenters| == trackerCount
      && positionHistory.Length == HistoryMaxAllowed && 0 <= historyCount < HistoryMaxAllowed
    }

    /** The state as the specification functions see it. */
    ghost function State(): OpticsState
      reads this, positionHistory
    {
      OpticsState(trackerEstimates, multicam, occludedFlags, occludedCenters, positionHistory[..], historyCount)
    }

    lemma ValidShaped()
      requires Valid()
      ensures Shaped(State(), trackerCount)
    {
    }

    /**
     * Every estimate starts cleared (the `clear()` of ControllerOpticalPoseEstimation
     * is not part of this model, so its result is a parameter); the static
     * arrays start zeroed.
     */
    constructor (device: DeviceType, trackerCount: nat, cleared: OpticalEstimate, fusion: PoseFusion)
      ensures Valid()
      ensures this.device == device && this.trackerCount == trackerCount && this.fusion == fusion
      ensures trackerEstimates == seq(trackerCount, _ => cleared) && multicam == cleared
      ensures occludedFlags == seq(trackerCount, _ => false)
      ensures occludedCenters == seq(trackerCount, _ => Point2(0.0, 0.0))
      ensures forall k :: 0 <= k < positionHistory.Length ==> positionHistory[k] == Zero3
      ensures historyCount == 0
      ensures fresh(positionHistory)
    {
      this.device := device;
      this.trackerCount := trackerCount;
      this.fusion := fusion;
      trackerEstimates := seq(trackerCount, _ => cleared);
      multicam := cleared;
      occludedFlags := seq(trackerCount, _ => false);
      occludedCenters := seq(trackerCount, _ => Point2(0.0, 0.0));
      positionHistory := new Vec3[HistoryMaxAllowed](_ => Zero3);
      historyCount := 0;
    }

    /** The open trackers, by id, with their current screen area. */
    method CollectOpenTrackers(inputs: seq<TrackerInput>) returns (entries: seq<AreaEntry>)
      requires Valid() && |inputs| == trackerCount
      ensures entries == OpenEntries(trackerEstimates, inputs, |inputs|)
    {
      entries := [];
      var t := 0;
      while t < |inputs|
        invariant 0 <= t <= |inputs|
        invariant entries == OpenEntries(trackerEstimates, inputs, t)
      {
        if inputs[t].isOpen {
          entries := entries + [AreaEntry(t, trackerEstimates[t].area)];
        }
        t := t + 1;
      }
    }

    /** The number of open trackers. */
    method CountOpenTrackers(inputs: seq<TrackerInput>) returns (available: nat)
      ensures available == CountOpen(inputs, |inputs|)
    {
      available := 0;
      var t := 0;
      while t < |inputs|
        invariant 0 <= t <= |inputs|
        invariant available == CountOpen(inputs, t)
      {
        if inputs[t].isOpen {
          available := available + 1;
        }
        t := t + 1;
      }
    }

    ghost function ScanNow(validIds: seq<nat>, available: nat): ScanState
      reads this
    {
      ScanState(trackerEstimates, occludedFlags, occludedCenters, validIds, available)
    }

    /**
     * One pass of the tracker loop for tracker `t`: the occlusion guard, the
     * acceptance test and the time stamps.
     */
    method VisitTracker(t: nat, input: TrackerInput, found: nat, cfg: OpticalConfig, now: int)
      returns (accepted: bool, open: bool)
      requires Valid() && t < trackerCount
      modifies this`trackerEstimates, this`occludedFlags, this`occludedCenters
      ensures Valid()
      ensures var s := TrackerStep(old(trackerEstimates[t]), old(occludedFlags[t]), old(occludedCenters[t]),
                                   input, found, cfg, now);
        accepted == s.accepted && open == input.isOpen
        && trackerEstimates == old(trackerEstimates)[t := s.est]
        && occludedFlags == old(occludedFlags)[t := s.flag]
        && occludedCenters == old(occludedCenters)[t := s.center]
    {
      var est := trackerEstimates[t];
      var wasTracking := est.tracking;
      var tracking := false;
      var occluded := false;
      open := input.isOpen;
      accepted := false;
      if input.isOpen {
        if input.millisSinceNewData < cfg.opticalTrackingTimeout {
          var visible := false;
          if input.hasUnpublishedState && input.projection.Some? {
            visible := true;
            est := input.projection.value.(lastVisible := now);
          }
          var isOccluded := false;
          if cfg.occludedAreaOnLossSize >= 0.01 {
            if !occludedFlags[t] {
              if wasTracking || visible {
                occludedFlags := occludedFlags[t := false];
                occludedCenters := occludedCenters[t := est.center];
              } else {
                occludedFlags := occludedFlags[t := true];
              }
            }
            if occludedFlags[t] && (wasTracking || visible) {
              var inArea := InOcclusionArea(est.center, occludedCenters[t], cfg.occludedAreaOnLossSize);
              var regain := RegainsProjection(est.area, cfg);
              if inArea && !regain {
                isOccluded := true;
                est := est.(occlusionAreaSize := cfg.occludedAreaOnLossSize, occlusionAreaPos := occludedCenters[t]);
              } else {
                occludedFlags := occludedFlags[t := false];
              }
            }
          }
          if !isOccluded || found < cfg.occludedAreaIgnoreTrackers {
            if (wasTracking && !input.hasUnpublishedState) || visible {
              accepted := true;
              tracking := true;
            }
          } else {
            occluded := true;
          }
        }
      }
      trackerEstimates := trackerEstimates[t := est.(lastUpdate := now, validTimestamps := true,
                                                     tracking := tracking, occluded := occluded)];
    }

    /** One pass of the tracker loop, for `order[k]`: visit it, then collect its id and count it. */
    method ScanOne(order: seq<AreaEntry>, k: nat, validIds: seq<nat>, available: nat,
                   inputs: seq<TrackerInput>, cfg: OpticalConfig, now: int)
      returns (validIds': seq<nat>, available': nat)
      requires Valid() && |inputs| == trackerCount && OrderInRange(order, |inputs|) && k < |order|
      modifies this`trackerEstimates, this`occludedFlags, this`occludedCenters
      ensures Valid()
      ensures ScanNow(validIds', available') == ScanNext(order, k, old(ScanNow(validIds, available)), inputs, cfg, now)
    {
      var t := order[k].trackerId;
      var accepted, open := VisitTracker(t, inputs[t], |validIds|, cfg, now);
      validIds' := if accepted then validIds + [t] else validIds;
      available' := if open then available + 1 else available;
    }

    /** The loop over the trackers in `order`, collecting the accepted ids and the open count. */
    method ScanTrackers(order: seq<AreaEntry>, inputs: seq<TrackerInput>, cfg: OpticalConfig, now: int)
      returns (validIds: seq<nat>, available: nat)
      requires Valid() && |inputs| == trackerCount && OrderInRange(order, |inputs|)
      modifies this`trackerEstimates, this`occludedFlags, this`occludedCenters
      ensures Valid()
      ensures ScanNow(validIds, available)
        == ScanFrom(order, 0, ScanState(old(trackerEstimates), old(occludedFlags), old(occludedCenters), [], 0),
                    inputs, cfg, now)
    {
      validIds := [];
      available := 0;
      var k := 0;
      while k < |order|
        invariant 0 <= k <= |order| && Valid()
        invariant ScanFrom(order, 0, ScanState(old(trackerEstimates), old(occludedFlags), old(occludedCenters), [], 0),
                           inputs, cfg, now)
               == ScanFrom(order, k, ScanNow(validIds, available), inputs, cfg, now)
      {
        ScanFromStep(order, k, ScanNow(validIds, available), inputs, cfg, now);
        validIds, available := ScanOne(order, k, validIds, available, inputs, cfg, now);
        k := k + 1;
      }
    }

    /** The projection info of the accepted trackers and the sum of their screen areas. */
    method ProjectAccepted(ids: seq<nat>, geo: Geometry) returns (infos: seq<ProjectionInfo>, areaSum: real)
      requires Valid() && IdsInRange(ids, trackerCount)
      ensures infos == SphereInfos(ids, trackerEstimates, geo, |ids|)
      ensures areaSum == AreaSum(ids, trackerEstimates, |ids|)
    {
      infos := [];
      areaSum := 0.0;
      var k := 0;
      while k < |ids|
        invariant 0 <= k <= |ids|
        invariant infos == SphereInfos(ids, trackerEstimates, geo, k)
        invariant areaSum == AreaSum(ids, trackerEstimates, k)
      {
        var id := ids[k];
        infos := infos + [ProjectionInfo(k, id, geo.projectRelative(id, trackerEstimates[id].position),
                                         trackerEstimates[id].area)];
        areaSum := areaSum + trackerEstimates[id].area;
        k := k + 1;
      }
    }

    /**
     * Row `i` of the sphere pair loop: triangulates tracker i with every
     * other considered tracker, adding admitted triangulations to the running
     * sum and counting the rest as bad deviations.
     */
    static method SpherePairRow(sorted: seq<ProjectionInfo>, i: nat, sum0: Vec3, count0: nat, ghost accepted0: seq<Vec3>,
                         inputs: seq<TrackerInput>, cfg: OpticalConfig, geo: Geometry)
      returns (sum: Vec3, count: nat, bad: nat, ghost accepted: seq<Vec3>)
      requires i < |sorted| && InfosInRange(sorted, |inputs|)
      requires sum0 == SumVec(accepted0) && count0 == |accepted0|
      ensures sum == SumVec(accepted) && count == |accepted|
      ensures RowResult(accepted, bad) == RowFrom(sorted, i, 0, accepted0, 0, inputs, cfg, geo)
    {
      sum, count, bad, accepted := sum0, count0, 0, accepted0;
      var j := 0;
      while j < |sorted|
        invariant 0 <= j <= |sorted|
        invariant sum == SumVec(accepted) && count == |accepted|
        invariant RowFrom(sorted, i, 0, accepted0, 0, inputs, cfg, geo) == RowFrom(sorted, i, j, accepted, bad, inputs, cfg, geo)
      {
        if i != j
          && !(cfg.excludeOpposedCameras
               && Opposed(inputs[sorted[i].trackerId].position, inputs[sorted[j].trackerId].position))
        {
          var w := geo.triangulatePosition(sorted[i].trackerId, sorted[i].location, sorted[j].trackerId, sorted[j].location);
          if count > 0 && cfg.maxTrackerPositionDeviation > 0.01 {
            var n := count as real;
            if AbsR(sum.x / n - w.x) < cfg.maxTrackerPositionDeviation
              && AbsR(sum.y / n - w.y) < cfg.maxTrackerPositionDeviation
              && AbsR(sum.z / n - w.z) < cfg.maxTrackerPositionDeviation
            {
              SumVecAppend(accepted, w);
              sum, count, accepted := Add3(sum, w), count + 1, accepted + [w];
            } else {
              bad := bad + 1;
            }
          } else {
            SumVecAppend(accepted, w);
            sum, count, accepted := Add3(sum, w), count + 1, accepted + [w];
          }
        }
        j := j + 1;
      }
    }

    /**
     * The sphere pair loop over all rows, on the tracker estimates `e0`;
     * renews the ROI of each row's tracker with too many bad deviations.
     */
    static method SpherePairLoop(sorted: seq<ProjectionInfo>, e0: seq<OpticalEstimate>, inputs: seq<TrackerInput>,
                                 cfg: OpticalConfig, geo: Geometry)
      returns (sum: Vec3, count: nat, e: seq<OpticalEstimate>, ghost rows: RowsResult)
      requires |inputs| == |e0| && InfosInRange(sorted, |inputs|)
      ensures rows == RowsFrom(sorted, 0, [], inputs, cfg, geo)
      ensures sum == SumVec(rows.accepted) && count == |rows.accepted|
      ensures e == MarkFlagged(e0, sorted, rows.flags)
    {
      sum, count, e := Zero3, 0, e0;
      ghost var accepted: seq<Vec3> := [];
      ghost var flags: seq<bool> := [];
      ghost var total := RowsFrom(sorted, 0, [], inputs, cfg, geo);
      var i := 0;
      while i < |sorted|
        invariant 0 <= i <= |sorted| && |flags| == i
        invariant sum == SumVec(accepted) && count == |accepted|
        invariant total == RowsResult(RowsFrom(sorted, i, accepted, inputs, cfg, geo).accepted,
                                      flags + RowsFrom(sorted, i, accepted, inputs, cfg, geo).flags)
        invariant e == MarkFlagged(e0, sorted, flags)
      {
        ghost var before := accepted;
        var bad;
        sum, count, bad, accepted := SpherePairRow(sorted, i, sum, count, accepted, inputs, cfg, geo);
        var flagged := bad >= |sorted| - 1;
        RowsStep(sorted, i, before, accepted, bad, flags, total, inputs, cfg, geo);
        e := MarkRow(e0, e, sorted, i, flags, flagged);
        flags := flags + [flagged];
        i := i + 1;
      }
      assert RowsFrom(sorted, i, accepted, inputs, cfg, geo) == RowsResult(accepted, []);
      assert flags + [] == flags;
      rows := total;
    }

    /** Tells the tracker of row i to renew its ROI when that row was flagged. */
    static method MarkRow(e0: seq<OpticalEstimate>, e: seq<OpticalEstimate>, sorted: seq<ProjectionInfo>,
                          i: nat, ghost flags: seq<bool>, flagged: bool)
      returns (r: seq<OpticalEstimate>)
      requires i == |flags| < |sorted| && InfosInRange(sorted, |e0|) && e == MarkFlagged(e0, sorted, flags)
      ensures r == MarkFlagged(e0, sorted, flags + [flagged])
    {
      assert (flags + [flagged])[..|flags|] == flags;
      r := e;
      if flagged {
        var t := sorted[i].trackerId;
        r := e[t := e[t].(enforceNewROI := true)];
      }
    }

    /** The prediction step on the history ring buffer: records `avg` and returns the predicted position. */
    method PredictFromHistory(avg: Vec3, cfg: OpticalConfig) returns (predicted: Vec3)
      requires Valid()
      modifies positionHistory, this`historyCount
      ensures Valid()
      ensures var p := PredictWithHistory(avg, old(positionHistory[..]), old(historyCount), cfg);
        predicted == p.position && positionHistory[..] == p.history && historyCount == p.historyCount
    {
      var h := MaxI(MinI(cfg.controllerPositionPredictionHistory, HistoryMaxAllowed), 1);
      positionHistory[historyCount] := avg;
      historyCount := (historyCount + 1) % h;
      var total := Zero3;
      var k := 0;
      while k < h
        invariant 0 <= k <= h
        invariant total == SumVec(positionHistory[..k])
      {
        assert positionHistory[..k + 1][..k] == positionHistory[..k];
        total := Add3(total, positionHistory[k]);
        k := k + 1;
      }
      var mean := Scale3(1.0 / h as real, total);
      predicted := Add3(avg, Scale3(cfg.controllerPositionPrediction, Sub3(avg, mean)));
    }

    /** `computeSpherePoseForControllerFromMultipleTrackers`. */
    method SphereMultipleTrackers(ids: seq<nat>, inputs: seq<TrackerInput>, cfg: OpticalConfig, geo: Geometry)
      requires Valid() && |inputs| == trackerCount && IdsInRange(ids, |inputs|) && |ids| > 0
      modifies this`trackerEstimates, this`multicam, positionHistory, this`historyCount
      ensures Valid()
      ensures State() == SphereMulti(old(State()), ids, inputs, cfg, geo)
    {
      ghost var s := State();
      var available := CountOpenTrackers(inputs);
      var infos, areaSum := ProjectAccepted(ids, geo);
      var sorted := SortBy(infos, InfoKey);
      assert sorted == SphereSorted(ids, trackerEstimates, geo);
      var sum, count, marked, rows := SpherePairLoop(sorted, trackerEstimates, inputs, cfg, geo);
      trackerEstimates := marked;
      if count == 0 && |sorted| > 0 && (available == 1 || !cfg.ignorePoseFromOneTracker) {
        var id := sorted[0].trackerId;
        multicam := SphereFromTracker(multicam, id, trackerEstimates[id], geo);
      } else if count > 0 {
        var avg := Scale3(1.0 / count as real, sum);
        if cfg.controllerPositionPrediction > 0.01 {
          avg := PredictFromHistory(avg, cfg);
        }
        multicam := multicam.(position := Smooth(cfg.controllerPositionSmoothing, multicam.position, avg), tracking := true);
      }
      multicam := multicam.(orientation := ClearedQuat, orientationValid := false, area := areaSum / |ids| as real);
    }

    /** The accumulators of the light-bar pair loop over the pairs in `done`. */
    static ghost predicate PairTotals(done: seq<LightBarPair>, sum: Vec3, orientations: seq<Quat>, weights: seq<real>, count: nat)
    {
      sum == SumVec(PairPositions(done)) && orientations == PairOrientations(done)
      && weights == PairWeights(done) && count == |done|
    }

    /** Row `i` of the light-bar pair loop: the pairs (i, j) for j > i, added to the accumulators. */
    static method LightBarPairRow(ids: seq<nat>, e: seq<OpticalEstimate>, i: nat, geo: Geometry,
                                  sum0: Vec3, orientations0: seq<Quat>, weights0: seq<real>, count0: nat,
                                  ghost done0: seq<LightBarPair>)
      returns (sum: Vec3, orientations: seq<Quat>, weights: seq<real>, count: nat, ghost done: seq<LightBarPair>)
      requires i < |ids| <= |e| && PairTotals(done0, sum0, orientations0, weights0, count0)
      ensures PairTotals(done, sum, orientations, weights, count)
      ensures done == done0 + LightBarRow(ids, e, i, i + 1, geo)
    {
      sum, orientations, weights, count, done := sum0, orientations0, weights0, count0, done0;
      var j := i + 1;
      while j < |ids|
        invariant i + 1 <= j <= |ids|
        invariant done0 + LightBarRow(ids, e, i, i + 1, geo) == done + LightBarRow(ids, e, i, j, geo)
        invariant PairTotals(done, sum, orientations, weights, count)
      {
        var pose := geo.triangulatePose(ids[i], e[i], ids[j], e[j]);
        var p := LightBarPair(i, j, pose, e[i].area + e[j].area);
        assert LightBarRow(ids, e, i, j, geo) == [p] + LightBarRow(ids, e, i, j + 1, geo);
        assert done + ([p] + LightBarRow(ids, e, i, j + 1, geo)) == (done + [p]) + LightBarRow(ids, e, i, j + 1, geo);
        PairSeqsAppend(done, p);
        sum := Add3(sum, pose.position);
        orientations := orientations + [pose.orientation];
        weights := weights + [e[i].area + e[j].area];
        count := count + 1;
        done := done + [p];
        j := j + 1;
      }
    }

    /** The light-bar pair loop over all rows, with the sum of the list-indexed screen areas. */
    static method LightBarPairLoop(ids: seq<nat>, e: seq<OpticalEstimate>, geo: Geometry)
      returns (sum: Vec3, orientations: seq<Quat>, weights: seq<real>, count: nat, areaSum: real)
      requires |ids| <= |e|
      ensures PairTotals(LightBarPairs(ids, e, 0, geo), sum, orientations, weights, count)
      ensures areaSum == ListAreaSum(e, |ids|)
    {
      sum, orientations, weights, count, areaSum := Zero3, [], [], 0, 0.0;
      ghost var done: seq<LightBarPair> := [];
      var i := 0;
      while i < |ids|
        invariant 0 <= i <= |ids|
        invariant LightBarPairs(ids, e, 0, geo) == done + LightBarPairs(ids, e, i, geo)
        invariant PairTotals(done, sum, orientations, weights, count)
        invariant areaSum == ListAreaSum(e, i)
      {
        assert ListAreaSum(e, i + 1) == ListAreaSum(e, i) + e[i].area;
        areaSum := areaSum + e[i].area;
        ghost var before := done;
        sum, orientations, weights, count, done := LightBarPairRow(ids, e, i, geo, sum, orientations, weights, count, done);
        assert LightBarPairs(ids, e, i, geo) == LightBarRow(ids, e, i, i + 1, geo) + LightBarPairs(ids, e, i + 1, geo);
        assert before + (LightBarRow(ids, e, i, i + 1, geo) + LightBarPairs(ids, e, i + 1, geo))
            == done + LightBarPairs(ids, e, i + 1, geo);
        i := i + 1;
      }
      assert done + [] == done;
    }

    /** `computeLightBarPoseForControllerFromMultipleTrackers`. */
    method LightBarMultipleTrackers(ids: seq<nat>, geo: Geometry)
      requires Valid() && 2 <= |ids| <= trackerCount
      modifies this`multicam
      ensures Valid()
      ensures State() == LightBarMulti(old(State()), ids, geo)
    {
      var sum, orientations, weights, count, areaSum := LightBarPairLoop(ids, trackerEstimates, geo);
      LightBarPairCount(ids, trackerEstimates, 0, geo);
      assert count >= 1 by {
        assert |ids| * (|ids| - 1) >= 2;
      }
      multicam := multicam.(position := Scale3(1.0 / count as real, sum), tracking := true);
      match geo.weightedAverage(orientations, weights) {
        case Some(q) =>
          multicam := multicam.(orientation := q, orientationValid := true);
        case None =>
          multicam := multicam.(orientationValid := false);
      }
      multicam := multicam.(area := areaSum / |ids| as real);
    }

    /** The single-tracker paths: `computeSphere/LightBarPoseForControllerFromSingleTracker`. */
    method SingleTracker(id: nat, shape: ShapeType, geo: Geometry)
      requires Valid() && id < trackerCount
      modifies this`trackerEstimates, this`multicam
      ensures Valid()
      ensures State() == if shape == Sphere then SphereSingle(old(State()), id, geo) else LightBarSingle(old(State()), id, geo)
    {
      if shape == Sphere {
        multicam := SphereFromTracker(multicam, id, trackerEstimates[id], geo);
      } else {
        var est := trackerEstimates[id];
        match geo.poseForProjection(id, est, est.orientationValid)
        case None =>
          multicam := multicam.(tracking := false);
        case Some(te) =>
          trackerEstimates := trackerEstimates[id := te];
          var orientation := if te.orientationValid then geo.toWorldOrientation(id, te.orientation) else ClearedQuat;
          multicam := multicam.(orientation := orientation, orientationValid := te.orientationValid,
                                position := geo.toWorldPosition(id, te.position), tracking := true, area := te.area);
      }
    }

    /** The dispatch on the accepted and open tracker counts after the scan. */
    method FormEstimate(validIds: seq<nat>, available: nat, shape: ShapeType, inputs: seq<TrackerInput>,
                        cfg: OpticalConfig, geo: Geometry)
      requires Valid() && |inputs| == trackerCount && IdsInRange(validIds, trackerCount) && |validIds| <= trackerCount
      modifies this`trackerEstimates, this`multicam, positionHistory, this`historyCount
      ensures Valid()
      ensures State() == Formed(old(State()), old(ScanNow(validIds, available)), shape, inputs, cfg, geo)
    {
      ghost var s := State();
      assert s == s.(estimates := trackerEstimates, flags := occludedFlags, centers := occludedCenters);
      if |validIds| > 1 {
        if shape == Sphere {
          SphereMultipleTrackers(validIds, inputs, cfg, geo);
        } else {
          LightBarMultipleTrackers(validIds, geo);
        }
      } else if |validIds| == 1 && (available == 1 || !cfg.ignorePoseFromOneTracker) {
        SingleTracker(validIds[0], shape, geo);
      } else {
        multicam := multicam.(tracking := false);
      }
    }

    /** The tracker loop of `updateOpticalPoseEstimation`, over the open trackers by descending area. */
    method ScanOpenTrackers(inputs: seq<TrackerInput>, cfg: OpticalConfig, now: int)
      returns (validIds: seq<nat>, available: nat)
      requires Valid() && |inputs| == trackerCount
      modifies this`trackerEstimates, this`occludedFlags, this`occludedCenters
      ensures Valid()
      ensures ScanNow(validIds, available) == Scanned(old(State()), inputs, cfg, now)
    {
      ghost var s := State();
      var entries := CollectOpenTrackers(inputs);
      var order := SortBy(entries, NegArea);
      assert order == TrackerOrder(s.estimates, inputs);
      validIds, available := ScanTrackers(order, inputs, cfg, now);
    }

    /** The enabled half of `updateOpticalPoseEstimation`: scan, form the estimate, stamp it. */
    method ScanAndForm(shape: ShapeType, inputs: seq<TrackerInput>, cfg: OpticalConfig, geo: Geometry, now: int)
      requires Valid() && |inputs| == trackerCount
      modifies this`trackerEstimates, this`multicam, this`occludedFlags, this`occludedCenters
      modifies positionHistory, this`historyCount
      ensures Valid()
      ensures State() == OpticalUpdate(old(State()), true, shape, inputs, cfg, geo, now)
    {
      ghost var s := State();
      var validIds, available := ScanOpenTrackers(inputs, cfg, now);
      ghost var sc := ScanNow(validIds, available);
      assert sc == Scanned(s, inputs, cfg, now);
      assert State() == s.(estimates := sc.estimates, flags := sc.flags, centers := sc.centers);
      FormEstimate(validIds, available, shape, inputs, cfg, geo);
      ghost var formed := State();
      assert formed == Formed(s, sc, shape, inputs, cfg, geo);
      if multicam.tracking {
        multicam := multicam.(lastVisible := now);
      }
      multicam := multicam.(lastUpdate := now, validTimestamps := true);
      assert multicam == Stamp(formed.multicam, now);
    }

    /**
     * `updateOpticalPoseEstimation`: when optical tracking is enabled, scans
     * the trackers, forms the multi-camera estimate and stamps it; then,
     * whether or not it was enabled, posts an optical packet to the filter
     * whenever the multi-camera estimate is tracking.
     */
    method UpdateOpticalPoseEstimation(enabled: bool, shape: ShapeType, inputs: seq<TrackerInput>,
                                       cfg: OpticalConfig, geo: Geometry, now: int, ds4MinScreenArea: real)
      requires Valid() && |inputs| == trackerCount && device != PSNavi
      modifies this`trackerEstimates, this`multicam, this`occludedFlags, this`occludedCenters
      modifies positionHistory, this`historyCount, fusion`opticalQueue
      ensures Valid()
      ensures State() == OpticalUpdate(old(State()), enabled, shape, inputs, cfg, geo, now)
      ensures fusion.opticalQueue
        == old(fusion.opticalQueue) + (if multicam.tracking then [OpticalPacket(device, now, multicam, ds4MinScreenArea)] else [])
    {
      if enabled {
        ScanAndForm(shape, inputs, cfg, geo, now);
      }
      if multicam.tracking {
        fusion.PostOpticalPacket(device, now, multicam, ds4MinScreenArea);
      }
    }
  }

  // ---------------------------------------------------------------------
  // Helper facts about the sequences the loops build

  lemma SumVecAppend(s: seq<Vec3>, w: Vec3)
    ensures SumVec(s + [w]) == Add3(SumVec(s), w)
  {
    assert (s + [w])[..|s|] == s;
  }

  lemma PairSeqsAppend(done: seq<LightBarPair>, p: LightBarPair)
    ensures SumVec(PairPositions(done + [p])) == Add3(SumVec(PairPositions(done)), p.pose.position)
    ensures PairOrientations(done + [p]) == PairOrientations(done) + [p.pose.orientation]
    ensures PairWeights(done + [p]) == PairWeights(done) + [p.weight]
  {
    assert PairPositions(done + [p]) == PairPositions(done) + [p.pose.position];
    SumVecAppend(PairPositions(done), p.pose.position);
  }

  /** The outcome of the pair loop after one more row. */
  lemma RowsStep(sorted: seq<ProjectionInfo>, i: nat, before: seq<Vec3>, accepted: seq<Vec3>, bad: nat, flags: seq<bool>,
                 total: RowsResult, inputs: seq<TrackerInput>, cfg: OpticalConfig, geo: Geometry)
    requires i < |sorted| && InfosInRange(sorted, |inputs|)
    requires RowResult(accepted, bad) == RowFrom(sorted, i, 0, before, 0, inputs, cfg, geo)
    requires total == RowsResult(RowsFrom(sorted, i, before, inputs, cfg, geo).accepted,
                                 flags + RowsFrom(sorted, i, before, inputs, cfg, geo).flags)
    ensures total == RowsResult(RowsFrom(sorted, i + 1, accepted, inputs, cfg, geo).accepted,
                                (flags + [bad >= |sorted| - 1]) + RowsFrom(sorted, i + 1, accepted, inputs, cfg, geo).flags)
  {
    RowsFromUnfold(sorted, i, before, inputs, cfg, geo);
    var rest := RowsFrom(sorted, i + 1, accepted, inputs, cfg, geo);
    assert flags + ([bad >= |sorted| - 1] + rest.flags) == (flags + [bad >= |sorted| - 1]) + rest.flags;
  }

  lemma RowsFromUnfold(sorted: seq<ProjectionInfo>, i: nat, accepted: seq<Vec3>,
                        inputs: seq<TrackerInput>, cfg: OpticalConfig, geo: Geometry)
    requires i < |sorted| && InfosInRange(sorted, |inputs|)
    ensures var row := RowFrom(sorted, i, 0, accepted, 0, inputs, cfg, geo);
      var rest := RowsFrom(sorted, i + 1, row.accepted, inputs, cfg, geo);
      RowsFrom(sorted, i, accepted, inputs, cfg, geo) == RowsResult(rest.accepted, [row.bad >= |sorted| - 1] + rest.flags)
  {
  }
}
