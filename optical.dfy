/**
 * Specification of a controller's optical pose update: which trackers are
 * consulted and in what order, the per-(tracker, controller) occlusion
 * guard, which detections are accepted, how the outcome is dispatched, and
 * how the multi-camera estimate is formed from several trackers (sphere and
 * light-bar controllers) or from one.
 *
 * Camera geometry is not modelled: triangulation, projection into a
 * tracker's screen, the tracker-to-world transforms, pose fitting of a
 * light bar and the weighted quaternion average are the function fields of
 * `Geometry`, and the result of the per-tracker projection search is an
 * input of each tick (`TrackerInput.projection`).
 */
module Optical {
  import opened Common

  datatype ShapeType = Sphere | LightBar

  /** The TrackerManagerConfig settings the optical update reads. */
  datatype OpticalConfig = OpticalConfig(
    opticalTrackingTimeout: real,          // milliseconds
    occludedAreaOnLossSize: real,
    minValidProjectionArea: real,
    occludedAreaRegainProjectionSize: real,
    occludedAreaIgnoreTrackers: int,
    ignorePoseFromOneTracker: bool,
    excludeOpposedCameras: bool,
    maxTrackerPositionDeviation: real,
    controllerPositionPrediction: real,
    controllerPositionPredictionHistory: int,
    controllerPositionSmoothing: real)

  /** What one tracker offers this tick. */
  datatype TrackerInput = TrackerInput(
    isOpen: bool,
    millisSinceNewData: real,
    hasUnpublishedState: bool,
    /** The estimate `computeProjectionForController` produces on a copy of the current one; None when it fails. */
    projection: Option<OpticalEstimate>,
    /** The tracker's world position (`getTrackerPose().PositionCm`). */
    position: Vec3)

  datatype PoseSample = PoseSample(position: Vec3, orientation: Quat)

  /** The camera geometry of the tracker manager, by tracker id. */
  datatype Geometry = Geometry(
    toWorldPosition: (nat, Vec3) -> Vec3,
    toWorldOrientation: (nat, Quat) -> Quat,
    projectRelative: (nat, Vec3) -> Point2,
    triangulatePosition: (nat, Point2, nat, Point2) -> Vec3,
    triangulatePose: (nat, OpticalEstimate, nat, OpticalEstimate) -> PoseSample,
    /** `computePoseForProjection` of a light bar: the updated tracker estimate, or None. */
    poseForProjection: (nat, OpticalEstimate, bool) -> Option<OpticalEstimate>,
    /** `eigen_quaternion_compute_normalized_weighted_average`, None when it fails. */
    weightedAverage: (seq<Quat>, seq<real>) -> Option<Quat>)

  // ---------------------------------------------------------------------
  // Tracker order

  datatype AreaEntry = AreaEntry(trackerId: nat, area: real)

  function NegArea(e: AreaEntry): real { -e.area }

  /** The open trackers among the first `n`, by ascending id, with their current screen area. */
  function OpenEntries(estimates: seq<OpticalEstimate>, inputs: seq<TrackerInput>, n: nat): (r: seq<AreaEntry>)
    requires n <= |inputs| == |estimates|
    ensures |r| == CountOpen(inputs, n) <= n
    ensures forall m :: 0 <= m < |r| ==>
      r[m].trackerId < n && inputs[r[m].trackerId].isOpen && r[m].area == estimates[r[m].trackerId].area
    ensures forall a, b :: 0 <= a < b < |r| ==> r[a].trackerId < r[b].trackerId
    ensures forall t :: 0 <= t < n && inputs[t].isOpen ==> exists m :: 0 <= m < |r| && r[m].trackerId == t
  {
    if n == 0 then []
    else
      var prev := OpenEntries(estimates, inputs, n - 1);
      var r := prev + (if inputs[n - 1].isOpen then [AreaEntry(n - 1, estimates[n - 1].area)] else []);
      assert forall m :: 0 <= m < |prev| ==> r[m] == prev[m];
      assert inputs[n - 1].isOpen ==> r[|prev|].trackerId == n - 1;
      r
  }

  /** The order trackers are consulted in: open trackers, largest current screen area first. */
  function TrackerOrder(estimates: seq<OpticalEstimate>, inputs: seq<TrackerInput>): (r: seq<AreaEntry>)
    requires |inputs| == |estimates|
    ensures |r| <= |inputs|
    ensures forall m :: 0 <= m < |r| ==> r[m].trackerId < |inputs| && inputs[r[m].trackerId].isOpen
    ensures SortedBy(r, NegArea)
    ensures multiset(r) == multiset(OpenEntries(estimates, inputs, |inputs|))
  {
    var entries := OpenEntries(estimates, inputs, |inputs|);
    SortByCorrect(entries, NegArea);
    var r := SortBy(entries, NegArea);
    assert forall m :: 0 <= m < |r| ==> r[m] in multiset(entries);
    r
  }

  // ---------------------------------------------------------------------
  // Occlusion guard and acceptance of one tracker

  /** The occlusion zone is a square around the frozen centre (Chebyshev distance). */
  predicate InOcclusionArea(p: Point2, center: Point2, size: real)
  {
    AbsR(p.x - center.x) < size && AbsR(p.y - center.y) < size
  }

  /** A projection at least this large leaves the occlusion zone regardless of its position. */
  predicate RegainsProjection(area: real, cfg: OpticalConfig)
  {
    MaxR(area, cfg.minValidProjectionArea) > cfg.occludedAreaRegainProjectionSize
  }

  predicate OcclusionGuardEnabled(cfg: OpticalConfig) { cfg.occludedAreaOnLossSize >= 0.01 }

  datatype OcclusionOutcome = OcclusionOutcome(occluded: bool, flag: bool, center: Point2)

  /**
   * The occlusion state machine of one (tracker, controller) pair. `flag`
   * and `center` are its stored state, `est` the tracker estimate after
   * this tick's projection, `engaged` whether the tracker was tracking or
   * saw the controller this tick.
   */
  function Occlusion(flag: bool, center: Point2, est: OpticalEstimate, engaged: bool, cfg: OpticalConfig): (o: OcclusionOutcome)
    ensures o.occluded <==>
      OcclusionGuardEnabled(cfg) && flag && engaged
      && InOcclusionArea(est.center, center, cfg.occludedAreaOnLossSize)
      && !RegainsProjection(est.area, cfg)
    ensures o.center == (if OcclusionGuardEnabled(cfg) && !flag && engaged then est.center else center)
    ensures !OcclusionGuardEnabled(cfg) ==> o.flag == flag
    ensures OcclusionGuardEnabled(cfg) && !flag ==> o.flag == !engaged
    ensures OcclusionGuardEnabled(cfg) && flag ==> (o.flag <==> !engaged || o.occluded)
  {
    if !OcclusionGuardEnabled(cfg) then OcclusionOutcome(false, flag, center)
    else
      var flag1 := if !flag then !engaged else flag;
      var center1 := if !flag && engaged then est.center else center;
      if flag1 && engaged then
        var inArea := InOcclusionArea(est.center, center1, cfg.occludedAreaOnLossSize);
        var regain := RegainsProjection(est.area, cfg);
        if inArea && !regain then OcclusionOutcome(true, flag1, center1)
        else OcclusionOutcome(false, false, center1)
      else OcclusionOutcome(false, flag1, center1)
  }

  datatype TrackerStepResult = TrackerStepResult(est: OpticalEstimate, flag: bool, center: Point2, accepted: bool)

  /** Whether this tick's projection search succeeded on a fresh video frame. */
  predicate VisibleThisUpdate(input: TrackerInput)
  {
    input.hasUnpublishedState && input.projection.Some?
  }

  /** Whether the tracker's video data is recent enough to use. */
  predicate Fresh(input: TrackerInput, cfg: OpticalConfig)
  {
    input.isOpen && input.millisSinceNewData < cfg.opticalTrackingTimeout
  }

  /** The estimate after this tick's projection: the new one when visible, else the old one. */
  function ProjectedEstimate(est: OpticalEstimate, input: TrackerInput, now: int): OpticalEstimate
  {
    if VisibleThisUpdate(input) then input.projection.value.(lastVisible := now) else est
  }

  /**
   * One iteration of the tracker loop for the tracker with input `input`,
   * when `found` trackers have been accepted before it.
   */
  function TrackerStep(est: OpticalEstimate, flag: bool, center: Point2, input: TrackerInput,
                       found: int, cfg: OpticalConfig, now: int): (r: TrackerStepResult)
    ensures r.accepted <==>
      Fresh(input, cfg)
      && (!Occlusion(flag, center, ProjectedEstimate(est, input, now), est.tracking || VisibleThisUpdate(input), cfg).occluded
          || found < cfg.occludedAreaIgnoreTrackers)
      && ((est.tracking && !input.hasUnpublishedState) || VisibleThisUpdate(input))
    ensures r.est.tracking == r.accepted
    ensures r.est.occluded ==> !r.accepted
    ensures r.est.lastUpdate == now && r.est.validTimestamps
    ensures r.est.lastVisible == (if Fresh(input, cfg) && VisibleThisUpdate(input) then now else est.lastVisible)
    ensures !Fresh(input, cfg) ==> r.flag == flag && r.center == center && !r.est.occluded
  {
    var stamped := (e: OpticalEstimate, tracking: bool, occluded: bool) =>
      e.(lastUpdate := now, validTimestamps := true, tracking := tracking, occluded := occluded);
    if !Fresh(input, cfg) then
      TrackerStepResult(stamped(est, false, false), flag, center, false)
    else
      var visible := VisibleThisUpdate(input);
      var e1 := ProjectedEstimate(est, input, now);
      var o := Occlusion(flag, center, e1, est.tracking || visible, cfg);
      var e2 := if o.occluded then e1.(occlusionAreaSize := cfg.occludedAreaOnLossSize, occlusionAreaPos := o.center) else e1;
      var passes := !o.occluded || found < cfg.occludedAreaIgnoreTrackers;
      var accepted := passes && ((est.tracking && !input.hasUnpublishedState) || visible);
      TrackerStepResult(stamped(e2, accepted, !passes), o.flag, o.center, accepted)
  }

  /** The occlusion zone is the square, not the disc: a point outside the disc can be suppressed. */
  lemma SquareOcclusionZone(center: Point2, size: real)
    requires size >= 0.01
    ensures var p := Point2(center.x + 0.9 * size, center.y + 0.9 * size);
      InOcclusionArea(p, center, size)
      && (p.x - center.x) * (p.x - center.x) + (p.y - center.y) * (p.y - center.y) > size * size
  {
    var p := Point2(center.x + 0.9 * size, center.y + 0.9 * size);
    assert p.x - center.x == 0.9 * size && p.y - center.y == 0.9 * size;
    assert (0.9 * size) * (0.9 * size) == 0.81 * (size * size);
  }

  // ---------------------------------------------------------------------
  // The scan over trackers in order

  datatype ScanState = ScanState(
    estimates: seq<OpticalEstimate>,
    flags: seq<bool>,
    centers: seq<Point2>,
    validIds: seq<nat>,
    available: nat)

  predicate ScanShaped(st: ScanState, n: nat)
  {
    |st.estimates| == n && |st.flags| == n && |st.centers| == n
  }

  predicate OrderInRange(order: seq<AreaEntry>, n: nat)
  {
    forall m :: 0 <= m < |order| ==> order[m].trackerId < n
  }

  /** The state after processing `order[k..]`. */
  function ScanFrom(order: seq<AreaEntry>, k: nat, st: ScanState, inputs: seq<TrackerInput>,
                    cfg: OpticalConfig, now: int): (r: ScanState)
    requires k <= |order| && ScanShaped(st, |inputs|) && OrderInRange(order, |inputs|)
    ensures ScanShaped(r, |inputs|)
    ensures |st.validIds| <= |r.validIds| <= |st.validIds| + |order| - k
    ensures r.validIds[..|st.validIds|] == st.validIds
    ensures forall m :: |st.validIds| <= m < |r.validIds| ==>
      r.validIds[m] < |inputs| && Fresh(inputs[r.validIds[m]], cfg)
    ensures st.available <= r.available <= st.available + |order| - k
    decreases |order| - k
  {
    if k == |order| then st
    else
      var t := order[k].trackerId;
      var s := TrackerStep(st.estimates[t], st.flags[t], st.centers[t], inputs[t], |st.validIds|, cfg, now);
      ScanFrom(order, k + 1,
        ScanState(st.estimates[t := s.est], st.flags[t := s.flag], st.centers[t := s.center],
                  st.validIds + (if s.accepted then [t] else []),
                  st.available + (if inputs[t].isOpen then 1 else 0)),
        inputs, cfg, now)
  }

  /** The state after the one tracker `order[k]`. */
  function ScanNext(order: seq<AreaEntry>, k: nat, st: ScanState, inputs: seq<TrackerInput>,
                    cfg: OpticalConfig, now: int): (r: ScanState)
    requires k < |order| && ScanShaped(st, |inputs|) && OrderInRange(order, |inputs|)
    ensures ScanShaped(r, |inputs|)
  {
    var t := order[k].trackerId;
    var s := TrackerStep(st.estimates[t], st.flags[t], st.centers[t], inputs[t], |st.validIds|, cfg, now);
    ScanState(st.estimates[t := s.est], st.flags[t := s.flag], st.centers[t := s.center],
              st.validIds + (if s.accepted then [t] else []),
              st.available + (if inputs[t].isOpen then 1 else 0))
  }

  lemma ScanFromStep(order: seq<AreaEntry>, k: nat, st: ScanState, inputs: seq<TrackerInput>,
                     cfg: OpticalConfig, now: int)
    requires k < |order| && ScanShaped(st, |inputs|) && OrderInRange(order, |inputs|)
    ensures ScanFrom(order, k, st, inputs, cfg, now) == ScanFrom(order, k + 1, ScanNext(order, k, st, inputs, cfg, now), inputs, cfg, now)
  {
  }

  /** Every accepted tracker is fresh, so the accepted count never exceeds the open count. */
  lemma ScanAcceptsOnlyFresh(order: seq<AreaEntry>, st: ScanState, inputs: seq<TrackerInput>, cfg: OpticalConfig, now: int)
    requires ScanShaped(st, |inputs|) && OrderInRange(order, |inputs|) && st.validIds == [] && st.available == 0
    requires forall m :: 0 <= m < |order| ==> inputs[order[m].trackerId].isOpen
    ensures var r := ScanFrom(order, 0, st, inputs, cfg, now);
      r.available == |order| && |r.validIds| <= r.available
      && forall m :: 0 <= m < |r.validIds| ==> Fresh(inputs[r.validIds[m]], cfg)
  {
    OpenOrderAvailable(order, 0, st, inputs, cfg, now);
  }

  lemma {:induction false} OpenOrderAvailable(order: seq<AreaEntry>, k: nat, st: ScanState, inputs: seq<TrackerInput>,
                                              cfg: OpticalConfig, now: int)
    requires k <= |order| && ScanShaped(st, |inputs|) && OrderInRange(order, |inputs|)
    requires forall m :: 0 <= m < |order| ==> inputs[order[m].trackerId].isOpen
    ensures ScanFrom(order, k, st, inputs, cfg, now).available == st.available + |order| - k
    decreases |order| - k
  {
    if k < |order| {
      var t := order[k].trackerId;
      var s := TrackerStep(st.estimates[t], st.flags[t], st.centers[t], inputs[t], |st.validIds|, cfg, now);
      OpenOrderAvailable(order, k + 1,
        ScanState(st.estimates[t := s.est], st.flags[t := s.flag], st.centers[t := s.center],
                  st.validIds + (if s.accepted then [t] else []),
                  st.available + (if inputs[t].isOpen then 1 else 0)),
        inputs, cfg, now);
    }
  }

  // ---------------------------------------------------------------------
  // Dispatch

  datatype Path = MultiTracker | SingleTracker | NotTracking

  /** Which way the multi-camera estimate is computed, from the accepted and open tracker counts. */
  function Dispatch(found: nat, available: nat, ignorePoseFromOneTracker: bool): (p: Path)
    ensures p == MultiTracker <==> found > 1
    ensures p == SingleTracker <==> found == 1 && (available == 1 || !ignorePoseFromOneTracker)
    ensures p == NotTracking <==> found == 0 || (found == 1 && available != 1 && ignorePoseFromOneTracker)
  {
    if found > 1 then MultiTracker
    else if found == 1 && (available == 1 || !ignorePoseFromOneTracker) then SingleTracker
    else NotTracking
  }

  // ---------------------------------------------------------------------
  // The state the optical update reads and writes

  /** Entries kept per controller in the prediction history. */
  const HistoryMaxAllowed: nat := 50

  datatype OpticsState = OpticsState(
    estimates: seq<OpticalEstimate>,
    multicam: OpticalEstimate,
    flags: seq<bool>,
    centers: seq<Point2>,
    history: seq<Vec3>,
    historyCount: int)

  predicate Shaped(s: OpticsState, n: nat)
  {
    |s.estimates| == n && |s.flags| == n && |s.centers| == n
    && |s.history| == HistoryMaxAllowed && 0 <= s.historyCount < HistoryMaxAllowed
  }

  predicate IdsInRange(ids: seq<nat>, n: nat)
  {
    forall m :: 0 <= m < |ids| ==> ids[m] < n
  }

  // ---------------------------------------------------------------------
  // One tracker

  /** A sphere seen by one tracker: its tracker-relative position put into world space. */
  function SphereFromTracker(mc: OpticalEstimate, id: nat, est: OpticalEstimate, geo: Geometry): (r: OpticalEstimate)
    ensures r.tracking && !r.orientationValid && r.orientation == ClearedQuat
    ensures r.position == geo.toWorldPosition(id, est.position) && r.area == est.area
    ensures r.occluded == mc.occluded && r.lastUpdate == mc.lastUpdate && r.lastVisible == mc.lastVisible
  {
    mc.(orientation := ClearedQuat, orientationValid := false,
        position := geo.toWorldPosition(id, est.position), tracking := true, area := est.area)
  }

  function SphereSingle(s: OpticsState, id: nat, geo: Geometry): (r: OpticsState)
    requires id < |s.estimates|
    ensures r.estimates == s.estimates && r.history == s.history && r.historyCount == s.historyCount
    ensures r.multicam == SphereFromTracker(s.multicam, id, s.estimates[id], geo)
  {
    s.(multicam := SphereFromTracker(s.multicam, id, s.estimates[id], geo))
  }

  /**
   * A light bar seen by one tracker: its pose is fitted (using the previous
   * pose as a guess when its orientation was valid); on success the
   * tracker estimate takes the fitted pose and the multi-camera estimate its
   * world-space form, on failure the multi-camera estimate stops tracking.
   */
  function LightBarSingle(s: OpticsState, id: nat, geo: Geometry): (r: OpticsState)
    requires id < |s.estimates|
    ensures r.history == s.history && r.historyCount == s.historyCount
    ensures var fit := geo.poseForProjection(id, s.estimates[id], s.estimates[id].orientationValid);
      match fit
      case None => r.estimates == s.estimates && !r.multicam.tracking
                   && r.multicam == s.multicam.(tracking := false)
      case Some(te) =>
        r.estimates == s.estimates[id := te] && r.multicam.tracking
        && r.multicam.orientationValid == te.orientationValid
        && r.multicam.orientation == (if te.orientationValid then geo.toWorldOrientation(id, te.orientation) else ClearedQuat)
        && r.multicam.position == geo.toWorldPosition(id, te.position)
        && r.multicam.area == te.area
  {
    var est := s.estimates[id];
    match geo.poseForProjection(id, est, est.orientationValid)
    case None => s.(multicam := s.multicam.(tracking := false))
    case Some(te) =>
      var orientation := if te.orientationValid then geo.toWorldOrientation(id, te.orientation) else ClearedQuat;
      s.(estimates := s.estimates[id := te],
         multicam := s.multicam.(orientation := orientation, orientationValid := te.orientationValid,
                                 position := geo.toWorldPosition(id, te.position), tracking := true,
                                 area := te.area))
  }

  // ---------------------------------------------------------------------
  // Several trackers, sphere: gated averaging over ordered pairs

  datatype ProjectionInfo = ProjectionInfo(index: nat, trackerId: nat, location: Point2, area: real)

  function InfoKey(p: ProjectionInfo): real { -p.area }

  /** The projection info of the first `n` accepted trackers, in list order. */
  function SphereInfos(ids: seq<nat>, estimates: seq<OpticalEstimate>, geo: Geometry, n: nat): (r: seq<ProjectionInfo>)
    requires n <= |ids| && IdsInRange(ids, |estimates|)
    ensures |r| == n
    ensures forall m :: 0 <= m < n ==> r[m].trackerId == ids[m] && r[m].area == estimates[ids[m]].area
  {
    if n == 0 then []
    else
      var id := ids[n - 1];
      SphereInfos(ids, estimates, geo, n - 1)
        + [ProjectionInfo(n - 1, id, geo.projectRelative(id, estimates[id].position), estimates[id].area)]
  }

  /** The sum of the accepted trackers' screen areas, over the first `n`. */
  function AreaSum(ids: seq<nat>, estimates: seq<OpticalEstimate>, n: nat): real
    requires n <= |ids| && IdsInRange(ids, |estimates|)
  {
    if n == 0 then 0.0 else AreaSum(ids, estimates, n - 1) + estimates[ids[n - 1]].area
  }

  /** The number of open trackers among the first `n`. */
  function CountOpen(inputs: seq<TrackerInput>, n: nat): (c: nat)
    requires n <= |inputs|
    ensures c <= n
  {
    if n == 0 then 0 else CountOpen(inputs, n - 1) + (if inputs[n - 1].isOpen then 1 else 0)
  }

  /** The ids below `n` of the open trackers. */
  ghost function OpenIds(inputs: seq<TrackerInput>, n: nat): set<nat>
    requires n <= |inputs|
  {
    set t: nat | t < n && inputs[t].isOpen
  }

  /** CountOpen is the number of open trackers among the first `n`. */
  lemma {:induction false} CountOpenCounts(inputs: seq<TrackerInput>, n: nat)
    requires n <= |inputs|
    ensures CountOpen(inputs, n) == |OpenIds(inputs, n)|
  {
    if n == 0 {
      assert OpenIds(inputs, 0) == {};
    } else {
      CountOpenCounts(inputs, n - 1);
      if inputs[n - 1].isOpen {
        assert OpenIds(inputs, n) == OpenIds(inputs, n - 1) + {n - 1};
      } else {
        assert OpenIds(inputs, n) == OpenIds(inputs, n - 1);
      }
    }
  }

  function SumVec(s: seq<Vec3>): Vec3
  {
    if s == [] then Zero3 else Add3(SumVec(s[..|s| - 1]), s[|s| - 1])
  }

  /** Whether two trackers sit on opposite sides of the origin in both x and z. */
  predicate Opposed(a: Vec3, b: Vec3)
  {
    (a.x > 0.0) == (b.x < 0.0) && (a.z > 0.0) == (b.z < 0.0)
  }

  /** Every axis of `w` is within `maxDev` of the mean of the `count` triangulations summed in `sum`. */
  predicate WithinDeviation(sum: Vec3, count: nat, w: Vec3, maxDev: real)
    requires count > 0
  {
    var n := count as real;
    AbsR(sum.x / n - w.x) < maxDev && AbsR(sum.y / n - w.y) < maxDev && AbsR(sum.z / n - w.z) < maxDev
  }

  predicate GatingActive(accepted: seq<Vec3>, cfg: OpticalConfig)
  {
    |accepted| > 0 && cfg.maxTrackerPositionDeviation > 0.01
  }

  /** Whether a triangulation is added to the running sum. */
  predicate Admits(accepted: seq<Vec3>, w: Vec3, cfg: OpticalConfig)
  {
    !GatingActive(accepted, cfg) || WithinDeviation(SumVec(accepted), |accepted|, w, cfg.maxTrackerPositionDeviation)
  }

  predicate InfosInRange(sorted: seq<ProjectionInfo>, n: nat)
  {
    forall m :: 0 <= m < |sorted| ==> sorted[m].trackerId < n
  }

  /** Whether the pair (i, j) of the sorted list is triangulated. */
  predicate PairConsidered(sorted: seq<ProjectionInfo>, i: nat, j: nat, inputs: seq<TrackerInput>, cfg: OpticalConfig)
    requires i < |sorted| && j < |sorted| && InfosInRange(sorted, |inputs|)
  {
    i != j
    && !(cfg.excludeOpposedCameras
         && Opposed(inputs[sorted[i].trackerId].position, inputs[sorted[j].trackerId].position))
  }

  function PairPosition(sorted: seq<ProjectionInfo>, i: nat, j: nat, geo: Geometry): Vec3
    requires i < |sorted| && j < |sorted|
  {
    geo.triangulatePosition(sorted[i].trackerId, sorted[i].location, sorted[j].trackerId, sorted[j].location)
  }

  datatype RowResult = RowResult(accepted: seq<Vec3>, bad: nat)

  /** Row `i` of the pair loop from column `j` on. */
  function RowFrom(sorted: seq<ProjectionInfo>, i: nat, j: nat, accepted: seq<Vec3>, bad: nat,
                   inputs: seq<TrackerInput>, cfg: OpticalConfig, geo: Geometry): (r: RowResult)
    requires i < |sorted| && j <= |sorted| && InfosInRange(sorted, |inputs|)
    ensures |accepted| <= |r.accepted| && bad <= r.bad
    decreases |sorted| - j
  {
    if j == |sorted| then RowResult(accepted, bad)
    else if !PairConsidered(sorted, i, j, inputs, cfg) then RowFrom(sorted, i, j + 1, accepted, bad, inputs, cfg, geo)
    else
      var w := PairPosition(sorted, i, j, geo);
      if Admits(accepted, w, cfg) then RowFrom(sorted, i, j + 1, accepted + [w], bad, inputs, cfg, geo)
      else RowFrom(sorted, i, j + 1, accepted, bad + 1, inputs, cfg, geo)
  }

  datatype RowsResult = RowsResult(accepted: seq<Vec3>, flags: seq<bool>)

  /** Rows `i..` of the pair loop; `flags[k]` says whether row i+k's tracker gets a new ROI. */
  function RowsFrom(sorted: seq<ProjectionInfo>, i: nat, accepted: seq<Vec3>,
                    inputs: seq<TrackerInput>, cfg: OpticalConfig, geo: Geometry): (r: RowsResult)
    requires i <= |sorted| && InfosInRange(sorted, |inputs|)
    ensures |r.flags| == |sorted| - i
    decreases |sorted| - i
  {
    if i == |sorted| then RowsResult(accepted, [])
    else
      var row := RowFrom(sorted, i, 0, accepted, 0, inputs, cfg, geo);
      var rest := RowsFrom(sorted, i + 1, row.accepted, inputs, cfg, geo);
      RowsResult(rest.accepted, [row.bad >= |sorted| - 1] + rest.flags)
  }

  /** Whether tracker `t` is the tracker of some flagged row. */
  predicate RowFlagged(t: nat, sorted: seq<ProjectionInfo>, flags: seq<bool>)
  {
    exists m :: 0 <= m < |flags| && m < |sorted| && flags[m] && sorted[m].trackerId == t
  }

  /** The tracker estimates after each flagged row's tracker was told to renew its ROI, row by row. */
  function MarkFlagged(estimates: seq<OpticalEstimate>, sorted: seq<ProjectionInfo>, flags: seq<bool>): (r: seq<OpticalEstimate>)
    requires |flags| <= |sorted| && InfosInRange(sorted, |estimates|)
    ensures |r| == |estimates|
    decreases |flags|
  {
    if flags == [] then estimates
    else
      var m := MarkFlagged(estimates, sorted, flags[..|flags| - 1]);
      var t := sorted[|flags| - 1].trackerId;
      if flags[|flags| - 1] then m[t := m[t].(enforceNewROI := true)] else m
  }

  /** Exactly the trackers of flagged rows get a new ROI; nothing else in their estimates changes. */
  lemma {:induction false} MarkFlaggedMarks(estimates: seq<OpticalEstimate>, sorted: seq<ProjectionInfo>, flags: seq<bool>)
    requires |flags| <= |sorted| && InfosInRange(sorted, |estimates|)
    ensures forall t :: 0 <= t < |estimates| ==>
      MarkFlagged(estimates, sorted, flags)[t]
        == (if RowFlagged(t, sorted, flags) then estimates[t].(enforceNewROI := true) else estimates[t])
    decreases |flags|
  {
    if flags != [] {
      var init := flags[..|flags| - 1];
      MarkFlaggedMarks(estimates, sorted, init);
      var last := |flags| - 1;
      forall u | 0 <= u < |estimates|
        ensures RowFlagged(u, sorted, flags) <==> RowFlagged(u, sorted, init) || (flags[last] && u == sorted[last].trackerId)
      {
        if RowFlagged(u, sorted, flags) {
          var m :| 0 <= m < |flags| && m < |sorted| && flags[m] && sorted[m].trackerId == u;
          if m < last {
            assert init[m];
          }
        }
        if RowFlagged(u, sorted, init) {
          var m :| 0 <= m < |init| && m < |sorted| && init[m] && sorted[m].trackerId == u;
          assert flags[m];
        }
      }
    }
  }

  /** The prediction history length actually used: the configured one clamped to [1, 50]. */
  function HistoryLength(configured: int): (h: int)
    ensures 1 <= h <= HistoryMaxAllowed
    ensures 1 <= configured <= HistoryMaxAllowed ==> h == configured
    ensures configured < 1 ==> h == 1
    ensures configured > HistoryMaxAllowed ==> h == HistoryMaxAllowed
  {
    MaxI(MinI(configured, HistoryMaxAllowed), 1)
  }

  /** The mean of the first `h` history entries. */
  function HistoryMean(history: seq<Vec3>, h: int): Vec3
    requires 1 <= h <= |history|
  {
    Scale3(1.0 / h as real, SumVec(history[..h]))
  }

  /** Extrapolates the new average away from the history mean by the prediction factor. */
  function Predict(avg: Vec3, mean: Vec3, pp: real): Vec3
  {
    Add3(avg, Scale3(pp, Sub3(avg, mean)))
  }

  /** The smoothing factor actually applied: the configured one, at most 0.99. */
  function SmoothingFactor(smoothing: real): (q: real)
    ensures q <= 0.99 && (q == smoothing || q == 0.99)
  {
    MinR(smoothing, 0.99)
  }

  /** Exponential smoothing of the position; switched off for factors up to 0.01. */
  function Smooth(smoothing: real, previous: Vec3, avg: Vec3): (r: Vec3)
    ensures SmoothingFactor(smoothing) <= 0.01 ==> r == avg
  {
    var q := SmoothingFactor(smoothing);
    if q <= 0.01 then avg
    else Vec3(q * previous.x + (1.0 - q) * avg.x,
              q * previous.y + (1.0 - q) * avg.y,
              q * previous.z + (1.0 - q) * avg.z)
  }

  /**
   * The prediction step: the average is written at the ring index, the
   * index advances modulo the history length, and the average is pushed
   * away from the mean of the first `h` entries.
   */
  datatype Prediction = Prediction(position: Vec3, history: seq<Vec3>, historyCount: int)

  function PredictWithHistory(avg: Vec3, history: seq<Vec3>, historyCount: int, cfg: OpticalConfig): (r: Prediction)
    requires |history| == HistoryMaxAllowed && 0 <= historyCount < HistoryMaxAllowed
    ensures |r.history| == HistoryMaxAllowed && 0 <= r.historyCount < HistoryLength(cfg.controllerPositionPredictionHistory)
  {
    var h := HistoryLength(cfg.controllerPositionPredictionHistory);
    var hist := history[historyCount := avg];
    Prediction(Predict(avg, HistoryMean(hist, h), cfg.controllerPositionPrediction), hist, (historyCount + 1) % h)
  }

  /** The multi-camera estimate from several trackers seeing a sphere. */
  function SphereMulti(s: OpticsState, ids: seq<nat>, inputs: seq<TrackerInput>, cfg: OpticalConfig, geo: Geometry): (r: OpticsState)
    requires Shaped(s, |inputs|) && IdsInRange(ids, |inputs|) && |ids| > 0
    ensures Shaped(r, |inputs|)
    ensures r.flags == s.flags && r.centers == s.centers
    ensures !r.multicam.orientationValid && r.multicam.orientation == ClearedQuat
    ensures r.multicam.area == AreaSum(ids, s.estimates, |ids|) / |ids| as real
  {
    var sorted := SphereSorted(ids, s.estimates, geo);
    var rows := RowsFrom(sorted, 0, [], inputs, cfg, geo);
    var ests := MarkFlagged(s.estimates, sorted, rows.flags);
    var count := |rows.accepted|;
    var mc := s.multicam;
    var shaped :=
      if count == 0 && |sorted| > 0 && (CountOpen(inputs, |inputs|) == 1 || !cfg.ignorePoseFromOneTracker) then
        OpticsState(ests, SphereFromTracker(mc, sorted[0].trackerId, ests[sorted[0].trackerId], geo), s.flags, s.centers,
                    s.history, s.historyCount)
      else if count > 0 then
        var avg := Scale3(1.0 / count as real, SumVec(rows.accepted));
        if cfg.controllerPositionPrediction > 0.01 then
          var p := PredictWithHistory(avg, s.history, s.historyCount, cfg);
          OpticsState(ests, mc.(position := Smooth(cfg.controllerPositionSmoothing, mc.position, p.position), tracking := true),
                      s.flags, s.centers, p.history, p.historyCount)
        else
          OpticsState(ests, mc.(position := Smooth(cfg.controllerPositionSmoothing, mc.position, avg), tracking := true),
                      s.flags, s.centers, s.history, s.historyCount)
      else OpticsState(ests, mc, s.flags, s.centers, s.history, s.historyCount);
    shaped.(multicam := shaped.multicam.(orientation := ClearedQuat, orientationValid := false,
                                         area := AreaSum(ids, s.estimates, |ids|) / |ids| as real))
  }

  /** The accepted trackers' projection info, largest screen area first. */
  function SphereSorted(ids: seq<nat>, estimates: seq<OpticalEstimate>, geo: Geometry): (r: seq<ProjectionInfo>)
    requires IdsInRange(ids, |estimates|)
    ensures |r| == |ids| && InfosInRange(r, |estimates|) && SortedBy(r, InfoKey)
  {
    SphereSortedInRange(ids, estimates, geo);
    SortByCorrect(SphereInfos(ids, estimates, geo, |ids|), InfoKey);
    SortBy(SphereInfos(ids, estimates, geo, |ids|), InfoKey)
  }

  /** The outcome of the sphere pair loop. */
  function SphereRows(s: OpticsState, ids: seq<nat>, inputs: seq<TrackerInput>, cfg: OpticalConfig, geo: Geometry): RowsResult
    requires |s.estimates| == |inputs| && IdsInRange(ids, |inputs|)
  {
    RowsFrom(SphereSorted(ids, s.estimates, geo), 0, [], inputs, cfg, geo)
  }

  lemma SphereSortedInRange(ids: seq<nat>, estimates: seq<OpticalEstimate>, geo: Geometry)
    requires IdsInRange(ids, |estimates|)
    ensures var sorted := SortBy(SphereInfos(ids, estimates, geo, |ids|), InfoKey);
      |sorted| == |ids| && InfosInRange(sorted, |estimates|)
  {
    var infos := SphereInfos(ids, estimates, geo, |ids|);
    SortByCorrect(infos, InfoKey);
    var sorted := SortBy(infos, InfoKey);
    forall m | 0 <= m < |sorted| ensures sorted[m].trackerId < |estimates| {
      assert sorted[m] in multiset(infos);
      var k :| 0 <= k < |infos| && infos[k] == sorted[m];
    }
  }

  // ---------------------------------------------------------------------
  // Several trackers, light bar: unordered pairs

  datatype LightBarPair = LightBarPair(i: nat, j: nat, pose: PoseSample, weight: real)

  /**
   * Pair (i, j) of the light-bar loop. As the code is written, the
   * projections and areas are read from the estimate at the LIST index,
   * not at the tracker id the list holds.
   */
  function LightBarPairAt(ids: seq<nat>, estimates: seq<OpticalEstimate>, i: nat, j: nat, geo: Geometry): LightBarPair
    requires i < |ids| && j < |ids| && |ids| <= |estimates|
  {
    LightBarPair(i, j, geo.triangulatePose(ids[i], estimates[i], ids[j], estimates[j]),
                 estimates[i].area + estimates[j].area)
  }

  function LightBarRow(ids: seq<nat>, estimates: seq<OpticalEstimate>, i: nat, j: nat, geo: Geometry): (r: seq<LightBarPair>)
    requires i < |ids| && i < j <= |ids| && |ids| <= |estimates|
    decreases |ids| - j
  {
    if j == |ids| then [] else [LightBarPairAt(ids, estimates, i, j, geo)] + LightBarRow(ids, estimates, i, j + 1, geo)
  }

  function LightBarPairs(ids: seq<nat>, estimates: seq<OpticalEstimate>, i: nat, geo: Geometry): (r: seq<LightBarPair>)
    requires i <= |ids| && |ids| <= |estimates|
    decreases |ids| - i
  {
    if i == |ids| then [] else LightBarRow(ids, estimates, i, i + 1, geo) + LightBarPairs(ids, estimates, i + 1, geo)
  }

  function PairPositions(pairs: seq<LightBarPair>): seq<Vec3>
  {
    seq(|pairs|, k requires 0 <= k < |pairs| => pairs[k].pose.position)
  }

  function PairOrientations(pairs: seq<LightBarPair>): seq<Quat>
  {
    seq(|pairs|, k requires 0 <= k < |pairs| => pairs[k].pose.orientation)
  }

  function PairWeights(pairs: seq<LightBarPair>): seq<real>
  {
    seq(|pairs|, k requires 0 <= k < |pairs| => pairs[k].weight)
  }

  /** The sum of the first `n` list-indexed estimate areas (the light-bar path's area sum). */
  function ListAreaSum(estimates: seq<OpticalEstimate>, n: nat): real
    requires n <= |estimates|
  {
    if n == 0 then 0.0 else ListAreaSum(estimates, n - 1) + estimates[n - 1].area
  }

  /** The multi-camera estimate from several trackers seeing a light bar. */
  function LightBarMulti(s: OpticsState, ids: seq<nat>, geo: Geometry): (r: OpticsState)
    requires 2 <= |ids| <= |s.estimates|
    ensures r.estimates == s.estimates && r.flags == s.flags && r.centers == s.centers
    ensures r.history == s.history && r.historyCount == s.historyCount
    ensures r.multicam.tracking
    ensures r.multicam.area == ListAreaSum(s.estimates, |ids|) / |ids| as real
    ensures var pairs := LightBarPairs(ids, s.estimates, 0, geo);
      2 * |pairs| == |ids| * (|ids| - 1)
      && r.multicam.position == Scale3(1.0 / |pairs| as real, SumVec(PairPositions(pairs)))
    ensures var pairs := LightBarPairs(ids, s.estimates, 0, geo);
      var avg := geo.weightedAverage(PairOrientations(pairs), PairWeights(pairs));
      && (avg.Some? ==> r.multicam.orientationValid && r.multicam.orientation == avg.value)
      && (avg.None? ==> !r.multicam.orientationValid && r.multicam.orientation == s.multicam.orientation)
    ensures r.multicam.occluded == s.multicam.occluded && r.multicam.lastUpdate == s.multicam.lastUpdate
      && r.multicam.lastVisible == s.multicam.lastVisible
  {
    var pairs := LightBarPairs(ids, s.estimates, 0, geo);
    LightBarPairCount(ids, s.estimates, 0, geo);
    assert |pairs| >= 1 by {
      assert |ids| * (|ids| - 1) >= 2;
    }
    var mc := s.multicam.(position := Scale3(1.0 / |pairs| as real, SumVec(PairPositions(pairs))), tracking := true);
    var mc2 :=
      match geo.weightedAverage(PairOrientations(pairs), PairWeights(pairs))
      case Some(q) => mc.(orientation := q, orientationValid := true)
      case None => mc.(orientationValid := false);
    s.(multicam := mc2.(area := ListAreaSum(s.estimates, |ids|) / |ids| as real))
  }

  /** The light-bar loop visits each unordered pair once: n(n-1)/2 pairs in all. */
  lemma {:induction false} LightBarPairCount(ids: seq<nat>, estimates: seq<OpticalEstimate>, i: nat, geo: Geometry)
    requires i <= |ids| <= |estimates|
    ensures 2 * |LightBarPairs(ids, estimates, i, geo)| == (|ids| - i) * (|ids| - i - 1)
    decreases |ids| - i
  {
    if i < |ids| {
      LightBarRowCount(ids, estimates, i, i + 1, geo);
      LightBarPairCount(ids, estimates, i + 1, geo);
    }
  }

  lemma {:induction false} LightBarRowCount(ids: seq<nat>, estimates: seq<OpticalEstimate>, i: nat, j: nat, geo: Geometry)
    requires i < |ids| && i < j <= |ids| && |ids| <= |estimates|
    ensures |LightBarRow(ids, estimates, i, j, geo)| == |ids| - j
    decreases |ids| - j
  {
    if j < |ids| {
      LightBarRowCount(ids, estimates, i, j + 1, geo);
    }
  }

  // ---------------------------------------------------------------------
  // The whole update

  /** The timestamps stamped on the multi-camera estimate at the end of the update. */
  function Stamp(mc: OpticalEstimate, now: int): (r: OpticalEstimate)
    ensures r.lastUpdate == now && r.validTimestamps
    ensures r.lastVisible == (if mc.tracking then now else mc.lastVisible)
    ensures r.tracking == mc.tracking && r.position == mc.position
  {
    mc.(lastVisible := if mc.tracking then now else mc.lastVisible, lastUpdate := now, validTimestamps := true)
  }

  function InitialScan(s: OpticsState): ScanState
  {
    ScanState(s.estimates, s.flags, s.centers, [], 0)
  }

  /** The state after the tracker scan, before the multi-camera estimate is formed. */
  function Scanned(s: OpticsState, inputs: seq<TrackerInput>, cfg: OpticalConfig, now: int): (sc: ScanState)
    requires Shaped(s, |inputs|)
    ensures ScanShaped(sc, |inputs|) && IdsInRange(sc.validIds, |inputs|)
    ensures |sc.validIds| <= |inputs|
  {
    var order := TrackerOrder(s.estimates, inputs);
    ScanFrom(order, 0, InitialScan(s), inputs, cfg, now)
  }

  /** The multi-camera estimate formed along the dispatched path. */
  function Formed(s: OpticsState, sc: ScanState, shape: ShapeType, inputs: seq<TrackerInput>,
                  cfg: OpticalConfig, geo: Geometry): (r: OpticsState)
    requires Shaped(s, |inputs|) && ScanShaped(sc, |inputs|) && IdsInRange(sc.validIds, |inputs|)
    requires |sc.validIds| <= |inputs|
    ensures Shaped(r, |inputs|)
  {
    var s1 := s.(estimates := sc.estimates, flags := sc.flags, centers := sc.centers);
    match Dispatch(|sc.validIds|, sc.available, cfg.ignorePoseFromOneTracker)
    case MultiTracker =>
      if shape == Sphere then SphereMulti(s1, sc.validIds, inputs, cfg, geo) else LightBarMulti(s1, sc.validIds, geo)
    case SingleTracker =>
      if shape == Sphere then SphereSingle(s1, sc.validIds[0], geo) else LightBarSingle(s1, sc.validIds[0], geo)
    case NotTracking => s1.(multicam := s1.multicam.(tracking := false))
  }

  /** `updateOpticalPoseEstimation`, as far as the controller view's state goes. */
  function OpticalUpdate(s: OpticsState, enabled: bool, shape: ShapeType, inputs: seq<TrackerInput>,
                         cfg: OpticalConfig, geo: Geometry, now: int): (r: OpticsState)
    requires Shaped(s, |inputs|)
    ensures Shaped(r, |inputs|)
    ensures !enabled ==> r == s
    ensures enabled ==> r.multicam.lastUpdate == now && r.multicam.validTimestamps
  {
    if !enabled then s
    else
      var formed := Formed(s, Scanned(s, inputs, cfg, now), shape, inputs, cfg, geo);
      formed.(multicam := Stamp(formed.multicam, now))
  }

  // ---------------------------------------------------------------------
  // Properties of the sphere pair loop

  /** Each summed triangulation after the first was within the deviation of the running mean on every axis. */
  predicate Gated(accepted: seq<Vec3>, cfg: OpticalConfig)
  {
    forall k :: 0 < k < |accepted| && cfg.maxTrackerPositionDeviation > 0.01 ==>
      WithinDeviation(SumVec(accepted[..k]), k, accepted[k], cfg.maxTrackerPositionDeviation)
  }

  lemma GatedAppend(accepted: seq<Vec3>, w: Vec3, cfg: OpticalConfig)
    requires Gated(accepted, cfg) && Admits(accepted, w, cfg)
    ensures Gated(accepted + [w], cfg)
  {
    var a := accepted + [w];
    forall k | 0 < k < |a| && cfg.maxTrackerPositionDeviation > 0.01
      ensures WithinDeviation(SumVec(a[..k]), k, a[k], cfg.maxTrackerPositionDeviation)
    {
      if k < |accepted| {
        assert a[..k] == accepted[..k] && a[k] == accepted[k];
      } else {
        assert a[..k] == accepted && a[k] == w;
      }
    }
  }

  lemma {:induction false} RowFromGated(sorted: seq<ProjectionInfo>, i: nat, j: nat, accepted: seq<Vec3>, bad: nat,
                                        inputs: seq<TrackerInput>, cfg: OpticalConfig, geo: Geometry)
    requires i < |sorted| && j <= |sorted| && InfosInRange(sorted, |inputs|)
    requires Gated(accepted, cfg)
    ensures Gated(RowFrom(sorted, i, j, accepted, bad, inputs, cfg, geo).accepted, cfg)
    decreases |sorted| - j
  {
    if j < |sorted| {
      if !PairConsidered(sorted, i, j, inputs, cfg) {
        RowFromGated(sorted, i, j + 1, accepted, bad, inputs, cfg, geo);
      } else {
        var w := PairPosition(sorted, i, j, geo);
        if Admits(accepted, w, cfg) {
          GatedAppend(accepted, w, cfg);
          RowFromGated(sorted, i, j + 1, accepted + [w], bad, inputs, cfg, geo);
        } else {
          RowFromGated(sorted, i, j + 1, accepted, bad + 1, inputs, cfg, geo);
        }
      }
    }
  }

  lemma {:induction false} RowsFromGated(sorted: seq<ProjectionInfo>, i: nat, accepted: seq<Vec3>,
                                         inputs: seq<TrackerInput>, cfg: OpticalConfig, geo: Geometry)
    requires i <= |sorted| && InfosInRange(sorted, |inputs|)
    requires Gated(accepted, cfg)
    ensures Gated(RowsFrom(sorted, i, accepted, inputs, cfg, geo).accepted, cfg)
    decreases |sorted| - i
  {
    if i < |sorted| {
      var row := RowFrom(sorted, i, 0, accepted, 0, inputs, cfg, geo);
      RowFromGated(sorted, i, 0, accepted, 0, inputs, cfg, geo);
      RowsFromGated(sorted, i + 1, row.accepted, inputs, cfg, geo);
    }
  }

  /**
   * A triangulated pair is summed only if every axis lies within
   * `max_tracker_position_deviation` of the running mean of the pairs
   * summed before it (the first pair, and every pair when the threshold is
   * at most 0.01, is summed unconditionally).
   */
  lemma SpherePairsGated(sorted: seq<ProjectionInfo>, inputs: seq<TrackerInput>, cfg: OpticalConfig, geo: Geometry)
    requires InfosInRange(sorted, |inputs|)
    ensures Gated(RowsFrom(sorted, 0, [], inputs, cfg, geo).accepted, cfg)
  {
    RowsFromGated(sorted, 0, [], inputs, cfg, geo);
  }

  predicate NoPairFiltering(cfg: OpticalConfig)
  {
    !cfg.excludeOpposedCameras && cfg.maxTrackerPositionDeviation <= 0.01
  }

  lemma {:induction false} RowFromCountsAll(sorted: seq<ProjectionInfo>, i: nat, j: nat, accepted: seq<Vec3>, bad: nat,
                                            inputs: seq<TrackerInput>, cfg: OpticalConfig, geo: Geometry)
    requires i < |sorted| && j <= |sorted| && InfosInRange(sorted, |inputs|) && NoPairFiltering(cfg)
    ensures var r := RowFrom(sorted, i, j, accepted, bad, inputs, cfg, geo);
      |r.accepted| == |accepted| + (|sorted| - j) - (if j <= i then 1 else 0) && r.bad == bad
    decreases |sorted| - j
  {
    if j < |sorted| {
      if j == i {
        RowFromCountsAll(sorted, i, j + 1, accepted, bad, inputs, cfg, geo);
      } else {
        var w := PairPosition(sorted, i, j, geo);
        assert Admits(accepted, w, cfg);
        RowFromCountsAll(sorted, i, j + 1, accepted + [w], bad, inputs, cfg, geo);
      }
    }
  }

  lemma {:induction false} RowsFromCountsAll(sorted: seq<ProjectionInfo>, i: nat, accepted: seq<Vec3>,
                                             inputs: seq<TrackerInput>, cfg: OpticalConfig, geo: Geometry)
    requires i <= |sorted| && InfosInRange(sorted, |inputs|) && NoPairFiltering(cfg)
    ensures var r := RowsFrom(sorted, i, accepted, inputs, cfg, geo);
      |r.accepted| == |accepted| + (|sorted| - i) * (|sorted| - 1)
      && forall k :: 0 <= k < |r.flags| ==> (r.flags[k] <==> |sorted| <= 1)
    decreases |sorted| - i
  {
    if i < |sorted| {
      var row := RowFrom(sorted, i, 0, accepted, 0, inputs, cfg, geo);
      RowFromCountsAll(sorted, i, 0, accepted, 0, inputs, cfg, geo);
      RowsFromCountsAll(sorted, i + 1, row.accepted, inputs, cfg, geo);
      var rest := RowsFrom(sorted, i + 1, row.accepted, inputs, cfg, geo);
      var r := RowsFrom(sorted, i, accepted, inputs, cfg, geo);
      assert r.flags == [row.bad >= |sorted| - 1] + rest.flags;
      assert r.accepted == rest.accepted;
      var n := |sorted|;
      assert (n - i) * (n - 1) == (n - (i + 1)) * (n - 1) + (n - 1);
      forall k | 0 <= k < |r.flags| ensures r.flags[k] <==> |sorted| <= 1 {
        if k > 0 { assert r.flags[k] == rest.flags[k - 1]; }
      }
    }
  }

  /**
   * Without opposed-camera exclusion and without deviation gating, the
   * sphere loop sums every ORDERED pair: n(n-1) triangulations for n
   * trackers, so each unordered pair is counted twice, and no tracker is
   * told to renew its ROI.
   */
  lemma SpherePairsCountedTwice(sorted: seq<ProjectionInfo>, inputs: seq<TrackerInput>, cfg: OpticalConfig, geo: Geometry)
    requires InfosInRange(sorted, |inputs|) && NoPairFiltering(cfg) && |sorted| >= 2
    ensures var r := RowsFrom(sorted, 0, [], inputs, cfg, geo);
      |r.accepted| == |sorted| * (|sorted| - 1) && forall k :: 0 <= k < |r.flags| ==> !r.flags[k]
  {
    RowsFromCountsAll(sorted, 0, [], inputs, cfg, geo);
  }

  /** The single-tracker fallback of the sphere path uses the tracker with the largest screen area. */
  lemma SphereFallbackIsLargest(ids: seq<nat>, estimates: seq<OpticalEstimate>, geo: Geometry)
    requires IdsInRange(ids, |estimates|) && |ids| > 0
    ensures var sorted := SphereSorted(ids, estimates, geo);
      |sorted| == |ids| && sorted[0].trackerId in ids
      && forall m :: 0 <= m < |ids| ==> estimates[ids[m]].area <= estimates[sorted[0].trackerId].area
  {
    var infos := SphereInfos(ids, estimates, geo, |ids|);
    SortByCorrect(infos, InfoKey);
    var sorted := SortBy(infos, InfoKey);
    assert sorted[0] in multiset(infos);
    var k0 :| 0 <= k0 < |infos| && infos[k0] == sorted[0];
    assert sorted[0].area == estimates[sorted[0].trackerId].area;
    forall m | 0 <= m < |ids| ensures estimates[ids[m]].area <= estimates[sorted[0].trackerId].area {
      assert infos[m] in multiset(sorted);
      var k :| 0 <= k < |sorted| && sorted[k] == infos[m];
      if k > 0 {
        assert InfoKey(sorted[0]) <= InfoKey(sorted[k]);
      }
    }
  }

  /**
   * When no sphere pair is summed and the single-tracker fallback is not
   * allowed, the multi-camera position and tracking flag are left exactly
   * as they were; only the orientation is cleared and the area refreshed.
   */
  lemma SphereNoPairsUntouched(s: OpticsState, ids: seq<nat>, inputs: seq<TrackerInput>, cfg: OpticalConfig, geo: Geometry)
    requires Shaped(s, |inputs|) && IdsInRange(ids, |inputs|) && |ids| > 0
    requires |SphereRows(s, ids, inputs, cfg, geo).accepted| == 0
    requires CountOpen(inputs, |inputs|) != 1 && cfg.ignorePoseFromOneTracker
    ensures var r := SphereMulti(s, ids, inputs, cfg, geo);
      r.multicam == s.multicam.(orientation := ClearedQuat, orientationValid := false,
                                area := AreaSum(ids, s.estimates, |ids|) / |ids| as real)
      && r.history == s.history && r.historyCount == s.historyCount
  {
  }

  /**
   * When no sphere pair is summed and the one-tracker pose is allowed, the
   * multi-camera estimate is the world position of the largest projection,
   * tracking, with no orientation and the mean area of the accepted trackers.
   */
  lemma SphereFallbackUsed(s: OpticsState, ids: seq<nat>, inputs: seq<TrackerInput>, cfg: OpticalConfig, geo: Geometry)
    requires Shaped(s, |inputs|) && IdsInRange(ids, |inputs|) && |ids| > 0
    requires |SphereRows(s, ids, inputs, cfg, geo).accepted| == 0
    requires CountOpen(inputs, |inputs|) == 1 || !cfg.ignorePoseFromOneTracker
    ensures var t := SphereSorted(ids, s.estimates, geo)[0].trackerId;
      var r := SphereMulti(s, ids, inputs, cfg, geo);
      t in ids && t < |r.estimates|
      && (forall m :: 0 <= m < |ids| ==> s.estimates[ids[m]].area <= s.estimates[t].area)
      && r.multicam == s.multicam.(position := geo.toWorldPosition(t, r.estimates[t].position), tracking := true,
                                   orientation := ClearedQuat, orientationValid := false,
                                   area := AreaSum(ids, s.estimates, |ids|) / |ids| as real)
      && r.history == s.history && r.historyCount == s.historyCount
  {
    SphereFallbackIsLargest(ids, s.estimates, geo);
  }

  /** With several pairs summed, the multi-camera estimate is tracking at the smoothed (and predicted) mean. */
  lemma SpherePairsAveraged(s: OpticsState, ids: seq<nat>, inputs: seq<TrackerInput>, cfg: OpticalConfig, geo: Geometry)
    requires Shaped(s, |inputs|) && IdsInRange(ids, |inputs|) && |ids| > 0
    ensures var acc := SphereRows(s, ids, inputs, cfg, geo).accepted;
      var r := SphereMulti(s, ids, inputs, cfg, geo);
      |acc| > 0 ==>
        var avg := Scale3(1.0 / |acc| as real, SumVec(acc));
        r.multicam.tracking
        && (cfg.controllerPositionPrediction <= 0.01 ==>
              r.multicam.position == Smooth(cfg.controllerPositionSmoothing, s.multicam.position, avg)
              && r.history == s.history && r.historyCount == s.historyCount)
        && (cfg.controllerPositionPrediction > 0.01 ==>
              var h := HistoryLength(cfg.controllerPositionPredictionHistory);
              r.history == s.history[s.historyCount := avg]
              && r.historyCount == (s.historyCount + 1) % h
              && r.multicam.position == Smooth(cfg.controllerPositionSmoothing, s.multicam.position,
                   Predict(avg, HistoryMean(r.history, h), cfg.controllerPositionPrediction)))
  {
  }

  /** When smoothing is on, each coordinate of the result lies between the previous and the new value. */
  lemma SmoothIsConvex(smoothing: real, previous: Vec3, avg: Vec3)
    ensures var r := Smooth(smoothing, previous, avg);
      MinR(previous.x, avg.x) <= r.x <= MaxR(previous.x, avg.x)
      && MinR(previous.y, avg.y) <= r.y <= MaxR(previous.y, avg.y)
      && MinR(previous.z, avg.z) <= r.z <= MaxR(previous.z, avg.z)
  {
    var q := SmoothingFactor(smoothing);
    if q > 0.01 {
      ConvexCombination(q, previous.x, avg.x);
      ConvexCombination(q, previous.y, avg.y);
      ConvexCombination(q, previous.z, avg.z);
    }
  }

  lemma ConvexCombination(q: real, a: real, b: real)
    requires 0.0 <= q <= 1.0
    ensures MinR(a, b) <= q * a + (1.0 - q) * b <= MaxR(a, b)
  {
    if a <= b {
      var d := b - a;
      var t := MulBounds(q, d);
      assert q * a + (1.0 - q) * b == b - t;
    } else {
      var d := a - b;
      var t := MulBounds(q, d);
      assert q * a + (1.0 - q) * b == b + t;
    }
  }

  lemma MulBounds(q: real, d: real) returns (t: real)
    requires 0.0 <= q <= 1.0 && d >= 0.0
    ensures t == q * d && 0.0 <= t <= d
  {
    t := q * d;
    MulNonNegative(q, d);
    MulNonNegative(1.0 - q, d);
    assert d - t == (1.0 - q) * d;
  }

  lemma MulNonNegative(a: real, b: real)
    requires 0.0 <= a && 0.0 <= b
    ensures 0.0 <= a * b
  {
  }

  // ---------------------------------------------------------------------
  // Properties of the light-bar pair loop

  /** Lexicographic order of pair indices. */
  predicate PairBefore(a: LightBarPair, b: LightBarPair)
  {
    a.i < b.i || (a.i == b.i && a.j < b.j)
  }

  lemma {:induction false} LightBarRowShape(ids: seq<nat>, estimates: seq<OpticalEstimate>, i: nat, j: nat, geo: Geometry)
    requires i < |ids| && i < j <= |ids| && |ids| <= |estimates|
    ensures var r := LightBarRow(ids, estimates, i, j, geo);
      |r| == |ids| - j
      && (forall k :: 0 <= k < |r| ==> r[k] == LightBarPairAt(ids, estimates, i, j + k, geo))
    decreases |ids| - j
  {
    if j < |ids| {
      LightBarRowShape(ids, estimates, i, j + 1, geo);
      LightBarRowCount(ids, estimates, i, j + 1, geo);
    }
  }

  lemma {:induction false} LightBarPairAtIndex(ids: seq<nat>, estimates: seq<OpticalEstimate>, i: nat, geo: Geometry, k: nat)
    requires i <= |ids| <= |estimates| && k < |LightBarPairs(ids, estimates, i, geo)|
    ensures var p := LightBarPairs(ids, estimates, i, geo)[k];
      i <= p.i < p.j < |ids| && p == LightBarPairAt(ids, estimates, p.i, p.j, geo)
    decreases |ids| - i
  {
    var row := LightBarRow(ids, estimates, i, i + 1, geo);
    var rest := LightBarPairs(ids, estimates, i + 1, geo);
    LightBarRowShape(ids, estimates, i, i + 1, geo);
    var r := row + rest;
    assert LightBarPairs(ids, estimates, i, geo) == r;
    if k < |row| {
      assert r[k] == row[k] == LightBarPairAt(ids, estimates, i, i + 1 + k, geo);
    } else {
      LightBarPairAtIndex(ids, estimates, i + 1, geo, k - |row|);
      assert r[k] == rest[k - |row|];
    }
  }

  lemma {:induction false} LightBarPairsOrdered(ids: seq<nat>, estimates: seq<OpticalEstimate>, i: nat, geo: Geometry, k: nat, l: nat)
    requires i <= |ids| <= |estimates| && k < l < |LightBarPairs(ids, estimates, i, geo)|
    ensures PairBefore(LightBarPairs(ids, estimates, i, geo)[k], LightBarPairs(ids, estimates, i, geo)[l])
    decreases |ids| - i
  {
    var row := LightBarRow(ids, estimates, i, i + 1, geo);
    var rest := LightBarPairs(ids, estimates, i + 1, geo);
    LightBarRowShape(ids, estimates, i, i + 1, geo);
    var r := row + rest;
    assert LightBarPairs(ids, estimates, i, geo) == r;
    if l < |row| {
      assert r[k] == row[k] == LightBarPairAt(ids, estimates, i, i + 1 + k, geo);
      assert r[l] == row[l] == LightBarPairAt(ids, estimates, i, i + 1 + l, geo);
    } else if k < |row| {
      assert r[k] == row[k] == LightBarPairAt(ids, estimates, i, i + 1 + k, geo);
      LightBarPairAtIndex(ids, estimates, i + 1, geo, l - |row|);
      assert r[l] == rest[l - |row|];
    } else {
      LightBarPairsOrdered(ids, estimates, i + 1, geo, k - |row|, l - |row|);
      assert r[k] == rest[k - |row|] && r[l] == rest[l - |row|];
    }
  }

  /**
   * The light-bar loop takes the pairs i < j of the accepted list in
   * row-major order, n(n-1)/2 of them, and weights each by the two screen
   * areas read at the list indices i and j.
   */
  lemma LightBarPairsShape(ids: seq<nat>, estimates: seq<OpticalEstimate>, geo: Geometry)
    requires |ids| <= |estimates|
    ensures var r := LightBarPairs(ids, estimates, 0, geo);
      2 * |r| == |ids| * (|ids| - 1)
      && (forall k :: 0 <= k < |r| ==>
            (r[k].i < r[k].j < |ids| && r[k] == LightBarPairAt(ids, estimates, r[k].i, r[k].j, geo)
             && r[k].weight == estimates[r[k].i].area + estimates[r[k].j].area))
      && (forall k, l :: 0 <= k < l < |r| ==> PairBefore(r[k], r[l]))
  {
    var r := LightBarPairs(ids, estimates, 0, geo);
    LightBarPairCount(ids, estimates, 0, geo);
    forall k | 0 <= k < |r|
      ensures r[k].i < r[k].j < |ids| && r[k] == LightBarPairAt(ids, estimates, r[k].i, r[k].j, geo)
      ensures r[k].weight == estimates[r[k].i].area + estimates[r[k].j].area
    {
      LightBarPairAtIndex(ids, estimates, 0, geo, k);
    }
    forall k, l | 0 <= k < l < |r| ensures PairBefore(r[k], r[l]) {
      LightBarPairsOrdered(ids, estimates, 0, geo, k, l);
    }
  }
}
