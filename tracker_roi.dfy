/**
 * The tracker view's region-of-interest planning and controller projection
 * gate: the nine-tile round robin with its per-(tracker, controller)
 * counters and last ROI centres, the conditions under which a projection is
 * accepted, the shared-memory video stream counter, and the corner
 * labelling of the best-fit triangle.
 */
module TrackerRoi {
  import opened Common
  import opened TrackerView
  import Optical

  /** The ROI edge offset of the tracker manager configuration, clamped to [0, 64]. */
  function RoiEdgeOffset(configured: int): (off: int)
    ensures 0 <= off <= 64
    ensures 0 <= configured <= 64 ==> off == configured
  {
    ClampI(configured, 0, 64)
  }

  /** The screen inset by the edge offset on every side: the ROI when no tile or refinement applies. */
  function DefaultRoi(off: int, screenWidth: nat, screenHeight: nat): (r: Rect)
    ensures r.x == off && r.y == off
    ensures r.x + r.width == screenWidth - off && r.y + r.height == screenHeight - off
  {
    Rect(off, off, screenWidth - off * 2, screenHeight - off * 2)
  }

  /** The nine third-of-screen tiles of the round robin, as the switch lists them. */
  function Tile(k: int, off: int, screenWidth: nat, screenHeight: nat): Rect
    requires 0 <= k < 9
  {
    var w := screenWidth / 3;
    var h := screenHeight / 3;
    match k
    case 0 => Rect(off, off, w - off, h - off)
    case 1 => Rect(w, off, w, h - off)
    case 2 => Rect(w * 2, off, w - off, h - off)
    case 3 => Rect(off, h, w - off, h)
    case 4 => Rect(w, h, w, h)
    case 5 => Rect(w * 2, h, w - off, h)
    case 6 => Rect(off, h * 2, w - off, h - off)
    case 7 => Rect(w, h * 2, w, h - off)
    case _ => Rect(w * 2, h * 2, w - off, h - off)
  }

  /** One axis of the grid: cell c of three, the outer ones shortened by the edge offset. */
  function GridSpan(c: int, off: int, third: int): (int, int)
  {
    (if c == 0 then off else c * third, if c == 1 then third else third - off)
  }

  /** The tiles as a 3 x 3 grid: tile k is in column k % 3 and row k / 3. */
  lemma TileIsGridCell(k: int, off: int, screenWidth: nat, screenHeight: nat)
    requires 0 <= k < 9
    ensures var t := Tile(k, off, screenWidth, screenHeight);
      (t.x, t.width) == GridSpan(k % 3, off, screenWidth / 3)
      && (t.y, t.height) == GridSpan(k / 3, off, screenHeight / 3)
  {
  }

  /**
   * The tiles leave no gap: each tile ends where its right and lower
   * neighbours begin, and together they span the screen inset by the offset
   * (up to the remainder of the division by three).
   */
  lemma TilesAdjacent(off: int, screenWidth: nat, screenHeight: nat)
    ensures forall k :: 0 <= k < 9 && k % 3 < 2 ==>
      Tile(k, off, screenWidth, screenHeight).x + Tile(k, off, screenWidth, screenHeight).width == Tile(k + 1, off, screenWidth, screenHeight).x
    ensures forall k :: 0 <= k < 6 ==>
      Tile(k, off, screenWidth, screenHeight).y + Tile(k, off, screenWidth, screenHeight).height == Tile(k + 3, off, screenWidth, screenHeight).y
    ensures Tile(0, off, screenWidth, screenHeight).x == off && Tile(0, off, screenWidth, screenHeight).y == off
    ensures Tile(8, off, screenWidth, screenHeight).x + Tile(8, off, screenWidth, screenHeight).width == 3 * (screenWidth / 3) - off
    ensures Tile(8, off, screenWidth, screenHeight).y + Tile(8, off, screenWidth, screenHeight).height == 3 * (screenHeight / 3) - off
  {
    forall k | 0 <= k < 9 && k % 3 < 2
      ensures Tile(k, off, screenWidth, screenHeight).x + Tile(k, off, screenWidth, screenHeight).width == Tile(k + 1, off, screenWidth, screenHeight).x
    {
      TileIsGridCell(k, off, screenWidth, screenHeight);
      TileIsGridCell(k + 1, off, screenWidth, screenHeight);
    }
    forall k | 0 <= k < 6
      ensures Tile(k, off, screenWidth, screenHeight).y + Tile(k, off, screenWidth, screenHeight).height == Tile(k + 3, off, screenWidth, screenHeight).y
    {
      TileIsGridCell(k, off, screenWidth, screenHeight);
      TileIsGridCell(k + 3, off, screenWidth, screenHeight);
    }
  }

  /** The centre kept in `last_roi_center` (C++ integer halves). */
  function RoiCenter(r: Rect): IntPoint
  {
    IntPoint(r.x + TruncDiv(r.width, 2), r.y + TruncDiv(r.height, 2))
  }

  /**
   * The projected ROI refinement from the pose filter's predicted position:
   * geometry outside this model. It is given the last ROI centre when the
   * ROI has an index.
   */
  type Refinement = Option<IntPoint> -> Rect

  /** The ROI a call settles on, given the counter and last centre it reads. */
  function PlannedRoi(counter: int, lastCenter: Option<IntPoint>, roiIndex: int, roiDisabled: bool, off: int,
                      screenWidth: nat, screenHeight: nat, refine: Option<Refinement>): Rect
  {
    if !roiDisabled && refine.Some? then refine.value(lastCenter)
    else if !roiDisabled && roiIndex > -1 then Tile(counter % 9, off, screenWidth, screenHeight)
    else DefaultRoi(off, screenWidth, screenHeight)
  }

  /** Without refinement, tiling or an index, the ROI is the inset screen. */
  lemma PlannedRoiDefault(counter: int, lastCenter: Option<IntPoint>, roiIndex: int, roiDisabled: bool, off: int,
                          screenWidth: nat, screenHeight: nat, refine: Option<Refinement>)
    requires roiDisabled || (refine.None? && roiIndex <= -1)
    ensures PlannedRoi(counter, lastCenter, roiIndex, roiDisabled, off, screenWidth, screenHeight, refine)
            == Rect(off, off, screenWidth - 2 * off, screenHeight - 2 * off)
  {
  }

  /** Nine successive tiled calls visit the nine tiles once each, in order. */
  lemma TilesCycle(counter: nat, k: nat, off: int, screenWidth: nat, screenHeight: nat)
    ensures PlannedRoi(counter + k, None, 0, false, off, screenWidth, screenHeight, None)
            == Tile((counter + k) % 9, off, screenWidth, screenHeight)
    ensures PlannedRoi(counter + 9, None, 0, false, off, screenWidth, screenHeight, None)
            == PlannedRoi(counter, None, 0, false, off, screenWidth, screenHeight, None)
  {
  }

  /** The static `roi_counter` and `last_roi_center` tables, indexed by tracker and controller. */
  class RoiTables {
    const roiCounter: array2<int>
    const lastRoiCenter: array2<IntPoint>

    ghost predicate Valid()
      reads this, roiCounter
    {
      roiCounter.Length0 == lastRoiCenter.Length0 && roiCounter.Length1 == lastRoiCenter.Length1
      && forall i, j :: 0 <= i < roiCounter.Length0 && 0 <= j < roiCounter.Length1 ==> roiCounter[i, j] >= 0
    }

    /** Static storage starts zeroed. */
    constructor (maxTrackers: nat, maxControllers: nat)
      ensures Valid() && fresh(roiCounter) && fresh(lastRoiCenter)
      ensures roiCounter.Length0 == maxTrackers && roiCounter.Length1 == maxControllers
      ensures forall i, j :: 0 <= i < maxTrackers && 0 <= j < maxControllers ==>
        roiCounter[i, j] == 0 && lastRoiCenter[i, j] == IntPoint(0, 0)
    {
      roiCounter := new int[maxTrackers, maxControllers]((i, j) => 0);
      lastRoiCenter := new IntPoint[maxTrackers, maxControllers]((i, j) => IntPoint(0, 0));
    }

    /**
     * `computeTrackerROIForPoseProjection`: with the ROI enabled and an index,
     * the counter of (tracker, controller) picks tile `counter % 9` and
     * advances by one; a refinement, when given, replaces the ROI; with an
     * index, the final ROI's centre is recorded.
     */
    method ComputeTrackerRoi(trackerId: nat, roiIndex: int, roiDisabled: bool, off: int,
                             screenWidth: nat, screenHeight: nat, refine: Option<Refinement>) returns (roi: Rect)
      requires Valid() && trackerId < roiCounter.Length0 && roiIndex < roiCounter.Length1
      modifies roiCounter, lastRoiCenter
      ensures Valid()
      ensures roi == PlannedRoi(if roiIndex > -1 then old(roiCounter[trackerId, roiIndex]) else 0,
                                if roiIndex > -1 then Some(old(lastRoiCenter[trackerId, roiIndex])) else None,
                                roiIndex, roiDisabled, off, screenWidth, screenHeight, refine)
      ensures forall i, j :: 0 <= i < roiCounter.Length0 && 0 <= j < roiCounter.Length1 ==>
        roiCounter[i, j] == (if i == trackerId && j == roiIndex && !roiDisabled then old(roiCounter[i, j]) + 1 else old(roiCounter[i, j]))
      ensures forall i, j :: 0 <= i < roiCounter.Length0 && 0 <= j < roiCounter.Length1 ==>
        lastRoiCenter[i, j] == (if i == trackerId && j == roiIndex then RoiCenter(roi) else old(lastRoiCenter[i, j]))
    {
      roi := Rect(off, off, screenWidth - off * 2, screenHeight - off * 2);
      if !roiDisabled && roiIndex > -1 {
        var k := roiCounter[trackerId, roiIndex] % 9;
        roiCounter[trackerId, roiIndex] := roiCounter[trackerId, roiIndex] + 1;
        roi := Tile(k, off, screenWidth, screenHeight);
      }
      if !roiDisabled && refine.Some? {
        roi := refine.value(if roiIndex > -1 then Some(lastRoiCenter[trackerId, roiIndex]) else None);
      }
      if roiIndex > -1 {
        lastRoiCenter[trackerId, roiIndex] := RoiCenter(roi);
      }
    }
  }

  // ---------------------------------------------------------------------
  // computeProjectionForController

  /** The prior per-tracker estimate flags the projection reads. */
  datatype PriorEstimate = PriorEstimate(tracking: bool, occluded: bool, enforceNewRoi: bool, screenArea: real)

  /** The prior pose and projection seed the ROI only for a tracked or occluded controller not asked for a new ROI. */
  predicate UsesPrior(p: PriorEstimate) { (p.tracking || p.occluded) && !p.enforceNewRoi }

  datatype ProjectionConfig = ProjectionConfig(disableRoi: bool, optimizedRoi: bool, roiEdgeOffset: int,
                                               minValidProjectionArea: real, minPointsInContour: int)

  /** The outcome of the shape fit on the contour found (the OpenCV and Eigen part). */
  datatype ShapeFit = ShapeFit(ok: bool, screenArea: real)

  /** Whether the first contour search finds a contour (at most one, the largest). */
  function ContourFound(contours: seq<Contour>, areas: seq<real>, minPointsInContour: int, frameWidth: int, frameHeight: int): bool
    requires |areas| == |contours|
  {
    var sel := SelectFrom(AreaOrder(areas), contours, areas, 1, MinPointsInContour(-1, minPointsInContour),
                          frameWidth, frameHeight, [], []);
    sel.Selected? && |sel.contours| > 0
  }

  /** The screen area the estimate holds after the fit: a failed sphere fit leaves the prior one. */
  function FittedArea(shape: Optical.ShapeType, fit: ShapeFit, prior: PriorEstimate): real
  {
    if shape == Optical.Sphere && !fit.ok then prior.screenArea else fit.screenArea
  }

  /** The acceptance rule of a projection. */
  predicate ProjectionAccepted(colorValid: bool, found: bool, shape: Optical.ShapeType, fit: ShapeFit,
                               prior: PriorEstimate, roiDisabled: bool, roi: Rect, screenWidth: int, screenHeight: int,
                               minValidArea: real)
  {
    colorValid && found
    && (shape == Optical.Sphere || fit.ok)
    && (roiDisabled || (roi.width >= screenWidth && roi.height >= screenHeight)
        || FittedArea(shape, fit, prior) >= minValidArea)
  }

  /** An invalid colour, or no contour, always fails. */
  lemma ProjectionNeedsColorAndContour(colorValid: bool, found: bool, shape: Optical.ShapeType, fit: ShapeFit,
                                       prior: PriorEstimate, roiDisabled: bool, roi: Rect, screenWidth: int, screenHeight: int,
                                       minValidArea: real)
    requires !colorValid || !found
    ensures !ProjectionAccepted(colorValid, found, shape, fit, prior, roiDisabled, roi, screenWidth, screenHeight, minValidArea)
  {
  }

  /** A partial-screen ROI rejects a projection whose area is below the minimum; the full screen does not. */
  lemma SmallProjectionRejectedInPartialRoi(shape: Optical.ShapeType, fit: ShapeFit, prior: PriorEstimate,
                                             roi: Rect, screenWidth: int, screenHeight: int, minValidArea: real)
    requires shape == Optical.LightBar ==> fit.ok
    ensures roi.width < screenWidth && FittedArea(shape, fit, prior) < minValidArea ==>
      !ProjectionAccepted(true, true, shape, fit, prior, false, roi, screenWidth, screenHeight, minValidArea)
    ensures roi.width >= screenWidth && roi.height >= screenHeight ==>
      ProjectionAccepted(true, true, shape, fit, prior, false, roi, screenWidth, screenHeight, minValidArea)
  {
  }

  /**
   * `computeProjectionForController`: plans the ROI (seeded by the prior
   * only under `UsesPrior`), applies it to the buffer, searches for one
   * contour when the controller's colour is valid, and accepts or rejects
   * the projection. `enforceNewRoi` is the estimate's flag afterwards: it is
   * cleared once a contour is found.
   */
  method ComputeProjectionForController(tables: RoiTables, buffer: BufferState, trackerId: nat, controllerId: int,
                                        colorValid: bool, controllerRoiDisabled: bool, prior: PriorEstimate,
                                        cfg: ProjectionConfig, shape: Optical.ShapeType,
                                        contours: seq<Contour>, areas: seq<real>, fit: ShapeFit, refine: Refinement)
    returns (success: bool, roi: Rect, enforceNewRoi: bool)
    requires tables.Valid() && trackerId < tables.roiCounter.Length0
    requires cfg.optimizedRoi ==> 0 <= controllerId < tables.roiCounter.Length1
    requires buffer.frameWidth >= 0 && buffer.frameHeight >= 0
    requires |areas| == |contours|
    modifies tables.roiCounter, tables.lastRoiCenter, buffer`roi
    ensures tables.Valid()
    ensures var roiIndex := if cfg.optimizedRoi then controllerId else -1;
      roi == PlannedRoi(if roiIndex > -1 then old(tables.roiCounter[trackerId, roiIndex]) else 0,
                        if roiIndex > -1 then Some(old(tables.lastRoiCenter[trackerId, roiIndex])) else None,
                        roiIndex, controllerRoiDisabled || cfg.disableRoi, RoiEdgeOffset(cfg.roiEdgeOffset),
                        buffer.frameWidth, buffer.frameHeight, if UsesPrior(prior) then Some(refine) else None)
    ensures buffer.roi == ClampedRoi(buffer.frameWidth, buffer.frameHeight, roi)
    ensures var found := colorValid && ContourFound(contours, areas, cfg.minPointsInContour, buffer.frameWidth, buffer.frameHeight);
      success == ProjectionAccepted(colorValid, found, shape, fit, prior, controllerRoiDisabled || cfg.disableRoi,
                                    roi, buffer.frameWidth, buffer.frameHeight, cfg.minValidProjectionArea)
      && enforceNewRoi == (prior.enforceNewRoi && !found)
  {
    success := colorValid;
    var roiDisabled := controllerRoiDisabled || cfg.disableRoi;
    var off := RoiEdgeOffset(cfg.roiEdgeOffset);
    var roiIndex := if cfg.optimizedRoi then controllerId else -1;
    roi := tables.ComputeTrackerRoi(trackerId, roiIndex, roiDisabled, off, buffer.frameWidth, buffer.frameHeight,
                                    if UsesPrior(prior) then Some(refine) else None);
    buffer.ApplyRoi(roi);
    enforceNewRoi := prior.enforceNewRoi;
    var area := prior.screenArea;
    if success {
      var outContours, outAreas;
      success, outContours, outAreas := buffer.ComputeBiggestNContours(contours, areas, 1, -1, cfg.minPointsInContour);
    }
    if success {
      enforceNewRoi := false;
      if shape == Optical.Sphere {
        if fit.ok {
          area := fit.screenArea;
        }
      } else {
        success := fit.ok;
        area := fit.screenArea;
      }
    }
    if success && !roiDisabled {
      if roi.width < buffer.frameWidth || roi.height < buffer.frameHeight {
        success := area >= cfg.minValidProjectionArea;
      }
    }
  }

  // ---------------------------------------------------------------------
  // The shared-memory video stream

  class VideoStream {
    var streamCount: int
    var hasAccessor: bool
    /** The frames written to shared memory, in order. */
    ghost var written: seq<nat>

    ghost predicate Valid()
      reads this
    {
      streamCount >= 0
    }

    constructor (hasAccessor: bool)
      ensures Valid() && streamCount == 0 && this.hasAccessor == hasAccessor && written == []
    {
      streamCount := 0;
      this.hasAccessor := hasAccessor;
      written := [];
    }

    method Start()
      requires Valid()
      modifies this`streamCount
      ensures Valid() && streamCount == old(streamCount) + 1
    {
      streamCount := streamCount + 1;
    }

    method Stop()
      requires Valid() && streamCount > 0
      modifies this`streamCount
      ensures Valid() && streamCount == old(streamCount) - 1
    {
      streamCount := streamCount - 1;
    }

    /** `close` deletes the accessor. */
    method Close()
      modifies this`hasAccessor
      ensures !hasAccessor
    {
      hasAccessor := false;
    }

    /** The frame copy of `publish_device_data_frame`: only with an accessor and a listener. */
    method Publish(frame: nat)
      modifies this`written
      ensures written == old(written) + (if hasAccessor && streamCount > 0 then [frame] else [])
    {
      if hasAccessor && streamCount > 0 {
        written := written + [frame];
      }
    }
  }

  /** After as many stops as starts, publishing writes nothing. */
  method StreamBalance(s: VideoStream, frame: nat)
    requires s.Valid() && s.streamCount == 0
    modifies s
    ensures s.written == old(s.written)
  {
    s.Start();
    s.Stop();
    s.Publish(frame);
  }

  // ---------------------------------------------------------------------
  // computeBestFitTriangleForContour

  datatype Triangle = Triangle(top: Point2, bottomLeft: Point2, bottomRight: Point2)

  function Midpoint(a: Point2, b: Point2): Point2 { Point2((a.x + b.x) / 2.0, (a.y + b.y) / 2.0) }

  function Minus(a: Point2, b: Point2): Point2 { Point2(a.x - b.x, a.y - b.y) }

  /** The z component of the 2-D cross product (`cv::Point2f::cross`). */
  function Cross(a: Point2, b: Point2): real { a.x * b.y - a.y * b.x }

  /** The squared distance; the source compares `cv::norm`, its square root, which orders points the same. */
  function SqDistance(a: Point2, b: Point2): real
  {
    (a.x - b.x) * (a.x - b.x) + (a.y - b.y) * (a.y - b.y)
  }

  /** The loop that picks the first of three corners closest to the mass centre. */
  method TopCorner(corners: seq<Point2>, massCenter: Point2) returns (top: nat)
    requires |corners| == 3
    ensures top < 3
    ensures forall j :: 0 <= j < 3 ==> SqDistance(corners[top], massCenter) <= SqDistance(corners[j], massCenter)
    ensures forall j :: 0 <= j < top ==> SqDistance(corners[j], massCenter) > SqDistance(corners[top], massCenter)
  {
    var best: Option<real> := None;
    top := 0;
    var k := 0;
    while k < 3
      invariant 0 <= k <= 3
      invariant k == 0 <==> best.None?
      invariant best.Some? ==> top < k && best.value == SqDistance(corners[top], massCenter)
      invariant forall j :: 0 <= j < k ==> SqDistance(corners[top], massCenter) <= SqDistance(corners[j], massCenter)
      invariant forall j :: 0 <= j < top ==> SqDistance(corners[j], massCenter) > SqDistance(corners[top], massCenter)
    {
      var d := SqDistance(corners[k], massCenter);
      if best.None? || d < best.value {
        top := k;
        best := Some(d);
      }
      k := k + 1;
    }
  }

  lemma CrossAntisymmetric(a: Point2, b: Point2)
    ensures Cross(a, b) == -Cross(b, a)
  {
  }

  /** The other two corners in index order, swapped when they are on the wrong sides. */
  function LabelCorners(mids: seq<Point2>, top: nat): (t: Triangle)
    requires |mids| == 3 && top < 3
    ensures t.top == mids[top]
    ensures Cross(Minus(t.bottomRight, t.top), Minus(t.bottomLeft, t.top)) >= 0.0
    ensures forall j :: 0 <= j < 3 && j != top ==> mids[j] == t.bottomLeft || mids[j] == t.bottomRight
  {
    var left := if top == 0 then 1 else 0;
    var right := if top == 2 then 1 else 2;
    var l := mids[left];
    var r := mids[right];
    var tp := mids[top];
    CrossAntisymmetric(Minus(l, tp), Minus(r, tp));
    if Cross(Minus(r, tp), Minus(l, tp)) < 0.0 then Triangle(tp, r, l) else Triangle(tp, l, r)
  }

  /** Left and right keep their index order unless they had to be swapped. */
  lemma LabelCornersOrder(mids: seq<Point2>, top: nat)
    requires |mids| == 3 && top < 3
    ensures var l := if top == 0 then 1 else 0;
            var r := if top == 2 then 1 else 2;
            var t := LabelCorners(mids, top);
            (Cross(Minus(mids[r], mids[top]), Minus(mids[l], mids[top])) >= 0.0 <==> (t.bottomLeft, t.bottomRight) == (mids[l], mids[r]))
            || mids[l] == mids[r]
  {
  }

  /**
   * `computeBestFitTriangleForContour` after `minEnclosingTriangle` (given as
   * an input; None when it throws): fails unless it yields three corners,
   * then labels the corners of the midpoint triangle.
   */
  method BestFitTriangle(enclosing: Option<seq<Point2>>, massCenter: Point2) returns (t: Option<Triangle>)
    ensures t.Some? <==> enclosing.Some? && |enclosing.value| == 3
    ensures t.Some? ==>
      var e := enclosing.value;
      var mids := [Midpoint(e[0], e[1]), Midpoint(e[1], e[2]), Midpoint(e[2], e[0])];
      (exists top :: 0 <= top < 3 && t.value == LabelCorners(mids, top)
        && (forall j :: 0 <= j < 3 ==> SqDistance(mids[top], massCenter) <= SqDistance(mids[j], massCenter))
        && (forall j :: 0 <= j < top ==> SqDistance(mids[j], massCenter) > SqDistance(mids[top], massCenter)))
  {
    if enclosing.None? || |enclosing.value| != 3 {
      return None;
    }
    var e := enclosing.value;
    var mids := [Midpoint(e[0], e[1]), Midpoint(e[1], e[2]), Midpoint(e[2], e[0])];
    var top := TopCorner(mids, massCenter);
    t := Some(LabelCorners(mids, top));
  }
}
