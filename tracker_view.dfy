/**
 * The integer and sequence logic of a tracker's OpenCV buffer state: the
 * clamping of a region of interest to the frame, the HSV band bounds and
 * the contour selection of `computeBiggestNContours`, and the shared
 * BGR-to-HSV lookup table with its reference count. The colour conversion,
 * `inRange`, `findContours` and `contourArea` are OpenCV calls: their
 * results (contours and their areas) are inputs here.
 */
module TrackerView {
  import opened Common

  /** A `cv::Rect2i`: top-left corner and size; `br()` is the corner plus the size. */
  datatype Rect = Rect(x: int, y: int, width: int, height: int)

  /** The span [lo, lo + size) of a request meets [0, limit). */
  predicate SpanMeets(lo: int, size: int, limit: int)
  {
    MaxI(lo, 0) < MinI(lo + size, limit)
  }

  /** The region `applyROI` settles on for a requested one in a W x H frame. */
  function ClampedRoi(frameWidth: int, frameHeight: int, req: Rect): (r: Rect)
    ensures frameWidth >= 1 && frameHeight >= 1 ==>
      r.width > 0 && r.height > 0 && 0 <= r.x && 0 <= r.y
    // the whole frame exactly when the request misses [0, W-1) x [0, H-1)
    ensures r == Rect(0, 0, frameWidth, frameHeight) <==>
      !(SpanMeets(req.x, req.width, frameWidth - 1) && SpanMeets(req.y, req.height, frameHeight - 1))
    ensures r != Rect(0, 0, frameWidth, frameHeight) ==>
      // the intersection of the request with [0, W-1] x [0, H-1]
      r.x == MaxI(req.x, 0) && r.y == MaxI(req.y, 0)
      && r.x + r.width == MinI(MaxI(req.x + req.width, 0), frameWidth - 1)
      && r.y + r.height == MinI(MaxI(req.y + req.height, 0), frameHeight - 1)
      && r.x + r.width <= frameWidth - 1 && r.y + r.height <= frameHeight - 1
  {
    var x0 := MinI(MaxI(req.x, 0), frameWidth - 1);
    var y0 := MinI(MaxI(req.y, 0), frameHeight - 1);
    var x1 := MinI(MaxI(req.x + req.width, 0), frameWidth - 1);
    var y1 := MinI(MaxI(req.y + req.height, 0), frameHeight - 1);
    var w := MaxI(x1 - x0, 0);
    var h := MaxI(y1 - y0, 0);
    if w > 0 && h > 0 then Rect(x0, y0, w, h) else Rect(0, 0, frameWidth, frameHeight)
  }

  /** A request that already lies in [0, W-1] x [0, H-1] with a positive size is kept as it is. */
  lemma ClampedRoiKeepsInnerRequests(frameWidth: int, frameHeight: int, req: Rect)
    requires 0 <= req.x && 0 <= req.y && req.width > 0 && req.height > 0
    requires req.x + req.width <= frameWidth - 1 && req.y + req.height <= frameHeight - 1
    ensures ClampedRoi(frameWidth, frameHeight, req) == req
  {
  }

  /** Clamping is idempotent on everything but the full-frame fallback. */
  lemma ClampedRoiIdempotent(frameWidth: int, frameHeight: int, req: Rect)
    requires frameWidth >= 1 && frameHeight >= 1
    requires ClampedRoi(frameWidth, frameHeight, req) != Rect(0, 0, frameWidth, frameHeight)
    ensures ClampedRoi(frameWidth, frameHeight, ClampedRoi(frameWidth, frameHeight, req)) == ClampedRoi(frameWidth, frameHeight, req)
  {
    var r := ClampedRoi(frameWidth, frameHeight, req);
    ClampedRoiKeepsInnerRequests(frameWidth, frameHeight, r);
  }

  /**
   * The "full frame" the buffer state applies on construction loses its last
   * column and row: br() lies one past the frame and is clamped to W-1, H-1.
   */
  lemma FullFrameRequestIsInset(frameWidth: int, frameHeight: int)
    requires frameWidth >= 2 && frameHeight >= 2
    ensures ClampedRoi(frameWidth, frameHeight, Rect(0, 0, frameWidth, frameHeight)) == Rect(0, 0, frameWidth - 1, frameHeight - 1)
  {
  }

  /**
   * The fallback in terms of the request: the whole frame is used exactly
   * when the request is empty, or lies left of / above the frame, or starts
   * at or past its last column / row, on either axis.
   */
  lemma ClampedRoiFallback(frameWidth: int, frameHeight: int, req: Rect)
    requires frameWidth >= 2 && frameHeight >= 2
    ensures ClampedRoi(frameWidth, frameHeight, req) == Rect(0, 0, frameWidth, frameHeight) <==>
      (req.x >= frameWidth - 1 || req.x + req.width <= 0 || req.width <= 0
       || req.y >= frameHeight - 1 || req.y + req.height <= 0 || req.height <= 0)
  {
  }

  // ---------------------------------------------------------------------
  // The HSV bands handed to inRange

  /** `center` plus or minus `range`, as the colour presets store each channel. */
  datatype Range = Range(center: real, range: real)

  datatype HsvColorRange = HsvColorRange(hue: Range, saturation: Range, value: Range)

  /** One `inRange` call: a pixel passes when every channel lies in its closed interval. */
  datatype HsvBand = HsvBand(hueLo: real, hueHi: real, satLo: real, satHi: real, valLo: real, valHi: real)

  predicate InBand(band: HsvBand, h: real, s: real, v: real)
  {
    band.hueLo <= h <= band.hueHi && band.satLo <= s <= band.satHi && band.valLo <= v <= band.valHi
  }

  /** A pixel passes the mask when it passes any of its bands (the bitwise_or of the two masks). */
  predicate InMask(bands: seq<HsvBand>, h: real, s: real, v: real)
  {
    exists k :: 0 <= k < |bands| && InBand(bands[k], h, s, v)
  }

  /**
   * The bands of `computeBiggestNContours`: a hue window that crosses 0 or
   * 180 is split into two bands, each clamped to [0, 180]; saturation and
   * value are clamped to [0, 255].
   */
  function HueBands(c: HsvColorRange): (bands: seq<HsvBand>)
    ensures 1 <= |bands| <= 2
    ensures forall k :: 0 <= k < |bands| ==>
      0.0 <= bands[k].satLo <= 255.0 && 0.0 <= bands[k].satHi <= 255.0
      && 0.0 <= bands[k].valLo <= 255.0 && 0.0 <= bands[k].valHi <= 255.0
    ensures |bands| == 2 ==> forall k :: 0 <= k < 2 ==> 0.0 <= bands[k].hueLo && bands[k].hueHi <= 180.0
  {
    var hueMin := c.hue.center - c.hue.range;
    var hueMax := c.hue.center + c.hue.range;
    var satMin := ClampR(c.saturation.center - c.saturation.range, 0.0, 255.0);
    var satMax := ClampR(c.saturation.center + c.saturation.range, 0.0, 255.0);
    var valMin := ClampR(c.value.center - c.value.range, 0.0, 255.0);
    var valMax := ClampR(c.value.center + c.value.range, 0.0, 255.0);
    if hueMin < 0.0 then
      [HsvBand(0.0, ClampR(hueMax, 0.0, 180.0), satMin, satMax, valMin, valMax),
       HsvBand(ClampR(180.0 + hueMin, 0.0, 180.0), 180.0, satMin, satMax, valMin, valMax)]
    else if hueMax > 180.0 then
      [HsvBand(0.0, ClampR(hueMax - 180.0, 0.0, 180.0), satMin, satMax, valMin, valMax),
       HsvBand(ClampR(hueMin, 0.0, 180.0), 180.0, satMin, satMax, valMin, valMax)]
    else
      [HsvBand(hueMin, hueMax, satMin, satMax, valMin, valMax)]
  }

  /** Hue as an angle on the 0..180 circle: inside the window center +/- range, wrapping at 0 and 180. */
  predicate HueOnCircle(h: real, hueMin: real, hueMax: real)
  {
    if hueMin < 0.0 then h <= hueMax || h >= 180.0 + hueMin
    else if hueMax > 180.0 then h <= hueMax - 180.0 || h >= hueMin
    else hueMin <= h <= hueMax
  }

  /**
   * For a preset whose hue centre is on the circle and whose range is not
   * negative, the bands accept exactly the pixels whose hue lies in the
   * wrapped window and whose saturation and value lie in the clamped windows.
   */
  lemma HueBandsMeaning(c: HsvColorRange, h: real, s: real, v: real)
    requires 0.0 <= c.hue.center <= 180.0 && c.hue.range >= 0.0
    requires 0.0 <= h <= 180.0
    ensures InMask(HueBands(c), h, s, v) <==>
      HueOnCircle(h, c.hue.center - c.hue.range, c.hue.center + c.hue.range)
      && ClampR(c.saturation.center - c.saturation.range, 0.0, 255.0) <= s <= ClampR(c.saturation.center + c.saturation.range, 0.0, 255.0)
      && ClampR(c.value.center - c.value.range, 0.0, 255.0) <= v <= ClampR(c.value.center + c.value.range, 0.0, 255.0)
  {
    var bands := HueBands(c);
    var hueMin := c.hue.center - c.hue.range;
    var hueMax := c.hue.center + c.hue.range;
    var sv := ClampR(c.saturation.center - c.saturation.range, 0.0, 255.0) <= s <= ClampR(c.saturation.center + c.saturation.range, 0.0, 255.0)
      && ClampR(c.value.center - c.value.range, 0.0, 255.0) <= v <= ClampR(c.value.center + c.value.range, 0.0, 255.0);
    if hueMin < 0.0 || hueMax > 180.0 {
      assert InMask(bands, h, s, v) <==> InBand(bands[0], h, s, v) || InBand(bands[1], h, s, v);
    } else {
      assert InMask(bands, h, s, v) <==> InBand(bands[0], h, s, v);
    }
  }

  // ---------------------------------------------------------------------
  // Contour selection

  datatype IntPoint = IntPoint(x: int, y: int)

  type Contour = seq<IntPoint>

  /** `min_points_in_contour`: a value below 1 means the configured minimum, at least 1. */
  function MinPointsInContour(requested: int, configured: int): (n: int)
    ensures n >= 1
    ensures requested >= 1 ==> n == requested
    ensures requested < 1 ==> n == MaxI(configured, 1)
  {
    if requested < 1 then MaxI(configured, 1) else requested
  }

  /** A point on the first or last row or column of the frame. */
  predicate OnBorder(p: IntPoint, frameWidth: int, frameHeight: int)
  {
    p.x == 0 || p.x == frameWidth - 1 || p.y == 0 || p.y == frameHeight - 1
  }

  /** The contour with its border points erased, in their order. */
  function WithoutBorder(c: Contour, frameWidth: int, frameHeight: int): (r: Contour)
    ensures |r| <= |c|
    ensures forall k :: 0 <= k < |r| ==> !OnBorder(r[k], frameWidth, frameHeight) && r[k] in c
  {
    if c == [] then []
    else if OnBorder(c[0], frameWidth, frameHeight) then WithoutBorder(c[1..], frameWidth, frameHeight)
    else [c[0]] + WithoutBorder(c[1..], frameWidth, frameHeight)
  }

  /** Every interior point survives the erasure. */
  lemma {:induction false} WithoutBorderKeepsInterior(c: Contour, frameWidth: int, frameHeight: int, p: IntPoint)
    requires p in c && !OnBorder(p, frameWidth, frameHeight)
    ensures p in WithoutBorder(c, frameWidth, frameHeight)
  {
    if c[0] != p {
      assert p in c[1..];
      WithoutBorderKeepsInterior(c[1..], frameWidth, frameHeight, p);
    }
  }

  function SumX(c: Contour): int { if c == [] then 0 else SumX(c[..|c| - 1]) + c[|c| - 1].x }

  function SumY(c: Contour): int { if c == [] then 0 else SumY(c[..|c| - 1]) + c[|c| - 1].y }

  /** The integer mean of a contour (C++ division truncates). */
  function MeanPoint(c: Contour): IntPoint
    requires |c| > 0
  {
    IntPoint(TruncDiv(SumX(c), |c|), TruncDiv(SumY(c), |c|))
  }

  /** The 4-point stand-in for a contour left with one or two points. */
  function SquareAround(p: IntPoint): (r: Contour)
    ensures |r| == 4
    ensures forall k :: 0 <= k < 4 ==> (r[k].x == p.x - 1 || r[k].x == p.x + 1) && (r[k].y == p.y - 1 || r[k].y == p.y + 1)
  {
    [IntPoint(p.x - 1, p.y - 1), IntPoint(p.x + 1, p.y - 1), IntPoint(p.x + 1, p.y + 1), IntPoint(p.x - 1, p.y + 1)]
  }

  /** The area the stand-in reports (0.01f). */
  const FakeContourArea: real := 0.01

  /** The outcome of the selection loop: an early `return false`, or the output lists. */
  datatype Selection = Aborted | Selected(contours: seq<Contour>, areas: seq<real>)

  /**
   * The copy loop over the contours in the given order, starting from the
   * lists already output: it stops once `maxCount` contours are out; a
   * contour below `minPoints` is skipped; a kept contour loses its border
   * points and is replaced by a square around its mean when fewer than three
   * remain, the selection being aborted when none remains.
   */
  function SelectFrom(order: seq<nat>, contours: seq<Contour>, areas: seq<real>, maxCount: int, minPoints: int,
                      frameWidth: int, frameHeight: int, outContours: seq<Contour>, outAreas: seq<real>): Selection
    requires forall k :: 0 <= k < |order| ==> order[k] < |contours| && order[k] < |areas|
    decreases |order|
  {
    if order == [] || |outContours| >= maxCount then Selected(outContours, outAreas)
    else
      var c := contours[order[0]];
      if |c| < minPoints then
        SelectFrom(order[1..], contours, areas, maxCount, minPoints, frameWidth, frameHeight, outContours, outAreas)
      else
        var cleaned := WithoutBorder(c, frameWidth, frameHeight);
        if |cleaned| < 3 then
          if |cleaned| < 1 then Aborted
          else SelectFrom(order[1..], contours, areas, maxCount, minPoints, frameWidth, frameHeight,
                          outContours + [SquareAround(MeanPoint(cleaned))], outAreas + [FakeContourArea])
        else
          SelectFrom(order[1..], contours, areas, maxCount, minPoints, frameWidth, frameHeight,
                     outContours + [cleaned], outAreas + [areas[order[0]]])
  }

  /** An output contour: a cleaned contour with no border point, or a stand-in square. */
  predicate WellFormedOutput(c: Contour, area: real, frameWidth: int, frameHeight: int)
  {
    (|c| >= 3 && forall k :: 0 <= k < |c| ==> !OnBorder(c[k], frameWidth, frameHeight))
    || (|c| == 4 && area == FakeContourArea && c == SquareAround(IntPoint(c[0].x + 1, c[0].y + 1)))
  }

  predicate AllWellFormed(outContours: seq<Contour>, outAreas: seq<real>, frameWidth: int, frameHeight: int)
  {
    |outContours| == |outAreas|
    && forall k :: 0 <= k < |outContours| ==> WellFormedOutput(outContours[k], outAreas[k], frameWidth, frameHeight)
  }

  /**
   * The selection outputs at most `maxCount` contours (none when it is not
   * positive), one area per contour, and every output contour is well formed.
   */
  lemma {:induction false} SelectFromProperties(order: seq<nat>, contours: seq<Contour>, areas: seq<real>, maxCount: int, minPoints: int,
                                                frameWidth: int, frameHeight: int, outContours: seq<Contour>, outAreas: seq<real>)
    requires forall k :: 0 <= k < |order| ==> order[k] < |contours| && order[k] < |areas|
    requires |outContours| <= MaxI(maxCount, 0) && AllWellFormed(outContours, outAreas, frameWidth, frameHeight)
    ensures var r := SelectFrom(order, contours, areas, maxCount, minPoints, frameWidth, frameHeight, outContours, outAreas);
      r.Selected? ==>
        |r.contours| <= MaxI(maxCount, 0) && AllWellFormed(r.contours, r.areas, frameWidth, frameHeight)
        && |outContours| <= |r.contours| && r.contours[..|outContours|] == outContours
    decreases |order|
  {
    if order == [] || |outContours| >= maxCount {
    } else {
      var c := contours[order[0]];
      assert forall k :: 0 <= k < |order[1..]| ==> order[1..][k] < |contours| && order[1..][k] < |areas| by {
        forall k | 0 <= k < |order[1..]| ensures order[1..][k] < |contours| && order[1..][k] < |areas| {
          assert order[1..][k] == order[k + 1];
        }
      }
      if |c| < minPoints {
        SelectFromProperties(order[1..], contours, areas, maxCount, minPoints, frameWidth, frameHeight, outContours, outAreas);
      } else {
        var cleaned := WithoutBorder(c, frameWidth, frameHeight);
        if |cleaned| < 3 {
          if |cleaned| >= 1 {
            var sq := SquareAround(MeanPoint(cleaned));
            assert WellFormedOutput(sq, FakeContourArea, frameWidth, frameHeight);
            var oc := outContours + [sq];
            var oa := outAreas + [FakeContourArea];
            assert AllWellFormed(oc, oa, frameWidth, frameHeight) by {
              forall k | 0 <= k < |oc| ensures WellFormedOutput(oc[k], oa[k], frameWidth, frameHeight) {
                if k < |outContours| {
                  assert oc[k] == outContours[k] && oa[k] == outAreas[k];
                }
              }
            }
            SelectFromProperties(order[1..], contours, areas, maxCount, minPoints, frameWidth, frameHeight, oc, oa);
            var r := SelectFrom(order[1..], contours, areas, maxCount, minPoints, frameWidth, frameHeight, oc, oa);
            if r.Selected? {
              assert r.contours[..|outContours|] == r.contours[..|oc|][..|outContours|];
            }
          }
        } else {
          var oc := outContours + [cleaned];
          var oa := outAreas + [areas[order[0]]];
          assert AllWellFormed(oc, oa, frameWidth, frameHeight) by {
            forall k | 0 <= k < |oc| ensures WellFormedOutput(oc[k], oa[k], frameWidth, frameHeight) {
              if k < |outContours| {
                assert oc[k] == outContours[k] && oa[k] == outAreas[k];
              }
            }
          }
          SelectFromProperties(order[1..], contours, areas, maxCount, minPoints, frameWidth, frameHeight, oc, oa);
          var r := SelectFrom(order[1..], contours, areas, maxCount, minPoints, frameWidth, frameHeight, oc, oa);
          if r.Selected? {
            assert r.contours[..|outContours|] == r.contours[..|oc|][..|outContours|];
          }
        }
      }
    }
  }

  /** The indices of `order`, in order, whose contour has at least `minPoints` points. */
  function Kept(order: seq<nat>, contours: seq<Contour>, minPoints: int): (r: seq<nat>)
    requires forall k :: 0 <= k < |order| ==> order[k] < |contours|
    ensures |r| <= |order|
    ensures forall k :: 0 <= k < |r| ==> r[k] in order && r[k] < |contours| && |contours[r[k]]| >= minPoints
    ensures forall k :: 0 <= k < |order| && |contours[order[k]]| >= minPoints ==> order[k] in r
  {
    if order == [] then []
    else
      var rest := Kept(order[1..], contours, minPoints);
      assert forall k :: 1 <= k < |order| ==> order[k] == order[1..][k - 1];
      if |contours[order[0]]| >= minPoints then [order[0]] + rest else rest
  }

  /** What a kept contour becomes: its interior points, or the stand-in square when fewer than three are left. */
  function OutputContour(c: Contour, frameWidth: int, frameHeight: int): Contour
    requires |WithoutBorder(c, frameWidth, frameHeight)| >= 1
  {
    var cleaned := WithoutBorder(c, frameWidth, frameHeight);
    if |cleaned| < 3 then SquareAround(MeanPoint(cleaned)) else cleaned
  }

  /** The area reported with it: the contour's own, or 0.01 for a stand-in. */
  function OutputArea(c: Contour, area: real, frameWidth: int, frameHeight: int): real
  {
    if |WithoutBorder(c, frameWidth, frameHeight)| < 3 then FakeContourArea else area
  }

  /** How many contours the copy loop adds after `done` are already out: the first kept ones, up to `maxCount`. */
  function Taken(done: nat, maxCount: int, kept: nat): (n: nat)
    ensures n <= kept
    ensures done < maxCount ==> n == MinI(maxCount - done, kept)
  {
    if done >= maxCount then 0 else MinI(maxCount - done, kept)
  }

  /**
   * `r` is what the copy loop makes of the first `n` of the `kept` indices
   * after `outContours` and `outAreas`: an abort exactly when one of those
   * contours has no interior point, and otherwise, for each of them in turn,
   * its cleaned contour (or stand-in square) and its area (or 0.01).
   */
  ghost predicate SelectionOf(r: Selection, kept: seq<nat>, n: nat, contours: seq<Contour>, areas: seq<real>,
                              frameWidth: int, frameHeight: int, outContours: seq<Contour>, outAreas: seq<real>)
    requires n <= |kept|
    requires forall k :: 0 <= k < |kept| ==> kept[k] < |contours| && kept[k] < |areas|
  {
    && (r.Aborted? <==> exists k :: 0 <= k < n && |WithoutBorder(contours[kept[k]], frameWidth, frameHeight)| == 0)
    && (r.Selected? ==>
          && |r.contours| == |outContours| + n && r.contours[..|outContours|] == outContours
          && |r.areas| == |outAreas| + n && r.areas[..|outAreas|] == outAreas
          && forall k :: 0 <= k < n ==>
               |WithoutBorder(contours[kept[k]], frameWidth, frameHeight)| >= 1
               && r.contours[|outContours| + k] == OutputContour(contours[kept[k]], frameWidth, frameHeight)
               && r.areas[|outAreas| + k] == OutputArea(contours[kept[k]], areas[kept[k]], frameWidth, frameHeight))
  }

  /**
   * What the copy loop outputs: the first contours, in the given order, with
   * at least `minPoints` points, as many as there is room for below
   * `maxCount`, each cleaned or replaced by its stand-in square.
   */
  lemma {:induction false} SelectFromMeaning(order: seq<nat>, contours: seq<Contour>, areas: seq<real>, maxCount: int, minPoints: int,
                                             frameWidth: int, frameHeight: int, outContours: seq<Contour>, outAreas: seq<real>)
    requires forall k :: 0 <= k < |order| ==> order[k] < |contours| && order[k] < |areas|
    ensures var kept := Kept(order, contours, minPoints);
      SelectionOf(SelectFrom(order, contours, areas, maxCount, minPoints, frameWidth, frameHeight, outContours, outAreas),
                  kept, Taken(|outContours|, maxCount, |kept|), contours, areas, frameWidth, frameHeight, outContours, outAreas)
    decreases |order|
  {
    if order == [] || |outContours| >= maxCount {
      SelectFromMeaningDone(order, contours, areas, maxCount, minPoints, frameWidth, frameHeight, outContours, outAreas);
    } else {
      SelectFromUnfold(order, contours, areas, maxCount, minPoints, frameWidth, frameHeight, outContours, outAreas);
      var c := contours[order[0]];
      if |c| < minPoints {
        SelectFromMeaning(order[1..], contours, areas, maxCount, minPoints, frameWidth, frameHeight, outContours, outAreas);
      } else if |WithoutBorder(c, frameWidth, frameHeight)| >= 1 {
        var oc := outContours + [OutputContour(c, frameWidth, frameHeight)];
        var oa := outAreas + [OutputArea(c, areas[order[0]], frameWidth, frameHeight)];
        SelectFromMeaning(order[1..], contours, areas, maxCount, minPoints, frameWidth, frameHeight, oc, oa);
        SelectFromMeaningStep(Kept(order, contours, minPoints), Kept(order[1..], contours, minPoints), contours, areas, maxCount,
                              frameWidth, frameHeight, outContours, outAreas,
                              SelectFrom(order, contours, areas, maxCount, minPoints, frameWidth, frameHeight, outContours, outAreas));
      } else {
        SelectFromMeaningAbort(Kept(order, contours, minPoints), contours, areas, maxCount, frameWidth, frameHeight, outContours, outAreas);
      }
    }
  }

  /** The copy loop started with nothing output succeeds exactly when it outputs its first kept contours. */
  lemma SelectionFromNothing(order: seq<nat>, contours: seq<Contour>, areas: seq<real>, maxCount: int, minPoints: int,
                             frameWidth: int, frameHeight: int)
    requires forall k :: 0 <= k < |order| ==> order[k] < |contours| && order[k] < |areas|
    ensures var sel := SelectFrom(order, contours, areas, maxCount, minPoints, frameWidth, frameHeight, [], []);
      var kept := Kept(order, contours, minPoints);
      var n := Taken(0, maxCount, |kept|);
      && ((sel.Selected? && |sel.contours| > 0) <==> 0 < n && forall k :: 0 <= k < n ==> |WithoutBorder(contours[kept[k]], frameWidth, frameHeight)| >= 1)
      && (sel.Selected? ==> SelectionOf(sel, kept, n, contours, areas, frameWidth, frameHeight, [], []))
  {
    SelectFromMeaning(order, contours, areas, maxCount, minPoints, frameWidth, frameHeight, [], []);
  }

  /** The loop with no contour left or no room left outputs what it had. */
  lemma SelectFromMeaningDone(order: seq<nat>, contours: seq<Contour>, areas: seq<real>, maxCount: int, minPoints: int,
                              frameWidth: int, frameHeight: int, outContours: seq<Contour>, outAreas: seq<real>)
    requires forall k :: 0 <= k < |order| ==> order[k] < |contours| && order[k] < |areas|
    requires order == [] || |outContours| >= maxCount
    ensures var kept := Kept(order, contours, minPoints);
      SelectionOf(SelectFrom(order, contours, areas, maxCount, minPoints, frameWidth, frameHeight, outContours, outAreas),
                  kept, Taken(|outContours|, maxCount, |kept|), contours, areas, frameWidth, frameHeight, outContours, outAreas)
  {
    var r := SelectFrom(order, contours, areas, maxCount, minPoints, frameWidth, frameHeight, outContours, outAreas);
    assert r == Selected(outContours, outAreas);
    assert Taken(|outContours|, maxCount, |Kept(order, contours, minPoints)|) == 0;
  }

  /** The first kept contour without an interior point aborts the loop. */
  lemma SelectFromMeaningAbort(kept: seq<nat>, contours: seq<Contour>, areas: seq<real>, maxCount: int,
                               frameWidth: int, frameHeight: int, outContours: seq<Contour>, outAreas: seq<real>)
    requires |kept| >= 1 && |outContours| < maxCount
    requires forall k :: 0 <= k < |kept| ==> kept[k] < |contours| && kept[k] < |areas|
    requires |WithoutBorder(contours[kept[0]], frameWidth, frameHeight)| == 0
    ensures SelectionOf(Aborted, kept, Taken(|outContours|, maxCount, |kept|), contours, areas, frameWidth, frameHeight, outContours, outAreas)
  {
    assert Taken(|outContours|, maxCount, |kept|) >= 1;
  }

  /** One step of the copy loop over a non-empty order with room left, with the kept indices that go with it. */
  lemma SelectFromUnfold(order: seq<nat>, contours: seq<Contour>, areas: seq<real>, maxCount: int, minPoints: int,
                         frameWidth: int, frameHeight: int, outContours: seq<Contour>, outAreas: seq<real>)
    requires forall k :: 0 <= k < |order| ==> order[k] < |contours| && order[k] < |areas|
    requires order != [] && |outContours| < maxCount
    ensures forall k :: 0 <= k < |order[1..]| ==> order[1..][k] < |contours| && order[1..][k] < |areas|
    ensures var c := contours[order[0]];
      var r := SelectFrom(order, contours, areas, maxCount, minPoints, frameWidth, frameHeight, outContours, outAreas);
      var kept := Kept(order, contours, minPoints);
      var rest := Kept(order[1..], contours, minPoints);
      && (|c| < minPoints ==>
            kept == rest && r == SelectFrom(order[1..], contours, areas, maxCount, minPoints, frameWidth, frameHeight, outContours, outAreas))
      && (|c| >= minPoints ==> kept == [order[0]] + rest)
      && (|c| >= minPoints && |WithoutBorder(c, frameWidth, frameHeight)| >= 1 ==>
            r == SelectFrom(order[1..], contours, areas, maxCount, minPoints, frameWidth, frameHeight,
                            outContours + [OutputContour(c, frameWidth, frameHeight)],
                            outAreas + [OutputArea(c, areas[order[0]], frameWidth, frameHeight)]))
      && (|c| >= minPoints && |WithoutBorder(c, frameWidth, frameHeight)| == 0 ==> r == Aborted)
  {
    forall k | 0 <= k < |order[1..]| ensures order[1..][k] < |contours| && order[1..][k] < |areas| {
      assert order[1..][k] == order[k + 1];
    }
  }

  /** The induction step of SelectFromMeaning for a kept contour with an interior point. */
  lemma SelectFromMeaningStep(kept: seq<nat>, rest: seq<nat>, contours: seq<Contour>, areas: seq<real>, maxCount: int,
                              frameWidth: int, frameHeight: int, outContours: seq<Contour>, outAreas: seq<real>, r: Selection)
    requires |kept| >= 1 && kept == [kept[0]] + rest
    requires forall k :: 0 <= k < |kept| ==> kept[k] < |contours| && kept[k] < |areas|
    requires forall k :: 0 <= k < |rest| ==> rest[k] < |contours| && rest[k] < |areas|
    requires |outContours| < maxCount
    requires |WithoutBorder(contours[kept[0]], frameWidth, frameHeight)| >= 1
    requires var oc := outContours + [OutputContour(contours[kept[0]], frameWidth, frameHeight)];
      var oa := outAreas + [OutputArea(contours[kept[0]], areas[kept[0]], frameWidth, frameHeight)];
      SelectionOf(r, rest, Taken(|oc|, maxCount, |rest|), contours, areas, frameWidth, frameHeight, oc, oa)
    ensures SelectionOf(r, kept, Taken(|outContours|, maxCount, |kept|), contours, areas, frameWidth, frameHeight, outContours, outAreas)
  {
    var n := Taken(|outContours|, maxCount, |kept|);
    var m := Taken(|outContours| + 1, maxCount, |rest|);
    assert n == m + 1;
    assert forall k :: 1 <= k < |kept| ==> kept[k] == rest[k - 1];
    var oc := outContours + [OutputContour(contours[kept[0]], frameWidth, frameHeight)];
    var oa := outAreas + [OutputArea(contours[kept[0]], areas[kept[0]], frameWidth, frameHeight)];
    if r.Aborted? {
      var k :| 0 <= k < m && |WithoutBorder(contours[rest[k]], frameWidth, frameHeight)| == 0;
      assert kept[k + 1] == rest[k];
    } else {
      forall k | 0 <= k < n ensures |WithoutBorder(contours[kept[k]], frameWidth, frameHeight)| >= 1 {
        if k > 0 {
          assert kept[k] == rest[k - 1];
        }
      }
      assert r.contours[..|outContours|] == r.contours[..|oc|][..|outContours|];
      assert r.areas[..|outAreas|] == r.areas[..|oa|][..|outAreas|];
      assert r.contours[|outContours|] == r.contours[..|oc|][|outContours|];
      assert r.areas[|outAreas|] == r.areas[..|oa|][|outAreas|];
      forall k | 1 <= k < n
        ensures r.contours[|outContours| + k] == OutputContour(contours[kept[k]], frameWidth, frameHeight)
        ensures r.areas[|outAreas| + k] == OutputArea(contours[kept[k]], areas[kept[k]], frameWidth, frameHeight)
      {
        assert kept[k] == rest[k - 1];
        assert |oc| + (k - 1) == |outContours| + k;
      }
    }
  }

  /**
   * For a contour whose points all lie in the frame, a stand-in square
   * built from what is left after erasing the border stays in the frame.
   */
  lemma StandInSquareInFrame(c: Contour, frameWidth: int, frameHeight: int)
    requires forall k :: 0 <= k < |c| ==> 0 <= c[k].x < frameWidth && 0 <= c[k].y < frameHeight
    requires 1 <= |WithoutBorder(c, frameWidth, frameHeight)| < 3
    ensures var sq := SquareAround(MeanPoint(WithoutBorder(c, frameWidth, frameHeight)));
      forall k :: 0 <= k < 4 ==> 0 <= sq[k].x < frameWidth && 0 <= sq[k].y < frameHeight
  {
    var w := WithoutBorder(c, frameWidth, frameHeight);
    assert forall k :: 0 <= k < |w| ==> 1 <= w[k].x <= frameWidth - 2 && 1 <= w[k].y <= frameHeight - 2;
    if |w| == 1 {
      SumsOfOne(w);
    } else {
      SumsOfTwo(w);
      MeanOfTwoBetween(w[0].x, w[1].x, 1, frameWidth - 2);
      MeanOfTwoBetween(w[0].y, w[1].y, 1, frameHeight - 2);
    }
  }

  lemma SumsOfOne(w: Contour)
    requires |w| == 1
    ensures SumX(w) == w[0].x && SumY(w) == w[0].y
  {
    assert w[..0] == [];
  }

  lemma SumsOfTwo(w: Contour)
    requires |w| == 2
    ensures SumX(w) == w[0].x + w[1].x && SumY(w) == w[0].y + w[1].y
  {
    assert w[..1] == [w[0]];
    SumsOfOne(w[..1]);
  }

  /** The truncated mean of two values in a non-negative range stays in it. */
  lemma MeanOfTwoBetween(a: int, b: int, lo: int, hi: int)
    requires 0 <= lo <= a <= hi && lo <= b <= hi
    ensures lo <= TruncDiv(a + b, 2) <= hi
  {
  }

  function AreaKey(areas: seq<real>): nat -> real
  {
    (i: nat) => if i < |areas| then -areas[i] else 0.0
  }

  /** The descending-area order of the contour indices (the std::sort; ties in one fixed order). */
  function AreaOrder(areas: seq<real>): (order: seq<nat>)
    ensures |order| == |areas|
    ensures forall k :: 0 <= k < |order| ==> order[k] < |areas|
  {
    var order := SortBy<nat>(Indices(|areas|), AreaKey(areas));
    SortedIndicesInRange(|areas|, AreaKey(areas));
    order
  }

  lemma SortedIndicesInRange(n: nat, key: nat -> real)
    ensures |SortBy<nat>(Indices(n), key)| == n
    ensures forall k :: 0 <= k < n ==> SortBy<nat>(Indices(n), key)[k] < n
  {
    var order := SortBy<nat>(Indices(n), key);
    SortByCorrect<nat>(Indices(n), key);
    forall k | 0 <= k < n ensures order[k] < n {
      var x := order[k];
      assert x in multiset(order);
      assert x in multiset(Indices(n));
      assert x in Indices(n);
      var j :| 0 <= j < n && Indices(n)[j] == x;
    }
  }

  function Indices(n: nat): (r: seq<nat>)
    ensures |r| == n && forall k :: 0 <= k < n ==> r[k] == k
  {
    if n == 0 then [] else Indices(n - 1) + [n - 1]
  }

  /** The order lists every contour index exactly once, largest area first. */
  lemma AreaOrderCorrect(areas: seq<real>)
    ensures multiset(AreaOrder(areas)) == multiset(Indices(|areas|))
    ensures forall i, j :: 0 <= i < j < |areas| ==> areas[AreaOrder(areas)[i]] >= areas[AreaOrder(areas)[j]]
  {
    var order := AreaOrder(areas);
    var key := AreaKey(areas);
    SortByCorrect<nat>(Indices(|areas|), key);
    assert SortedBy(order, key);
    forall i, j | 0 <= i < j < |areas| ensures areas[order[i]] >= areas[order[j]] {
      assert key(order[i]) <= key(order[j]);
      assert key(order[i]) == -areas[order[i]];
      assert key(order[j]) == -areas[order[j]];
    }
  }

  // ---------------------------------------------------------------------
  // The shared BGR-to-HSV lookup table

  datatype Bgr = Bgr(b: int, g: int, r: int)

  const LutSize: int := 256 * 256 * 256

  predicate IsByte(v: int) { 0 <= v < 256 }

  /** `getLUTIndex`. */
  function LutIndex(r: int, g: int, b: int): int { (256 * 256) * r + 256 * g + b }

  /** The colour stored at each table position before the HSV conversion. */
  function LutColor(i: int): Bgr
  {
    Bgr(i % 256, (i / 256) % 256, i / (256 * 256))
  }

  /** Every byte triple has its own position in the table. */
  lemma LutIndexRoundTrip(r: int, g: int, b: int)
    requires IsByte(r) && IsByte(g) && IsByte(b)
    ensures 0 <= LutIndex(r, g, b) < LutSize
    ensures LutColor(LutIndex(r, g, b)) == Bgr(b, g, r)
  {
    var i := LutIndex(r, g, b);
    assert i == 256 * (256 * r + g) + b;
    assert i / 256 == 256 * r + g;
    assert i / (256 * 256) == r;
  }

  /** Every table position is the index of its colour. */
  lemma LutColorRoundTrip(i: int)
    requires 0 <= i < LutSize
    ensures var c := LutColor(i); IsByte(c.b) && IsByte(c.g) && IsByte(c.r) && LutIndex(c.r, c.g, c.b) == i
  {
    var c := LutColor(i);
    assert i == 256 * (i / 256) + i % 256;
    assert i / 256 == 256 * (i / (256 * 256)) + (i / 256) % 256;
  }

  lemma LutIndexInjective(r1: int, g1: int, b1: int, r2: int, g2: int, b2: int)
    requires IsByte(r1) && IsByte(g1) && IsByte(b1) && IsByte(r2) && IsByte(g2) && IsByte(b2)
    requires LutIndex(r1, g1, b1) == LutIndex(r2, g2, b2)
    ensures r1 == r2 && g1 == g2 && b1 == b2
  {
    LutIndexRoundTrip(r1, g1, b1);
    LutIndexRoundTrip(r2, g2, b2);
  }

  /** A table holding `LutColor` everywhere holds colour (b, g, r) at the position of each triple. */
  lemma LutColorsAtTriples(s: seq<Bgr>)
    requires |s| == LutSize
    requires forall i :: 0 <= i < |s| ==> s[i] == LutColor(i)
    ensures forall r, g, b :: IsByte(r) && IsByte(g) && IsByte(b) ==> s[LutIndex(r, g, b)] == Bgr(b, g, r)
  {
    forall r, g, b | IsByte(r) && IsByte(g) && IsByte(b) ensures s[LutIndex(r, g, b)] == Bgr(b, g, r) {
      LutIndexRoundTrip(r, g, b);
    }
  }

  /** The mapper instance: its table, filled by the constructor's triple loop. */
  class BgrToHsvMapper {
    const table: array<Bgr>

    constructor ()
      ensures fresh(table) && table.Length == LutSize
      ensures forall r, g, b :: IsByte(r) && IsByte(g) && IsByte(b) ==> table[LutIndex(r, g, b)] == Bgr(b, g, r)
    {
      var t := new Bgr[LutSize];
      FillTable(t);
      table := t;
    }

    /** The r, g, b loop that writes colour (b, g, r) at the running index. */
    static method FillTable(t: array<Bgr>)
      requires t.Length == LutSize
      modifies t
      ensures forall i :: 0 <= i < t.Length ==> t[i] == LutColor(i)
      ensures forall r, g, b :: IsByte(r) && IsByte(g) && IsByte(b) ==> t[LutIndex(r, g, b)] == Bgr(b, g, r)
    {
      var index := 0;
      var r := 0;
      while r < 256
        invariant 0 <= r <= 256 && index == 65536 * r
        invariant forall i :: 0 <= i < index ==> t[i] == LutColor(i)
      {
        var g := 0;
        while g < 256
          invariant 0 <= g <= 256 && index == 65536 * r + 256 * g
          invariant forall i :: 0 <= i < index ==> t[i] == LutColor(i)
        {
          var b := 0;
          while b < 256
            invariant 0 <= b <= 256 && index == 65536 * r + 256 * g + b
            invariant forall i :: 0 <= i < index ==> t[i] == LutColor(i)
          {
            LutIndexRoundTrip(r, g, b);
            t[index] := Bgr(b, g, r);
            index := index + 1;
            b := b + 1;
          }
          g := g + 1;
        }
        r := r + 1;
      }
      LutColorsAtTriples(t[..]);
    }
  }

  /** The static instance and reference count of `OpenCVBGRToHSVMapper`. */
  class HsvMapperPool {
    var refCount: int
    var instance: BgrToHsvMapper?

    /** The instance exists exactly while someone holds it. */
    ghost predicate Valid()
      reads this
    {
      refCount >= 0 && (instance != null <==> refCount > 0)
    }

    constructor ()
      ensures Valid() && refCount == 0 && instance == null
    {
      refCount := 0;
      instance := null;
    }

    /** `allocate`: builds the instance for the first holder and hands every holder the same one. */
    method Allocate() returns (m: BgrToHsvMapper)
      requires Valid()
      modifies this
      ensures Valid()
      ensures refCount == old(refCount) + 1 && instance == m
      ensures old(refCount) > 0 ==> m == old(instance)
      ensures old(refCount) == 0 ==> fresh(m)
    {
      if refCount == 0 {
        instance := new BgrToHsvMapper();
      }
      m := instance;
      refCount := refCount + 1;
    }

    /** `dispose`: the last holder's release deletes the instance. */
    method Dispose(m: BgrToHsvMapper)
      requires Valid() && instance == m && refCount > 0
      modifies this
      ensures Valid()
      ensures refCount == old(refCount) - 1
      ensures instance == (if refCount == 0 then null else old(instance))
    {
      refCount := refCount - 1;
      if refCount <= 0 {
        instance := null;
      }
    }
  }

  // ---------------------------------------------------------------------
  // The buffer state of one tracker

  class BufferState {
    const frameWidth: int
    const frameHeight: int
    /** The table this buffer state holds, when the lookup table is enabled. */
    const mapper: BgrToHsvMapper?
    var roi: Rect

    /** Allocates the shared table when `useLookupTable`, and applies the full frame. */
    constructor (frameWidth: int, frameHeight: int, useLookupTable: bool, pool: HsvMapperPool)
      requires pool.Valid()
      modifies pool
      ensures pool.Valid()
      ensures this.frameWidth == frameWidth && this.frameHeight == frameHeight
      ensures useLookupTable ==> mapper == pool.instance && pool.refCount == old(pool.refCount) + 1
                                 && (old(pool.refCount) > 0 ==> mapper == old(pool.instance))
      ensures !useLookupTable ==> mapper == null && pool.refCount == old(pool.refCount) && pool.instance == old(pool.instance)
      ensures roi == ClampedRoi(frameWidth, frameHeight, Rect(0, 0, frameWidth, frameHeight))
    {
      this.frameWidth := frameWidth;
      this.frameHeight := frameHeight;
      if useLookupTable {
        var m := pool.Allocate();
        mapper := m;
      } else {
        mapper := null;
      }
      roi := ClampedRoi(frameWidth, frameHeight, Rect(0, 0, frameWidth, frameHeight));
    }

    /** The destructor's release of the shared table. */
    method Release(pool: HsvMapperPool)
      requires pool.Valid() && (mapper != null ==> pool.instance == mapper && pool.refCount > 0)
      modifies pool
      ensures pool.Valid()
      ensures mapper != null ==> pool.refCount == old(pool.refCount) - 1
      ensures mapper == null ==> pool.refCount == old(pool.refCount) && pool.instance == old(pool.instance)
    {
      if mapper != null {
        pool.Dispose(mapper);
      }
    }

    /** `applyROI`. */
    method ApplyRoi(req: Rect)
      modifies this`roi
      ensures roi == ClampedRoi(frameWidth, frameHeight, req)
    {
      var x0 := MinI(MaxI(req.x, 0), frameWidth - 1);
      var y0 := MinI(MaxI(req.y, 0), frameHeight - 1);
      var x1 := MinI(MaxI(req.x + req.width, 0), frameWidth - 1);
      var y1 := MinI(MaxI(req.y + req.height, 0), frameHeight - 1);
      var w := MaxI(x1 - x0, 0);
      var h := MaxI(y1 - y0, 0);
      if w > 0 && h > 0 {
        roi := Rect(x0, y0, w, h);
      } else {
        roi := Rect(0, 0, frameWidth, frameHeight);
      }
    }

    /** The erase loop over one contour. */
    method EraseBorderPoints(c: Contour) returns (r: Contour)
      ensures r == WithoutBorder(c, frameWidth, frameHeight)
    {
      r := [];
      var k := 0;
      while k < |c|
        invariant 0 <= k <= |c|
        invariant r + WithoutBorder(c[k..], frameWidth, frameHeight) == WithoutBorder(c, frameWidth, frameHeight)
      {
        assert c[k..][1..] == c[k + 1..];
        if !OnBorder(c[k], frameWidth, frameHeight) {
          r := r + [c[k]];
        }
        k := k + 1;
      }
    }

    /** The averaging loop of the stand-in contour. */
    static method ContourMean(c: Contour) returns (p: IntPoint)
      requires |c| > 0
      ensures p == MeanPoint(c)
    {
      var sx := 0;
      var sy := 0;
      var n := 0;
      while n < |c|
        invariant 0 <= n <= |c|
        invariant sx == SumX(c[..n]) && sy == SumY(c[..n])
      {
        assert c[..n + 1][..n] == c[..n];
        sx := sx + c[n].x;
        sy := sy + c[n].y;
        n := n + 1;
      }
      assert c[..n] == c;
      p := IntPoint(TruncDiv(sx, n), TruncDiv(sy, n));
    }

    /**
     * One pass of the contour loop, for the largest remaining contour `rest[0]`:
     * skipped when too short, otherwise cleaned of border points and output,
     * as a stand-in square when fewer than three points remain; the selection
     * aborts when none remains.
     */
    method SelectOne(rest: seq<nat>, contours: seq<Contour>, areas: seq<real>, maxCount: int, minPoints: int,
                     outContours: seq<Contour>, outAreas: seq<real>)
      returns (aborted: bool, outContours': seq<Contour>, outAreas': seq<real>)
      requires rest != [] && |outContours| < maxCount
      requires forall k :: 0 <= k < |rest| ==> rest[k] < |contours| && rest[k] < |areas|
      ensures aborted ==> SelectFrom(rest, contours, areas, maxCount, minPoints, frameWidth, frameHeight, outContours, outAreas) == Aborted
      ensures !aborted ==>
        SelectFrom(rest, contours, areas, maxCount, minPoints, frameWidth, frameHeight, outContours, outAreas)
        == SelectFrom(rest[1..], contours, areas, maxCount, minPoints, frameWidth, frameHeight, outContours', outAreas')
    {
      aborted := false;
      outContours', outAreas' := outContours, outAreas;
      var c := contours[rest[0]];
      if |c| >= minPoints {
        var cleaned := EraseBorderPoints(c);
        if |cleaned| < 3 {
          if |cleaned| < 1 {
            aborted := true;
            return;
          }
          var mean := ContourMean(cleaned);
          outContours' := outContours + [SquareAround(mean)];
          outAreas' := outAreas + [FakeContourArea];
        } else {
          outContours' := outContours + [cleaned];
          outAreas' := outAreas + [areas[rest[0]]];
        }
      }
    }

    /**
     * `computeBiggestNContours` after the mask: the contours (with their
     * areas) found in it are taken largest first into at most `maxCount`
     * outputs. The result is false on an early abort and otherwise says
     * whether any contour was output.
     */
    method ComputeBiggestNContours(contours: seq<Contour>, areas: seq<real>, maxCount: int,
                                   requestedMinPoints: int, configuredMinPoints: int)
      returns (ok: bool, outContours: seq<Contour>, outAreas: seq<real>)
      requires |areas| == |contours|
      ensures var sel := SelectFrom(AreaOrder(areas), contours, areas, maxCount,
                                    MinPointsInContour(requestedMinPoints, configuredMinPoints),
                                    frameWidth, frameHeight, [], []);
        ok == (sel.Selected? && |sel.contours| > 0)
        && (sel.Selected? ==> outContours == sel.contours && outAreas == sel.areas)
      ensures ok ==> 0 < |outContours| <= maxCount && AllWellFormed(outContours, outAreas, frameWidth, frameHeight)
      ensures var kept := Kept(AreaOrder(areas), contours, MinPointsInContour(requestedMinPoints, configuredMinPoints));
        var n := Taken(0, maxCount, |kept|);
        && (ok <==> 0 < n && forall k :: 0 <= k < n ==> |WithoutBorder(contours[kept[k]], frameWidth, frameHeight)| >= 1)
        && (ok ==> SelectionOf(Selected(outContours, outAreas), kept, n, contours, areas, frameWidth, frameHeight, [], []))
    {
      var minPoints := MinPointsInContour(requestedMinPoints, configuredMinPoints);
      var order := AreaOrder(areas);
      SelectFromProperties(order, contours, areas, maxCount, minPoints, frameWidth, frameHeight, [], []);
      SelectionFromNothing(order, contours, areas, maxCount, minPoints, frameWidth, frameHeight);
      ok, outContours, outAreas := CopyLargest(order, contours, areas, maxCount, minPoints);
    }

    /** The copy loop over the contours in `order`, one SelectOne per pass. */
    method CopyLargest(order: seq<nat>, contours: seq<Contour>, areas: seq<real>, maxCount: int, minPoints: int)
      returns (ok: bool, outContours: seq<Contour>, outAreas: seq<real>)
      requires forall k :: 0 <= k < |order| ==> order[k] < |contours| && order[k] < |areas|
      ensures var sel := SelectFrom(order, contours, areas, maxCount, minPoints, frameWidth, frameHeight, [], []);
        ok == (sel.Selected? && |sel.contours| > 0)
        && (sel.Selected? ==> sel == Selected(outContours, outAreas))
    {
      ghost var total := SelectFrom(order, contours, areas, maxCount, minPoints, frameWidth, frameHeight, [], []);
      outContours := [];
      outAreas := [];
      var i := 0;
      while i < |order| && |outContours| < maxCount
        invariant 0 <= i <= |order|
        invariant forall k :: 0 <= k < |order[i..]| ==> order[i..][k] < |contours| && order[i..][k] < |areas|
        invariant total == SelectFrom(order[i..], contours, areas, maxCount, minPoints, frameWidth, frameHeight, outContours, outAreas)
      {
        assert order[i..][1..] == order[i + 1..];
        var aborted, nextContours, nextAreas := SelectOne(order[i..], contours, areas, maxCount, minPoints, outContours, outAreas);
        if aborted {
          ok := false;
          return;
        }
        outContours, outAreas := nextContours, nextAreas;
        i := i + 1;
      }
      ok := |outContours| > 0;
      assert total == Selected(outContours, outAreas);
    }
  }
}
