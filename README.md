# PSMoveServiceEx core, modelled in Dafny

PSMoveServiceEx is a tracking service for PlayStation Move, DualShock 4 and
virtual controllers and HMDs. Cameras watch a glowing sphere or light bar,
and inertial sensors add orientation. This project models the deterministic
core of the service and of its configuration tool, and proves properties of
that model.

- **Sensor fusion tick** (`fusion.dfy`, module `Fusion`). A controller view
  queues IMU and optical packets. Each tick drains both queues, sorts the
  packets by timestamp, keeps the newest 100 and hands each one to the pose
  filter with a time step clamped to [1/2500, 1/30] s. The filter is an
  abstract log of its calls.
- **Optical pose estimation** (`optical.dfy`, module `Optical`, as
  specification functions; `optical_view.dfy`, module `ControllerOptics`,
  as the imperative controller view proved to compute them). It covers:
  - the tracker order by screen area;
  - the per-(tracker, controller) occlusion guard and the acceptance gate;
  - the dispatch to the multi-tracker, single-tracker or not-tracking path;
  - the sphere solver: ordered pairs, opposed-camera exclusion, deviation
    gating, ROI reset flags, one-tracker fallback, the prediction ring
    buffer and smoothing;
  - the light-bar solver, over unordered pairs.
  The `static` occlusion arrays and history buffers of the source are
  fields of the view object.
- **Controller-view rules** (`controller_rules.dfy`, module
  `ControllerRules`): the pose-filter factory, `SET_BUTTON_BIT`, the raw
  tracker bitmask, and the tracking listener count with the LED colour it
  drives.
- **Tracker view** (`tracker_view.dfy`, module `TrackerView`;
  `tracker_roi.dfy`, module `TrackerRoi`). It covers:
  - region-of-interest clamping and the HSV hue-wrap bands;
  - contour selection and cleanup;
  - the BGR-to-HSV lookup table and its shared reference count;
  - the nine-tile ROI round robin with its per-pair counters;
  - the acceptance gate of `computeProjectionForController`;
  - the shared-memory stream counter;
  - the corner labelling of the best-fit triangle.
- **Configuration tool**:
  - controller list processing and selection (`controller_settings.dfy`);
  - tracker, controller and HMD selection rules (`tracker_settings.dfy`);
  - the config-file to property-tree mapping, the input clamps and the
    page's load/save rules (`advanced_settings.dfy`).
- **Virtual tracker enumerator** (`virtual_tracker.dfy`).

The source's loops are modelled as `while` loops, in methods that update a
class's fields or that work over sequence parameters, each proved equal to a
specification function. The properties are stated as lemmas about
those functions.

The model makes these outside inputs into parameters:
- camera geometry and the OpenCV/Eigen results (function-valued `Geometry`
  fields, contours and areas passed in);
- the wall clock (`now`);
- the property tree files (`Option<PTree>`);
- the text form of floats (`FloatText`).

## Model

| member | source | states |
|---|---|---|
| Fusion.ImuPackets | src/psmoveservice/Device/View/ServerControllerView.cpp:2516-2697 | one packet at `now`, or two for a PSMove without PS4 firmware (frames 0 and 1, the first stamped half way back to the previous report) exactly when time has passed since that report |
| Fusion.OpticalPacket | src/psmoveservice/Device/View/ServerControllerView.cpp:2614-2766 | stamped `now`; position and area only while tracking; identity orientation for PSMove and virtual controllers; the DS4 passes its orientation only when valid and zeroes an area not above its minimum |
| Fusion.TimeDelta | src/psmoveservice/Device/View/ServerControllerView.cpp:875-890 | the step lies in [1/2500, 1/30], is 1/30 when there was no previous update and is the elapsed time itself when that is in range |
| Fusion.BatchProperties | src/psmoveservice/Device/View/ServerControllerView.cpp:843-869 | at most 100 packets are processed, in non-decreasing timestamp order; exactly max(n-100, 0) are dropped; dropped plus processed is a permutation of the arrivals and no dropped packet is newer than a processed one |
| Fusion.FilterCallsProperties | src/psmoveservice/Device/View/ServerControllerView.cpp:871-913 | one filter call per packet, in order; every step in [1/2500, 1/30]; the first after an invalidated timestamp is 1/30; each later step is measured from the previous packet |
| Fusion.TickCallsOrdered | src/psmoveservice/Device/View/ServerControllerView.cpp:843-913 | the filter sees a tick's packets in non-decreasing timestamp order |
| Fusion.PoseFusion.constructor | src/psmoveservice/Device/View/ServerControllerView.cpp:127-145 | empty queues, no valid timestamps, nothing logged |
| Fusion.PoseFusion.ResetFilterTimestamp | src/psmoveservice/Device/View/ServerControllerView.cpp:337-339 | opening the device invalidates the last filter update |
| Fusion.PoseFusion.NotifySensorDataReceived | src/psmoveservice/Device/View/ServerControllerView.cpp:762-817 | the time since the previous report (0 for the first) is measured, `now` becomes the previous report and the device's IMU packets are appended to the IMU queue |
| Fusion.PoseFusion.PostOpticalPacket | src/psmoveservice/Device/View/ServerControllerView.cpp:716-759 | the optical packet is appended to the optical queue |
| Fusion.PoseFusion.UpdateStateAndPredict | src/psmoveservice/Device/View/ServerControllerView.cpp:822-914 | both queues are emptied; the filter log grows by the calls for the sorted, trimmed batch; the last-update timestamp is the last processed packet's, or unchanged when nothing was processed |
| Fusion.PoseFusion.DrainQueues | src/psmoveservice/Device/View/ServerControllerView.cpp:824-841 | the IMU packets followed by the optical packets, both queues left empty |
| Fusion.PoseFusion.ProcessPackets | src/psmoveservice/Device/View/ServerControllerView.cpp:871-913 | the log grows by exactly the specified filter calls and the state is marked unpublished when any packet was processed |
| ControllerRules.PositionFilterNamesRoundTrip | src/psmoveservice/Device/View/ServerControllerView.cpp:2220-2252 | every position filter type's configuration name resolves back to that type |
| ControllerRules.ParsePositionFilterOnlyNames | src/psmoveservice/Device/View/ServerControllerView.cpp:2220-2252 | a name that resolves is exactly the name of the type it resolves to |
| ControllerRules.OrientationFilterNamesRoundTrip | src/psmoveservice/Device/View/ServerControllerView.cpp:2274-2306 | every orientation filter type's name resolves back to that type |
| ControllerRules.ParseOrientationFilterOnlyNames | src/psmoveservice/Device/View/ServerControllerView.cpp:2274-2306 | a name that resolves is exactly the name of its type |
| ControllerRules.PoseFilterFactory | src/psmoveservice/Device/View/ServerControllerView.cpp:2196-2327 | a Kalman pose filter iff both names are "PoseKalman" (the DS4 one for a DS4); otherwise a compound filter of the resolved names, or the device defaults for names that do not resolve |
| ControllerRules.FactoryDefaults | src/psmoveservice/Device/View/ServerControllerView.cpp:2220-2326 | "" selects no filter; an unknown position name gives LowPassOptical (ComplimentaryOpticalIMU on a DS4); an unknown orientation name gives ComplementaryMARG, ComplementaryOpticalARG or OrientationExternal by device |
| ControllerRules.PoseKalmanAloneIsUnknown | src/psmoveservice/Device/View/ServerControllerView.cpp:2196-2271 | "PoseKalman" with any other orientation name gives a compound filter with the default position filter |
| ControllerRules.SetButtonBit | src/psmoveservice/Device/View/ServerControllerView.cpp:33-34 | bit k of the result is set iff it was set before or k is the button's bit and the button is down or pressed |
| ControllerRules.ValidTrackerBitmaskAsWritten | src/psmoveservice/Device/View/ServerControllerView.cpp:1531-1540 | the loop as written always yields 0 |
| ControllerRules.TrackerBitmaskBits | src/psmoveservice/Device/View/ServerControllerView.cpp:1531-1540 | the intended mask has bit k set iff tracker k is tracking |
| ControllerRules.ValidTrackerBitmask | src/psmoveservice/Device/View/ServerControllerView.cpp:1531-1540 | the corrected loop computes the intended mask |
| ControllerRules.BitmaskDiscrepancy | src/psmoveservice/Device/View/ServerControllerView.cpp:1540 | with one tracking tracker the intended mask is 1, where the loop as written gives 0 |
| ControllerRules.ColorsDistinct | src/psmoveservice/Device/View/ServerControllerView.cpp:1194-1219 | distinct tracking colour ids light distinct, non-black colours |
| ControllerRules.LedColor | src/psmoveservice/Device/View/ServerControllerView.cpp:1229-1248 | the override colour when active, else the tracking colour when tracking is enabled, else black |
| ControllerRules.TrackingControl.constructor | src/psmoveservice/Device/View/ServerControllerView.cpp:127-145 | no listeners, tracking disabled, no override, black colours, no LED command yet; without a device the colour id is INVALID_COLOR |
| ControllerRules.TrackingControl.ReportedColorId | src/psmoveservice/Device/View/ServerControllerView.cpp:1124-1134 | the reported colour id is INVALID_COLOR without a device and the device's id otherwise |
| ControllerRules.TrackingControl.UpdateLed | src/psmoveservice/Device/View/ServerControllerView.cpp:1229-1270 | a PSMove or DS4 is sent the current LED colour; a Navi or virtual controller is sent nothing |
| ControllerRules.TrackingControl.SetTrackingEnabled | src/psmoveservice/Device/View/ServerControllerView.cpp:1182-1227 | only a change of state does anything: enabling takes the colour of the device's colour id, disabling sets black, and the LED is updated |
| ControllerRules.TrackingControl.StartTracking | src/psmoveservice/Device/View/ServerControllerView.cpp:1161-1169 | the listener count always goes up by one; tracking is enabled, with an LED update only on a disabled-to-enabled transition |
| ControllerRules.TrackingControl.StopTracking | src/psmoveservice/Device/View/ServerControllerView.cpp:1171-1180 | requires a listener; the count goes down by one and tracking is disabled when it reaches 0 |
| ControllerRules.TrackingControl.Close | src/psmoveservice/Device/View/ServerControllerView.cpp:344-347 | closing disables tracking and leaves the listener count |
| ControllerRules.TrackingControl.SetLedOverride | src/psmoveservice/Device/View/ServerControllerView.cpp:1110-1115 | the override becomes active with the given colour and the LED shows it |
| ControllerRules.TrackingControl.ClearLedOverride | src/psmoveservice/Device/View/ServerControllerView.cpp:1117-1122 | the override is cleared to black and the LED falls back to the tracking colour or black |
| ControllerRules.TrackingControl.SetTrackingColorId | src/psmoveservice/Device/View/ServerControllerView.cpp:1136-1159 | an id equal to the reported one (INVALID_COLOR without a device) succeeds without effect; any other id succeeds iff there is a device that accepts it, and then tracking, if enabled, is restarted with the new colour; without a device exactly INVALID_COLOR succeeds |
| Optical.OpenEntries | src/psmoveservice/Device/View/ServerControllerView.cpp:479-493 | the open trackers among the first n, each listed once, by ascending id, with its current area; their number is CountOpen |
| Optical.TrackerOrder | src/psmoveservice/Device/View/ServerControllerView.cpp:479-504 | the consulted trackers are a permutation of the open entries, sorted by decreasing screen area |
| Optical.Occlusion | src/psmoveservice/Device/View/ServerControllerView.cpp:563-610 | the pair is occluded exactly when the guard is on, the pair was flagged, the tracker is engaged, the projection lies in the square zone and is too small to regain; the stored centre and flag change as each branch dictates |
| Optical.TrackerStep | src/psmoveservice/Device/View/ServerControllerView.cpp:508-640 | a tracker is accepted exactly when its video is fresh, it is not occluded (or fewer than the ignore-count were accepted), and it was tracking without new state or saw the controller; an occluded tracker is never accepted; stale video leaves the occlusion state alone |
| Optical.SquareOcclusionZone | src/psmoveservice/Device/View/ServerControllerView.cpp:594-596 | the occlusion zone is a square: a point at 0.9·size on both axes is inside although farther than size from the centre |
| Optical.ScanFrom | src/psmoveservice/Device/View/ServerControllerView.cpp:508-640 | the scan only appends accepted ids, each in range with fresh video, and counts at most one available tracker per entry |
| Optical.ScanAcceptsOnlyFresh | src/psmoveservice/Device/View/ServerControllerView.cpp:508-640 | over a list of open trackers every one counts as available, and every accepted id had fresh video |
| Optical.OpenOrderAvailable | src/psmoveservice/Device/View/ServerControllerView.cpp:521-523 | every open tracker in the order adds one to the available count |
| Optical.Dispatch | src/psmoveservice/Device/View/ServerControllerView.cpp:644-706 | more than one accepted tracker triangulates; exactly one uses the single-tracker path when it is the only available tracker or the one-tracker pose is not ignored; otherwise the controller is not tracking |
| Optical.SphereFromTracker | src/psmoveservice/Device/View/ServerControllerView.cpp:2768-2785 | the sphere estimate from one tracker is tracking, without orientation, at the tracker's position moved to world space, with its area |
| Optical.SphereSingle | src/psmoveservice/Device/View/ServerControllerView.cpp:2768-2785 | only the multicam estimate changes, to the one-tracker sphere estimate |
| Optical.LightBarSingle | src/psmoveservice/Device/View/ServerControllerView.cpp:2787-2830 | a failed pose fit clears tracking and keeps the estimates; a successful one stores the fit for the tracker and copies its world position, orientation (cleared when invalid) and area |
| Optical.SphereInfos | src/psmoveservice/Device/View/ServerControllerView.cpp:2862-2880 | one projection info per accepted tracker, in list order, with that tracker's id and area |
| Optical.CountOpen | src/psmoveservice/Device/View/ServerControllerView.cpp:2842-2850 | at most n of the first n trackers are open; CountOpenCounts and OpenEntries say which |
| Optical.CountOpenCounts | src/psmoveservice/Device/View/ServerControllerView.cpp:2842-2850 | the count is the number of ids below n whose tracker is open |
| Optical.RowFrom | src/psmoveservice/Device/View/ServerControllerView.cpp:2904-2958 | the inner pair loop only adds accepted positions and bad deviations |
| Optical.RowsFrom | src/psmoveservice/Device/View/ServerControllerView.cpp:2896-2967 | one stuck flag per projection in the sorted list |
| Optical.MarkFlagged | src/psmoveservice/Device/View/ServerControllerView.cpp:2961-2966 | the length of the tracker estimates is kept |
| Optical.MarkFlaggedMarks | src/psmoveservice/Device/View/ServerControllerView.cpp:2961-2966 | exactly the trackers whose row was flagged get a new ROI forced; every other estimate is unchanged |
| Optical.HistoryLength | src/psmoveservice/Device/View/ServerControllerView.cpp:2995-2999 | the prediction history length is the configured one clamped to 1..50 |
| Optical.SmoothingFactor | src/psmoveservice/Device/View/ServerControllerView.cpp:3041 | the smoothing factor is the configured one capped at 0.99 |
| Optical.Smooth | src/psmoveservice/Device/View/ServerControllerView.cpp:3041-3055 | a factor at most 0.01 takes the new average unchanged |
| Optical.SmoothIsConvex | src/psmoveservice/Device/View/ServerControllerView.cpp:3041-3055 | each smoothed coordinate lies between the previous and the new average |
| Optical.PredictWithHistory | src/psmoveservice/Device/View/ServerControllerView.cpp:2990-3038 | the history keeps 50 slots and its write index stays below the clamped history length |
| Optical.SphereMulti | src/psmoveservice/Device/View/ServerControllerView.cpp:2832-3065 | the sphere multi-tracker estimate has no orientation and the mean area of the accepted trackers; the occlusion state is untouched |
| Optical.SphereSorted | src/psmoveservice/Device/View/ServerControllerView.cpp:2882-2890 | the projection list has one entry per accepted tracker, in range, sorted by decreasing area |
| Optical.SphereSortedInRange | src/psmoveservice/Device/View/ServerControllerView.cpp:2882-2890 | sorting keeps the length and the tracker ids in range |
| Optical.SphereFallbackIsLargest | src/psmoveservice/Device/View/ServerControllerView.cpp:2969-2980 | the tracker used when no pair triangulates is one of the accepted trackers with the largest area |
| Optical.SphereNoPairsUntouched | src/psmoveservice/Device/View/ServerControllerView.cpp:2969-2980 | with no accepted pair and the one-tracker pose ignored, only the orientation and area of the multicam estimate change |
| Optical.SphereFallbackUsed | src/psmoveservice/Device/View/ServerControllerView.cpp:2969-2980 | with no accepted pair and the one-tracker pose allowed, the estimate is tracking at the world position of the accepted tracker with the largest projection, with no orientation and the mean area |
| Optical.SpherePairsAveraged | src/psmoveservice/Device/View/ServerControllerView.cpp:2981-3055 | with accepted pairs the controller is tracking at the smoothed mean of the pair positions; with prediction on, that mean is written into the history slot, the index advances modulo the history length, and the mean is extrapolated from the history mean first |
| Optical.GatedAppend | src/psmoveservice/Device/View/ServerControllerView.cpp:2932-2950 | a position within the deviation bound of the running mean keeps the accepted list within the bound |
| Optical.RowFromGated | src/psmoveservice/Device/View/ServerControllerView.cpp:2904-2958 | the inner pair loop keeps every accepted position within the deviation bound of the mean before it |
| Optical.RowsFromGated | src/psmoveservice/Device/View/ServerControllerView.cpp:2896-2967 | the same holds for the whole pair loop |
| Optical.SpherePairsGated | src/psmoveservice/Device/View/ServerControllerView.cpp:2892-2967 | every triangulated position kept by the sphere solver passed the deviation check against the mean of those before it |
| Optical.RowFromCountsAll | src/psmoveservice/Device/View/ServerControllerView.cpp:2904-2958 | without opposed-camera exclusion or deviation gating, one row accepts every other projection and counts no bad deviation |
| Optical.RowsFromCountsAll | src/psmoveservice/Device/View/ServerControllerView.cpp:2896-2967 | without filtering, the loop accepts (n-i)·(n-1) positions and flags rows only when a single projection exists |
| Optical.SpherePairsCountedTwice | src/psmoveservice/Device/View/ServerControllerView.cpp:2892-2967 | without filtering, n projections give n·(n-1) ordered pairs, each unordered pair counted twice, and no tracker is flagged |
| Optical.LightBarMulti | src/psmoveservice/Device/View/ServerControllerView.cpp:3067-3165 | the light-bar multi-tracker estimate is tracking at the mean of the n(n-1)/2 pair triangulations, takes the weighted-average orientation when there is one and is marked orientation-invalid (keeping its old orientation) when there is none, and has the mean area of the listed trackers; the tracker estimates and the history are untouched |
| Optical.LightBarPairCount | src/psmoveservice/Device/View/ServerControllerView.cpp:3083-3124 | the loop from row i forms (n-i)(n-i-1)/2 pairs |
| Optical.LightBarRowCount | src/psmoveservice/Device/View/ServerControllerView.cpp:3091-3123 | row i from column j forms n-j pairs |
| Optical.LightBarRowShape | src/psmoveservice/Device/View/ServerControllerView.cpp:3091-3123 | the k-th pair of a row pairs row i with column j+k |
| Optical.LightBarPairAtIndex | src/psmoveservice/Device/View/ServerControllerView.cpp:3083-3124 | every pair joins an earlier index to a later one, and is that pair's triangulation |
| Optical.LightBarPairsOrdered | src/psmoveservice/Device/View/ServerControllerView.cpp:3083-3124 | pairs come out in row-major order |
| Optical.LightBarPairsShape | src/psmoveservice/Device/View/ServerControllerView.cpp:3080-3124 | the light-bar solver triangulates each unordered pair of trackers exactly once, in row-major order, weighting each by the sum of the two screen areas |
| Optical.Stamp | src/psmoveservice/Device/View/ServerControllerView.cpp:708-715 | the update time is now, the last-seen time becomes now only while tracking, and the estimate is otherwise kept |
| Optical.Scanned | src/psmoveservice/Device/View/ServerControllerView.cpp:479-640 | the accepted ids are in range and at most one per tracker |
| Optical.Formed | src/psmoveservice/Device/View/ServerControllerView.cpp:644-706 | the dispatched estimate keeps the state's shape |
| Optical.OpticalUpdate | src/psmoveservice/Device/View/ServerControllerView.cpp:451-716 | with tracking disabled nothing changes; otherwise the multicam estimate is timestamped now |
| ControllerOptics.OpticalPoseView.constructor | src/psmoveservice/Device/View/ServerControllerView.cpp:127-145 | every tracker estimate starts cleared, no pair is occluded, the history is zero and its index 0 |
| ControllerOptics.OpticalPoseView.CollectOpenTrackers | src/psmoveservice/Device/View/ServerControllerView.cpp:479-493 | the loop over tracker ids collects exactly the open-tracker entries of the specification |
| ControllerOptics.OpticalPoseView.CountOpenTrackers | src/psmoveservice/Device/View/ServerControllerView.cpp:2842-2850 | the loop counts the open trackers |
| ControllerOptics.OpticalPoseView.VisitTracker | src/psmoveservice/Device/View/ServerControllerView.cpp:508-640 | one tracker's visit updates that tracker's estimate, occlusion flag and centre as the tracker step says, and no other tracker's |
| ControllerOptics.OpticalPoseView.ScanTrackers | src/psmoveservice/Device/View/ServerControllerView.cpp:508-640 | the scan loop produces the accepted ids and available count of the specification and leaves the state it describes |
| ControllerOptics.OpticalPoseView.ProjectAccepted | src/psmoveservice/Device/View/ServerControllerView.cpp:2862-2880 | the loop builds the projection list and the area sum of the accepted trackers |
| ControllerOptics.OpticalPoseView.SpherePairRow | src/psmoveservice/Device/View/ServerControllerView.cpp:2904-2958 | one row of the pair loop sums and counts exactly the positions the specification accepts |
| ControllerOptics.OpticalPoseView.SpherePairLoop | src/psmoveservice/Device/View/ServerControllerView.cpp:2892-2967 | the pair loop's sum, count and forced ROIs are those of the specification's rows and flags |
| ControllerOptics.OpticalPoseView.MarkRow | src/psmoveservice/Device/View/ServerControllerView.cpp:2961-2966 | flagging one more row extends the marked estimates by that row |
| ControllerOptics.OpticalPoseView.PredictFromHistory | src/psmoveservice/Device/View/ServerControllerView.cpp:2990-3038 | the history array, its index and the predicted position are those of the prediction specification |
| ControllerOptics.OpticalPoseView.SphereMultipleTrackers | src/psmoveservice/Device/View/ServerControllerView.cpp:2832-3065 | the sphere multi-tracker routine leaves the state the specification computes |
| ControllerOptics.OpticalPoseView.LightBarPairRow | src/psmoveservice/Device/View/ServerControllerView.cpp:3091-3123 | one row of the light-bar loop accumulates exactly the pairs of that row |
| ControllerOptics.OpticalPoseView.LightBarPairLoop | src/psmoveservice/Device/View/ServerControllerView.cpp:3080-3124 | the light-bar loops accumulate the positions, orientations and weights of every unordered pair, and the area sum of the listed trackers |
| ControllerOptics.OpticalPoseView.LightBarMultipleTrackers | src/psmoveservice/Device/View/ServerControllerView.cpp:3067-3165 | the light-bar multi-tracker routine leaves the state the specification computes |
| ControllerOptics.OpticalPoseView.SingleTracker | src/psmoveservice/Device/View/ServerControllerView.cpp:675-701 | the one-tracker path leaves the sphere or light-bar single-tracker state |
| ControllerOptics.OpticalPoseView.FormEstimate | src/psmoveservice/Device/View/ServerControllerView.cpp:644-706 | the dispatch leaves the state the specification forms from the scan |
| ControllerOptics.OpticalPoseView.UpdateOpticalPoseEstimation | src/psmoveservice/Device/View/ServerControllerView.cpp:451-759 | the whole optical update leaves the specified state, and posts one optical packet to the filter queue exactly when the multicam estimate is tracking |
| TrackerView.ClampedRoi | src/psmoveservice/Device/View/ServerTrackerView.cpp:429-454 | the region is always non-empty and inside the frame; it is the full frame exactly when the request misses [0, W-1) on x or [0, H-1) on y, and otherwise the request intersected with [0, W-1] x [0, H-1] |
| TrackerView.ClampedRoiKeepsInnerRequests | src/psmoveservice/Device/View/ServerTrackerView.cpp:429-454 | a request already inside the frame is kept as it is |
| TrackerView.ClampedRoiIdempotent | src/psmoveservice/Device/View/ServerTrackerView.cpp:429-454 | clamping a clamped region again changes nothing |
| TrackerView.FullFrameRequestIsInset | src/psmoveservice/Device/View/ServerTrackerView.cpp:367 | the full-frame request made at construction is clamped to one pixel less on each axis |
| TrackerView.ClampedRoiFallback | src/psmoveservice/Device/View/ServerTrackerView.cpp:439-453 | in a frame of at least 2 x 2, the full frame is used exactly when, on x or on y, the request is empty, ends at or before 0, or starts at or past the last column or row |
| TrackerView.HueBands | src/psmoveservice/Device/View/ServerTrackerView.cpp:487-532 | one or two bands are searched, with saturation and value clamped to 0..255 and, when two, hue within 0..180 |
| TrackerView.HueBandsMeaning | src/psmoveservice/Device/View/ServerTrackerView.cpp:487-532 | a pixel is in the mask exactly when its hue lies on the hue arc around the centre, wrapping past 0 or 180, and its saturation and value lie in the clamped ranges |
| TrackerView.MinPointsInContour | src/psmoveservice/Device/View/ServerTrackerView.cpp:477-482 | a requested minimum of at least 1 is used, otherwise the configured one raised to at least 1 |
| TrackerView.WithoutBorder | src/psmoveservice/Device/View/ServerTrackerView.cpp:586-600 | the cleaned contour keeps only points of the original that are off the frame border |
| TrackerView.WithoutBorderKeepsInterior | src/psmoveservice/Device/View/ServerTrackerView.cpp:586-600 | every original point off the border survives the cleaning |
| TrackerView.SquareAround | src/psmoveservice/Device/View/ServerTrackerView.cpp:624-628 | the stand-in contour is four points one pixel diagonally away from the mean |
| TrackerView.SelectFromProperties | src/psmoveservice/Device/View/ServerTrackerView.cpp:576-644 | selection only appends contours, never beyond the maximum count, each with at least three points and as far from the border as the cleaning made it |
| TrackerView.Kept | src/psmoveservice/Device/View/ServerTrackerView.cpp:584 | the kept indices are, in order, exactly those of the order whose contour has at least minPoints points |
| TrackerView.SelectFromMeaning | src/psmoveservice/Device/View/ServerTrackerView.cpp:576-644 | the copy loop aborts exactly when one of the first kept contours it has room for has no interior point; otherwise it appends, for each of those in turn, the cleaned contour or its stand-in square and its area or 0.01 |
| TrackerView.BufferState.CopyLargest | src/psmoveservice/Device/View/ServerTrackerView.cpp:576-644 | the loop of SelectOne passes computes the selection SelectFrom specifies |
| TrackerView.StandInSquareInFrame | src/psmoveservice/Device/View/ServerTrackerView.cpp:602-631 | the stand-in square for a contour with 1 or 2 interior points lies inside the frame |
| TrackerView.AreaOrder | src/psmoveservice/Device/View/ServerTrackerView.cpp:566-574 | the contour order lists one in-range index per contour |
| TrackerView.Indices | src/psmoveservice/Device/View/ServerTrackerView.cpp:555-564 | the contour list enumerates each index in order |
| TrackerView.AreaOrderCorrect | src/psmoveservice/Device/View/ServerTrackerView.cpp:566-574 | the order is a permutation of the contour indices sorted by decreasing area |
| TrackerView.LutIndexRoundTrip | src/psmoveservice/Device/View/ServerTrackerView.cpp:283-329 | every byte colour has a table position in range, and the colour stored there before conversion is that colour in BGR order |
| TrackerView.LutColorRoundTrip | src/psmoveservice/Device/View/ServerTrackerView.cpp:301-319 | every table position holds a byte colour whose index is that position |
| TrackerView.LutIndexInjective | src/psmoveservice/Device/View/ServerTrackerView.cpp:326-329 | distinct colours have distinct table positions |
| TrackerView.BgrToHsvMapper.constructor | src/psmoveservice/Device/View/ServerTrackerView.cpp:301-319 | the table has 256^3 entries and position of (r, g, b) holds (b, g, r) |
| TrackerView.BgrToHsvMapper.FillTable | src/psmoveservice/Device/View/ServerTrackerView.cpp:305-316 | the triple loop fills every position with the colour it encodes |
| TrackerView.HsvMapperPool.constructor | src/psmoveservice/Device/View/ServerTrackerView.cpp:333-334 | the shared table starts absent with no references |
| TrackerView.HsvMapperPool.Allocate | src/psmoveservice/Device/View/ServerTrackerView.cpp:257-268 | the first reference creates the table and later ones share it; each adds one reference |
| TrackerView.HsvMapperPool.Dispose | src/psmoveservice/Device/View/ServerTrackerView.cpp:270-282 | each release removes one reference and the last one drops the table |
| TrackerView.BufferState.constructor | src/psmoveservice/Device/View/ServerTrackerView.cpp:339-368 | with the lookup table on, the state takes one reference to the shared table; its region is the clamped full frame |
| TrackerView.BufferState.Release | src/psmoveservice/Device/View/ServerTrackerView.cpp:370-406 | a state holding the table gives its reference back; one without it leaves the pool alone |
| TrackerView.BufferState.ApplyRoi | src/psmoveservice/Device/View/ServerTrackerView.cpp:429-454 | the stored region is the clamped request |
| TrackerView.BufferState.EraseBorderPoints | src/psmoveservice/Device/View/ServerTrackerView.cpp:589-600 | the erase loop leaves exactly the cleaned contour |
| TrackerView.BufferState.ContourMean | src/psmoveservice/Device/View/ServerTrackerView.cpp:608-622 | the averaging loop yields the truncated integer mean of the points |
| TrackerView.BufferState.ComputeBiggestNContours | src/psmoveservice/Device/View/ServerTrackerView.cpp:472-647 | success exactly when there is room for at least one contour and each of the first kept contours, largest first, has an interior point; the output is then those contours (at most the maximum count), each cleaned of border points or replaced by its stand-in square, with its area or 0.01 |
| TrackerRoi.RoiEdgeOffset | src/psmoveservice/Device/View/ServerTrackerView.cpp:1328 | the edge offset is the configured one clamped to 0..64 |
| TrackerRoi.DefaultRoi | src/psmoveservice/Device/View/ServerTrackerView.cpp:2414-2420 | the default region is the screen inset by the edge offset on every side |
| TrackerRoi.TileIsGridCell | src/psmoveservice/Device/View/ServerTrackerView.cpp:2435-2497 | tile k is the cell (k mod 3, k div 3) of a 3 x 3 grid of thirds, with the edge offset taken off the outer sides |
| TrackerRoi.TilesAdjacent | src/psmoveservice/Device/View/ServerTrackerView.cpp:2435-2497 | neighbouring tiles touch, and the nine tiles together span the inset area covered by three thirds |
| TrackerRoi.PlannedRoiDefault | src/psmoveservice/Device/View/ServerTrackerView.cpp:2414-2435 | with ROI disabled, or no tiling and no prior projection, the region is the inset screen |
| TrackerRoi.TilesCycle | src/psmoveservice/Device/View/ServerTrackerView.cpp:2441 | without a prior projection the tiles are visited round robin, repeating every nine calls |
| TrackerRoi.RoiTables.constructor | src/psmoveservice/Device/View/ServerTrackerView.cpp:2408-2409 | every counter starts at 0 and every last centre at (0, 0) |
| TrackerRoi.RoiTables.ComputeTrackerRoi | src/psmoveservice/Device/View/ServerTrackerView.cpp:2399-2664 | the region is the planned one; only this pair's counter advances (and only when ROI is enabled) and only this pair's last centre becomes the region's centre |
| TrackerRoi.ProjectionNeedsColorAndContour | src/psmoveservice/Device/View/ServerTrackerView.cpp:1352-1358 | no projection is accepted without a valid tracking colour and a contour |
| TrackerRoi.SmallProjectionRejectedInPartialRoi | src/psmoveservice/Device/View/ServerTrackerView.cpp:1487-1496 | inside a partial region a projection smaller than the minimum area is rejected; a full-screen region does not apply the area test |
| TrackerRoi.ComputeProjectionForController | src/psmoveservice/Device/View/ServerTrackerView.cpp:1301-1499 | the region searched is the planned one for this tracker and controller, the buffer is clamped to it, success is the specified acceptance, and a forced new ROI stays requested only while no contour is found |
| TrackerRoi.VideoStream.constructor | src/psmoveservice/Device/View/ServerTrackerView.cpp:834-842 | the stream count starts at 0 and nothing is written |
| TrackerRoi.VideoStream.Start | src/psmoveservice/Device/View/ServerTrackerView.cpp:934-937 | starting a stream adds one to the count |
| TrackerRoi.VideoStream.Stop | src/psmoveservice/Device/View/ServerTrackerView.cpp:939-943 | stopping a stream takes one off a positive count |
| TrackerRoi.VideoStream.Close | src/psmoveservice/Device/View/ServerTrackerView.cpp:923-932 | closing drops the shared-memory accessor |
| TrackerRoi.VideoStream.Publish | src/psmoveservice/Device/View/ServerTrackerView.cpp:994-1000 | a frame is written exactly when an accessor exists and a stream is open |
| TrackerRoi.StreamBalance | src/psmoveservice/Device/View/ServerTrackerView.cpp:934-1000 | a usage scenario of the listener count rather than a property the source states: a frame published after a start and a matching stop on an idle stream is not written |
| TrackerRoi.TopCorner | src/psmoveservice/Device/View/ServerTrackerView.cpp:2702-2714 | the chosen corner is the first one nearest to the centre of mass |
| TrackerRoi.CrossAntisymmetric | src/psmoveservice/Device/View/ServerTrackerView.cpp:2750 | an arithmetic helper of LabelCorners rather than a property the source states: swapping the two sides flips the sign of the cross product |
| TrackerRoi.LabelCorners | src/psmoveservice/Device/View/ServerTrackerView.cpp:2716-2755 | the top is the chosen midpoint; the other two are labelled so that the cross product of the sides is not negative |
| TrackerRoi.LabelCornersOrder | src/psmoveservice/Device/View/ServerTrackerView.cpp:2740-2755 | the first other corner is the left one exactly when the cross product is not negative, unless the two coincide |
| TrackerRoi.BestFitTriangle | src/psmoveservice/Device/View/ServerTrackerView.cpp:2666-2756 | a triangle is fitted exactly when the enclosing triangle has three corners; its top is the first midpoint nearest the centre of mass (ties go to the lowest index), and the rest are labelled by the cross product |
| ControllerSettings.FirstMatch | src/psmoveconfigtool/AppStage_ControllerSettings.cpp:201-214 | the index of the first name equal to the entry in its first 32 characters, or -1 exactly when none is |
| ControllerSettings.Resolve | src/psmoveconfigtool/AppStage_ControllerSettings.cpp:1156-1226 | a filter or gain name found in its list keeps its name and index; an unknown one falls back to entry 0 |
| ControllerSettings.BuildInfo | src/psmoveconfigtool/AppStage_ControllerSettings.cpp:1136-1226 | an entry copies the response's id, type and serial, has no parent yet, and has an orientation filter index only for PSMove and DualShock4, a position filter index for all but the Navi, and a gyro gain only for the DualShock4 |
| ControllerSettings.ListedInfos | src/psmoveconfigtool/AppStage_ControllerSettings.cpp:1109-1234 | only PSMove, Navi and virtual controllers are kept |
| ControllerSettings.ListedInfosMembers | src/psmoveconfigtool/AppStage_ControllerSettings.cpp:1228-1234 | every such controller of the response is kept, and the list does not grow |
| ControllerSettings.ListedInfosBuilt | src/psmoveconfigtool/AppStage_ControllerSettings.cpp:1141-1142 | a kept entry starts with no parent candidates and no assigned parent |
| ControllerSettings.LastMatch | src/psmoveconfigtool/AppStage_ControllerSettings.cpp:1243-1255 | the last position holding the serial, or -1 exactly when the serial is absent |
| ControllerSettings.LastMatchAppend | src/psmoveconfigtool/AppStage_ControllerSettings.cpp:1248-1254 | a matching serial appended becomes the last match |
| ControllerSettings.AssignParents | src/psmoveconfigtool/AppStage_ControllerSettings.cpp:1238-1257 | the parent assignment keeps the number of entries |
| ControllerSettings.NaviCandidates | src/psmoveconfigtool/AppStage_ControllerSettings.cpp:1238-1257 | each Navi's parent candidates are the serials of the listed PSMove controllers; its assigned parent index is set exactly when its parent serial is non-empty and among them, and is then the last position holding that serial |
| ControllerSettings.Deduplicated | src/psmoveconfigtool/AppStage_ControllerSettings.cpp:1259-1288 | the cleaned list only keeps entries that are Bluetooth or whose serial no Bluetooth entry has |
| ControllerSettings.DeduplicatedMembers | src/psmoveconfigtool/AppStage_ControllerSettings.cpp:1259-1288 | an entry survives exactly when it is listed and is Bluetooth or no Bluetooth entry shares its serial |
| ControllerSettings.DeduplicatedMembersIn | src/psmoveconfigtool/AppStage_ControllerSettings.cpp:1259-1288 | membership after cleaning against any serial set is listed and surviving |
| ControllerSettings.DeduplicatedAppend | src/psmoveconfigtool/AppStage_ControllerSettings.cpp:1259-1288 | cleaning distributes over concatenation |
| ControllerSettings.DeduplicatedKeepsBluetooth | src/psmoveconfigtool/AppStage_ControllerSettings.cpp:1259-1288 | cleaning never removes a Bluetooth entry's serial |
| ControllerSettings.BluetoothSerialsAppend | src/psmoveconfigtool/AppStage_ControllerSettings.cpp:1268-1276 | the Bluetooth serials of a concatenation are the union of both parts' |
| ControllerSettings.BluetoothSerialsMembers | src/psmoveconfigtool/AppStage_ControllerSettings.cpp:1268-1276 | a serial is a Bluetooth serial exactly when some Bluetooth entry has it |
| ControllerSettings.AllSurviveUnchanged | src/psmoveconfigtool/AppStage_ControllerSettings.cpp:1259-1288 | a list with nothing to remove is left as it is |
| ControllerSettings.FirstUsbMove | src/psmoveconfigtool/AppStage_ControllerSettings.cpp:1290-1299 | the index of the first USB PSMove entry, or -1 exactly when there is none |
| ControllerSettings.SelectedAfterListProperties | src/psmoveconfigtool/AppStage_ControllerSettings.cpp:1102-1328 | covers the function SelectedAfterList: the selection is -1 exactly when the list is empty; otherwise it is the first USB PSMove, or else the old selection when still in range, the last entry when it was beyond the end, and entry 0 when there was none |
| ControllerSettings.ControllerIds | src/psmoveconfigtool/AppStage_ControllerSettings.cpp:1342-1353 | one streamed controller id per entry, in list order |
| ControllerSettings.ControllerSettingsPage.constructor | src/psmoveconfigtool/AppStage_ControllerSettings.cpp:217-222 | the page starts inactive with no selection and no gamepads |
| ControllerSettings.ControllerSettingsPage.RequestControllerList | src/psmoveconfigtool/AppStage_ControllerSettings.cpp:929-946 | the page waits for a list, and a request is sent only when none was pending |
| ControllerSettings.ControllerSettingsPage.FindControllerIdBySerial | src/psmoveconfigtool/AppStage_ControllerSettings.cpp:1368-1382 | the id of the first entry with the serial, or -1 when none has it |
| ControllerSettings.ControllerSettingsPage.RequestSetParentControllerId | src/psmoveconfigtool/AppStage_ControllerSettings.cpp:1399-1414 | a parent request is sent only when both ids are known |
| ControllerSettings.ControllerSettingsPage.HandleControllerListResponse | src/psmoveconfigtool/AppStage_ControllerSettings.cpp:1088-1366 | on success the entries, selection, streamed ids, host serial and gamepad count are those of the processed response and the page is idle; on failure only the state changes, to failed |
| ControllerSettings.ControllerSettingsPage.FindStringEntry | src/psmoveconfigtool/AppStage_ControllerSettings.cpp:201-214 | the search loop returns the first match |
| ControllerSettings.ControllerSettingsPage.BuildListed | src/psmoveconfigtool/AppStage_ControllerSettings.cpp:1109-1234 | the response loop builds the kept entries |
| ControllerSettings.ControllerSettingsPage.AssignNaviParents | src/psmoveconfigtool/AppStage_ControllerSettings.cpp:1238-1257 | the Navi loop assigns parents as specified |
| ControllerSettings.ControllerSettingsPage.NaviWithParents | src/psmoveconfigtool/AppStage_ControllerSettings.cpp:1243-1255 | the inner loop collects the PSMove serials and the parent index |
| ControllerSettings.ControllerSettingsPage.HasBluetoothEntry | src/psmoveconfigtool/AppStage_ControllerSettings.cpp:1268-1276 | the scan finds a Bluetooth entry with the serial exactly when one is listed |
| ControllerSettings.ControllerSettingsPage.RemovePairedUsbEntries | src/psmoveconfigtool/AppStage_ControllerSettings.cpp:1259-1288 | the erase loop leaves the cleaned list |
| ControllerSettings.ControllerSettingsPage.ChooseSelection | src/psmoveconfigtool/AppStage_ControllerSettings.cpp:1302-1328 | the selection chosen is the specified one |
| ControllerSettings.ControllerSettingsPage.CollectIds | src/psmoveconfigtool/AppStage_ControllerSettings.cpp:1342-1353 | the stream loop collects the entries' ids |
| ControllerSettings.ControllerSettingsPage.FindFirstUsbMove | src/psmoveconfigtool/AppStage_ControllerSettings.cpp:1290-1299 | the scan finds the first USB PSMove |
| TrackerSettings.AsSizeT | src/psmoveconfigtool/AppStage_TrackerSettings.cpp:104-113 | a signed index converted for a comparison with a list size keeps its value when non-negative and wraps to a huge value when negative |
| TrackerSettings.AcceptsTrackerIndex | src/psmoveconfigtool/AppStage_TrackerSettings.cpp:102-108 | a requested tracker index is taken exactly when it lies in 0 .. count-1 |
| TrackerSettings.AcceptsControllerIndex | src/psmoveconfigtool/AppStage_TrackerSettings.cpp:110-116 | a requested controller index is taken exactly when it lies in 0 .. count-1 (-1 passes the first test but not the unsigned one) |
| TrackerSettings.PrevTrackerIndex | src/psmoveconfigtool/AppStage_TrackerSettings.cpp:199-211 | "<" steps back one tracker, wrapping from the first to the last |
| TrackerSettings.NextTrackerIndex | src/psmoveconfigtool/AppStage_TrackerSettings.cpp:213-225 | ">" steps forward one tracker, wrapping from the last to the first |
| TrackerSettings.PrevNextInverse | src/psmoveconfigtool/AppStage_TrackerSettings.cpp:199-225 | "<" then ">" (or ">" then "<") returns to the same tracker |
| TrackerSettings.TrackerSelectionAfterList | src/psmoveconfigtool/AppStage_TrackerSettings.cpp:695-718 | as written: a still-valid selection is kept, a stale one becomes 0 (even over an empty list), no selection becomes 0 on a non-empty list, and the selection is -1 only when there was none and the list is empty |
| TrackerSettings.TrackerSelectionAfterListIntended | src/psmoveconfigtool/AppStage_TrackerSettings.cpp:695-718 | corrected: the selection is -1 exactly when the list is empty, and a still-valid one is kept |
| TrackerSettings.TrackerSelectionAgreesOnNonEmpty | src/psmoveconfigtool/AppStage_TrackerSettings.cpp:695-718 | the two agree on every non-empty list |
| TrackerSettings.StaleTrackerSelection | src/psmoveconfigtool/AppStage_TrackerSettings.cpp:95-100 | after an empty list following a selection of 0 the as-written page still selects 0, which indexes an empty list |
| TrackerSettings.SelectionAfterList | src/psmoveconfigtool/AppStage_TrackerSettings.cpp:800-812 | for controllers and HMDs: a still-valid selection is kept, a stale one becomes -1, and no selection becomes 0 on a non-empty list |
| TrackerSettings.KeptControllers | src/psmoveconfigtool/AppStage_TrackerSettings.cpp:770-797 | the kept controllers are a sub-list of the response |
| TrackerSettings.KeptControllersMembers | src/psmoveconfigtool/AppStage_TrackerSettings.cpp:779-797 | a controller is kept exactly when it is listed and is not a Navi |
| TrackerSettings.KeptControllersWithoutNavi | src/psmoveconfigtool/AppStage_TrackerSettings.cpp:779-797 | a response without Navi controllers is kept whole |
| TrackerSettings.TrackerSettingsPage.constructor | src/psmoveconfigtool/AppStage_TrackerSettings.cpp:26-39 | the page starts inactive with empty lists and no selections |
| TrackerSettings.TrackerSettingsPage.Enter | src/psmoveconfigtool/AppStage_TrackerSettings.cpp:41-46 | entering asks for the tracker list unless that request is pending, and changes no list or selection |
| TrackerSettings.TrackerSettingsPage.RequestTrackerList | src/psmoveconfigtool/AppStage_TrackerSettings.cpp:670-681 | a tracker list request is sent only when none was pending |
| TrackerSettings.TrackerSettingsPage.RequestControllerList | src/psmoveconfigtool/AppStage_TrackerSettings.cpp:733-750 | a controller list request is sent only when none was pending |
| TrackerSettings.TrackerSettingsPage.RequestHmdList | src/psmoveconfigtool/AppStage_TrackerSettings.cpp:827-841 | an HMD list request is sent only when none was pending |
| TrackerSettings.TrackerSettingsPage.RequestSearchForNewTrackers | src/psmoveconfigtool/AppStage_TrackerSettings.cpp:910-923 | a search empties the tracker list, clears the tracker selection and always sends |
| TrackerSettings.TrackerSettingsPage.HandleSearchForNewTrackersResponse | src/psmoveconfigtool/AppStage_TrackerSettings.cpp:925-932 | the search result asks for the tracker list again |
| TrackerSettings.TrackerSettingsPage.SetSelectedTrackerIndex | src/psmoveconfigtool/AppStage_TrackerSettings.cpp:102-108 | only an index of a listed tracker replaces the selection |
| TrackerSettings.TrackerSettingsPage.SetSelectedControllerIndex | src/psmoveconfigtool/AppStage_TrackerSettings.cpp:110-116 | only an index of a listed controller replaces the selection |
| TrackerSettings.TrackerSettingsPage.PressPrevTracker | src/psmoveconfigtool/AppStage_TrackerSettings.cpp:195-211 | with trackers listed, "<" moves the selection back cyclically; otherwise nothing changes |
| TrackerSettings.TrackerSettingsPage.PressNextTracker | src/psmoveconfigtool/AppStage_TrackerSettings.cpp:213-225 | with trackers listed, ">" moves the selection forward cyclically; otherwise nothing changes |
| TrackerSettings.TrackerSettingsPage.HandleTrackerListResponse | src/psmoveconfigtool/AppStage_TrackerSettings.cpp:683-731 | on success the trackers are stored, the selection follows the rule as written (so a stale selection can stay 0 on an empty list) and the controller list is asked for; on failure only the state changes |
| TrackerSettings.TrackerSettingsPage.KeepTrackableControllers | src/psmoveconfigtool/AppStage_TrackerSettings.cpp:770-797 | the response loop keeps the non-Navi controllers |
| TrackerSettings.TrackerSettingsPage.HandleControllerListResponse | src/psmoveconfigtool/AppStage_TrackerSettings.cpp:752-825 | on success the non-Navi controllers are stored, the selection follows the controller rule and the HMD list is asked for; on failure only the state changes |
| TrackerSettings.TrackerSettingsPage.HandleHmdListResponse | src/psmoveconfigtool/AppStage_TrackerSettings.cpp:843-908 | on success the HMDs are stored, the selection follows the same rule and the page is idle; on failure the page enters the failed-controller-list state, as the source does |
| AdvancedSettings.SplitPath | src/psmoveconfigtool/AppStage_AdvancedSettings.cpp:217-220 | a dotted cfg_map key splits into at least one path fragment |
| AdvancedSettings.SplitJoinRoundTrip | src/psmoveconfigtool/AppStage_AdvancedSettings.cpp:148-151 | joining the fragments of a key with dots gives the key back, so flattening and putting agree on paths |
| AdvancedSettings.SplitPathWithoutDot | src/psmoveconfigtool/AppStage_AdvancedSettings.cpp:222-244 | a key without a dot is a single fragment |
| AdvancedSettings.FirstIndex | src/psmoveconfigtool/AppStage_AdvancedSettings.cpp:254-274 | a lookup follows the first child with the key, and finds none exactly when no child has it |
| AdvancedSettings.GetAfterPut | src/psmoveconfigtool/AppStage_AdvancedSettings.cpp:217-244 | after a put, the path is present and holds the value put |
| AdvancedSettings.PutLeavesOtherKeys | src/psmoveconfigtool/AppStage_AdvancedSettings.cpp:222-244 | a put under one top-level key leaves every other top-level key as it was |
| AdvancedSettings.LeavesSound | src/psmoveconfigtool/AppStage_AdvancedSettings.cpp:140-161 | every flattened pair is a leaf of the tree, keyed by its non-empty dotted path; interior values are never stored |
| AdvancedSettings.LeavesComplete | src/psmoveconfigtool/AppStage_AdvancedSettings.cpp:140-161 | every leaf with a non-empty dotted path is flattened |
| AdvancedSettings.Store | src/psmoveconfigtool/AppStage_AdvancedSettings.cpp:145 | storing pairs adds exactly their keys to the map |
| AdvancedSettings.StoreAppend | src/psmoveconfigtool/AppStage_AdvancedSettings.cpp:154-160 | storing two lists in turn is storing their concatenation |
| AdvancedSettings.FlattenedKeys | src/psmoveconfigtool/AppStage_AdvancedSettings.cpp:140-161 | after flattening, a key is in cfg_map exactly when it was before or names a leaf |
| AdvancedSettings.FlattenedValues | src/psmoveconfigtool/AppStage_AdvancedSettings.cpp:140-161 | after flattening, a leaf's key holds the value of a leaf with that key, the last one stored when several share it, and every other key keeps its old value |
| AdvancedSettings.StoreValues | src/psmoveconfigtool/AppStage_AdvancedSettings.cpp:145 | a stored key holds the value of the last pair with that key, or its old value when no pair has it |
| AdvancedSettings.ParseInt | src/psmoveconfigtool/AppStage_AdvancedSettings.cpp:251-274 | an integer read from the tree fits in 32 bits |
| AdvancedSettings.IntRoundTrip | src/psmoveconfigtool/AppStage_AdvancedSettings.cpp:222-274 | a 32-bit integer written as text reads back as itself |
| AdvancedSettings.ParseBool | src/psmoveconfigtool/AppStage_AdvancedSettings.cpp:255-273 | "true" and "false" read as the booleans they name |
| AdvancedSettings.BoolRoundTrip | src/psmoveconfigtool/AppStage_AdvancedSettings.cpp:222-274 | a boolean written as text reads back as itself |
| AdvancedSettings.GetAfterPutFields | src/psmoveconfigtool/AppStage_AdvancedSettings.cpp:222-244 | a named field put reads back as the text put when the names are distinct |
| AdvancedSettings.TextsOf | src/psmoveconfigtool/AppStage_AdvancedSettings.cpp:222-244 | one text per named field of the config |
| AdvancedSettings.NamedValues | src/psmoveconfigtool/AppStage_AdvancedSettings.cpp:222-244 | the named puts pair each field name with its text, and the names are distinct |
| AdvancedSettings.ReadFields | src/psmoveconfigtool/AppStage_AdvancedSettings.cpp:249-275 | reading keeps the kind of config and its field names |
| AdvancedSettings.ReadsInt | src/psmoveconfigtool/AppStage_AdvancedSettings.cpp:251 | an integer field whose text is a 32-bit number reads as that number |
| AdvancedSettings.ReadsBool | src/psmoveconfigtool/AppStage_AdvancedSettings.cpp:255 | a boolean field whose text is a boolean reads as that boolean |
| AdvancedSettings.ReadsFloat | src/psmoveconfigtool/AppStage_AdvancedSettings.cpp:252 | a float field whose text round-trips reads as that number |
| AdvancedSettings.NamedFieldsOverride | src/psmoveconfigtool/AppStage_AdvancedSettings.cpp:222-244 | the named puts, made after the cfg_map puts, are what the file holds for those names |
| AdvancedSettings.NamedFieldsRoundTrip | src/psmoveconfigtool/AppStage_AdvancedSettings.cpp:212-275 | reading the named fields back after writing them yields the fields written, whatever the tree held before |
| AdvancedSettings.MapPairs | src/psmoveconfigtool/AppStage_AdvancedSettings.cpp:216-220 | the cfg_map puts are one per key in the map's order, each with the key's value |
| AdvancedSettings.SavedTreeHoldsFields | src/psmoveconfigtool/AppStage_AdvancedSettings.cpp:212-247 | the saved tree holds each named field's text under its name |
| AdvancedSettings.LoadedFields | src/psmoveconfigtool/AppStage_AdvancedSettings.cpp:196-210 | loading keeps the kind of config |
| AdvancedSettings.SaveThenLoad | src/psmoveconfigtool/AppStage_AdvancedSettings.cpp:190-275 | a config saved and loaded again has the same named fields, for every kind of config |
| AdvancedSettings.ConfigFile.constructor | src/psmoveconfigtool/AppStage_AdvancedSettings.cpp:449-463 | a new config has an empty cfg_map, the default fields and is not loaded |
| AdvancedSettings.ConfigFile.MapFlatten | src/psmoveconfigtool/AppStage_AdvancedSettings.cpp:140-161 | the recursive flattening adds exactly the tree's leaves to cfg_map |
| AdvancedSettings.ConfigFile.FlattenChildren | src/psmoveconfigtool/AppStage_AdvancedSettings.cpp:154-160 | the loop over the children stores the leaves of every child, in child order, under the joined keys |
| AdvancedSettings.ConfigFile.Config2PTree | src/psmoveconfigtool/AppStage_AdvancedSettings.cpp:212-247 | the tree built puts every cfg_map pair and then every named field, as the saved tree says |
| AdvancedSettings.ConfigFile.PTree2Config | src/psmoveconfigtool/AppStage_AdvancedSettings.cpp:249-275 | reading a tree flattens it into cfg_map and reads the named fields, keeping the old value where a field is absent or unreadable |
| AdvancedSettings.ConfigFile.Load | src/psmoveconfigtool/AppStage_AdvancedSettings.cpp:196-210 | loading reports whether the file exists and then holds the flattened map and the fields read |
| AdvancedSettings.WithInt | src/psmoveconfigtool/AppStage_AdvancedSettings.cpp:495-975 | setting an integer field keeps the kind of config |
| AdvancedSettings.IntGetSet | src/psmoveconfigtool/AppStage_AdvancedSettings.cpp:495-975 | a field set reads back as the value set, and setting the old value back restores the config |
| AdvancedSettings.WithReal | src/psmoveconfigtool/AppStage_AdvancedSettings.cpp:495-975 | setting a real field keeps the kind of config |
| AdvancedSettings.RealGetSet | src/psmoveconfigtool/AppStage_AdvancedSettings.cpp:495-975 | a real field set reads back as set, and setting the old value back restores the config |
| AdvancedSettings.WithFlag | src/psmoveconfigtool/AppStage_AdvancedSettings.cpp:570-998 | setting a flag keeps the kind of config |
| AdvancedSettings.FlagGetSet | src/psmoveconfigtool/AppStage_AdvancedSettings.cpp:570-998 | a flag set reads back as set, and setting the old value back restores the config |
| AdvancedSettings.EditInt | src/psmoveconfigtool/AppStage_AdvancedSettings.cpp:495-975 | an edited integer lands in its bounds (0..max trackers, 1..50, 0..99999, 0..64, 0..max controllers, 0..max HMDs, 0..999999): the typed value when inside, the nearer bound otherwise; nothing else changes |
| AdvancedSettings.EditReal | src/psmoveconfigtool/AppStage_AdvancedSettings.cpp:512-820 | an edited real lands in its bounds (0..1, 0..100, 0..99999, 0..360): the typed value when inside, the nearer bound otherwise; nothing else changes |
| AdvancedSettings.ClickFlag | src/psmoveconfigtool/AppStage_AdvancedSettings.cpp:570-998 | a checkbox click negates its setting and nothing else |
| AdvancedSettings.ClickEnableRoi | src/psmoveconfigtool/AppStage_AdvancedSettings.cpp:758-765 | the ROI checkbox shows the negation of disable_roi and a click toggles disable_roi |
| AdvancedSettings.AdvancedSettingsPage.constructor | src/psmoveconfigtool/AppStage_AdvancedSettings.cpp:435-438 | the page starts inactive |
| AdvancedSettings.AdvancedSettingsPage.Open | src/psmoveconfigtool/AppStage_AdvancedSettings.cpp:452-463 | a config is created with its defaults and then loaded, and remembers whether that succeeded |
| AdvancedSettings.AdvancedSettingsPage.Enter | src/psmoveconfigtool/AppStage_AdvancedSettings.cpp:445-467 | from inactive the page loads fresh tracker, controller, HMD and device configs and becomes idle; when already idle nothing changes |
| AdvancedSettings.AdvancedSettingsPage.Exit | src/psmoveconfigtool/AppStage_AdvancedSettings.cpp:469-473 | leaving makes the page inactive |
| AdvancedSettings.AdvancedSettingsPage.EditIntSetting | src/psmoveconfigtool/AppStage_AdvancedSettings.cpp:495-975 | an integer input changes only its own config, as the clamped edit says |
| AdvancedSettings.AdvancedSettingsPage.EditRealSetting | src/psmoveconfigtool/AppStage_AdvancedSettings.cpp:512-820 | a float input changes only its own config, as the clamped edit says |
| AdvancedSettings.AdvancedSettingsPage.ClickCheckbox | src/psmoveconfigtool/AppStage_AdvancedSettings.cpp:570-998 | a checkbox changes only its own config's setting |
| AdvancedSettings.AdvancedSettingsPage.SaveSettings | src/psmoveconfigtool/AppStage_AdvancedSettings.cpp:1026-1039 | Save writes the tracker, controller, HMD and device configs in that order, each only when it was loaded |
| AdvancedSettings.AdvancedSettingsPage.SaveIfLoaded | src/psmoveconfigtool/AppStage_AdvancedSettings.cpp:1028-1038 | one config is written, as the tree its save builds, exactly when it was loaded |
| VirtualTracker.Identifier | src/psmoveservice/Device/Enumerator/VirtualTrackerEnumerator.cpp:18 | a virtual tracker's path is "VirtualTracker_" followed by its index |
| VirtualTracker.IdentifierInjective | src/psmoveservice/Device/Enumerator/VirtualTrackerEnumerator.cpp:50 | distinct indexes give distinct paths |
| VirtualTracker.NamedIndex | src/psmoveservice/Device/Enumerator/VirtualTrackerEnumerator.cpp:46-53 | the path names the current index while it is valid, and otherwise the last valid one (or 0) |
| VirtualTracker.VirtualTrackerEnumerator.constructor | src/psmoveservice/Device/Enumerator/VirtualTrackerEnumerator.cpp:12-20 | the enumerator starts at index 0 named "VirtualTracker_0" over the configured count |
| VirtualTracker.VirtualTrackerEnumerator.VendorId | src/psmoveservice/Device/Enumerator/VirtualTrackerEnumerator.cpp:27-30 | the vendor id is 0 exactly for a valid index and -1 otherwise |
| VirtualTracker.VirtualTrackerEnumerator.ProductId | src/psmoveservice/Device/Enumerator/VirtualTrackerEnumerator.cpp:32-35 | the product id is 0 exactly for a valid index and -1 otherwise |
| VirtualTracker.VirtualTrackerEnumerator.Path | src/psmoveservice/Device/Enumerator/VirtualTrackerEnumerator.cpp:22-25 | the path is that of the last valid index, and of the current index while valid |
| VirtualTracker.VirtualTrackerEnumerator.Next | src/psmoveservice/Device/Enumerator/VirtualTrackerEnumerator.cpp:42-56 | next advances the index by one, renames the path only while the new index is valid, and always reports false |
| Common.ClampR | src/psmoveservice/Device/View/ServerTrackerView.cpp:491-494 | a clamped real is inside the bounds, equal to the value when inside and to the nearer bound otherwise |
| Common.ClampI | src/psmoveservice/Device/View/ServerTrackerView.cpp:1328 | a clamped integer is inside the bounds, equal to the value when inside and to the nearer bound otherwise |
| Common.TruncDiv | src/psmoveservice/Device/View/ServerTrackerView.cpp:621-622 | C++ integer division truncates toward zero: the quotient has the sign of the dividend and its magnitude is the number of whole divisors in the dividend's magnitude |
| Common.InsertByCorrect | src/psmoveservice/Device/View/ServerControllerView.cpp:498-504 | inserting into a sorted list keeps it sorted and adds exactly the element |
| Common.SortByCorrect | src/psmoveservice/Device/View/ServerControllerView.cpp:498-504 | the area sort returns a permutation of its input in non-increasing key order |
| Common.NatToStringRoundTrip | src/psmoveservice/Device/Enumerator/VirtualTrackerEnumerator.cpp:50 | the decimal text of an index reads back as that index |

## Left out

- Concurrency: the lock-free IMU queue is a plain sequence, and the camera threads are not modelled.
- Wall-clock time is the parameter `now`, in integer nanoseconds; the conversion of durations to seconds is exact, with no float rounding.
- Floating point: every `float` and `double` is a real number. NaN, infinities and rounding are not modelled.
- Camera geometry is left abstract: triangulation, world transforms, the light-bar pose fit, the quaternion weighted average, projection into screen space and the projected ROI refinement. They are fields of `Optical.Geometry` or inputs.
- OpenCV image work is not modelled (`cvtColor`, `inRange`, `findContours`, `contourArea`, `minEnclosingTriangle`, `moments`). Contours and their areas are inputs, and the lookup table stores the colour before the HSV conversion.
- The pose filter implementations and the tracker manager's colour pool are not part of this model. The filter is a log of its `update` calls, and the pool is a parameter that accepts or refuses a colour.
- Protobuf data frames, shared-memory copies and device I/O are not modelled. Only `SET_BUTTON_BIT`, the raw-tracker bitmask and the stream publish guard are.
- Files: property-tree JSON reading and writing, `getConfigPath` (HOME, APPDATA, geteuid) and file existence are not modelled. A file's contents is an `Option<PTree>` input, and a save returns the tree it would write.
- The iteration order of `std::map` is a parameter `order` that lists every key once.
- The text form of floats is a parameter `FloatText` with an abstract formatter and parser. A float field reads back only when its text round-trips.
- AdvancedSettings.SplitPath: splits at every '.', so "a." is the two fragments "a" and "" and the empty key is the one fragment "". The tree's path type drops a trailing separator and reads the empty key as the root. Flattened keys of that shape (a child with an empty key, as JSON arrays have, gives a key ending in '.') are therefore put one level deeper than the source puts them.
- AdvancedSettings.ParseInt: accepts an optional '-' and decimal digits. Leading '+', whitespace and other stream corner cases of boost's int parsing are not modelled.
- AdvancedSettings.ParseBool: accepts "0", "1", "true" and "false" only. Other forms such as surrounding whitespace are not modelled.
- The config defaults and the `PSMOVESERVICE_MAX_*` constants are in headers that are not part of this model. They are parameters (`defaults`, `Limits`).
- The initial value of `isLoaded` is not visible in the modelled files. A new config is assumed not loaded, and `enter` sets the flag from the load result before anything reads it.
- AdvancedSettings.ConfigFile.Config2PTree: a cfg_map key that is both a leaf and the prefix of another key, and the interior data lost that way, is not characterised beyond the tree the method builds.
- Each GUI edit is modelled as applied when the ImGui widget reports a change. Rendering, tooltips, the Win32 service restart and the open-folder buttons are not modelled.
- The device poll interval inputs are commented out in the source, for both the page and the config file, and are not modelled.
- VirtualTracker.VirtualTrackerEnumerator.Next: the index is an unbounded integer, so the 32-bit overflow after 2^31 calls is not modelled.
- The sort used for every `std::sort` is one stable insertion sort. Only sortedness and permutation are claimed, which is what the unstable C++ sort also guarantees.
- Optical.LightBarMulti indexes the tracker estimates by their position in the list, not by tracker id, as the source does.
- Fusion.PoseFusion.NotifySensorDataReceived: requires a non-Navi device, because the source asserts on a Navi.
- Tracker open, close and poll, frame size changes, HMD views and calibration stages are outside the modelled core.

## Findings

| source | as written | input that shows it | evidently intended | confidence | as-written member | corrected member |
|---|---|---|---|---|---|---|
| src/psmoveservice/Device/View/ServerControllerView.cpp:1531-1540 | the raw tracker bitmask starts at 0 and is combined with `&=`, so it stays 0 | one tracker, tracking: the mask is 0 | bit k set iff tracker k is tracking (`\|=`) | not executed | ControllerRules.ValidTrackerBitmaskAsWritten, ControllerRules.BitmaskDiscrepancy | ControllerRules.ValidTrackerBitmask, ControllerRules.TrackerBitmaskBits |
| src/psmoveconfigtool/AppStage_TrackerSettings.cpp:707-718 | a previous selection that is now out of range becomes 0 even when the new tracker list is empty, and `getSelectedTrackerInfo` (lines 95-100) then indexes the empty list | selection 0, then an empty tracker list: the selection stays 0 | -1 on an empty list | not executed | TrackerSettings.TrackerSelectionAfterList, TrackerSettings.StaleTrackerSelection | TrackerSettings.TrackerSelectionAfterListIntended, TrackerSettings.TrackerSelectionAgreesOnNonEmpty |
