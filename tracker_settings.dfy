// The tracker settings page of the configuration tool: the tracker,
// controller and HMD lists it fetches one after another, the selections it
// keeps across list refreshes, the "<"/">" buttons that cycle through the
// trackers, and the guards that keep it from sending a request twice.

module TrackerSettings {
  import opened Common

  /** The page's menu states (eTrackerMenuState). */
  datatype TrackerMenuState =
    | Inactive
    | Idle
    | PendingSearchForNewTrackersRequest
    | PendingTrackerListRequest
    | FailedTrackerListRequest
    | PendingControllerListRequest
    | FailedControllerListRequest
    | PendingHmdListRequest
    | FailedHmdListRequest

  /** The requests the page sends to the service. */
  datatype Request = GetTrackerList | GetControllerList | GetHmdList | SearchForNewTrackers

  /** The part of a PSMClientTrackerInfo the page uses. */
  datatype TrackerInfo = TrackerInfo(trackerId: int)

  /** One entry of a controller list response, and the ControllerInfo the page keeps for it. */
  datatype TrackedController = TrackedController(controllerId: int, kind: DeviceType, trackingColor: int)

  /** The HMD kinds an HMD list response may carry. */
  datatype HmdType = Morpheus | VirtualHmd

  /** One entry of an HMD list response, and the HMDInfo the page keeps for it. */
  datatype HmdEntry = HmdEntry(hmdId: int, kind: HmdType, trackingColor: int)

  const SizeTModulus: int := 0x1_0000_0000_0000_0000

  /** The value a C++ `int` takes when it is compared with a `size_t`. */
  function AsSizeT(i: int): (r: nat)
    requires IsInt32(i)
    ensures r < SizeTModulus
    ensures i >= 0 ==> r == i
    ensures i < 0 ==> r >= SizeTModulus - 0x8000_0000
  {
    if i >= 0 then i else i + SizeTModulus
  }

  /**
   * The guard of set_selectedTrackerIndex: `index != -1` and `index` below
   * the list size in the unsigned comparison.
   */
  function AcceptsTrackerIndex(index: int, count: nat): (b: bool)
    requires IsInt32(index) && count < 0x8000_0000
    ensures b <==> 0 <= index < count
  {
    index != -1 && AsSizeT(index) < count
  }

  /**
   * The guard of set_selectedControllerIndex: `index > -2` is meant to let
   * -1 ("no controller") through, but the unsigned comparison rejects it.
   */
  function AcceptsControllerIndex(index: int, count: nat): (b: bool)
    requires IsInt32(index) && count < 0x8000_0000
    ensures b <==> 0 <= index < count
  {
    index > -2 && AsSizeT(index) < count
  }

  /** The tracker selected after "<": the previous one, wrapping from the first to the last. */
  function PrevTrackerIndex(i: int, count: nat): (r: int)
    requires 0 <= i < count
    ensures 0 <= r < count
    ensures r == (i - 1) % count
  {
    if i > 0 then i - 1 else count - 1
  }

  /** The tracker selected after ">": the next one, wrapping from the last to the first. */
  function NextTrackerIndex(i: int, count: nat): (r: int)
    requires 0 <= i < count
    ensures 0 <= r < count
    ensures r == (i + 1) % count
  {
    if i + 1 < count then i + 1 else 0
  }

  /** ">" undoes "<" and "<" undoes ">". */
  lemma PrevNextInverse(i: int, count: nat)
    requires 0 <= i < count
    ensures NextTrackerIndex(PrevTrackerIndex(i, count), count) == i
    ensures PrevTrackerIndex(NextTrackerIndex(i, count), count) == i
  {
  }

  /**
   * The tracker selection after a successful tracker list response, as
   * written: a previous selection stays when still in range and becomes 0
   * otherwise, even when the new list is empty; no previous selection picks
   * the first tracker if there is one.
   */
  function TrackerSelectionAfterList(oldIndex: int, count: nat): (r: int)
    requires IsInt32(oldIndex) && count < 0x8000_0000
    ensures oldIndex != -1 && 0 <= oldIndex < count ==> r == oldIndex
    ensures r == -1 <==> oldIndex == -1 && count == 0
    ensures count > 0 ==> 0 <= r < count
    ensures count == 0 ==> r == -1 || r == 0
    ensures oldIndex != -1 && !(0 <= oldIndex < count) ==> r == 0
    ensures oldIndex == -1 && count > 0 ==> r == 0
  {
    if oldIndex != -1 then
      (if AsSizeT(oldIndex) < count then oldIndex else 0)
    else
      (if count > 0 then 0 else -1)
  }

  /**
   * The selection the code evidently means: like the code while the list is
   * non-empty, but "nothing selected" when the new list is empty.
   */
  function TrackerSelectionAfterListIntended(oldIndex: int, count: nat): (r: int)
    requires IsInt32(oldIndex) && count < 0x8000_0000
    ensures r == -1 || 0 <= r < count
    ensures r == -1 <==> count == 0
    ensures oldIndex != -1 && 0 <= oldIndex < count ==> r == oldIndex
  {
    if count == 0 then -1 else TrackerSelectionAfterList(oldIndex, count)
  }

  /** The two agree on every non-empty list. */
  lemma TrackerSelectionAgreesOnNonEmpty(oldIndex: int, count: nat)
    requires IsInt32(oldIndex) && 0 < count < 0x8000_0000
    ensures TrackerSelectionAfterListIntended(oldIndex, count) == TrackerSelectionAfterList(oldIndex, count)
  {
  }

  /**
   * The code as written leaves index 0 selected in an empty tracker list, and
   * getSelectedTrackerInfo then reads entry 0 of an empty vector.
   */
  lemma StaleTrackerSelection()
    ensures TrackerSelectionAfterList(0, 0) == 0
    ensures TrackerSelectionAfterListIntended(0, 0) == -1
  {
  }

  /**
   * The controller (and HMD) selection after a successful list response: a
   * previous selection stays when still in range and is dropped otherwise;
   * no previous selection picks the first entry if there is one.
   */
  function SelectionAfterList(oldIndex: int, count: nat): (r: int)
    requires IsInt32(oldIndex) && count < 0x8000_0000
    ensures r == -1 || 0 <= r < count
    ensures r == oldIndex <==> (oldIndex == -1 && count == 0) || 0 <= oldIndex < count
    ensures oldIndex == -1 && count > 0 ==> r == 0
    ensures oldIndex != -1 && !(0 <= oldIndex < count) ==> r == -1
  {
    if oldIndex != -1 then
      (if AsSizeT(oldIndex) < count then oldIndex else -1)
    else
      (if count > 0 then 0 else -1)
  }

  /** The controllers a controller list response leaves on the page: every one but the Navis. */
  function KeptControllers(entries: seq<TrackedController>): (r: seq<TrackedController>)
    ensures |r| <= |entries|
  {
    if entries == [] then []
    else
      var last := entries[|entries| - 1];
      KeptControllers(entries[..|entries| - 1]) + (if last.kind != PSNavi then [last] else [])
  }

  /** An entry stays exactly when it is in the response and is not a Navi. */
  lemma {:induction false} KeptControllersMembers(entries: seq<TrackedController>)
    ensures forall c :: c in KeptControllers(entries) <==> c in entries && c.kind != PSNavi
  {
    if entries != [] {
      var init := entries[..|entries| - 1];
      KeptControllersMembers(init);
      assert entries == init + [entries[|entries| - 1]];
    }
  }

  /** Responses without Navis are kept whole. */
  lemma {:induction false} KeptControllersWithoutNavi(entries: seq<TrackedController>)
    requires forall k :: 0 <= k < |entries| ==> entries[k].kind != PSNavi
    ensures KeptControllers(entries) == entries
  {
    if entries != [] {
      var init := entries[..|entries| - 1];
      KeptControllersWithoutNavi(init);
      assert entries == init + [entries[|entries| - 1]];
    }
  }

  /** The tracker settings page: its menu state, its three lists and their selections. */
  class TrackerSettingsPage {
    var menuState: TrackerMenuState
    var trackerInfos: seq<TrackerInfo>
    var controllerInfos: seq<TrackedController>
    var hmdInfos: seq<HmdEntry>
    var selectedTrackerIndex: int
    var selectedControllerIndex: int
    var selectedHmdIndex: int
    /** The requests sent to the service, oldest first. */
    var sent: seq<Request>

    /**
     * The selections the page keeps: a controller or HMD selection is "none"
     * or an entry of its list; while trackers are listed one of them is
     * selected, and on an empty list the selection is "none" or the stale 0
     * the list response leaves behind.
     */
    ghost predicate Valid()
      reads this
    {
      && -1 <= selectedControllerIndex < |controllerInfos| < 0x8000_0000
      && -1 <= selectedHmdIndex < |hmdInfos| < 0x8000_0000
      && |trackerInfos| < 0x8000_0000
      && (|trackerInfos| > 0 ==> 0 <= selectedTrackerIndex < |trackerInfos|)
      && (|trackerInfos| == 0 ==> selectedTrackerIndex == -1 || selectedTrackerIndex == 0)
    }

    constructor()
      ensures Valid()
      ensures menuState == Inactive && sent == []
      ensures trackerInfos == [] && controllerInfos == [] && hmdInfos == []
      ensures selectedTrackerIndex == -1 && selectedControllerIndex == -1 && selectedHmdIndex == -1
    {
      menuState := Inactive;
      trackerInfos := [];
      controllerInfos := [];
      hmdInfos := [];
      selectedTrackerIndex := -1;
      selectedControllerIndex := -1;
      selectedHmdIndex := -1;
      sent := [];
    }

    /** enter(): ask for the tracker list. */
    method Enter()
      requires Valid()
      modifies this
      ensures Valid()
      ensures old(menuState) != PendingTrackerListRequest ==>
        menuState == PendingTrackerListRequest && sent == old(sent) + [GetTrackerList]
      ensures old(menuState) == PendingTrackerListRequest ==> menuState == old(menuState) && sent == old(sent)
      ensures unchanged(this`trackerInfos, this`controllerInfos, this`hmdInfos)
      ensures unchanged(this`selectedTrackerIndex, this`selectedControllerIndex, this`selectedHmdIndex)
    {
      RequestTrackerList();
    }

    /** Asks for the tracker list unless that request is already pending. */
    method RequestTrackerList()
      requires Valid()
      modifies this
      ensures Valid()
      ensures old(menuState) != PendingTrackerListRequest ==>
        menuState == PendingTrackerListRequest && sent == old(sent) + [GetTrackerList]
      ensures old(menuState) == PendingTrackerListRequest ==> menuState == old(menuState) && sent == old(sent)
      ensures unchanged(this`trackerInfos, this`controllerInfos, this`hmdInfos)
      ensures unchanged(this`selectedTrackerIndex, this`selectedControllerIndex, this`selectedHmdIndex)
    {
      if menuState != PendingTrackerListRequest {
        menuState := PendingTrackerListRequest;
        sent := sent + [GetTrackerList];
      }
    }

    /** Asks for the controller list unless that request is already pending. */
    method RequestControllerList()
      requires Valid()
      modifies this
      ensures Valid()
      ensures old(menuState) != PendingControllerListRequest ==>
        menuState == PendingControllerListRequest && sent == old(sent) + [GetControllerList]
      ensures old(menuState) == PendingControllerListRequest ==> menuState == old(menuState) && sent == old(sent)
      ensures unchanged(this`trackerInfos, this`controllerInfos, this`hmdInfos)
      ensures unchanged(this`selectedTrackerIndex, this`selectedControllerIndex, this`selectedHmdIndex)
    {
      if menuState != PendingControllerListRequest {
        menuState := PendingControllerListRequest;
        sent := sent + [GetControllerList];
      }
    }

    /** Asks for the HMD list unless that request is already pending. */
    method RequestHmdList()
      requires Valid()
      modifies this
      ensures Valid()
      ensures old(menuState) != PendingHmdListRequest ==>
        menuState == PendingHmdListRequest && sent == old(sent) + [GetHmdList]
      ensures old(menuState) == PendingHmdListRequest ==> menuState == old(menuState) && sent == old(sent)
      ensures unchanged(this`trackerInfos, this`controllerInfos, this`hmdInfos)
      ensures unchanged(this`selectedTrackerIndex, this`selectedControllerIndex, this`selectedHmdIndex)
    {
      if menuState != PendingHmdListRequest {
        menuState := PendingHmdListRequest;
        sent := sent + [GetHmdList];
      }
    }

    /** Asks the service to look for new trackers, forgetting the current list. */
    method RequestSearchForNewTrackers()
      requires Valid()
      modifies this
      ensures Valid()
      ensures menuState == PendingSearchForNewTrackersRequest
      ensures sent == old(sent) + [SearchForNewTrackers]
      ensures trackerInfos == [] && selectedTrackerIndex == -1
      ensures unchanged(this`controllerInfos, this`hmdInfos, this`selectedControllerIndex, this`selectedHmdIndex)
    {
      menuState := PendingSearchForNewTrackersRequest;
      selectedTrackerIndex := -1;
      trackerInfos := [];
      sent := sent + [SearchForNewTrackers];
    }

    /** Whatever the search found, the tracker list is fetched again. */
    method HandleSearchForNewTrackersResponse()
      requires Valid()
      modifies this
      ensures Valid()
      ensures old(menuState) != PendingTrackerListRequest ==>
        menuState == PendingTrackerListRequest && sent == old(sent) + [GetTrackerList]
      ensures old(menuState) == PendingTrackerListRequest ==> menuState == old(menuState) && sent == old(sent)
      ensures unchanged(this`trackerInfos, this`controllerInfos, this`hmdInfos)
      ensures unchanged(this`selectedTrackerIndex, this`selectedControllerIndex, this`selectedHmdIndex)
    {
      RequestTrackerList();
    }

    /** set_selectedTrackerIndex: takes `index` only when it names a listed tracker. */
    method SetSelectedTrackerIndex(index: int)
      requires Valid() && IsInt32(index)
      modifies this`selectedTrackerIndex
      ensures Valid()
      ensures selectedTrackerIndex == if 0 <= index < |trackerInfos| then index else old(selectedTrackerIndex)
    {
      selectedTrackerIndex := if AcceptsTrackerIndex(index, |trackerInfos|) then index else selectedTrackerIndex;
    }

    /** set_selectedControllerIndex: takes `index` only when it names a listed controller. */
    method SetSelectedControllerIndex(index: int)
      requires Valid() && IsInt32(index)
      modifies this`selectedControllerIndex
      ensures Valid()
      ensures selectedControllerIndex == if 0 <= index < |controllerInfos| then index else old(selectedControllerIndex)
    {
      selectedControllerIndex := if AcceptsControllerIndex(index, |controllerInfos|) then index else selectedControllerIndex;
    }

    /** The "<" button, shown while trackers are listed. */
    method PressPrevTracker()
      requires Valid()
      modifies this`selectedTrackerIndex
      ensures Valid()
      ensures |trackerInfos| > 0 ==> selectedTrackerIndex == PrevTrackerIndex(old(selectedTrackerIndex), |trackerInfos|)
      ensures |trackerInfos| == 0 ==> selectedTrackerIndex == old(selectedTrackerIndex)
    {
      if |trackerInfos| > 0 {
        if selectedTrackerIndex > 0 {
          selectedTrackerIndex := selectedTrackerIndex - 1;
        } else {
          selectedTrackerIndex := |trackerInfos| - 1;
        }
      }
    }

    /** The ">" button, shown while trackers are listed. */
    method PressNextTracker()
      requires Valid()
      modifies this`selectedTrackerIndex
      ensures Valid()
      ensures |trackerInfos| > 0 ==> selectedTrackerIndex == NextTrackerIndex(old(selectedTrackerIndex), |trackerInfos|)
      ensures |trackerInfos| == 0 ==> selectedTrackerIndex == old(selectedTrackerIndex)
    {
      if |trackerInfos| > 0 {
        if selectedTrackerIndex + 1 < |trackerInfos| {
          selectedTrackerIndex := selectedTrackerIndex + 1;
        } else {
          selectedTrackerIndex := 0;
        }
      }
    }

    /**
     * handle_tracker_list_response: on success the page lists the reported
     * trackers, re-selects as the code is written
     * (TrackerSelectionAfterList) and asks for the
     * controller list; on failure it only records the failure.
     */
    method HandleTrackerListResponse(result: ResultCode, trackers: seq<TrackerInfo>)
      requires Valid() && |trackers| < 0x8000_0000
      modifies this
      ensures Valid()
      ensures result == Success ==>
        && trackerInfos == trackers
        && selectedTrackerIndex == TrackerSelectionAfterList(old(selectedTrackerIndex), |trackers|)
        && (old(menuState) != PendingControllerListRequest ==>
              menuState == PendingControllerListRequest && sent == old(sent) + [GetControllerList])
        && (old(menuState) == PendingControllerListRequest ==> menuState == old(menuState) && sent == old(sent))
      ensures result != Success ==>
        menuState == FailedTrackerListRequest && sent == old(sent)
        && unchanged(this`trackerInfos, this`selectedTrackerIndex)
      ensures unchanged(this`controllerInfos, this`hmdInfos, this`selectedControllerIndex, this`selectedHmdIndex)
    {
      if result == Success {
        var oldSelected := selectedTrackerIndex;
        var listed: seq<TrackerInfo> := [];
        var i := 0;
        while i < |trackers|
          invariant 0 <= i <= |trackers|
          invariant listed == trackers[..i]
        {
          listed := listed + [trackers[i]];
          i := i + 1;
        }
        assert trackers[..|trackers|] == trackers;
        trackerInfos := listed;
        selectedTrackerIndex := TrackerSelectionAfterList(oldSelected, |trackerInfos|);
        RequestControllerList();
      } else {
        menuState := FailedTrackerListRequest;
      }
    }

    /** The controllers of a response the page keeps, in order. */
    static method KeepTrackableControllers(entries: seq<TrackedController>) returns (kept: seq<TrackedController>)
      ensures kept == KeptControllers(entries)
    {
      kept := [];
      var i := 0;
      while i < |entries|
        invariant 0 <= i <= |entries|
        invariant kept == KeptControllers(entries[..i])
      {
        assert entries[..i + 1][..i] == entries[..i];
        if entries[i].kind != PSNavi {
          kept := kept + [entries[i]];
        }
        i := i + 1;
      }
      assert entries[..|entries|] == entries;
    }

    /**
     * handle_controller_list_response: on success the page lists every
     * reported controller but the Navis, re-selects (SelectionAfterList) and
     * asks for the HMD list; on failure it only records the failure.
     */
    method HandleControllerListResponse(result: ResultCode, entries: seq<TrackedController>)
      requires Valid() && |entries| < 0x8000_0000
      modifies this
      ensures Valid()
      ensures result == Success ==>
        && controllerInfos == KeptControllers(entries)
        && selectedControllerIndex == SelectionAfterList(old(selectedControllerIndex), |controllerInfos|)
        && (old(menuState) != PendingHmdListRequest ==>
              menuState == PendingHmdListRequest && sent == old(sent) + [GetHmdList])
        && (old(menuState) == PendingHmdListRequest ==> menuState == old(menuState) && sent == old(sent))
      ensures result != Success ==>
        menuState == FailedControllerListRequest && sent == old(sent)
        && unchanged(this`controllerInfos, this`selectedControllerIndex)
      ensures unchanged(this`trackerInfos, this`hmdInfos, this`selectedTrackerIndex, this`selectedHmdIndex)
    {
      if result == Success {
        var oldSelected := selectedControllerIndex;
        var kept := KeepTrackableControllers(entries);
        controllerInfos := kept;
        selectedControllerIndex := SelectionAfterList(oldSelected, |controllerInfos|);
        RequestHmdList();
      } else {
        menuState := FailedControllerListRequest;
      }
    }

    /**
     * handle_hmd_list_response: on success the page lists every reported HMD,
     * re-selects (SelectionAfterList) and goes idle; a failure is recorded
     * as a failed controller list request, as the code does.
     */
    method HandleHmdListResponse(result: ResultCode, entries: seq<HmdEntry>)
      requires Valid() && |entries| < 0x8000_0000
      modifies this
      ensures Valid()
      ensures result == Success ==>
        && hmdInfos == entries
        && selectedHmdIndex == SelectionAfterList(old(selectedHmdIndex), |entries|)
        && menuState == Idle
      ensures result != Success ==>
        menuState == FailedControllerListRequest && unchanged(this`hmdInfos, this`selectedHmdIndex)
      ensures sent == old(sent)
      ensures unchanged(this`trackerInfos, this`controllerInfos, this`selectedTrackerIndex, this`selectedControllerIndex)
    {
      if result == Success {
        var oldSelected := selectedHmdIndex;
        var listed: seq<HmdEntry> := [];
        var i := 0;
        while i < |entries|
          invariant 0 <= i <= |entries|
          invariant listed == entries[..i]
        {
          listed := listed + [entries[i]];
          i := i + 1;
        }
        assert entries[..|entries|] == entries;
        hmdInfos := listed;
        selectedHmdIndex := SelectionAfterList(oldSelected, |hmdInfos|);
        menuState := Idle;
      } else {
        menuState := FailedControllerListRequest;
      }
    }
  }
}
