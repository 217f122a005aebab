/**
 * The list logic of the config tool's controller settings page: turning a
 * controller-list response into the page's entries (filter-name
 * resolution, the kept device types, the Navi parent candidates, the
 * removal of USB entries already paired over Bluetooth), choosing the
 * selected entry, and the request guards. Rendering and the client API
 * calls are not modelled.
 */
module ControllerSettings {
  import opened Common

  /** The first 32 characters, which are all `strncmp(a, b, 32)` compares (strings hold no NUL). */
  function Prefix32(s: string): string
  {
    if |s| <= 32 then s else s[..32]
  }

  predicate StrnEq32(a: string, b: string) { Prefix32(a) == Prefix32(b) }

  /** The index of the first entry matching `entry`, or -1. */
  function FirstMatch(entry: string, list: seq<string>): (r: int)
    ensures -1 <= r < |list|
    ensures r == -1 <==> forall k :: 0 <= k < |list| ==> !StrnEq32(entry, list[k])
    ensures r >= 0 ==> StrnEq32(entry, list[r]) && forall k :: 0 <= k < r ==> !StrnEq32(entry, list[k])
  {
    if list == [] then -1
    else if StrnEq32(entry, list[0]) then 0
    else
      var r := FirstMatch(entry, list[1..]);
      assert forall k :: 0 < k < |list| ==> list[k] == list[1..][k - 1];
      if r == -1 then -1 else r + 1
  }

  /** `find_string_entry`: the search loop with its early break. */
  method FindStringEntry(entry: string, list: seq<string>) returns (found: int)
    ensures found == FirstMatch(entry, list)
  {
    found := -1;
    var k := 0;
    while k < |list|
      invariant 0 <= k <= |list|
      invariant forall j :: 0 <= j < k ==> !StrnEq32(entry, list[j])
    {
      if StrnEq32(entry, list[k]) {
        found := k;
        return;
      }
      k := k + 1;
    }
  }

  const PositionFilterNames: seq<string> :=
    ["PassThru", "LowPassOptical", "LowPassIMU", "LowPassExponential", "ComplimentaryOpticalIMU",
     "PositionKalman", "PositionExternalAttachment"]

  const PSMoveOrientationFilterNames: seq<string> :=
    ["PassThru", "MadgwickARG", "MadgwickMARG", "ComplementaryMARG", "ComplementaryOpticalARG",
     "OrientationKalman", "OrientationExternal"]

  const DS4OrientationFilterNames: seq<string> :=
    ["PassThru", "MadgwickARG", "ComplementaryOpticalARG", "OrientationKalman", "OrientationExternal"]

  const DS4GyroGainLabels: seq<string> := ["125deg/s", "250deg/s", "500deg/s", "1000deg/s", "2000deg/s", "custom"]

  /** A setting name with its index in the page's list; -1 and "" where the list does not apply. */
  datatype NamedIndex = NamedIndex(name: string, index: int)

  /** A known name keeps its text and gets its index; an unknown one becomes the list's first entry. */
  function Resolve(name: string, list: seq<string>): (r: NamedIndex)
    requires |list| > 0
    ensures 0 <= r.index < |list| && StrnEq32(r.name, list[r.index])
    ensures FirstMatch(name, list) >= 0 ==> r == NamedIndex(name, FirstMatch(name, list))
    ensures FirstMatch(name, list) == -1 ==> r == NamedIndex(list[0], 0)
  {
    var i := FirstMatch(name, list);
    if i == -1 then NamedIndex(list[0], 0) else NamedIndex(name, i)
  }

  /** One controller of the response, as the fields the page reads. */
  datatype ControllerResponse = ControllerResponse(
    controllerId: int, kind: DeviceType, deviceSerial: string, parentSerial: string, isBluetooth: bool,
    orientationFilter: string, positionFilter: string, gyroGain: string)

  /** One entry of the page's controller list. */
  datatype ControllerInfo = ControllerInfo(
    controllerId: int, kind: DeviceType, deviceSerial: string, assignedParentSerial: string,
    assignedParentIndex: int, potentialParentSerials: seq<string>, isBluetooth: bool,
    orientationFilter: NamedIndex, positionFilter: NamedIndex, gyroGain: NamedIndex)

  const NotApplicable: NamedIndex := NamedIndex("", -1)

  /** The entry built from one response controller, before the Navi parents are assigned. */
  function BuildInfo(c: ControllerResponse): (info: ControllerInfo)
    ensures info.controllerId == c.controllerId && info.kind == c.kind && info.deviceSerial == c.deviceSerial
    ensures info.assignedParentIndex == -1 && info.potentialParentSerials == []
    ensures info.orientationFilter.index == -1 <==> c.kind != PSMove && c.kind != PSDualShock4
    ensures info.positionFilter.index == -1 <==> c.kind == PSNavi
    ensures info.gyroGain.index == -1 <==> c.kind != PSDualShock4
  {
    ControllerInfo(
      c.controllerId, c.kind, c.deviceSerial, c.parentSerial, -1, [], c.isBluetooth,
      if c.kind == PSMove then Resolve(c.orientationFilter, PSMoveOrientationFilterNames)
      else if c.kind == PSDualShock4 then Resolve(c.orientationFilter, DS4OrientationFilterNames)
      else NotApplicable,
      if c.kind != PSNavi then Resolve(c.positionFilter, PositionFilterNames) else NotApplicable,
      if c.kind == PSDualShock4 then Resolve(c.gyroGain, DS4GyroGainLabels) else NotApplicable)
  }

  /** The response types the page lists: the DualShock 4 is dropped. */
  predicate Listed(kind: DeviceType) { kind == PSMove || kind == PSNavi || kind == VirtualController }

  /** The entries of the listed controllers, in response order. */
  function ListedInfos(controllers: seq<ControllerResponse>): (r: seq<ControllerInfo>)
    ensures forall k :: 0 <= k < |r| ==> Listed(r[k].kind)
    decreases |controllers|
  {
    if controllers == [] then []
    else
      var init := controllers[..|controllers| - 1];
      var c := controllers[|controllers| - 1];
      ListedInfos(init) + (if Listed(c.kind) then [BuildInfo(c)] else [])
  }

  /** An entry is listed exactly for each listed response controller. */
  lemma {:induction false} ListedInfosMembers(controllers: seq<ControllerResponse>, c: ControllerResponse)
    ensures c in controllers && Listed(c.kind) ==> BuildInfo(c) in ListedInfos(controllers)
    ensures |ListedInfos(controllers)| <= |controllers|
    decreases |controllers|
  {
    if controllers != [] {
      var init := controllers[..|controllers| - 1];
      ListedInfosMembers(init, c);
      if c != controllers[|controllers| - 1] && c in controllers {
        var k :| 0 <= k < |controllers| && controllers[k] == c;
        assert init[k] == c;
      }
    }
  }

  /** The serials of the PSMove entries, in list order. */
  function MoveSerials(list: seq<ControllerInfo>): (r: seq<string>)
    decreases |list|
  {
    if list == [] then []
    else
      var e := list[|list| - 1];
      MoveSerials(list[..|list| - 1]) + (if e.kind == PSMove then [e.deviceSerial] else [])
  }

  /** The position of the last entry equal to `s`, or -1. */
  function LastMatch(serials: seq<string>, s: string): (r: int)
    ensures -1 <= r < |serials|
    ensures r == -1 <==> s !in serials
    ensures r >= 0 ==> serials[r] == s && forall k :: r < k < |serials| ==> serials[k] != s
    decreases |serials|
  {
    if serials == [] then -1
    else if serials[|serials| - 1] == s then |serials| - 1
    else
      var init := serials[..|serials| - 1];
      assert serials == init + [serials[|serials| - 1]];
      LastMatch(init, s)
  }

  /**
   * A Navi's candidate parents are appended with the move serials, and its
   * assigned index becomes the last position matching its parent serial
   * (when it has one); other entries are untouched.
   */
  function WithParents(info: ControllerInfo, moves: seq<string>): ControllerInfo
  {
    if info.kind != PSNavi then info
    else
      var m := LastMatch(moves, info.assignedParentSerial);
      info.(potentialParentSerials := info.potentialParentSerials + moves,
            assignedParentIndex := if |info.assignedParentSerial| > 0 && m != -1
                                   then |info.potentialParentSerials| + m else info.assignedParentIndex)
  }

  function AssignParents(list: seq<ControllerInfo>): (r: seq<ControllerInfo>)
    ensures |r| == |list|
  {
    seq(|list|, k requires 0 <= k < |list| => WithParents(list[k], MoveSerials(list)))
  }

  /** The serials of the Bluetooth entries. */
  function BluetoothSerials(list: seq<ControllerInfo>): set<string>
    decreases |list|
  {
    if list == [] then {} else (if list[0].isBluetooth then {list[0].deviceSerial} else {}) + BluetoothSerials(list[1..])
  }

  /** An entry survives unless it is a USB entry whose serial is also connected over Bluetooth. */
  predicate Survives(e: ControllerInfo, bluetooth: set<string>)
  {
    e.isBluetooth || e.deviceSerial !in bluetooth
  }

  function Deduplicated(list: seq<ControllerInfo>, bluetooth: set<string>): (r: seq<ControllerInfo>)
    ensures |r| <= |list|
    ensures forall k :: 0 <= k < |r| ==> Survives(r[k], bluetooth)
    decreases |list|
  {
    if list == [] then []
    else (if Survives(list[0], bluetooth) then [list[0]] else []) + Deduplicated(list[1..], bluetooth)
  }

  lemma {:induction false} BluetoothSerialsAppend(a: seq<ControllerInfo>, b: seq<ControllerInfo>)
    ensures BluetoothSerials(a + b) == BluetoothSerials(a) + BluetoothSerials(b)
    decreases |a|
  {
    if a == [] {
      assert a + b == b;
    } else {
      assert (a + b)[1..] == a[1..] + b;
      BluetoothSerialsAppend(a[1..], b);
    }
  }

  lemma {:induction false} DeduplicatedAppend(a: seq<ControllerInfo>, b: seq<ControllerInfo>, bluetooth: set<string>)
    ensures Deduplicated(a + b, bluetooth) == Deduplicated(a, bluetooth) + Deduplicated(b, bluetooth)
    decreases |a|
  {
    if a == [] {
      assert a + b == b;
    } else {
      assert (a + b)[1..] == a[1..] + b;
      DeduplicatedAppend(a[1..], b, bluetooth);
    }
  }

  /** A USB entry is removed exactly when a Bluetooth entry has its serial; the rest is kept. */
  lemma {:induction false} DeduplicatedMembers(list: seq<ControllerInfo>, e: ControllerInfo)
    ensures e in Deduplicated(list, BluetoothSerials(list)) <==>
      e in list && (e.isBluetooth || forall k :: 0 <= k < |list| && list[k].isBluetooth ==> list[k].deviceSerial != e.deviceSerial)
  {
    var bt := BluetoothSerials(list);
    DeduplicatedMembersIn(list, bt, e);
    BluetoothSerialsMembers(list, e.deviceSerial);
  }

  lemma {:induction false} DeduplicatedMembersIn(list: seq<ControllerInfo>, bluetooth: set<string>, e: ControllerInfo)
    ensures e in Deduplicated(list, bluetooth) <==> e in list && Survives(e, bluetooth)
    decreases |list|
  {
    if list != [] {
      DeduplicatedMembersIn(list[1..], bluetooth, e);
      assert list == [list[0]] + list[1..];
    }
  }

  lemma {:induction false} BluetoothSerialsMembers(list: seq<ControllerInfo>, s: string)
    ensures s in BluetoothSerials(list) <==> exists k :: 0 <= k < |list| && list[k].isBluetooth && list[k].deviceSerial == s
    decreases |list|
  {
    if list != [] {
      BluetoothSerialsMembers(list[1..], s);
      if s in BluetoothSerials(list[1..]) {
        var k :| 0 <= k < |list[1..]| && list[1..][k].isBluetooth && list[1..][k].deviceSerial == s;
        assert list[k + 1] == list[1..][k];
      }
      if exists k :: 0 <= k < |list| && list[k].isBluetooth && list[k].deviceSerial == s {
        var k :| 0 <= k < |list| && list[k].isBluetooth && list[k].deviceSerial == s;
        if k > 0 {
          assert list[1..][k - 1] == list[k];
        }
      }
    }
  }

  /** Every Bluetooth entry survives the removal. */
  lemma {:induction false} DeduplicatedKeepsBluetooth(list: seq<ControllerInfo>, bluetooth: set<string>)
    ensures BluetoothSerials(Deduplicated(list, bluetooth)) == BluetoothSerials(list)
    decreases |list|
  {
    if list != [] {
      DeduplicatedKeepsBluetooth(list[1..], bluetooth);
      var head := if Survives(list[0], bluetooth) then [list[0]] else [];
      BluetoothSerialsAppend(head, Deduplicated(list[1..], bluetooth));
      if head != [] {
        assert head[1..] == [];
      }
    }
  }

  /** The index of the first USB PSMove entry, or -1. */
  function FirstUsbMove(list: seq<ControllerInfo>): (r: int)
    ensures -1 <= r < |list|
    ensures r == -1 <==> forall k :: 0 <= k < |list| ==> list[k].isBluetooth || list[k].kind != PSMove
    ensures r >= 0 ==> (!list[r].isBluetooth && list[r].kind == PSMove
                        && forall k :: 0 <= k < r ==> list[k].isBluetooth || list[k].kind != PSMove)
  {
    if list == [] then -1
    else if !list[0].isBluetooth && list[0].kind == PSMove then 0
    else
      var r := FirstUsbMove(list[1..]);
      assert forall k :: 0 < k < |list| ==> list[k] == list[1..][k - 1];
      if r == -1 then -1 else r + 1
  }

  /** The selection after a list response. */
  function SelectedAfterList(oldSelected: int, list: seq<ControllerInfo>): int
  {
    var usb := FirstUsbMove(list);
    if usb != -1 then usb
    else if oldSelected != -1 then
      (if |list| > 0 then (if oldSelected < |list| then oldSelected else |list| - 1) else -1)
    else if |list| > 0 then 0 else -1
  }

  /**
   * A USB PSMove is preferred; otherwise the old position is kept when it
   * still exists and clamped to the last entry when it does not; nothing is
   * selected only in an empty list.
   */
  lemma SelectedAfterListProperties(oldSelected: int, list: seq<ControllerInfo>)
    requires oldSelected >= -1
    ensures var r := SelectedAfterList(oldSelected, list);
      -1 <= r < |list|
      && (r == -1 <==> |list| == 0)
      && (FirstUsbMove(list) != -1 ==> r == FirstUsbMove(list))
      && (FirstUsbMove(list) == -1 && 0 <= oldSelected < |list| ==> r == oldSelected)
      && (FirstUsbMove(list) == -1 && oldSelected >= |list| > 0 ==> r == |list| - 1)
      && (FirstUsbMove(list) == -1 && oldSelected == -1 && |list| > 0 ==> r == 0)
  {
  }

  /** The page's entries for a controller-list response. */
  function ProcessedList(controllers: seq<ControllerResponse>): seq<ControllerInfo>
  {
    var parented := AssignParents(ListedInfos(controllers));
    Deduplicated(parented, BluetoothSerials(parented))
  }

  /** Every Navi entry of the page lists the PSMove serials of the response as its candidates. */
  lemma NaviCandidates(controllers: seq<ControllerResponse>, k: nat)
    requires k < |AssignParents(ListedInfos(controllers))|
    requires AssignParents(ListedInfos(controllers))[k].kind == PSNavi
    ensures var listed := ListedInfos(controllers);
      var e := AssignParents(listed)[k];
      e.potentialParentSerials == MoveSerials(listed)
      && (e.assignedParentIndex != -1 <==> |e.assignedParentSerial| > 0 && e.assignedParentSerial in MoveSerials(listed))
      && (e.assignedParentIndex != -1 ==> e.assignedParentIndex == LastMatch(MoveSerials(listed), e.assignedParentSerial))
      && (e.assignedParentIndex == -1 || (0 <= e.assignedParentIndex < |MoveSerials(listed)|
          && MoveSerials(listed)[e.assignedParentIndex] == e.assignedParentSerial))
  {
    var listed := ListedInfos(controllers);
    ListedInfosBuilt(controllers, k);
  }

  /** Every listed entry is freshly built: no candidates yet and no assigned index. */
  lemma {:induction false} ListedInfosBuilt(controllers: seq<ControllerResponse>, k: nat)
    requires k < |ListedInfos(controllers)|
    ensures ListedInfos(controllers)[k].potentialParentSerials == [] && ListedInfos(controllers)[k].assignedParentIndex == -1
    decreases |controllers|
  {
    var init := controllers[..|controllers| - 1];
    if k < |ListedInfos(init)| {
      ListedInfosBuilt(init, k);
    }
  }

  /** The ids of the entries, in list order. */
  function ControllerIds(list: seq<ControllerInfo>): (r: seq<int>)
    ensures |r| == |list| && forall k :: 0 <= k < |list| ==> r[k] == list[k].controllerId
  {
    if list == [] then [] else ControllerIds(list[..|list| - 1]) + [list[|list| - 1].controllerId]
  }

  lemma LastMatchAppend(serials: seq<string>, x: string, s: string)
    ensures LastMatch(serials + [x], s) == (if x == s then |serials| else LastMatch(serials, s))
  {
    assert (serials + [x])[..|serials|] == serials;
  }

  datatype MenuState = Inactive | Idle | PendingControllerListRequest | FailedControllerListRequest

  /** The list state of the controller settings page. */
  class ControllerSettingsPage {
    var menuState: MenuState
    var controllerInfos: seq<ControllerInfo>
    var selectedControllerIndex: int
    var hostSerial: string
    var gamepadCount: int
    /** The controller ids whose data streams the page holds. */
    var controllers: seq<int>
    /** The requests sent to the service: list requests and (child, parent) attach requests. */
    ghost var listRequests: nat
    ghost var parentRequests: seq<(int, int)>

    constructor ()
      ensures menuState == Inactive && selectedControllerIndex == -1 && gamepadCount == 0
      ensures controllerInfos == [] && controllers == [] && listRequests == 0 && parentRequests == []
    {
      menuState := Inactive;
      controllerInfos := [];
      selectedControllerIndex := -1;
      hostSerial := "";
      gamepadCount := 0;
      controllers := [];
      listRequests := 0;
      parentRequests := [];
    }

    /** `request_controller_list`: at most one request in flight. */
    method RequestControllerList()
      modifies this`menuState, this`listRequests
      ensures menuState == PendingControllerListRequest
      ensures listRequests == old(listRequests) + (if old(menuState) == PendingControllerListRequest then 0 else 1)
    {
      if menuState != PendingControllerListRequest {
        menuState := PendingControllerListRequest;
        listRequests := listRequests + 1;
      }
    }

    /** `find_controller_id_by_serial`: the id of the first entry with the serial, or -1. */
    method FindControllerIdBySerial(serial: string) returns (id: int)
      ensures id == -1 || exists k :: 0 <= k < |controllerInfos| && controllerInfos[k].deviceSerial == serial && controllerInfos[k].controllerId == id
      ensures (forall k :: 0 <= k < |controllerInfos| ==> controllerInfos[k].deviceSerial != serial) ==> id == -1
      ensures forall k :: 0 <= k < |controllerInfos| && controllerInfos[k].deviceSerial == serial ==>
        exists j :: 0 <= j <= k && controllerInfos[j].deviceSerial == serial && controllerInfos[j].controllerId == id
          && forall i :: 0 <= i < j ==> controllerInfos[i].deviceSerial != serial
    {
      id := -1;
      var k := 0;
      while k < |controllerInfos|
        invariant 0 <= k <= |controllerInfos|
        invariant forall j :: 0 <= j < k ==> controllerInfos[j].deviceSerial != serial
      {
        if controllerInfos[k].deviceSerial == serial {
          id := controllerInfos[k].controllerId;
          return;
        }
        k := k + 1;
      }
    }

    /** `request_set_parent_controller_id`: sent only when both ids are known. */
    method RequestSetParentControllerId(child: int, parent: int)
      modifies this`parentRequests
      ensures parentRequests == old(parentRequests) + (if child != -1 && parent != -1 then [(child, parent)] else [])
    {
      if child != -1 && parent != -1 {
        parentRequests := parentRequests + [(child, parent)];
      }
    }

    /** `handle_controller_list_response`. */
    method HandleControllerListResponse(result: ResultCode, host: string, gamepads: int, response: seq<ControllerResponse>)
      modifies this`menuState, this`controllerInfos, this`selectedControllerIndex, this`hostSerial,
               this`gamepadCount, this`controllers
      ensures result == Success ==>
        controllerInfos == ProcessedList(response)
        && selectedControllerIndex == SelectedAfterList(old(selectedControllerIndex), controllerInfos)
        && controllers == ControllerIds(controllerInfos)
        && hostSerial == host && gamepadCount == gamepads && menuState == Idle
      ensures result != Success ==>
        menuState == FailedControllerListRequest
        && controllerInfos == old(controllerInfos) && selectedControllerIndex == old(selectedControllerIndex)
        && controllers == old(controllers) && hostSerial == old(hostSerial) && gamepadCount == old(gamepadCount)
    {
      if result != Success {
        menuState := FailedControllerListRequest;
        return;
      }
      var oldSelected := selectedControllerIndex;
      hostSerial := host;
      selectedControllerIndex := -1;
      gamepadCount := gamepads;
      var listed := BuildListed(response);
      var parented := AssignNaviParents(listed);
      var deduplicated := RemovePairedUsbEntries(parented);
      controllerInfos := deduplicated;
      selectedControllerIndex := ChooseSelection(oldSelected, deduplicated);
      controllers := CollectIds(deduplicated);
      menuState := Idle;
    }

    /** The response loop: builds an entry per controller and keeps the listed types. */
    static method BuildListed(response: seq<ControllerResponse>) returns (listed: seq<ControllerInfo>)
      ensures listed == ListedInfos(response)
    {
      listed := [];
      var k := 0;
      while k < |response|
        invariant 0 <= k <= |response|
        invariant listed == ListedInfos(response[..k])
      {
        assert response[..k + 1][..k] == response[..k];
        var info := BuildInfo(response[k]);
        if response[k].kind == PSMove || response[k].kind == PSNavi || response[k].kind == VirtualController {
          listed := listed + [info];
        }
        k := k + 1;
      }
      assert response[..k] == response;
    }

    /** The nested loop that gives each Navi its candidate parents. */
    static method AssignNaviParents(list: seq<ControllerInfo>) returns (r: seq<ControllerInfo>)
      ensures r == AssignParents(list)
    {
      r := list;
      var i := 0;
      while i < |list|
        invariant 0 <= i <= |list| && |r| == |list|
        invariant forall k :: 0 <= k < i ==> r[k] == WithParents(list[k], MoveSerials(list))
        invariant forall k :: i <= k < |list| ==> r[k] == list[k]
      {
        if list[i].kind == PSNavi {
          var navi := NaviWithParents(list[i], list);
          r := r[i := navi];
        }
        i := i + 1;
      }
    }

    /** The inner loop over the PSMove entries for one Navi. */
    static method NaviWithParents(navi: ControllerInfo, list: seq<ControllerInfo>) returns (r: ControllerInfo)
      requires navi.kind == PSNavi
      ensures r == WithParents(navi, MoveSerials(list))
    {
      var candidates := navi.potentialParentSerials;
      var assignedIndex := navi.assignedParentIndex;
      var j := 0;
      while j < |list|
        invariant 0 <= j <= |list|
        invariant candidates == navi.potentialParentSerials + MoveSerials(list[..j])
        invariant assignedIndex == WithParents(navi, MoveSerials(list[..j])).assignedParentIndex
      {
        NaviStep(navi, list, j);
        if list[j].kind == PSMove {
          if |navi.assignedParentSerial| > 0 && navi.assignedParentSerial == list[j].deviceSerial {
            assignedIndex := |candidates|;
          }
          candidates := candidates + [list[j].deviceSerial];
        }
        j := j + 1;
      }
      assert list[..j] == list;
      r := navi.(potentialParentSerials := candidates, assignedParentIndex := assignedIndex);
    }

    /** The scan for a Bluetooth entry with a serial, with its early break. */
    static method HasBluetoothEntry(list: seq<ControllerInfo>, serial: string) returns (found: bool)
      ensures found <==> serial in BluetoothSerials(list)
    {
      BluetoothSerialsMembers(list, serial);
      found := false;
      var k := 0;
      while k < |list|
        invariant 0 <= k <= |list|
        invariant forall j :: 0 <= j < k ==> !(list[j].isBluetooth && list[j].deviceSerial == serial)
      {
        if list[k].isBluetooth && list[k].deviceSerial == serial {
          found := true;
          return;
        }
        k := k + 1;
      }
    }

    /** The iterator-erase loop; each USB entry is checked against the list as it stands. */
    static method RemovePairedUsbEntries(list: seq<ControllerInfo>) returns (r: seq<ControllerInfo>)
      ensures r == Deduplicated(list, BluetoothSerials(list))
    {
      ghost var bt := BluetoothSerials(list);
      r := list;
      var i := 0;
      while i < |r|
        invariant 0 <= i <= |r|
        invariant BluetoothSerials(r) == bt
        invariant Deduplicated(r, bt) == Deduplicated(list, bt)
        invariant forall k :: 0 <= k < i ==> Survives(r[k], bt)
        decreases |r| - i
      {
        var remove := false;
        if !r[i].isBluetooth {
          remove := HasBluetoothEntry(r, r[i].deviceSerial);
        }
        if remove {
          RemovalStep(r, i, bt);
          r := r[..i] + r[i + 1..];
        } else {
          i := i + 1;
        }
      }
      AllSurviveUnchanged(r, bt);
    }

    /** The selection rule that follows the list rebuild. */
    static method ChooseSelection(oldSelected: int, list: seq<ControllerInfo>) returns (selected: int)
      ensures selected == SelectedAfterList(oldSelected, list)
    {
      var usb := FindFirstUsbMove(list);
      if usb != -1 {
        selected := usb;
      } else if oldSelected != -1 {
        var count := |list|;
        if count > 0 {
          selected := if oldSelected < count then oldSelected else count - 1;
        } else {
          selected := -1;
        }
      } else {
        selected := if |list| > 0 then 0 else -1;
      }
    }

    /** The loop that re-acquires a data stream for each entry. */
    static method CollectIds(list: seq<ControllerInfo>) returns (ids: seq<int>)
      ensures ids == ControllerIds(list)
    {
      ids := [];
      var k := 0;
      while k < |list|
        invariant 0 <= k <= |list|
        invariant ids == ControllerIds(list[..k])
      {
        assert list[..k + 1][..k] == list[..k];
        ids := ids + [list[k].controllerId];
        k := k + 1;
      }
      assert list[..k] == list;
    }

    /** The loop for the first USB PSMove. */
    static method FindFirstUsbMove(list: seq<ControllerInfo>) returns (index: int)
      ensures index == FirstUsbMove(list)
    {
      index := -1;
      var k := 0;
      while k < |list|
        invariant 0 <= k <= |list|
        invariant forall j :: 0 <= j < k ==> list[j].isBluetooth || list[j].kind != PSMove
      {
        if !list[k].isBluetooth && list[k].kind == PSMove {
          index := k;
          return;
        }
        k := k + 1;
      }
    }
  }

  /** Erasing a USB entry that does not survive changes neither the outcome nor the Bluetooth serials. */
  lemma RemovalStep(r: seq<ControllerInfo>, i: nat, bt: set<string>)
    requires i < |r| && !Survives(r[i], bt)
    ensures Deduplicated(r[..i] + r[i + 1..], bt) == Deduplicated(r, bt)
    ensures BluetoothSerials(r[..i] + r[i + 1..]) == BluetoothSerials(r)
  {
    RemovalKeepsOutcome(r, i, bt);
    RemovalKeepsSerials(r, i, bt);
  }

  lemma RemovalKeepsOutcome(r: seq<ControllerInfo>, i: nat, bt: set<string>)
    requires i < |r| && !Survives(r[i], bt)
    ensures Deduplicated(r[..i] + r[i + 1..], bt) == Deduplicated(r, bt)
  {
    assert r == r[..i] + [r[i]] + r[i + 1..];
    DeduplicatedAppend(r[..i] + [r[i]], r[i + 1..], bt);
    DeduplicatedAppend(r[..i], [r[i]], bt);
    DeduplicatedAppend(r[..i], r[i + 1..], bt);
    assert Deduplicated([r[i]], bt) == [] by {
      assert [r[i]][1..] == [];
    }
  }

  lemma RemovalKeepsSerials(r: seq<ControllerInfo>, i: nat, bt: set<string>)
    requires i < |r| && !Survives(r[i], bt)
    ensures BluetoothSerials(r[..i] + r[i + 1..]) == BluetoothSerials(r)
  {
    assert r == r[..i] + [r[i]] + r[i + 1..];
    BluetoothSerialsAppend(r[..i] + [r[i]], r[i + 1..]);
    BluetoothSerialsAppend(r[..i], [r[i]]);
    BluetoothSerialsAppend(r[..i], r[i + 1..]);
    assert BluetoothSerials([r[i]]) == {} by {
      assert [r[i]][1..] == [];
    }
  }

  /** One PSMove entry more: the candidates grow by its serial and a matching serial moves the index to it. */
  lemma NaviStep(navi: ControllerInfo, list: seq<ControllerInfo>, j: nat)
    requires navi.kind == PSNavi && j < |list|
    ensures MoveSerials(list[..j + 1]) == MoveSerials(list[..j]) + (if list[j].kind == PSMove then [list[j].deviceSerial] else [])
    ensures WithParents(navi, MoveSerials(list[..j + 1])).assignedParentIndex ==
      if list[j].kind == PSMove && |navi.assignedParentSerial| > 0 && navi.assignedParentSerial == list[j].deviceSerial
      then |navi.potentialParentSerials| + |MoveSerials(list[..j])|
      else WithParents(navi, MoveSerials(list[..j])).assignedParentIndex
  {
    assert list[..j + 1][..j] == list[..j];
    var ms := MoveSerials(list[..j]);
    var ms1 := MoveSerials(list[..j + 1]);
    var p := navi.assignedParentSerial;
    if list[j].kind == PSMove {
      LastMatchAppend(ms, list[j].deviceSerial, p);
      assert ms1 == ms + [list[j].deviceSerial];
    } else {
      assert ms1 == ms;
    }
  }

  lemma {:induction false} AllSurviveUnchanged(list: seq<ControllerInfo>, bluetooth: set<string>)
    requires forall k :: 0 <= k < |list| ==> Survives(list[k], bluetooth)
    ensures Deduplicated(list, bluetooth) == list
    decreases |list|
  {
    if list != [] {
      AllSurviveUnchanged(list[1..], bluetooth);
      assert list == [list[0]] + list[1..];
    }
  }
}
