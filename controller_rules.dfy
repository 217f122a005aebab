/**
 * The small deterministic rules of the controller view: which pose filter
 * the factory builds from the two configured filter names, the
 * `SET_BUTTON_BIT` rule of the data frames, the raw-tracker bitmask of the
 * data frames, and the tracking listener count with the LED colour it
 * drives.
 */
module ControllerRules {
  import opened Common

  // ---------------------------------------------------------------------
  // pose_filter_factory

  datatype PositionFilterType =
    PositionNone | PositionPassThru | LowPassOptical | LowPassIMU | LowPassExponential
    | ComplimentaryOpticalIMU | PositionKalman | PositionExternalAttachment

  datatype OrientationFilterType =
    OrientationNone | OrientationPassThru | MadgwickARG | MadgwickMARG
    | ComplementaryOpticalARG | ComplementaryMARG | OrientationKalman | OrientationExternal

  /** The filter the factory builds. */
  datatype PoseFilterChoice =
    | KalmanPSMove
    | KalmanDS4
    | Compound(position: PositionFilterType, orientation: OrientationFilterType)

  /** The configuration name of each position filter type. */
  function PositionFilterName(t: PositionFilterType): string
  {
    match t
    case PositionNone => ""
    case PositionPassThru => "PassThru"
    case LowPassOptical => "LowPassOptical"
    case LowPassIMU => "LowPassIMU"
    case LowPassExponential => "LowPassExponential"
    case ComplimentaryOpticalIMU => "ComplimentaryOpticalIMU"
    case PositionKalman => "PositionKalman"
    case PositionExternalAttachment => "PositionExternalAttachment"
  }

  /** The configuration name of each orientation filter type. */
  function OrientationFilterName(t: OrientationFilterType): string
  {
    match t
    case OrientationNone => ""
    case OrientationPassThru => "PassThru"
    case MadgwickARG => "MadgwickARG"
    case MadgwickMARG => "MadgwickMARG"
    case ComplementaryOpticalARG => "ComplementaryOpticalARG"
    case ComplementaryMARG => "ComplementaryMARG"
    case OrientationKalman => "OrientationKalman"
    case OrientationExternal => "OrientationExternal"
  }

  /** The if-chain that turns a position filter name into its type; None for an unknown name. */
  function ParsePositionFilter(name: string): Option<PositionFilterType>
  {
    if name == "" then Some(PositionNone)
    else if name == "PassThru" then Some(PositionPassThru)
    else if name == "LowPassOptical" then Some(LowPassOptical)
    else if name == "LowPassIMU" then Some(LowPassIMU)
    else if name == "LowPassExponential" then Some(LowPassExponential)
    else if name == "ComplimentaryOpticalIMU" then Some(ComplimentaryOpticalIMU)
    else if name == "PositionKalman" then Some(PositionKalman)
    else if name == "PositionExternalAttachment" then Some(PositionExternalAttachment)
    else None
  }

  /** The if-chain that turns an orientation filter name into its type; None for an unknown name. */
  function ParseOrientationFilter(name: string): Option<OrientationFilterType>
  {
    if name == "" then Some(OrientationNone)
    else if name == "PassThru" then Some(OrientationPassThru)
    else if name == "MadgwickARG" then Some(MadgwickARG)
    else if name == "MadgwickMARG" then Some(MadgwickMARG)
    else if name == "ComplementaryOpticalARG" then Some(ComplementaryOpticalARG)
    else if name == "ComplementaryMARG" then Some(ComplementaryMARG)
    else if name == "OrientationKalman" then Some(OrientationKalman)
    else if name == "OrientationExternal" then Some(OrientationExternal)
    else None
  }

  /** Every position filter type is found again under its configuration name. */
  lemma PositionFilterNamesRoundTrip(t: PositionFilterType)
    ensures ParsePositionFilter(PositionFilterName(t)) == Some(t)
  {
  }

  /** A name is recognised exactly when it is the configuration name of a type. */
  lemma {:induction false} ParsePositionFilterOnlyNames(name: string)
    ensures ParsePositionFilter(name).Some? ==> PositionFilterName(ParsePositionFilter(name).value) == name
  {
  }

  lemma OrientationFilterNamesRoundTrip(t: OrientationFilterType)
    ensures ParseOrientationFilter(OrientationFilterName(t)) == Some(t)
  {
  }

  lemma ParseOrientationFilterOnlyNames(name: string)
    ensures ParseOrientationFilter(name).Some? ==> OrientationFilterName(ParseOrientationFilter(name).value) == name
  {
  }

  /** The position filter used when the configured name is unknown. */
  function DefaultPositionFilter(device: DeviceType): PositionFilterType
    requires device != PSNavi
  {
    if device == PSDualShock4 then ComplimentaryOpticalIMU else LowPassOptical
  }

  /** The orientation filter used when the configured name is unknown. */
  function DefaultOrientationFilter(device: DeviceType): OrientationFilterType
    requires device != PSNavi
  {
    match device
    case PSMove => ComplementaryMARG
    case PSDualShock4 => ComplementaryOpticalARG
    case VirtualController => OrientationExternal
  }

  /** `pose_filter_factory`: the Navi has no pose filter (the source asserts on it). */
  function PoseFilterFactory(device: DeviceType, positionName: string, orientationName: string): (r: PoseFilterChoice)
    requires device != PSNavi
    ensures (r.KalmanPSMove? || r.KalmanDS4?) <==> positionName == "PoseKalman" && orientationName == "PoseKalman"
    ensures r.KalmanDS4? <==> positionName == "PoseKalman" && orientationName == "PoseKalman" && device == PSDualShock4
    ensures r.Compound? ==>
      r.position == (match ParsePositionFilter(positionName)
                     case Some(t) => t
                     case None => DefaultPositionFilter(device))
      && r.orientation == (match ParseOrientationFilter(orientationName)
                           case Some(t) => t
                           case None => DefaultOrientationFilter(device))
  {
    if positionName == "PoseKalman" && orientationName == "PoseKalman" then
      if device == PSDualShock4 then KalmanDS4 else KalmanPSMove
    else
      var position :=
        match ParsePositionFilter(positionName)
        case Some(t) => t
        case None => DefaultPositionFilter(device);
      var orientation :=
        match ParseOrientationFilter(orientationName)
        case Some(t) => t
        case None => DefaultOrientationFilter(device);
      Compound(position, orientation)
  }

  /** What the factory builds for names it does not know, and for empty names. */
  lemma FactoryDefaults(device: DeviceType, positionName: string, orientationName: string)
    requires device != PSNavi && !(positionName == "PoseKalman" && orientationName == "PoseKalman")
    ensures var r := PoseFilterFactory(device, positionName, orientationName);
      r.Compound?
      && (positionName == "" ==> r.position == PositionNone)
      && (orientationName == "" ==> r.orientation == OrientationNone)
      && (ParsePositionFilter(positionName).None? ==>
            r.position == (if device == PSDualShock4 then ComplimentaryOpticalIMU else LowPassOptical))
      && (ParseOrientationFilter(orientationName).None? ==>
            r.orientation == (match device
                              case PSMove => ComplementaryMARG
                              case PSDualShock4 => ComplementaryOpticalARG
                              case VirtualController => OrientationExternal))
  {
  }

  /** "PoseKalman" is not a position filter name: paired with another orientation, it falls back to the default. */
  lemma PoseKalmanAloneIsUnknown(device: DeviceType, orientationName: string)
    requires device != PSNavi && orientationName != "PoseKalman"
    ensures PoseFilterFactory(device, "PoseKalman", orientationName).Compound?
    ensures PoseFilterFactory(device, "PoseKalman", orientationName).position == DefaultPositionFilter(device)
  {
    assert ParsePositionFilter("PoseKalman").None? by {
      assert "PoseKalman" != "PassThru" && "PoseKalman" != "LowPassOptical" && "PoseKalman" != "LowPassIMU";
      assert "PoseKalman" != "LowPassExponential" && "PoseKalman" != "ComplimentaryOpticalIMU";
      assert "PoseKalman" != "PositionKalman" && "PoseKalman" != "PositionExternalAttachment";
    }
  }

  // ---------------------------------------------------------------------
  // SET_BUTTON_BIT

  /** The four states of a controller button (the enum's values are not part of this model). */
  datatype ButtonState = ButtonUp | ButtonPressed | ButtonDown | ButtonReleased

  predicate IsHeld(state: ButtonState) { state == ButtonDown || state == ButtonPressed }

  predicate BitSet(mask: bv32, k: nat)
    requires k < 32
  {
    (mask >> k) & 1 == 1
  }

  /** `SET_BUTTON_BIT`: ORs in bit `bit` when the button is down or was just pressed. */
  function SetButtonBit(mask: bv32, bit: nat, state: ButtonState): (r: bv32)
    requires bit < 32
    ensures forall k :: 0 <= k < 32 ==> (BitSet(r, k) <==> BitSet(mask, k) || (k == bit && IsHeld(state)))
  {
    var r := mask | (if IsHeld(state) then (1 as bv32) << bit else 0);
    forall k | 0 <= k < 32 ensures BitSet(r, k) <==> BitSet(mask, k) || (k == bit && IsHeld(state)) {
      ShiftedOrBit(mask, bit, k, IsHeld(state));
    }
    r
  }

  lemma ShiftedOrBit(mask: bv32, bit: nat, k: nat, held: bool)
    requires bit < 32 && k < 32
    ensures var r := mask | (if held then (1 as bv32) << bit else 0);
      BitSet(r, k) <==> BitSet(mask, k) || (k == bit && held)
  {
    if held {
      var one: bv32 := 1;
      assert ((one << bit) >> k) & 1 == (if k == bit then 1 else 0) by {
        OneShiftBit(bit, k);
      }
      assert (mask | (one << bit)) >> k == (mask >> k) | ((one << bit) >> k);
    }
  }

  lemma OneShiftBit(bit: nat, k: nat)
    requires bit < 32 && k < 32
    ensures (((1 as bv32) << bit) >> k) & 1 == (if k == bit then 1 else 0)
  {
  }

  // ---------------------------------------------------------------------
  // The raw-tracker bitmask of a data frame

  /**
   * The bitmask loop as written: it starts from 0 and ANDs in the bit of
   * every tracking tracker, so it never sets a bit.
   */
  method ValidTrackerBitmaskAsWritten(tracking: seq<bool>) returns (mask: bv32)
    requires |tracking| <= 32
    ensures mask == 0
  {
    mask := 0;
    var t := 0;
    while t < |tracking|
      invariant 0 <= t <= |tracking|
      invariant mask == 0
    {
      if tracking[t] {
        mask := mask & ((1 as bv32) << t);
      }
      t := t + 1;
    }
  }

  /** The bitmask the data frame evidently means: bit t set iff tracker t is tracking. */
  function TrackerBitmask(tracking: seq<bool>): (mask: bv32)
    requires |tracking| <= 32
    decreases |tracking|
  {
    if tracking == [] then 0
    else
      var n := |tracking| - 1;
      TrackerBitmask(tracking[..n]) | (if tracking[n] then (1 as bv32) << n else 0)
  }

  lemma {:induction false} TrackerBitmaskBits(tracking: seq<bool>)
    requires |tracking| <= 32
    ensures forall k :: 0 <= k < 32 ==> (BitSet(TrackerBitmask(tracking), k) <==> k < |tracking| && tracking[k])
    decreases |tracking|
  {
    if tracking != [] {
      var n := |tracking| - 1;
      var init := tracking[..n];
      TrackerBitmaskBits(init);
      forall k | 0 <= k < 32 ensures BitSet(TrackerBitmask(tracking), k) <==> k < |tracking| && tracking[k] {
        ShiftedOrBit(TrackerBitmask(init), n, k, tracking[n]);
        if k < n {
          assert init[k] == tracking[k];
        }
      }
    }
  }

  lemma TrackerBitmaskStep(tracking: seq<bool>, t: nat)
    requires t < |tracking| <= 32
    ensures TrackerBitmask(tracking[..t + 1]) == TrackerBitmask(tracking[..t]) | (if tracking[t] then (1 as bv32) << t else 0)
  {
    assert tracking[..t + 1][..t] == tracking[..t];
  }

  /** The corrected loop, ORing in each tracking tracker's bit. */
  method ValidTrackerBitmask(tracking: seq<bool>) returns (mask: bv32)
    requires |tracking| <= 32
    ensures mask == TrackerBitmask(tracking)
    ensures forall k :: 0 <= k < 32 ==> (BitSet(mask, k) <==> k < |tracking| && tracking[k])
  {
    mask := 0;
    var t := 0;
    while t < |tracking|
      invariant 0 <= t <= |tracking|
      invariant mask == TrackerBitmask(tracking[..t])
    {
      TrackerBitmaskStep(tracking, t);
      mask := mask | (if tracking[t] then (1 as bv32) << t else 0);
      t := t + 1;
    }
    assert tracking[..t] == tracking;
    TrackerBitmaskBits(tracking);
  }

  /** One tracking tracker is enough to tell the two loops apart. */
  lemma BitmaskDiscrepancy()
    ensures TrackerBitmask([true]) == 1
  {
    assert [true][..0] == [];
  }

  // ---------------------------------------------------------------------
  // Tracking listeners and the LED

  datatype Rgb = Rgb(r: bv8, g: bv8, b: bv8)

  const Black: Rgb := Rgb(0, 0, 0)

  /** The tracking colour ids; every id other than the six colours shows black. */
  datatype TrackingColorId = Magenta | Cyan | Yellow | Red | Green | Blue | InvalidColor

  /** The LED colour of a tracking colour id. */
  function ColorOf(id: TrackingColorId): Rgb
  {
    match id
    case Magenta => Rgb(0xFF, 0x00, 0xFF)
    case Cyan => Rgb(0x00, 0xFF, 0xFF)
    case Yellow => Rgb(0xFF, 0xFF, 0x00)
    case Red => Rgb(0xFF, 0x00, 0x00)
    case Green => Rgb(0x00, 0xFF, 0x00)
    case Blue => Rgb(0x00, 0x00, 0xFF)
    case InvalidColor => Black
  }

  /** Distinct tracking colours light the LED differently. */
  lemma ColorsDistinct(a: TrackingColorId, b: TrackingColorId)
    requires a != InvalidColor && b != InvalidColor && a != b
    ensures ColorOf(a) != ColorOf(b) && ColorOf(a) != Black
  {
  }

  /** The colour `update_LED_color_internal` shows: the override, else the tracking colour while tracking, else black. */
  function LedColor(overrideActive: bool, overrideColor: Rgb, trackingEnabled: bool, trackingColor: Rgb): (c: Rgb)
    ensures overrideActive ==> c == overrideColor
    ensures !overrideActive && trackingEnabled ==> c == trackingColor
    ensures !overrideActive && !trackingEnabled ==> c == Black
  {
    if overrideActive then overrideColor else if trackingEnabled then trackingColor else Black
  }

  /** Only the PSMove and the DualShock 4 have an LED the view sets. */
  predicate HasLed(device: DeviceType) { device == PSMove || device == PSDualShock4 }

  /** The tracking and LED state of one controller view. */
  class TrackingControl {
    const device: DeviceType
    /** Whether the view has a device interface (`m_device != nullptr`). */
    const hasDevice: bool
    var listenerCount: int
    var trackingEnabled: bool
    var trackingColor: Rgb
    var ledOverrideActive: bool
    var ledOverrideColor: Rgb
    /** The tracking colour id the device holds. */
    var colorId: TrackingColorId
    /** Every colour sent to the device's LED, in order. */
    ghost var ledCommands: seq<Rgb>

    ghost function CurrentLed(): Rgb
      reads this
    {
      LedColor(ledOverrideActive, ledOverrideColor, trackingEnabled, trackingColor)
    }

    /**
     * Tracking is on only while someone listens; the tracking colour is the
     * colour of the device's id while tracking and black otherwise; the last
     * colour sent to the LED is the one the state calls for.
     */
    ghost predicate Valid()
      reads this
    {
      (trackingEnabled ==> listenerCount > 0)
      && listenerCount >= 0
      && trackingColor == (if trackingEnabled then ColorOf(colorId) else Black)
      && (HasLed(device) && |ledCommands| > 0 ==> ledCommands[|ledCommands| - 1] == CurrentLed())
      && (!HasLed(device) ==> ledCommands == [])
      && (!hasDevice ==> colorId == InvalidColor)
    }

    /** `getTrackingColorID`: the device's id, or INVALID_COLOR without a device. */
    function ReportedColorId(): (c: TrackingColorId)
      reads this
      ensures !hasDevice ==> c == InvalidColor
      ensures Valid() ==> c == colorId
    {
      if hasDevice then colorId else InvalidColor
    }

    constructor (device: DeviceType, hasDevice: bool, colorId: TrackingColorId)
      ensures Valid()
      ensures this.device == device && this.hasDevice == hasDevice
      ensures this.colorId == (if hasDevice then colorId else InvalidColor)
      ensures listenerCount == 0 && !trackingEnabled && !ledOverrideActive
      ensures trackingColor == Black && ledOverrideColor == Black && ledCommands == []
    {
      this.device := device;
      this.hasDevice := hasDevice;
      this.colorId := if hasDevice then colorId else InvalidColor;
      listenerCount := 0;
      trackingEnabled := false;
      trackingColor := Black;
      ledOverrideActive := false;
      ledOverrideColor := Black;
      ledCommands := [];
    }

    /** `update_LED_color_internal`. */
    method UpdateLed()
      modifies this`ledCommands
      ensures ledCommands == old(ledCommands) + (if HasLed(device) then [CurrentLed()] else [])
    {
      var c := if ledOverrideActive then ledOverrideColor else if trackingEnabled then trackingColor else Black;
      if device == PSMove || device == PSDualShock4 {
        ledCommands := ledCommands + [c];
      }
    }

    /** `set_tracking_enabled_internal`: acts only on a change. */
    method SetTrackingEnabled(enabled: bool)
      requires enabled && !trackingEnabled ==> hasDevice
      modifies this`trackingEnabled, this`trackingColor, this`ledCommands
      ensures trackingEnabled == enabled
      ensures old(trackingEnabled) == enabled ==> trackingColor == old(trackingColor) && ledCommands == old(ledCommands)
      ensures old(trackingEnabled) != enabled ==>
        trackingColor == (if enabled then ColorOf(colorId) else Black)
        && ledCommands == old(ledCommands) + (if HasLed(device) then [CurrentLed()] else [])
    {
      if trackingEnabled != enabled {
        if enabled {
          trackingColor := ColorOf(colorId);
        } else {
          trackingColor := Black;
        }
        trackingEnabled := enabled;
        UpdateLed();
      }
    }

    /** `startTracking`: enables tracking on the first listener; always counts the listener. */
    method StartTracking()
      requires Valid() && (trackingEnabled || hasDevice)
      modifies this`trackingEnabled, this`trackingColor, this`ledCommands, this`listenerCount
      ensures Valid()
      ensures listenerCount == old(listenerCount) + 1 && trackingEnabled
      ensures old(trackingEnabled) ==> ledCommands == old(ledCommands)
      ensures !old(trackingEnabled) ==> ledCommands == old(ledCommands) + (if HasLed(device) then [CurrentLed()] else [])
    {
      if !trackingEnabled {
        SetTrackingEnabled(true);
      }
      listenerCount := listenerCount + 1;
    }

    /** `stopTracking`: needs a listener; disables tracking when the last one leaves. */
    method StopTracking()
      requires Valid() && listenerCount > 0
      modifies this`trackingEnabled, this`trackingColor, this`ledCommands, this`listenerCount
      ensures Valid()
      ensures listenerCount == old(listenerCount) - 1
      ensures trackingEnabled == (old(trackingEnabled) && listenerCount > 0)
      ensures old(trackingEnabled) && listenerCount == 0 ==>
        ledCommands == old(ledCommands) + (if HasLed(device) then [CurrentLed()] else [])
    {
      listenerCount := listenerCount - 1;
      if listenerCount <= 0 && trackingEnabled {
        SetTrackingEnabled(false);
      }
    }

    /** The tracking part of `close()`: tracking stops, the listener count stays. */
    method Close()
      requires Valid()
      modifies this`trackingEnabled, this`trackingColor, this`ledCommands
      ensures Valid()
      ensures !trackingEnabled && listenerCount == old(listenerCount)
    {
      SetTrackingEnabled(false);
    }

    method SetLedOverride(c: Rgb)
      requires Valid()
      modifies this`ledOverrideActive, this`ledOverrideColor, this`ledCommands
      ensures Valid()
      ensures ledOverrideActive && ledOverrideColor == c
      ensures ledCommands == old(ledCommands) + (if HasLed(device) then [c] else [])
    {
      ledOverrideColor := c;
      ledOverrideActive := true;
      UpdateLed();
    }

    method ClearLedOverride()
      requires Valid()
      modifies this`ledOverrideActive, this`ledOverrideColor, this`ledCommands
      ensures Valid()
      ensures !ledOverrideActive && ledOverrideColor == Black
      ensures ledCommands == old(ledCommands) + (if HasLed(device) then [if trackingEnabled then trackingColor else Black] else [])
    {
      ledOverrideColor := Black;
      ledOverrideActive := false;
      UpdateLed();
    }

    /**
     * `setTrackingColorID`: a new id is handed to the device (`deviceAccepts`
     * is its answer); when it takes it while tracking, tracking is restarted
     * so the LED shows the new colour. Without a device the reported id is
     * INVALID_COLOR: asking for it succeeds, any other id fails.
     */
    method SetTrackingColorId(id: TrackingColorId, deviceAccepts: bool) returns (success: bool)
      requires Valid()
      modifies this`colorId, this`trackingEnabled, this`trackingColor, this`ledCommands
      ensures Valid()
      ensures id == old(ReportedColorId()) ==> success && colorId == old(colorId) && ledCommands == old(ledCommands)
      ensures id != old(ReportedColorId()) ==> success == (hasDevice && deviceAccepts)
      ensures !hasDevice ==> (success <==> id == InvalidColor)
      ensures colorId == (if success then id else old(colorId))
      ensures trackingEnabled == old(trackingEnabled)
      ensures success && id != old(colorId) && trackingEnabled ==>
        trackingColor == ColorOf(id)
        && ledCommands == old(ledCommands) + (if HasLed(device) then [LedColor(ledOverrideActive, ledOverrideColor, false, Black), CurrentLed()] else [])
      ensures !(success && id != old(colorId) && old(trackingEnabled)) ==> ledCommands == old(ledCommands)
    {
      success := true;
      if id != ReportedColorId() {
        if hasDevice {
          success := deviceAccepts;
          if success {
            colorId := id;
            if trackingEnabled {
              SetTrackingEnabled(false);
              SetTrackingEnabled(true);
            }
          }
        } else {
          success := false;
        }
      }
    }
  }
}
