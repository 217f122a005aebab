// The advanced settings page of the configuration tool and the service's
// JSON configuration files it edits: a property tree (key-path, value)
// store, the flattening of a loaded tree into a key/value map, the typed
// named fields each configuration writes into a tree and reads back, the
// clamps the page applies to edited values, and the page's load/save rules.

module AdvancedSettings {
  import opened Common

  // ---------------------------------------------------------------------
  // Property trees

  /**
   * A property tree node: its own value and its children, in order, each
   * under a key (keys may repeat).
   */
  datatype PTree = PTree(data: string, children: seq<Entry>)
  datatype Entry = Entry(key: string, sub: PTree)

  const EmptyTree: PTree := PTree("", [])

  /**
   * A key path split at every '.' separator. This agrees with the tree's
   * path type except at the ends: there a trailing '.' is dropped and the
   * empty string is the root path, while here they give a last empty
   * fragment and the single empty fragment.
   */
  function SplitPath(s: string): (r: seq<string>)
    ensures |r| >= 1
  {
    if s == [] then [""]
    else if s[0] == '.' then [""] + SplitPath(s[1..])
    else
      var rest := SplitPath(s[1..]);
      [[s[0]] + rest[0]] + rest[1..]
  }

  /** The separated fragments joined back with '.'. */
  function JoinPath(parts: seq<string>): string
    requires |parts| >= 1
  {
    if |parts| == 1 then parts[0] else parts[0] + "." + JoinPath(parts[1..])
  }

  /** Splitting and joining again gives the key back. */
  lemma {:induction false} SplitJoinRoundTrip(s: string)
    ensures JoinPath(SplitPath(s)) == s
  {
    if s != [] {
      SplitJoinRoundTrip(s[1..]);
      var rest := SplitPath(s[1..]);
      if s[0] == '.' {
        assert ([""] + rest)[1..] == rest;
      } else {
        var r := [[s[0]] + rest[0]] + rest[1..];
        if |rest| == 1 {
          assert r == [[s[0]] + rest[0]];
        } else {
          assert r[1..] == rest[1..];
          assert JoinPath(rest) == rest[0] + "." + JoinPath(rest[1..]);
        }
      }
    }
  }

  /** A key without a separator is a one-fragment path. */
  lemma {:induction false} SplitPathWithoutDot(s: string)
    requires forall i :: 0 <= i < |s| ==> s[i] != '.'
    ensures SplitPath(s) == [s]
  {
    if s != [] {
      SplitPathWithoutDot(s[1..]);
      assert [s[0]] + s[1..] == s;
    }
  }

  /** The position of the first child under `key`. */
  function FirstIndex(children: seq<Entry>, key: string): (r: Option<nat>)
    ensures r.Some? ==> r.value < |children| && children[r.value].key == key
    ensures r.Some? ==> forall j :: 0 <= j < r.value ==> children[j].key != key
    ensures r.None? <==> forall j :: 0 <= j < |children| ==> children[j].key != key
  {
    if children == [] then None
    else if children[0].key == key then Some(0)
    else
      match FirstIndex(children[1..], key)
      case None => None
      case Some(i) => Some(i + 1)
  }

  /** The first child under `key` is the first position holding that key. */
  lemma FirstIndexIs(children: seq<Entry>, key: string, i: nat)
    requires i < |children| && children[i].key == key
    requires forall j :: 0 <= j < i ==> children[j].key != key
    ensures FirstIndex(children, key) == Some(i)
  {
  }

  /** get_child_optional: the node a path leads to, following the first child under each fragment. */
  function GetPath(t: PTree, path: seq<string>): Option<PTree>
    decreases |path|
  {
    if path == [] then Some(t)
    else
      match FirstIndex(t.children, path[0])
      case None => None
      case Some(i) => GetPath(t.children[i].sub, path[1..])
  }

  /**
   * put: sets the value of the node a path leads to; the missing nodes on
   * the way are appended as new children.
   */
  function PutPath(t: PTree, path: seq<string>, v: string): PTree
    decreases |path|
  {
    if path == [] then t.(data := v)
    else
      match FirstIndex(t.children, path[0])
      case Some(i) =>
        t.(children := t.children[i := Entry(path[0], PutPath(t.children[i].sub, path[1..], v))])
      case None =>
        t.(children := t.children + [Entry(path[0], PutPath(EmptyTree, path[1..], v))])
  }

  /** After a put the path leads to a node holding the value. */
  lemma {:induction false} GetAfterPut(t: PTree, path: seq<string>, v: string)
    ensures GetPath(PutPath(t, path, v), path).Some?
    ensures GetPath(PutPath(t, path, v), path).value.data == v
    decreases |path|
  {
    if path != [] {
      var t' := PutPath(t, path, v);
      match FirstIndex(t.children, path[0])
      case Some(i) => {
        FirstIndexIs(t'.children, path[0], i);
        GetAfterPut(t.children[i].sub, path[1..], v);
      }
      case None => {
        FirstIndexIs(t'.children, path[0], |t.children|);
        GetAfterPut(EmptyTree, path[1..], v);
      }
    }
  }

  /** A put under one top-level key leaves what is under every other top-level key alone. */
  lemma PutLeavesOtherKeys(t: PTree, path: seq<string>, v: string, other: string)
    requires |path| >= 1 && path[0] != other
    ensures FirstIndex(PutPath(t, path, v).children, other) == FirstIndex(t.children, other)
    ensures GetPath(PutPath(t, path, v), [other]) == GetPath(t, [other])
  {
    var t' := PutPath(t, path, v);
    match FirstIndex(t.children, path[0])
    case Some(i) => {
      assert forall j :: 0 <= j < |t.children| ==> t'.children[j].key == t.children[j].key;
      assert |t'.children| == |t.children|;
      match FirstIndex(t.children, other)
      case Some(k) => {
        FirstIndexIs(t'.children, other, k);
        assert t'.children[k] == t.children[k];
      }
      case None => {
      }
    }
    case None => {
      assert t'.children == t.children + [Entry(path[0], PutPath(EmptyTree, path[1..], v))];
      match FirstIndex(t.children, other)
      case Some(k) => {
        FirstIndexIs(t'.children, other, k);
        assert t'.children[k] == t.children[k];
      }
      case None => {
        assert forall j :: 0 <= j < |t'.children| ==> t'.children[j].key != other;
      }
    }
  }

  // ---------------------------------------------------------------------
  // map_flatten

  /** The key a child gets under its parent's key: joined with '.', or alone below the root. */
  function ChildKey(key: string, childKey: string): string {
    (if key != [] then key + "." else "") + childKey
  }

  /**
   * The (key, value) pairs map_flatten stores for the subtree `t` at
   * `key`, in the order it stores them: the node itself when it is a leaf
   * at a non-empty key, then its children's pairs in order.
   */
  function Leaves(t: PTree, key: string): seq<(string, string)>
    decreases t, |t.children| + 1
  {
    (if key != [] && t.children == [] then [(key, t.data)] else [])
      + ChildLeaves(t, key, 0)
  }

  /** The pairs stored for the children of `t` from position `i` on. */
  function ChildLeaves(t: PTree, key: string, i: nat): seq<(string, string)>
    decreases t, |t.children| - i
  {
    if i >= |t.children| then []
    else
      assert t.children[i] in t.children;
      Leaves(t.children[i].sub, ChildKey(key, t.children[i].key)) + ChildLeaves(t, key, i + 1)
  }

  /** The node reached by following child positions `idx`, with its flattened key. */
  function Follow(t: PTree, key: string, idx: seq<nat>): Option<(string, PTree)>
    decreases |idx|
  {
    if idx == [] then Some((key, t))
    else if idx[0] < |t.children| then
      Follow(t.children[idx[0]].sub, ChildKey(key, t.children[idx[0]].key), idx[1..])
    else None
  }

  /** Position path `idx` leads to a leaf at a non-empty key whose key and value are `p`. */
  predicate LeafPair(t: PTree, key: string, idx: seq<nat>, p: (string, string)) {
    var f := Follow(t, key, idx);
    f.Some? && f.value.1.children == [] && f.value.0 != [] && f.value.0 == p.0 && f.value.1.data == p.1
  }

  /** Every stored pair is the key and value of a leaf; interior values are never stored. */
  lemma {:induction false} LeavesSound(t: PTree, key: string, p: (string, string))
    requires p in Leaves(t, key)
    ensures exists idx :: LeafPair(t, key, idx, p)
    decreases t, |t.children| + 1
  {
    if key != [] && t.children == [] && p == (key, t.data) {
      assert LeafPair(t, key, [], p);
    } else {
      assert p in ChildLeaves(t, key, 0);
      ChildLeavesSound(t, key, 0, p);
    }
  }

  lemma {:induction false} ChildLeavesSound(t: PTree, key: string, i: nat, p: (string, string))
    requires p in ChildLeaves(t, key, i)
    ensures exists idx :: LeafPair(t, key, idx, p)
    decreases t, |t.children| - i
  {
    assert i < |t.children|;
    assert t.children[i] in t.children;
    var c := t.children[i];
    var ck := ChildKey(key, c.key);
    if p in Leaves(c.sub, ck) {
      LeavesSound(c.sub, ck, p);
      var idx :| LeafPair(c.sub, ck, idx, p);
      assert ([i] + idx)[1..] == idx;
      assert Follow(t, key, [i] + idx) == Follow(c.sub, ck, idx);
      assert LeafPair(t, key, [i] + idx, p);
    } else {
      ChildLeavesSound(t, key, i + 1, p);
    }
  }

  /** Every leaf at a non-empty key is stored, with its value. */
  lemma {:induction false} LeavesComplete(t: PTree, key: string, idx: seq<nat>, p: (string, string))
    requires LeafPair(t, key, idx, p)
    ensures p in Leaves(t, key)
    decreases |idx|
  {
    if idx == [] {
      assert p == (key, t.data);
    } else {
      var i := idx[0];
      var c := t.children[i];
      var ck := ChildKey(key, c.key);
      assert Follow(t, key, idx) == Follow(c.sub, ck, idx[1..]);
      LeavesComplete(c.sub, ck, idx[1..], p);
      ChildLeavesContain(t, key, 0, i, p);
    }
  }

  lemma {:induction false} ChildLeavesContain(t: PTree, key: string, i: nat, j: nat, p: (string, string))
    requires i <= j < |t.children|
    requires p in Leaves(t.children[j].sub, ChildKey(key, t.children[j].key))
    ensures p in ChildLeaves(t, key, i)
    decreases j - i
  {
    if i < j {
      ChildLeavesContain(t, key, i + 1, j, p);
    }
  }

  /** The keys a sequence of pairs stores. */
  function PairKeys(pairs: seq<(string, string)>): set<string> {
    set p | p in pairs :: p.0
  }

  /** The map after storing `pairs` in order; a later pair overwrites an earlier one. */
  function Store(m: map<string, string>, pairs: seq<(string, string)>): (r: map<string, string>)
    ensures r.Keys == m.Keys + PairKeys(pairs)
    decreases |pairs|
  {
    if pairs == [] then m
    else
      assert PairKeys(pairs) == {pairs[0].0} + PairKeys(pairs[1..]) by {
        assert forall p :: p in pairs <==> p == pairs[0] || p in pairs[1..];
      }
      Store(m[pairs[0].0 := pairs[0].1], pairs[1..])
  }

  lemma {:induction false} StoreAppend(m: map<string, string>, a: seq<(string, string)>, b: seq<(string, string)>)
    ensures Store(m, a + b) == Store(Store(m, a), b)
    decreases |a|
  {
    if a != [] {
      assert (a + b)[1..] == a[1..] + b;
      StoreAppend(m[a[0].0 := a[0].1], a[1..], b);
    } else {
      assert a + b == b;
    }
  }

  /**
   * What map_flatten leaves in the map: a key is there exactly when it was
   * there before or is the flattened key of a leaf of the tree.
   */
  lemma FlattenedKeys(m: map<string, string>, t: PTree, key: string, k: string)
    ensures k in Store(m, Leaves(t, key)) <==> k in m || exists idx, v :: LeafPair(t, key, idx, (k, v))
  {
    var ps := Leaves(t, key);
    if k in Store(m, ps) && k !in m {
      var p :| p in ps && p.0 == k;
      LeavesSound(t, key, p);
      var idx :| LeafPair(t, key, idx, p);
      assert LeafPair(t, key, idx, (k, p.1));
    }
    if exists idx, v :: LeafPair(t, key, idx, (k, v)) {
      var idx, v :| LeafPair(t, key, idx, (k, v));
      LeavesComplete(t, key, idx, (k, v));
      assert k in PairKeys(ps);
    }
  }

  /**
   * The value Store leaves under a key: that of the last pair with the key,
   * or the map's own value when no pair has the key.
   */
  lemma {:induction false} StoreValues(m: map<string, string>, pairs: seq<(string, string)>, k: string)
    ensures k !in PairKeys(pairs) && k in m ==> Store(m, pairs)[k] == m[k]
    ensures k in PairKeys(pairs) ==>
      exists j :: 0 <= j < |pairs| && pairs[j] == (k, Store(m, pairs)[k])
        && forall j' :: j < j' < |pairs| ==> pairs[j'].0 != k
    decreases |pairs|
  {
    if pairs != [] {
      var rest := pairs[1..];
      var m' := m[pairs[0].0 := pairs[0].1];
      assert Store(m, pairs) == Store(m', rest);
      assert forall j' :: 1 <= j' < |pairs| ==> pairs[j'] == rest[j' - 1];
      StoreValues(m', rest, k);
      if k in PairKeys(rest) {
        var j :| 0 <= j < |rest| && rest[j] == (k, Store(m', rest)[k])
          && forall j' :: j < j' < |rest| ==> rest[j'].0 != k;
        assert pairs[j + 1] == rest[j];
        assert forall j' :: j + 1 < j' < |pairs| ==> pairs[j'].0 != k;
      } else if k == pairs[0].0 {
        assert forall j' :: 0 < j' < |pairs| ==> pairs[j'].0 != k by {
          forall j' | 0 < j' < |pairs| ensures pairs[j'].0 != k {
            assert rest[j' - 1] in rest;
          }
        }
        assert pairs[0] == (k, Store(m, pairs)[k]);
      } else {
        assert k !in PairKeys(pairs) by {
          assert forall p :: p in pairs ==> p == pairs[0] || p in rest;
        }
      }
    }
  }

  /**
   * The values map_flatten leaves in the map: under a leaf's flattened key,
   * the value of a leaf with that key (the last one stored, when several
   * leaves flatten to it); under any other key, the value the map had.
   */
  lemma FlattenedValues(m: map<string, string>, t: PTree, key: string, k: string)
    requires k in Store(m, Leaves(t, key))
    ensures (exists idx, w :: LeafPair(t, key, idx, (k, w))) ==>
      exists idx :: LeafPair(t, key, idx, (k, Store(m, Leaves(t, key))[k]))
    ensures (exists idx, w :: LeafPair(t, key, idx, (k, w))) ==>
      var ps := Leaves(t, key);
      exists j :: 0 <= j < |ps| && ps[j] == (k, Store(m, ps)[k]) && forall j' :: j < j' < |ps| ==> ps[j'].0 != k
    ensures !(exists idx, w :: LeafPair(t, key, idx, (k, w))) ==> k in m && Store(m, Leaves(t, key))[k] == m[k]
  {
    var ps := Leaves(t, key);
    StoreValues(m, ps, k);
    FlattenedKeys(m, t, key, k);
    StoredKeyIsLeaf(t, key, k);
    if exists idx, w :: LeafPair(t, key, idx, (k, w)) {
      var idx, w :| LeafPair(t, key, idx, (k, w));
      LeavesComplete(t, key, idx, (k, w));
      assert k in PairKeys(ps);
      var j :| 0 <= j < |ps| && ps[j] == (k, Store(m, ps)[k]) && forall j' :: j < j' < |ps| ==> ps[j'].0 != k;
      LeavesSound(t, key, ps[j]);
    }
  }

  /** A key among the flattened pairs is the key of a leaf. */
  lemma StoredKeyIsLeaf(t: PTree, key: string, k: string)
    ensures k in PairKeys(Leaves(t, key)) ==> exists idx, w :: LeafPair(t, key, idx, (k, w))
  {
    if k in PairKeys(Leaves(t, key)) {
      var p :| p in Leaves(t, key) && p.0 == k;
      LeavesSound(t, key, p);
      var idx :| LeafPair(t, key, idx, p);
      assert LeafPair(t, key, idx, (k, p.1));
    }
  }

  // ---------------------------------------------------------------------
  // Value translation

  /** How an `int` is written into a tree: decimal, with a leading '-' when negative. */
  function IntToString(i: int): string {
    if i < 0 then "-" + NatToString(-i) else NatToString(i)
  }

  predicate AllDigits(s: string) {
    forall k :: 0 <= k < |s| ==> '0' <= s[k] <= '9'
  }

  /** How an `int` is read from a tree: an optional '-' and decimal digits, in range. */
  function ParseInt(s: string): (r: Option<int>)
    ensures r.Some? ==> IsInt32(r.value)
  {
    if |s| >= 2 && s[0] == '-' && AllDigits(s[1..]) then
      var v := -ParseDigits(s[1..]);
      if IsInt32(v) then Some(v) else None
    else if |s| >= 1 && AllDigits(s) then
      var v := ParseDigits(s);
      if IsInt32(v) then Some(v) else None
    else None
  }

  /** An `int` written into a tree reads back unchanged. */
  lemma IntRoundTrip(i: int)
    requires IsInt32(i)
    ensures ParseInt(IntToString(i)) == Some(i)
  {
    var s := IntToString(i);
    if i < 0 {
      assert s == "-" + NatToString(-i);
      NegativeRoundTrip(-i);
    } else {
      assert s == NatToString(i);
      NonNegativeRoundTrip(i);
    }
  }

  lemma NonNegativeRoundTrip(n: nat)
    requires n < 0x8000_0000
    ensures ParseInt(NatToString(n)) == Some(n)
  {
    var t := NatToString(n);
    assert AllDigits(t);
    assert t[0] != '-';
    NatToStringRoundTrip(n);
  }

  lemma NegativeRoundTrip(n: nat)
    requires 0 < n <= 0x8000_0000
    ensures ParseInt("-" + NatToString(n)) == Some(-(n as int))
  {
    var t := NatToString(n);
    var s := "-" + t;
    assert s[1..] == t;
    assert AllDigits(s[1..]);
    NatToStringRoundTrip(n);
  }

  /** How a `bool` is written: "true" or "false". */
  function BoolToString(b: bool): string {
    if b then "true" else "false"
  }

  /** How a `bool` is read: as the number 0 or 1, or else as "true" or "false". */
  function ParseBool(s: string): (r: Option<bool>)
    ensures s == "true" ==> r == Some(true)
    ensures s == "false" ==> r == Some(false)
  {
    if |s| >= 1 && AllDigits(s) && ParseDigits(s) <= 1 then Some(ParseDigits(s) == 1)
    else if s == "true" then Some(true)
    else if s == "false" then Some(false)
    else None
  }

  /** A `bool` written into a tree reads back unchanged. */
  lemma BoolRoundTrip(b: bool)
    ensures ParseBool(BoolToString(b)) == Some(b)
  {
    assert !AllDigits("true") by { assert !('0' <= "true"[0] <= '9'); }
    assert !AllDigits("false") by { assert !('0' <= "false"[0] <= '9'); }
  }

  /** The text form of `float` values, which the model takes from outside. */
  datatype FloatText = FloatText(format: real -> string, parse: string -> Option<real>)

  /** A float value the translator writes and reads back exactly. */
  predicate RoundTrips(tr: FloatText, x: real) {
    tr.parse(tr.format(x)) == Some(x)
  }

  /**
   * The text under a named field's key. Every named key is a single path
   * fragment (NamedKeysSingleFragment), so get and put on it walk the path
   * `[key]`.
   */
  function FieldText(t: PTree, key: string): Option<string> {
    match GetPath(t, [key])
    case None => None
    case Some(n) => Some(n.data)
  }

  /** get<int>(key, default): the value under `key` when there is one and it reads as an `int`. */
  function GetInt(t: PTree, key: string, default: int): int {
    match FieldText(t, key)
    case None => default
    case Some(s) => (match ParseInt(s) case Some(v) => v case None => default)
  }

  function GetBool(t: PTree, key: string, default: bool): bool {
    match FieldText(t, key)
    case None => default
    case Some(s) => (match ParseBool(s) case Some(v) => v case None => default)
  }

  function GetFloat(t: PTree, key: string, default: real, tr: FloatText): real {
    match FieldText(t, key)
    case None => default
    case Some(s) => (match tr.parse(s) case Some(v) => v case None => default)
  }

  /** A sequence of puts under arbitrary keys, split at their separators (the cfg_map entries). */
  function PutAll(t: PTree, pairs: seq<(string, string)>): PTree
    decreases |pairs|
  {
    if pairs == [] then t
    else
      var n := |pairs| - 1;
      PutPath(PutAll(t, pairs[..n]), SplitPath(pairs[n].0), pairs[n].1)
  }

  /** A sequence of puts under single-fragment keys (the named fields). */
  function PutFields(t: PTree, pairs: seq<(string, string)>): PTree
    decreases |pairs|
  {
    if pairs == [] then t
    else
      var n := |pairs| - 1;
      PutPath(PutFields(t, pairs[..n]), [pairs[n].0], pairs[n].1)
  }

  predicate NoDot(s: string) {
    forall i :: 0 <= i < |s| ==> s[i] != '.'
  }

  predicate DistinctKeys(pairs: seq<(string, string)>) {
    forall a, b :: 0 <= a < b < |pairs| ==> pairs[a].0 != pairs[b].0
  }

  /** After puts under distinct keys, each key holds the value put under it, whatever came before. */
  lemma {:induction false} GetAfterPutFields(t: PTree, pairs: seq<(string, string)>, j: nat)
    requires DistinctKeys(pairs) && j < |pairs|
    ensures FieldText(PutFields(t, pairs), pairs[j].0) == Some(pairs[j].1)
    decreases |pairs|
  {
    var n := |pairs| - 1;
    var before := PutFields(t, pairs[..n]);
    if j == n {
      GetAfterPut(before, [pairs[n].0], pairs[n].1);
    } else {
      assert DistinctKeys(pairs[..n]);
      GetAfterPutFields(t, pairs[..n], j);
      PutLeavesOtherKeys(before, [pairs[n].0], pairs[n].1, pairs[j].0);
    }
  }

  // ---------------------------------------------------------------------
  // The named fields of the four configuration files

  /** The named fields of TrackerConfig, ControllerConfig, HMDConfig and DeviceConfig. */
  datatype Fields =
    | TrackerFields(
        virtualTrackerCount: int,
        controllerPositionSmoothing: real,
        controllerPositionPrediction: real,
        controllerPositionPredictionHistory: int,
        ignorePoseFromOneTracker: bool,
        opticalTrackingTimeout: int,
        useBgrToHsvLookupTable: bool,
        threadSleepMs: int,
        excludeOpposedCameras: bool,
        minValidProjectionArea: real,
        occludedAreaOnLossSize: real,
        occludedAreaIgnoreTrackers: int,
        occludedAreaRegainProjectionSize: real,
        minPointsInContour: int,
        maxTrackerPositionDeviation: real,
        disableRoi: bool,
        optimizedRoi: bool,
        roiEdgeOffset: int,
        globalForwardDegrees: real)
    | ControllerFields(virtualControllerCount: int)
    | HmdFields(virtualHmdCount: int)
    | DeviceFields(
        controllerReconnectInterval: int,
        trackerReconnectInterval: int,
        hmdReconnectInterval: int,
        gamepadApiEnabled: bool,
        platformApiEnabled: bool)

  /** The keys config2ptree puts the named fields under, in its order. */
  const TrackerKeys: seq<string> := [
    "virtual_tracker_count", "controller_position_smoothing", "controller_position_prediction",
    "controller_position_prediction_history", "ignore_pose_from_one_tracker", "optical_tracking_timeout",
    "use_bgr_to_hsv_lookup_table", "thread_sleep_ms", "excluded_opposed_cameras",
    "min_valid_projection_area", "occluded_area_on_loss_size", "occluded_area_ignore_trackers",
    "occluded_area_regain_projection_size", "min_points_in_contour", "max_tracker_position_deviation",
    "disable_roi", "optimized_roi", "roi_edge_offset", "global_forward_degrees"]
  const ControllerKeys: seq<string> := ["virtual_controller_count"]
  const HmdKeys: seq<string> := ["virtual_hmd_count"]
  const DeviceKeys: seq<string> := [
    "controller_reconnect_interval", "tracker_reconnect_interval", "hmd_reconnect_interval",
    "gamepad_api_enabled", "platform_api_enabled"]

  /** The four configuration files. */
  datatype ConfigKind = TrackerConfig | ControllerConfig | HmdConfig | DeviceConfig

  function KindOf(f: Fields): ConfigKind {
    match f
    case TrackerFields(_, _, _, _, _, _, _, _, _, _, _, _, _, _, _, _, _, _, _) => TrackerConfig
    case ControllerFields(_) => ControllerConfig
    case HmdFields(_) => HmdConfig
    case DeviceFields(_, _, _, _, _) => DeviceConfig
  }

  function KeysOf(f: Fields): seq<string> {
    match f
    case TrackerFields(_, _, _, _, _, _, _, _, _, _, _, _, _, _, _, _, _, _, _) => TrackerKeys
    case ControllerFields(_) => ControllerKeys
    case HmdFields(_) => HmdKeys
    case DeviceFields(_, _, _, _, _) => DeviceKeys
  }

  /** The texts config2ptree puts for the named fields, key by key. */
  function TextsOf(f: Fields, tr: FloatText): (r: seq<string>)
    ensures |r| == |KeysOf(f)|
  {
    match f
    case TrackerFields(_, _, _, _, _, _, _, _, _, _, _, _, _, _, _, _, _, _, _) =>
      [ IntToString(f.virtualTrackerCount),
        tr.format(f.controllerPositionSmoothing),
        tr.format(f.controllerPositionPrediction),
        IntToString(f.controllerPositionPredictionHistory),
        BoolToString(f.ignorePoseFromOneTracker),
        IntToString(f.opticalTrackingTimeout),
        BoolToString(f.useBgrToHsvLookupTable),
        IntToString(f.threadSleepMs),
        BoolToString(f.excludeOpposedCameras),
        tr.format(f.minValidProjectionArea),
        tr.format(f.occludedAreaOnLossSize),
        IntToString(f.occludedAreaIgnoreTrackers),
        tr.format(f.occludedAreaRegainProjectionSize),
        IntToString(f.minPointsInContour),
        tr.format(f.maxTrackerPositionDeviation),
        BoolToString(f.disableRoi),
        BoolToString(f.optimizedRoi),
        IntToString(f.roiEdgeOffset),
        tr.format(f.globalForwardDegrees) ]
    case ControllerFields(_) => [ IntToString(f.virtualControllerCount) ]
    case HmdFields(_) => [ IntToString(f.virtualHmdCount) ]
    case DeviceFields(_, _, _, _, _) =>
      [ IntToString(f.controllerReconnectInterval),
        IntToString(f.trackerReconnectInterval),
        IntToString(f.hmdReconnectInterval),
        BoolToString(f.gamepadApiEnabled),
        BoolToString(f.platformApiEnabled) ]
  }

  /** The (key, text) pairs config2ptree puts for the named fields, in its order. */
  function NamedValues(f: Fields, tr: FloatText): (r: seq<(string, string)>)
    ensures |r| == |KeysOf(f)|
    ensures forall j :: 0 <= j < |r| ==> r[j] == (KeysOf(f)[j], TextsOf(f, tr)[j])
    ensures DistinctKeys(r)
  {
    var keys := KeysOf(f);
    var texts := TextsOf(f, tr);
    KeysDistinct(f);
    seq(|keys|, j requires 0 <= j < |keys| => (keys[j], texts[j]))
  }

  /** The named keys of a configuration are pairwise different. */
  lemma KeysDistinct(f: Fields)
    ensures forall a, b :: 0 <= a < b < |KeysOf(f)| ==> KeysOf(f)[a] != KeysOf(f)[b]
  {
    if f.TrackerFields? {
      TrackerKeysDistinct();
    } else if f.DeviceFields? {
      assert forall a, b :: 0 <= a < b < |DeviceKeys| ==> DeviceKeys[a] != DeviceKeys[b];
    }
  }

  lemma TrackerKeysDistinct()
    ensures forall a, b :: 0 <= a < b < |TrackerKeys| ==> TrackerKeys[a] != TrackerKeys[b]
  {
  }

  /** No named key holds a separator: each is a path of one fragment, itself. */
  lemma NamedKeysSingleFragment(f: Fields, j: nat)
    requires j < |KeysOf(f)|
    ensures NoDot(KeysOf(f)[j])
    ensures SplitPath(KeysOf(f)[j]) == [KeysOf(f)[j]]
  {
    var k := KeysOf(f)[j];
    if f.TrackerFields? {
      TrackerKeyPlain(j);
    } else if f.DeviceFields? {
      DeviceKeyPlain(j);
    } else if f.ControllerFields? {
      assert k == "virtual_controller_count";
      assert NoDot("virtual_controller_count");
    } else {
      assert k == "virtual_hmd_count";
      assert NoDot("virtual_hmd_count");
    }
    assert NoDot(k);
    SplitPathWithoutDot(k);
  }

  lemma TrackerKeyPlain(j: nat)
    requires j < |TrackerKeys|
    ensures NoDot(TrackerKeys[j])
  {
    if j < 5 {
      TrackerKeyPlain0(j);
    } else if j < 10 {
      TrackerKeyPlain1(j);
    } else if j < 15 {
      TrackerKeyPlain2(j);
    } else {
      TrackerKeyPlain3(j);
    }
  }

  lemma TrackerKeyPlain0(j: nat)
    requires 0 <= j < 5
    ensures NoDot(TrackerKeys[j])
  {
    if j == 0 {
      assert NoDot("virtual_tracker_count");
    } else if j == 1 {
      assert NoDot("controller_position_smoothing");
    } else if j == 2 {
      assert NoDot("controller_position_prediction");
    } else if j == 3 {
      assert NoDot("controller_position_prediction_history");
    } else {
      assert NoDot("ignore_pose_from_one_tracker");
    }
  }

  lemma TrackerKeyPlain1(j: nat)
    requires 5 <= j < 10
    ensures NoDot(TrackerKeys[j])
  {
    if j == 5 {
      assert NoDot("optical_tracking_timeout");
    } else if j == 6 {
      assert NoDot("use_bgr_to_hsv_lookup_table");
    } else if j == 7 {
      assert NoDot("thread_sleep_ms");
    } else if j == 8 {
      assert NoDot("excluded_opposed_cameras");
    } else {
      assert NoDot("min_valid_projection_area");
    }
  }

  lemma TrackerKeyPlain2(j: nat)
    requires 10 <= j < 15
    ensures NoDot(TrackerKeys[j])
  {
    if j == 10 {
      assert NoDot("occluded_area_on_loss_size");
    } else if j == 11 {
      assert NoDot("occluded_area_ignore_trackers");
    } else if j == 12 {
      assert NoDot("occluded_area_regain_projection_size");
    } else if j == 13 {
      assert NoDot("min_points_in_contour");
    } else {
      assert NoDot("max_tracker_position_deviation");
    }
  }

  lemma TrackerKeyPlain3(j: nat)
    requires 15 <= j < 19
    ensures NoDot(TrackerKeys[j])
  {
    if j == 15 {
      assert NoDot("disable_roi");
    } else if j == 16 {
      assert NoDot("optimized_roi");
    } else if j == 17 {
      assert NoDot("roi_edge_offset");
    } else {
      assert NoDot("global_forward_degrees");
    }
  }

  lemma DeviceKeyPlain(j: nat)
    requires j < |DeviceKeys|
    ensures NoDot(DeviceKeys[j])
  {
    if j == 0 {
      assert NoDot("controller_reconnect_interval");
    } else if j == 1 {
      assert NoDot("tracker_reconnect_interval");
    } else if j == 2 {
      assert NoDot("hmd_reconnect_interval");
    } else if j == 3 {
      assert NoDot("gamepad_api_enabled");
    } else {
      assert NoDot("platform_api_enabled");
    }
  }

  /**
   * ptree2config's reads of the named fields: each field is read under the
   * key config2ptree writes it under, and keeps its current value when the
   * key is missing or its text does not read as the field's type.
   */
  function ReadFields(t: PTree, cur: Fields, tr: FloatText): (r: Fields)
    ensures KindOf(r) == KindOf(cur) && KeysOf(r) == KeysOf(cur)
  {
    match cur
    case TrackerFields(_, _, _, _, _, _, _, _, _, _, _, _, _, _, _, _, _, _, _) =>
      TrackerFields(
        GetInt(t, TrackerKeys[0], cur.virtualTrackerCount),
        GetFloat(t, TrackerKeys[1], cur.controllerPositionSmoothing, tr),
        GetFloat(t, TrackerKeys[2], cur.controllerPositionPrediction, tr),
        GetInt(t, TrackerKeys[3], cur.controllerPositionPredictionHistory),
        GetBool(t, TrackerKeys[4], cur.ignorePoseFromOneTracker),
        GetInt(t, TrackerKeys[5], cur.opticalTrackingTimeout),
        GetBool(t, TrackerKeys[6], cur.useBgrToHsvLookupTable),
        GetInt(t, TrackerKeys[7], cur.threadSleepMs),
        GetBool(t, TrackerKeys[8], cur.excludeOpposedCameras),
        GetFloat(t, TrackerKeys[9], cur.minValidProjectionArea, tr),
        GetFloat(t, TrackerKeys[10], cur.occludedAreaOnLossSize, tr),
        GetInt(t, TrackerKeys[11], cur.occludedAreaIgnoreTrackers),
        GetFloat(t, TrackerKeys[12], cur.occludedAreaRegainProjectionSize, tr),
        GetInt(t, TrackerKeys[13], cur.minPointsInContour),
        GetFloat(t, TrackerKeys[14], cur.maxTrackerPositionDeviation, tr),
        GetBool(t, TrackerKeys[15], cur.disableRoi),
        GetBool(t, TrackerKeys[16], cur.optimizedRoi),
        GetInt(t, TrackerKeys[17], cur.roiEdgeOffset),
        GetFloat(t, TrackerKeys[18], cur.globalForwardDegrees, tr))
    case ControllerFields(_) =>
      ControllerFields(GetInt(t, ControllerKeys[0], cur.virtualControllerCount))
    case HmdFields(_) =>
      HmdFields(GetInt(t, HmdKeys[0], cur.virtualHmdCount))
    case DeviceFields(_, _, _, _, _) =>
      DeviceFields(
        GetInt(t, DeviceKeys[0], cur.controllerReconnectInterval),
        GetInt(t, DeviceKeys[1], cur.trackerReconnectInterval),
        GetInt(t, DeviceKeys[2], cur.hmdReconnectInterval),
        GetBool(t, DeviceKeys[3], cur.gamepadApiEnabled),
        GetBool(t, DeviceKeys[4], cur.platformApiEnabled))
  }

  /** The field values the files can hold: `int`s in range and floats the translator reproduces. */
  predicate Representable(f: Fields, tr: FloatText) {
    match f
    case TrackerFields(_, _, _, _, _, _, _, _, _, _, _, _, _, _, _, _, _, _, _) =>
      && IsInt32(f.virtualTrackerCount)
      && IsInt32(f.controllerPositionPredictionHistory)
      && IsInt32(f.opticalTrackingTimeout)
      && IsInt32(f.threadSleepMs)
      && IsInt32(f.occludedAreaIgnoreTrackers)
      && IsInt32(f.minPointsInContour)
      && IsInt32(f.roiEdgeOffset)
      && RoundTrips(tr, f.controllerPositionSmoothing)
      && RoundTrips(tr, f.controllerPositionPrediction)
      && RoundTrips(tr, f.minValidProjectionArea)
      && RoundTrips(tr, f.occludedAreaOnLossSize)
      && RoundTrips(tr, f.occludedAreaRegainProjectionSize)
      && RoundTrips(tr, f.maxTrackerPositionDeviation)
      && RoundTrips(tr, f.globalForwardDegrees)
    case ControllerFields(_) => IsInt32(f.virtualControllerCount)
    case HmdFields(_) => IsInt32(f.virtualHmdCount)
    case DeviceFields(_, _, _, _, _) =>
      && IsInt32(f.controllerReconnectInterval)
      && IsInt32(f.trackerReconnectInterval)
      && IsInt32(f.hmdReconnectInterval)
  }

  lemma ReadsInt(t: PTree, key: string, i: int, default: int)
    requires IsInt32(i) && FieldText(t, key) == Some(IntToString(i))
    ensures GetInt(t, key, default) == i
  {
    IntRoundTrip(i);
  }

  lemma ReadsBool(t: PTree, key: string, b: bool, default: bool)
    requires FieldText(t, key) == Some(BoolToString(b))
    ensures GetBool(t, key, default) == b
  {
    BoolRoundTrip(b);
  }

  lemma ReadsFloat(t: PTree, key: string, x: real, default: real, tr: FloatText)
    requires RoundTrips(tr, x) && FieldText(t, key) == Some(tr.format(x))
    ensures GetFloat(t, key, default, tr) == x
  {
  }

  /**
   * After the named puts, whatever the tree held before (the cfg_map
   * entries), each named key holds its field's text: the named fields win.
   */
  lemma NamedFieldsOverride(t: PTree, f: Fields, tr: FloatText, j: nat)
    requires j < |KeysOf(f)|
    ensures FieldText(PutFields(t, NamedValues(f, tr)), KeysOf(f)[j]) == Some(TextsOf(f, tr)[j])
  {
    GetAfterPutFields(t, NamedValues(f, tr), j);
  }

  /** Every named key of `f` holds its field's text in `w`. */
  predicate HoldsTexts(w: PTree, f: Fields, tr: FloatText) {
    forall j :: 0 <= j < |KeysOf(f)| ==> FieldText(w, KeysOf(f)[j]) == Some(TextsOf(f, tr)[j])
  }

  /**
   * Reading the named fields back from a tree they were written into gives
   * them unchanged, whatever the tree held before and whatever values the
   * configuration had when reading.
   */
  lemma NamedFieldsRoundTrip(t: PTree, f: Fields, cur: Fields, tr: FloatText)
    requires KeysOf(cur) == KeysOf(f) && Representable(f, tr)
    ensures ReadFields(PutFields(t, NamedValues(f, tr)), cur, tr) == f
  {
    var w := PutFields(t, NamedValues(f, tr));
    forall j | 0 <= j < |KeysOf(f)|
      ensures FieldText(w, KeysOf(f)[j]) == Some(TextsOf(f, tr)[j])
    {
      NamedFieldsOverride(t, f, tr, j);
    }
    ReadBack(w, f, cur, tr);
  }

  /** A tree holding the texts of representable fields reads back as those fields. */
  lemma ReadBack(w: PTree, f: Fields, cur: Fields, tr: FloatText)
    requires KeysOf(cur) == KeysOf(f) && Representable(f, tr) && HoldsTexts(w, f, tr)
    ensures ReadFields(w, cur, tr) == f
  {
    match f
    case TrackerFields(_, _, _, _, _, _, _, _, _, _, _, _, _, _, _, _, _, _, _) => {
      TrackerReadBack0(w, f, cur, tr);
      TrackerReadBack1(w, f, cur, tr);
      TrackerReadBack2(w, f, cur, tr);
      TrackerReadBack3(w, f, cur, tr);
      TrackerReadBack4(w, f, cur, tr);
      TrackerReadBack5(w, f, cur, tr);
      TrackerReadBack6(w, f, cur, tr);
      TrackerReadBack7(w, f, cur, tr);
      TrackerReadBack8(w, f, cur, tr);
      TrackerReadBack9(w, f, cur, tr);
      TrackerReadBack10(w, f, cur, tr);
      TrackerReadBack11(w, f, cur, tr);
      TrackerReadBack12(w, f, cur, tr);
      TrackerReadBack13(w, f, cur, tr);
      TrackerReadBack14(w, f, cur, tr);
      TrackerReadBack15(w, f, cur, tr);
      TrackerReadBack16(w, f, cur, tr);
      TrackerReadBack17(w, f, cur, tr);
      TrackerReadBack18(w, f, cur, tr);
    }
    case ControllerFields(_) => {
      assert TextsOf(f, tr)[0] == IntToString(f.virtualControllerCount);
      ReadsInt(w, ControllerKeys[0], f.virtualControllerCount, cur.virtualControllerCount);
    }
    case HmdFields(_) => {
      assert TextsOf(f, tr)[0] == IntToString(f.virtualHmdCount);
      ReadsInt(w, HmdKeys[0], f.virtualHmdCount, cur.virtualHmdCount);
    }
    case DeviceFields(_, _, _, _, _) => DeviceReadBack(w, f, cur, tr);
  }

  lemma TrackerReadBack0(w: PTree, f: Fields, cur: Fields, tr: FloatText)
    requires f.TrackerFields? && cur.TrackerFields? && IsInt32(f.virtualTrackerCount)
    requires FieldText(w, KeysOf(f)[0]) == Some(TextsOf(f, tr)[0])
    ensures ReadFields(w, cur, tr).virtualTrackerCount == f.virtualTrackerCount
  {
    assert TextsOf(f, tr)[0] == IntToString(f.virtualTrackerCount);
    ReadsInt(w, TrackerKeys[0], f.virtualTrackerCount, cur.virtualTrackerCount);
  }

  lemma TrackerReadBack1(w: PTree, f: Fields, cur: Fields, tr: FloatText)
    requires f.TrackerFields? && cur.TrackerFields? && RoundTrips(tr, f.controllerPositionSmoothing)
    requires FieldText(w, KeysOf(f)[1]) == Some(TextsOf(f, tr)[1])
    ensures ReadFields(w, cur, tr).controllerPositionSmoothing == f.controllerPositionSmoothing
  {
    assert TextsOf(f, tr)[1] == tr.format(f.controllerPositionSmoothing);
    ReadsFloat(w, TrackerKeys[1], f.controllerPositionSmoothing, cur.controllerPositionSmoothing, tr);
  }

  lemma TrackerReadBack2(w: PTree, f: Fields, cur: Fields, tr: FloatText)
    requires f.TrackerFields? && cur.TrackerFields? && RoundTrips(tr, f.controllerPositionPrediction)
    requires FieldText(w, KeysOf(f)[2]) == Some(TextsOf(f, tr)[2])
    ensures ReadFields(w, cur, tr).controllerPositionPrediction == f.controllerPositionPrediction
  {
    assert TextsOf(f, tr)[2] == tr.format(f.controllerPositionPrediction);
    ReadsFloat(w, TrackerKeys[2], f.controllerPositionPrediction, cur.controllerPositionPrediction, tr);
  }

  lemma TrackerReadBack3(w: PTree, f: Fields, cur: Fields, tr: FloatText)
    requires f.TrackerFields? && cur.TrackerFields? && IsInt32(f.controllerPositionPredictionHistory)
    requires FieldText(w, KeysOf(f)[3]) == Some(TextsOf(f, tr)[3])
    ensures ReadFields(w, cur, tr).controllerPositionPredictionHistory == f.controllerPositionPredictionHistory
  {
    assert TextsOf(f, tr)[3] == IntToString(f.controllerPositionPredictionHistory);
    ReadsInt(w, TrackerKeys[3], f.controllerPositionPredictionHistory, cur.controllerPositionPredictionHistory);
  }

  lemma TrackerReadBack4(w: PTree, f: Fields, cur: Fields, tr: FloatText)
    requires f.TrackerFields? && cur.TrackerFields?
    requires FieldText(w, KeysOf(f)[4]) == Some(TextsOf(f, tr)[4])
    ensures ReadFields(w, cur, tr).ignorePoseFromOneTracker == f.ignorePoseFromOneTracker
  {
    assert TextsOf(f, tr)[4] == BoolToString(f.ignorePoseFromOneTracker);
    ReadsBool(w, TrackerKeys[4], f.ignorePoseFromOneTracker, cur.ignorePoseFromOneTracker);
  }

  lemma TrackerReadBack5(w: PTree, f: Fields, cur: Fields, tr: FloatText)
    requires f.TrackerFields? && cur.TrackerFields? && IsInt32(f.opticalTrackingTimeout)
    requires FieldText(w, KeysOf(f)[5]) == Some(TextsOf(f, tr)[5])
    ensures ReadFields(w, cur, tr).opticalTrackingTimeout == f.opticalTrackingTimeout
  {
    assert TextsOf(f, tr)[5] == IntToString(f.opticalTrackingTimeout);
    ReadsInt(w, TrackerKeys[5], f.opticalTrackingTimeout, cur.opticalTrackingTimeout);
  }

  lemma TrackerReadBack6(w: PTree, f: Fields, cur: Fields, tr: FloatText)
    requires f.TrackerFields? && cur.TrackerFields?
    requires FieldText(w, KeysOf(f)[6]) == Some(TextsOf(f, tr)[6])
    ensures ReadFields(w, cur, tr).useBgrToHsvLookupTable == f.useBgrToHsvLookupTable
  {
    assert TextsOf(f, tr)[6] == BoolToString(f.useBgrToHsvLookupTable);
    ReadsBool(w, TrackerKeys[6], f.useBgrToHsvLookupTable, cur.useBgrToHsvLookupTable);
  }

  lemma TrackerReadBack7(w: PTree, f: Fields, cur: Fields, tr: FloatText)
    requires f.TrackerFields? && cur.TrackerFields? && IsInt32(f.threadSleepMs)
    requires FieldText(w, KeysOf(f)[7]) == Some(TextsOf(f, tr)[7])
    ensures ReadFields(w, cur, tr).threadSleepMs == f.threadSleepMs
  {
    assert TextsOf(f, tr)[7] == IntToString(f.threadSleepMs);
    ReadsInt(w, TrackerKeys[7], f.threadSleepMs, cur.threadSleepMs);
  }

  lemma TrackerReadBack8(w: PTree, f: Fields, cur: Fields, tr: FloatText)
    requires f.TrackerFields? && cur.TrackerFields?
    requires FieldText(w, KeysOf(f)[8]) == Some(TextsOf(f, tr)[8])
    ensures ReadFields(w, cur, tr).excludeOpposedCameras == f.excludeOpposedCameras
  {
    assert TextsOf(f, tr)[8] == BoolToString(f.excludeOpposedCameras);
    ReadsBool(w, TrackerKeys[8], f.excludeOpposedCameras, cur.excludeOpposedCameras);
  }

  lemma TrackerReadBack9(w: PTree, f: Fields, cur: Fields, tr: FloatText)
    requires f.TrackerFields? && cur.TrackerFields? && RoundTrips(tr, f.minValidProjectionArea)
    requires FieldText(w, KeysOf(f)[9]) == Some(TextsOf(f, tr)[9])
    ensures ReadFields(w, cur, tr).minValidProjectionArea == f.minValidProjectionArea
  {
    assert TextsOf(f, tr)[9] == tr.format(f.minValidProjectionArea);
    ReadsFloat(w, TrackerKeys[9], f.minValidProjectionArea, cur.minValidProjectionArea, tr);
  }

  lemma TrackerReadBack10(w: PTree, f: Fields, cur: Fields, tr: FloatText)
    requires f.TrackerFields? && cur.TrackerFields? && RoundTrips(tr, f.occludedAreaOnLossSize)
    requires FieldText(w, KeysOf(f)[10]) == Some(TextsOf(f, tr)[10])
    ensures ReadFields(w, cur, tr).occludedAreaOnLossSize == f.occludedAreaOnLossSize
  {
    assert TextsOf(f, tr)[10] == tr.format(f.occludedAreaOnLossSize);
    ReadsFloat(w, TrackerKeys[10], f.occludedAreaOnLossSize, cur.occludedAreaOnLossSize, tr);
  }

  lemma TrackerReadBack11(w: PTree, f: Fields, cur: Fields, tr: FloatText)
    requires f.TrackerFields? && cur.TrackerFields? && IsInt32(f.occludedAreaIgnoreTrackers)
    requires FieldText(w, KeysOf(f)[11]) == Some(TextsOf(f, tr)[11])
    ensures ReadFields(w, cur, tr).occludedAreaIgnoreTrackers == f.occludedAreaIgnoreTrackers
  {
    assert TextsOf(f, tr)[11] == IntToString(f.occludedAreaIgnoreTrackers);
    ReadsInt(w, TrackerKeys[11], f.occludedAreaIgnoreTrackers, cur.occludedAreaIgnoreTrackers);
  }

  lemma TrackerReadBack12(w: PTree, f: Fields, cur: Fields, tr: FloatText)
    requires f.TrackerFields? && cur.TrackerFields? && RoundTrips(tr, f.occludedAreaRegainProjectionSize)
    requires FieldText(w, KeysOf(f)[12]) == Some(TextsOf(f, tr)[12])
    ensures ReadFields(w, cur, tr).occludedAreaRegainProjectionSize == f.occludedAreaRegainProjectionSize
  {
    assert TextsOf(f, tr)[12] == tr.format(f.occludedAreaRegainProjectionSize);
    ReadsFloat(w, TrackerKeys[12], f.occludedAreaRegainProjectionSize, cur.occludedAreaRegainProjectionSize, tr);
  }

  lemma TrackerReadBack13(w: PTree, f: Fields, cur: Fields, tr: FloatText)
    requires f.TrackerFields? && cur.TrackerFields? && IsInt32(f.minPointsInContour)
    requires FieldText(w, KeysOf(f)[13]) == Some(TextsOf(f, tr)[13])
    ensures ReadFields(w, cur, tr).minPointsInContour == f.minPointsInContour
  {
    assert TextsOf(f, tr)[13] == IntToString(f.minPointsInContour);
    ReadsInt(w, TrackerKeys[13], f.minPointsInContour, cur.minPointsInContour);
  }

  lemma TrackerReadBack14(w: PTree, f: Fields, cur: Fields, tr: FloatText)
    requires f.TrackerFields? && cur.TrackerFields? && RoundTrips(tr, f.maxTrackerPositionDeviation)
    requires FieldText(w, KeysOf(f)[14]) == Some(TextsOf(f, tr)[14])
    ensures ReadFields(w, cur, tr).maxTrackerPositionDeviation == f.maxTrackerPositionDeviation
  {
    assert TextsOf(f, tr)[14] == tr.format(f.maxTrackerPositionDeviation);
    ReadsFloat(w, TrackerKeys[14], f.maxTrackerPositionDeviation, cur.maxTrackerPositionDeviation, tr);
  }

  lemma TrackerReadBack15(w: PTree, f: Fields, cur: Fields, tr: FloatText)
    requires f.TrackerFields? && cur.TrackerFields?
    requires FieldText(w, KeysOf(f)[15]) == Some(TextsOf(f, tr)[15])
    ensures ReadFields(w, cur, tr).disableRoi == f.disableRoi
  {
    assert TextsOf(f, tr)[15] == BoolToString(f.disableRoi);
    ReadsBool(w, TrackerKeys[15], f.disableRoi, cur.disableRoi);
  }

  lemma TrackerReadBack16(w: PTree, f: Fields, cur: Fields, tr: FloatText)
    requires f.TrackerFields? && cur.TrackerFields?
    requires FieldText(w, KeysOf(f)[16]) == Some(TextsOf(f, tr)[16])
    ensures ReadFields(w, cur, tr).optimizedRoi == f.optimizedRoi
  {
    assert TextsOf(f, tr)[16] == BoolToString(f.optimizedRoi);
    ReadsBool(w, TrackerKeys[16], f.optimizedRoi, cur.optimizedRoi);
  }

  lemma TrackerReadBack17(w: PTree, f: Fields, cur: Fields, tr: FloatText)
    requires f.TrackerFields? && cur.TrackerFields? && IsInt32(f.roiEdgeOffset)
    requires FieldText(w, KeysOf(f)[17]) == Some(TextsOf(f, tr)[17])
    ensures ReadFields(w, cur, tr).roiEdgeOffset == f.roiEdgeOffset
  {
    assert TextsOf(f, tr)[17] == IntToString(f.roiEdgeOffset);
    ReadsInt(w, TrackerKeys[17], f.roiEdgeOffset, cur.roiEdgeOffset);
  }

  lemma TrackerReadBack18(w: PTree, f: Fields, cur: Fields, tr: FloatText)
    requires f.TrackerFields? && cur.TrackerFields? && RoundTrips(tr, f.globalForwardDegrees)
    requires FieldText(w, KeysOf(f)[18]) == Some(TextsOf(f, tr)[18])
    ensures ReadFields(w, cur, tr).globalForwardDegrees == f.globalForwardDegrees
  {
    assert TextsOf(f, tr)[18] == tr.format(f.globalForwardDegrees);
    ReadsFloat(w, TrackerKeys[18], f.globalForwardDegrees, cur.globalForwardDegrees, tr);
  }

  lemma DeviceReadBack(w: PTree, f: Fields, cur: Fields, tr: FloatText)
    requires f.DeviceFields? && cur.DeviceFields? && Representable(f, tr) && HoldsTexts(w, f, tr)
    ensures ReadFields(w, cur, tr) == f
  {
    assert KeysOf(f) == DeviceKeys;
    assert ReadFields(w, cur, tr).controllerReconnectInterval == f.controllerReconnectInterval by {
      assert TextsOf(f, tr)[0] == IntToString(f.controllerReconnectInterval);
      ReadsInt(w, DeviceKeys[0], f.controllerReconnectInterval, cur.controllerReconnectInterval);
    }
    assert ReadFields(w, cur, tr).trackerReconnectInterval == f.trackerReconnectInterval by {
      assert TextsOf(f, tr)[1] == IntToString(f.trackerReconnectInterval);
      ReadsInt(w, DeviceKeys[1], f.trackerReconnectInterval, cur.trackerReconnectInterval);
    }
    assert ReadFields(w, cur, tr).hmdReconnectInterval == f.hmdReconnectInterval by {
      assert TextsOf(f, tr)[2] == IntToString(f.hmdReconnectInterval);
      ReadsInt(w, DeviceKeys[2], f.hmdReconnectInterval, cur.hmdReconnectInterval);
    }
    assert ReadFields(w, cur, tr).gamepadApiEnabled == f.gamepadApiEnabled by {
      assert TextsOf(f, tr)[3] == BoolToString(f.gamepadApiEnabled);
      ReadsBool(w, DeviceKeys[3], f.gamepadApiEnabled, cur.gamepadApiEnabled);
    }
    assert ReadFields(w, cur, tr).platformApiEnabled == f.platformApiEnabled by {
      assert TextsOf(f, tr)[4] == BoolToString(f.platformApiEnabled);
      ReadsBool(w, DeviceKeys[4], f.platformApiEnabled, cur.platformApiEnabled);
    }
  }

  // ---------------------------------------------------------------------
  // Writing a configuration and reading it back

  /** `order` lists the keys of `m` once each: the iteration order of the map. */
  ghost predicate ListsKeys(order: seq<string>, m: map<string, string>) {
    && (forall k :: k in order <==> k in m)
    && (forall i, j :: 0 <= i < j < |order| ==> order[i] != order[j])
  }

  /** The entries of `m` in the order `order` lists their keys. */
  function MapPairs(m: map<string, string>, order: seq<string>): (r: seq<(string, string)>)
    requires forall k :: k in order ==> k in m
    ensures |r| == |order|
    ensures forall i :: 0 <= i < |r| ==> r[i] == (order[i], m[order[i]])
  {
    seq(|order|, i requires 0 <= i < |order| => (order[i], m[order[i]]))
  }

  /**
   * The tree config2ptree builds: every cfg_map entry put under its key,
   * then every named field put under its own key.
   */
  function SavedTree(m: map<string, string>, order: seq<string>, f: Fields, tr: FloatText): PTree
    requires ListsKeys(order, m)
  {
    PutFields(PutAll(EmptyTree, MapPairs(m, order)), NamedValues(f, tr))
  }

  /**
   * The named fields override the cfg_map: in the written tree each named
   * key holds its field's text, whatever the map held under that key.
   */
  lemma SavedTreeHoldsFields(m: map<string, string>, order: seq<string>, f: Fields, tr: FloatText)
    requires ListsKeys(order, m)
    ensures HoldsTexts(SavedTree(m, order, f, tr), f, tr)
  {
    forall j | 0 <= j < |KeysOf(f)|
      ensures FieldText(SavedTree(m, order, f, tr), KeysOf(f)[j]) == Some(TextsOf(f, tr)[j])
    {
      NamedFieldsOverride(PutAll(EmptyTree, MapPairs(m, order)), f, tr, j);
    }
  }

  /** The cfg_map a load leaves: the flattened leaves of the tree read, if there was a file. */
  function LoadedMap(m: map<string, string>, file: Option<PTree>): map<string, string> {
    match file
    case None => m
    case Some(t) => Store(m, Leaves(t, ""))
  }

  /** The named fields a load leaves: those read from the tree, defaulting to the current ones. */
  function LoadedFields(cur: Fields, file: Option<PTree>, tr: FloatText): (r: Fields)
    ensures KindOf(r) == KindOf(cur)
  {
    match file
    case None => cur
    case Some(t) => ReadFields(t, cur, tr)
  }

  /**
   * Loading a file that was saved from representable fields gives those
   * fields back, whatever the cfg_map held and whatever the fields were.
   */
  lemma SaveThenLoad(m: map<string, string>, order: seq<string>, f: Fields, cur: Fields, tr: FloatText)
    requires ListsKeys(order, m) && KindOf(cur) == KindOf(f) && Representable(f, tr)
    ensures LoadedFields(cur, Some(SavedTree(m, order, f, tr)), tr) == f
  {
    SavedTreeHoldsFields(m, order, f, tr);
    ReadBack(SavedTree(m, order, f, tr), f, cur, tr);
  }

  /** The cfg_map half of config2ptree: each pair put at its dotted path, in order. */
  method PutPairs(pairs: seq<(string, string)>) returns (pt: PTree)
    ensures pt == PutAll(EmptyTree, pairs)
  {
    pt := EmptyTree;
    var i := 0;
    while i < |pairs|
      invariant 0 <= i <= |pairs|
      invariant pt == PutAll(EmptyTree, pairs[..i])
    {
      assert pairs[..i + 1][..i] == pairs[..i];
      pt := PutPath(pt, SplitPath(pairs[i].0), pairs[i].1);
      i := i + 1;
    }
    assert pairs[..i] == pairs;
  }

  /** The named-field half of config2ptree: each field put at its key, a path of one fragment. */
  method PutNamed(base: PTree, named: seq<(string, string)>) returns (pt: PTree)
    requires forall j :: 0 <= j < |named| ==> SplitPath(named[j].0) == [named[j].0]
    ensures pt == PutFields(base, named)
  {
    pt := base;
    var j := 0;
    while j < |named|
      invariant 0 <= j <= |named|
      invariant pt == PutFields(base, named[..j])
    {
      assert named[..j + 1][..j] == named[..j];
      pt := PutPath(pt, SplitPath(named[j].0), named[j].1);
      j := j + 1;
    }
    assert named[..j] == named;
  }

  /** Storing the pairs of the children from `i` on is storing child `i`'s, then the rest. */
  lemma FlattenStep(m: map<string, string>, t: PTree, key: string, i: nat)
    requires i < |t.children|
    ensures Store(m, ChildLeaves(t, key, i))
      == Store(Store(m, Leaves(t.children[i].sub, ChildKey(key, t.children[i].key))), ChildLeaves(t, key, i + 1))
  {
    StoreAppend(m, Leaves(t.children[i].sub, ChildKey(key, t.children[i].key)), ChildLeaves(t, key, i + 1));
  }

  /** One configuration file (PSMoveConfig): the flattened map of the last tree read, the named fields, and whether it loaded. */
  class ConfigFile {
    var cfgMap: map<string, string>
    var fields: Fields
    var isLoaded: bool

    constructor (defaults: Fields)
      ensures cfgMap == map[] && fields == defaults && !isLoaded
    {
      cfgMap := map[];
      fields := defaults;
      isLoaded := false;
    }

    /** map_flatten: stores every leaf of `pt` at a non-empty key under its dot-joined key. */
    method MapFlatten(pt: PTree, key: string)
      modifies this`cfgMap
      ensures cfgMap == Store(old(cfgMap), Leaves(pt, key))
      decreases pt, 1
    {
      if key != [] && pt.children == [] {
        StoreAppend(cfgMap, [(key, pt.data)], ChildLeaves(pt, key, 0));
        cfgMap := cfgMap[key := pt.data];
      } else {
        assert Leaves(pt, key) == ChildLeaves(pt, key, 0);
      }
      FlattenChildren(pt, key);
    }

    /** The loop of map_flatten over the children of `pt`, each flattened under its joined key. */
    method FlattenChildren(pt: PTree, key: string)
      modifies this`cfgMap
      ensures cfgMap == Store(old(cfgMap), ChildLeaves(pt, key, 0))
      decreases pt, 0
    {
      ghost var final := Store(cfgMap, ChildLeaves(pt, key, 0));
      var i := 0;
      while i < |pt.children|
        invariant 0 <= i <= |pt.children|
        invariant Store(cfgMap, ChildLeaves(pt, key, i)) == final
      {
        assert pt.children[i] in pt.children;
        var c := pt.children[i];
        FlattenStep(cfgMap, pt, key, i);
        MapFlatten(c.sub, ChildKey(key, c.key));
        i := i + 1;
      }
    }

    /** config2ptree: the cfg_map entries put in the map's order, then the named fields. */
    method Config2PTree(order: seq<string>, tr: FloatText) returns (pt: PTree)
      requires ListsKeys(order, cfgMap)
      ensures pt == SavedTree(cfgMap, order, fields, tr)
    {
      var base := PutPairs(MapPairs(cfgMap, order));
      var named := NamedValues(fields, tr);
      forall j | 0 <= j < |named|
        ensures SplitPath(named[j].0) == [named[j].0]
      {
        NamedKeysSingleFragment(fields, j);
      }
      pt := PutNamed(base, named);
    }

    /** ptree2config: flatten the tree into the cfg_map, then read each named field with its current value as default. */
    method PTree2Config(pt: PTree, tr: FloatText)
      modifies this`cfgMap, this`fields
      ensures cfgMap == Store(old(cfgMap), Leaves(pt, ""))
      ensures fields == ReadFields(pt, old(fields), tr)
    {
      MapFlatten(pt, "");
      fields := ReadFields(pt, fields, tr);
    }

    /** load: reads the file when it exists; reports whether it did. */
    method Load(file: Option<PTree>, tr: FloatText) returns (loadedOk: bool)
      modifies this`cfgMap, this`fields
      ensures loadedOk == file.Some?
      ensures cfgMap == LoadedMap(old(cfgMap), file)
      ensures fields == LoadedFields(old(fields), file, tr)
    {
      loadedOk := false;
      if file.Some? {
        PTree2Config(file.value, tr);
        loadedOk := true;
      }
    }
  }

  // ---------------------------------------------------------------------
  // The page's edits

  /** The integer inputs of the page. */
  datatype IntSetting =
    | VirtualTrackerCount | PositionPredictionHistory | OpticalTrackingTimeout | ThreadSleepMs
    | OccludedAreaIgnoreTrackers | MinPointsInContour | RoiEdgeOffset
    | VirtualControllerCount | VirtualHmdCount
    | ControllerReconnectInterval | TrackerReconnectInterval | HmdReconnectInterval

  /** The float inputs of the page. */
  datatype RealSetting =
    | PositionSmoothing | PositionPrediction | MinValidProjectionArea | OccludedAreaOnLossSize
    | OccludedAreaRegainProjectionSize | MaxTrackerPositionDeviation | GlobalForwardDegrees

  /** The checkboxes of the page; EnableRoi shows the negation of disable_roi. */
  datatype Flag =
    | IgnorePoseFromOneTracker | UseBgrToHsvLookupTable | ExcludeOpposedCameras | EnableRoi | OptimizedRoi
    | GamepadApiEnabled | PlatformApiEnabled

  /** The device-count limits the service is built with (PSMOVESERVICE_MAX_*_COUNT). */
  datatype Limits = Limits(maxTrackers: int, maxControllers: int, maxHmds: int)

  function IntOwner(s: IntSetting): ConfigKind {
    match s
    case VirtualControllerCount => ControllerConfig
    case VirtualHmdCount => HmdConfig
    case ControllerReconnectInterval => DeviceConfig
    case TrackerReconnectInterval => DeviceConfig
    case HmdReconnectInterval => DeviceConfig
    case _ => TrackerConfig
  }

  function RealOwner(s: RealSetting): ConfigKind {
    TrackerConfig
  }

  function FlagOwner(g: Flag): ConfigKind {
    if g == GamepadApiEnabled || g == PlatformApiEnabled then DeviceConfig else TrackerConfig
  }

  /** The lower and upper bound the page clamps an integer input to. */
  function IntBounds(s: IntSetting, lim: Limits): (int, int) {
    match s
    case VirtualTrackerCount => (0, lim.maxTrackers)
    case PositionPredictionHistory => (1, 50)
    case OpticalTrackingTimeout => (0, 99999)
    case ThreadSleepMs => (0, 99999)
    case OccludedAreaIgnoreTrackers => (0, 99999)
    case MinPointsInContour => (0, 99999)
    case RoiEdgeOffset => (0, 64)
    case VirtualControllerCount => (0, lim.maxControllers)
    case VirtualHmdCount => (0, lim.maxHmds)
    case ControllerReconnectInterval => (0, 999999)
    case TrackerReconnectInterval => (0, 999999)
    case HmdReconnectInterval => (0, 999999)
  }

  /** The lower and upper bound the page clamps a float input to. */
  function RealBounds(s: RealSetting): (real, real) {
    match s
    case PositionSmoothing => (0.0, 1.0)
    case PositionPrediction => (0.0, 100.0)
    case MinValidProjectionArea => (0.0, 99999.0)
    case OccludedAreaOnLossSize => (0.0, 99999.0)
    case OccludedAreaRegainProjectionSize => (0.0, 99999.0)
    case MaxTrackerPositionDeviation => (0.0, 99999.0)
    case GlobalForwardDegrees => (0.0, 360.0)
  }

  function IntOf(f: Fields, s: IntSetting): int
    requires KindOf(f) == IntOwner(s)
  {
    match s
    case VirtualTrackerCount => f.virtualTrackerCount
    case PositionPredictionHistory => f.controllerPositionPredictionHistory
    case OpticalTrackingTimeout => f.opticalTrackingTimeout
    case ThreadSleepMs => f.threadSleepMs
    case OccludedAreaIgnoreTrackers => f.occludedAreaIgnoreTrackers
    case MinPointsInContour => f.minPointsInContour
    case RoiEdgeOffset => f.roiEdgeOffset
    case VirtualControllerCount => f.virtualControllerCount
    case VirtualHmdCount => f.virtualHmdCount
    case ControllerReconnectInterval => f.controllerReconnectInterval
    case TrackerReconnectInterval => f.trackerReconnectInterval
    case HmdReconnectInterval => f.hmdReconnectInterval
  }

  function WithInt(f: Fields, s: IntSetting, v: int): (r: Fields)
    requires KindOf(f) == IntOwner(s)
    ensures KindOf(r) == KindOf(f)
  {
    match s
    case VirtualTrackerCount => f.(virtualTrackerCount := v)
    case PositionPredictionHistory => f.(controllerPositionPredictionHistory := v)
    case OpticalTrackingTimeout => f.(opticalTrackingTimeout := v)
    case ThreadSleepMs => f.(threadSleepMs := v)
    case OccludedAreaIgnoreTrackers => f.(occludedAreaIgnoreTrackers := v)
    case MinPointsInContour => f.(minPointsInContour := v)
    case RoiEdgeOffset => f.(roiEdgeOffset := v)
    case VirtualControllerCount => f.(virtualControllerCount := v)
    case VirtualHmdCount => f.(virtualHmdCount := v)
    case ControllerReconnectInterval => f.(controllerReconnectInterval := v)
    case TrackerReconnectInterval => f.(trackerReconnectInterval := v)
    case HmdReconnectInterval => f.(hmdReconnectInterval := v)
  }

  /** Setting an integer input and reading it back gives the value set; setting the old value back restores the fields. */
  lemma IntGetSet(f: Fields, s: IntSetting, v: int)
    requires KindOf(f) == IntOwner(s)
    ensures IntOf(WithInt(f, s, v), s) == v
    ensures WithInt(WithInt(f, s, v), s, IntOf(f, s)) == f
  {
  }

  function RealOf(f: Fields, s: RealSetting): real
    requires KindOf(f) == RealOwner(s)
  {
    match s
    case PositionSmoothing => f.controllerPositionSmoothing
    case PositionPrediction => f.controllerPositionPrediction
    case MinValidProjectionArea => f.minValidProjectionArea
    case OccludedAreaOnLossSize => f.occludedAreaOnLossSize
    case OccludedAreaRegainProjectionSize => f.occludedAreaRegainProjectionSize
    case MaxTrackerPositionDeviation => f.maxTrackerPositionDeviation
    case GlobalForwardDegrees => f.globalForwardDegrees
  }

  function WithReal(f: Fields, s: RealSetting, v: real): (r: Fields)
    requires KindOf(f) == RealOwner(s)
    ensures KindOf(r) == KindOf(f)
  {
    match s
    case PositionSmoothing => f.(controllerPositionSmoothing := v)
    case PositionPrediction => f.(controllerPositionPrediction := v)
    case MinValidProjectionArea => f.(minValidProjectionArea := v)
    case OccludedAreaOnLossSize => f.(occludedAreaOnLossSize := v)
    case OccludedAreaRegainProjectionSize => f.(occludedAreaRegainProjectionSize := v)
    case MaxTrackerPositionDeviation => f.(maxTrackerPositionDeviation := v)
    case GlobalForwardDegrees => f.(globalForwardDegrees := v)
  }

  lemma RealGetSet(f: Fields, s: RealSetting, v: real)
    requires KindOf(f) == RealOwner(s)
    ensures RealOf(WithReal(f, s, v), s) == v
    ensures WithReal(WithReal(f, s, v), s, RealOf(f, s)) == f
  {
  }

  /** The state a checkbox shows; the ROI box shows ROI enabled, which is disable_roi negated. */
  function FlagOf(f: Fields, g: Flag): bool
    requires KindOf(f) == FlagOwner(g)
  {
    match g
    case IgnorePoseFromOneTracker => f.ignorePoseFromOneTracker
    case UseBgrToHsvLookupTable => f.useBgrToHsvLookupTable
    case ExcludeOpposedCameras => f.excludeOpposedCameras
    case EnableRoi => !f.disableRoi
    case OptimizedRoi => f.optimizedRoi
    case GamepadApiEnabled => f.gamepadApiEnabled
    case PlatformApiEnabled => f.platformApiEnabled
  }

  function WithFlag(f: Fields, g: Flag, b: bool): (r: Fields)
    requires KindOf(f) == FlagOwner(g)
    ensures KindOf(r) == KindOf(f)
  {
    match g
    case IgnorePoseFromOneTracker => f.(ignorePoseFromOneTracker := b)
    case UseBgrToHsvLookupTable => f.(useBgrToHsvLookupTable := b)
    case ExcludeOpposedCameras => f.(excludeOpposedCameras := b)
    case EnableRoi => f.(disableRoi := !b)
    case OptimizedRoi => f.(optimizedRoi := b)
    case GamepadApiEnabled => f.(gamepadApiEnabled := b)
    case PlatformApiEnabled => f.(platformApiEnabled := b)
  }

  lemma FlagGetSet(f: Fields, g: Flag, b: bool)
    requires KindOf(f) == FlagOwner(g)
    ensures FlagOf(WithFlag(f, g, b), g) == b
    ensures WithFlag(WithFlag(f, g, b), g, FlagOf(f, g)) == f
  {
  }

  /**
   * An integer input edited to `typed`: the field takes `max(lo, min(hi, typed))`,
   * which lies in [lo, hi] and is `typed` itself when already in range, and
   * nothing else changes.
   */
  function EditInt(f: Fields, s: IntSetting, typed: int, lim: Limits): (r: Fields)
    requires KindOf(f) == IntOwner(s)
    ensures KindOf(r) == KindOf(f)
    ensures IntOf(r, s) >= IntBounds(s, lim).0
    ensures IntBounds(s, lim).0 <= IntBounds(s, lim).1 ==> IntOf(r, s) <= IntBounds(s, lim).1
    ensures IntBounds(s, lim).0 <= typed <= IntBounds(s, lim).1 ==> IntOf(r, s) == typed
    ensures typed < IntBounds(s, lim).0 ==> IntOf(r, s) == IntBounds(s, lim).0
    ensures IntBounds(s, lim).0 <= IntBounds(s, lim).1 < typed ==> IntOf(r, s) == IntBounds(s, lim).1
    ensures WithInt(r, s, IntOf(f, s)) == f
  {
    var (lo, hi) := IntBounds(s, lim);
    var v := MaxI(lo, MinI(hi, typed));
    IntGetSet(f, s, v);
    WithInt(f, s, v)
  }

  /** A float input edited to `typed`: clamped into its bounds, nothing else changes. */
  function EditReal(f: Fields, s: RealSetting, typed: real): (r: Fields)
    requires KindOf(f) == RealOwner(s)
    ensures KindOf(r) == KindOf(f)
    ensures RealBounds(s).0 <= RealOf(r, s) <= RealBounds(s).1
    ensures RealBounds(s).0 <= typed <= RealBounds(s).1 ==> RealOf(r, s) == typed
    ensures typed < RealBounds(s).0 ==> RealOf(r, s) == RealBounds(s).0
    ensures typed > RealBounds(s).1 ==> RealOf(r, s) == RealBounds(s).1
    ensures WithReal(r, s, RealOf(f, s)) == f
  {
    var (lo, hi) := RealBounds(s);
    var v := MaxR(lo, MinR(hi, typed));
    RealGetSet(f, s, v);
    WithReal(f, s, v)
  }

  /** A checkbox click: the box shows the opposite state, nothing else changes. */
  function ClickFlag(f: Fields, g: Flag): (r: Fields)
    requires KindOf(f) == FlagOwner(g)
    ensures KindOf(r) == KindOf(f)
    ensures FlagOf(r, g) == !FlagOf(f, g)
    ensures WithFlag(r, g, FlagOf(f, g)) == f
  {
    FlagGetSet(f, g, !FlagOf(f, g));
    WithFlag(f, g, !FlagOf(f, g))
  }

  /** Clicking the ROI box toggles disable_roi. */
  lemma ClickEnableRoi(f: Fields)
    requires f.TrackerFields?
    ensures ClickFlag(f, EnableRoi).disableRoi == !f.disableRoi
  {
  }

  // ---------------------------------------------------------------------
  // The page

  datatype PageState = Inactive | Idle

  /** A configuration object after construction from `d` and a load of `file`. */
  ghost predicate Opened(c: ConfigFile, d: Fields, file: Option<PTree>, tr: FloatText)
    reads c
  {
    && c.isLoaded == file.Some?
    && c.cfgMap == LoadedMap(map[], file)
    && c.fields == LoadedFields(d, file, tr)
  }

  /** The advanced settings page and the four configurations it edits. */
  class AdvancedSettingsPage {
    var menuState: PageState
    var tracker: ConfigFile
    var controller: ConfigFile
    var hmd: ConfigFile
    var device: ConfigFile

    /** Four distinct configuration objects, each holding its own kind of fields. */
    ghost predicate Valid()
      reads this, tracker, controller, hmd, device
    {
      && tracker != controller && tracker != hmd && tracker != device
      && controller != hmd && controller != device && hmd != device
      && KindOf(tracker.fields) == TrackerConfig
      && KindOf(controller.fields) == ControllerConfig
      && KindOf(hmd.fields) == HmdConfig
      && KindOf(device.fields) == DeviceConfig
    }

    function ConfigFor(k: ConfigKind): ConfigFile
      reads this
    {
      match k
      case TrackerConfig => tracker
      case ControllerConfig => controller
      case HmdConfig => hmd
      case DeviceConfig => device
    }

    /** The page starts inactive; the configurations hold their defaults until the page is entered. */
    constructor (defaults: ConfigKind -> Fields)
      requires forall k :: KindOf(defaults(k)) == k
      ensures Valid() && menuState == Inactive
      ensures fresh(tracker) && fresh(controller) && fresh(hmd) && fresh(device)
    {
      menuState := Inactive;
      tracker := new ConfigFile(defaults(TrackerConfig));
      controller := new ConfigFile(defaults(ControllerConfig));
      hmd := new ConfigFile(defaults(HmdConfig));
      device := new ConfigFile(defaults(DeviceConfig));
    }

    static method Open(d: Fields, file: Option<PTree>, tr: FloatText) returns (c: ConfigFile)
      ensures fresh(c) && Opened(c, d, file, tr)
      ensures KindOf(c.fields) == KindOf(d)
    {
      c := new ConfigFile(d);
      var ok := c.Load(file, tr);
      c.isLoaded := ok;
    }

    /**
     * enter: only from Inactive, each configuration is rebuilt from its
     * defaults, loaded from its file when there is one, and remembers
     * whether it loaded; the page goes Idle. From Idle nothing changes.
     */
    method Enter(defaults: ConfigKind -> Fields, files: ConfigKind -> Option<PTree>, tr: FloatText)
      requires Valid() && forall k :: KindOf(defaults(k)) == k
      modifies this
      ensures Valid() && menuState == Idle
      ensures old(menuState) == Idle ==> unchanged(this)
      ensures old(menuState) == Inactive ==>
        && fresh(tracker) && fresh(controller) && fresh(hmd) && fresh(device)
        && Opened(tracker, defaults(TrackerConfig), files(TrackerConfig), tr)
        && Opened(controller, defaults(ControllerConfig), files(ControllerConfig), tr)
        && Opened(hmd, defaults(HmdConfig), files(HmdConfig), tr)
        && Opened(device, defaults(DeviceConfig), files(DeviceConfig), tr)
    {
      if menuState == Inactive {
        Reopen(defaults, files, tr);
      }
    }

    /** The Inactive case of enter: four configurations opened afresh, the page Idle. */
    method Reopen(defaults: ConfigKind -> Fields, files: ConfigKind -> Option<PTree>, tr: FloatText)
      requires forall k :: KindOf(defaults(k)) == k
      modifies this
      ensures Valid() && menuState == Idle
      ensures && fresh(tracker) && fresh(controller) && fresh(hmd) && fresh(device)
        && Opened(tracker, defaults(TrackerConfig), files(TrackerConfig), tr)
        && Opened(controller, defaults(ControllerConfig), files(ControllerConfig), tr)
        && Opened(hmd, defaults(HmdConfig), files(HmdConfig), tr)
        && Opened(device, defaults(DeviceConfig), files(DeviceConfig), tr)
    {
      assert KindOf(defaults(TrackerConfig)) == TrackerConfig && KindOf(defaults(ControllerConfig)) == ControllerConfig;
      assert KindOf(defaults(HmdConfig)) == HmdConfig && KindOf(defaults(DeviceConfig)) == DeviceConfig;
      tracker := Open(defaults(TrackerConfig), files(TrackerConfig), tr);
      controller := Open(defaults(ControllerConfig), files(ControllerConfig), tr);
      hmd := Open(defaults(HmdConfig), files(HmdConfig), tr);
      device := Open(defaults(DeviceConfig), files(DeviceConfig), tr);
      menuState := Idle;
    }

    /** exit: the page becomes Inactive. */
    method Exit()
      modifies this`menuState
      ensures menuState == Inactive
    {
      menuState := Inactive;
    }

    /** An integer input of the Idle page edited to `typed`; only its configuration's fields change. */
    method EditIntSetting(s: IntSetting, typed: int, lim: Limits)
      requires Valid() && menuState == Idle
      modifies ConfigFor(IntOwner(s))`fields
      ensures Valid()
      ensures ConfigFor(IntOwner(s)).fields == EditInt(old(ConfigFor(IntOwner(s)).fields), s, typed, lim)
    {
      var c := ConfigFor(IntOwner(s));
      c.fields := EditInt(c.fields, s, typed, lim);
    }

    method EditRealSetting(s: RealSetting, typed: real)
      requires Valid() && menuState == Idle
      modifies ConfigFor(RealOwner(s))`fields
      ensures Valid()
      ensures ConfigFor(RealOwner(s)).fields == EditReal(old(ConfigFor(RealOwner(s)).fields), s, typed)
    {
      var c := ConfigFor(RealOwner(s));
      c.fields := EditReal(c.fields, s, typed);
    }

    method ClickCheckbox(g: Flag)
      requires Valid() && menuState == Idle
      modifies ConfigFor(FlagOwner(g))`fields
      ensures Valid()
      ensures ConfigFor(FlagOwner(g)).fields == ClickFlag(old(ConfigFor(FlagOwner(g)).fields), g)
    {
      var c := ConfigFor(FlagOwner(g));
      c.fields := ClickFlag(c.fields, g);
    }

    /**
     * Save Settings: the trees written, in the page's order, one for each
     * configuration that loaded; a configuration whose file was missing is
     * not written.
     */
    method SaveSettings(orders: ConfigKind -> seq<string>, tr: FloatText) returns (written: seq<(ConfigKind, PTree)>)
      requires Valid() && menuState == Idle
      requires ListsKeys(orders(TrackerConfig), tracker.cfgMap) && ListsKeys(orders(ControllerConfig), controller.cfgMap)
      requires ListsKeys(orders(HmdConfig), hmd.cfgMap) && ListsKeys(orders(DeviceConfig), device.cfgMap)
      ensures written ==
        SaveEntry(tracker, TrackerConfig, orders, tr) + SaveEntry(controller, ControllerConfig, orders, tr)
        + SaveEntry(hmd, HmdConfig, orders, tr) + SaveEntry(device, DeviceConfig, orders, tr)
    {
      var t := SaveIfLoaded(tracker, TrackerConfig, orders, tr);
      var c := SaveIfLoaded(controller, ControllerConfig, orders, tr);
      var h := SaveIfLoaded(hmd, HmdConfig, orders, tr);
      var d := SaveIfLoaded(device, DeviceConfig, orders, tr);
      written := t + c + h + d;
    }

    static method SaveIfLoaded(c: ConfigFile, k: ConfigKind, orders: ConfigKind -> seq<string>, tr: FloatText)
      returns (w: seq<(ConfigKind, PTree)>)
      requires ListsKeys(orders(k), c.cfgMap)
      ensures w == SaveEntry(c, k, orders, tr)
    {
      w := [];
      if c.isLoaded {
        var pt := c.Config2PTree(orders(k), tr);
        w := [(k, pt)];
      }
    }
  }

  /** What Save Settings writes for one configuration: its tree when it loaded, nothing otherwise. */
  ghost function SaveEntry(c: ConfigFile, k: ConfigKind, orders: ConfigKind -> seq<string>, tr: FloatText): seq<(ConfigKind, PTree)>
    reads c
    requires ListsKeys(orders(k), c.cfgMap)
  {
    if c.isLoaded then [(k, SavedTree(c.cfgMap, orders(k), c.fields, tr))] else []
  }
}
