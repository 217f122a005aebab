/**
 * Shared value types and helpers used by the controller-view, tracker-view
 * and config-tool models: optional values, 3-vectors and quaternions over
 * the reals, C-style clamps and integer division, and the one sort every
 * std::sort call of the modelled code is mapped to.
 */
module Common {

  datatype Option<T> = None | Some(value: T)

  /** A position in centimetres or any other 3-vector. */
  datatype Vec3 = Vec3(x: real, y: real, z: real)

  /** A screen-space point in pixels. */
  datatype Point2 = Point2(x: real, y: real)

  datatype Quat = Quat(w: real, x: real, y: real, z: real)

  /** The value an orientation takes after `clear()`. */
  const ClearedQuat: Quat := Quat(1.0, 0.0, 0.0, 0.0)

  /** A value of a C++ `int`. */
  predicate IsInt32(i: int) {
    -0x8000_0000 <= i < 0x8000_0000
  }

  /** The result code of an asynchronous client request (PSMResult). */
  datatype ResultCode = Success | Error | Canceled | Timeout

  /** The controller device types the service distinguishes. */
  datatype DeviceType = PSMove | PSNavi | PSDualShock4 | VirtualController

  /**
   * One ControllerOpticalPoseEstimation: the per-tracker estimate of a
   * controller, or the multi-camera one. `center`, `extents` and `area` are
   * the fields of its screen projection that the modelled code reads.
   */
  datatype OpticalEstimate = OpticalEstimate(
    position: Vec3,
    orientation: Quat,
    orientationValid: bool,
    center: Point2,
    extents: Point2,
    area: real,
    tracking: bool,
    occluded: bool,
    enforceNewROI: bool,
    occlusionAreaSize: real,
    occlusionAreaPos: Point2,
    lastUpdate: int,
    lastVisible: int,
    validTimestamps: bool)

  const Zero3: Vec3 := Vec3(0.0, 0.0, 0.0)

  function Add3(a: Vec3, b: Vec3): Vec3 { Vec3(a.x + b.x, a.y + b.y, a.z + b.z) }

  function Sub3(a: Vec3, b: Vec3): Vec3 { Vec3(a.x - b.x, a.y - b.y, a.z - b.z) }

  function Scale3(k: real, a: Vec3): Vec3 { Vec3(k * a.x, k * a.y, k * a.z) }

  function AbsR(x: real): (r: real)
    ensures r >= 0.0 && (r == x || r == -x)
  {
    if x < 0.0 then -x else x
  }

  function MinR(a: real, b: real): (r: real)
    ensures r <= a && r <= b && (r == a || r == b)
  {
    if a <= b then a else b
  }

  function MaxR(a: real, b: real): (r: real)
    ensures r >= a && r >= b && (r == a || r == b)
  {
    if a >= b then a else b
  }

  function MinI(a: int, b: int): (r: int)
    ensures r <= a && r <= b && (r == a || r == b)
  {
    if a <= b then a else b
  }

  function MaxI(a: int, b: int): (r: int)
    ensures r >= a && r >= b && (r == a || r == b)
  {
    if a >= b then a else b
  }

  /** `clampf(v, lo, hi)`: the point of [lo, hi] nearest to v. */
  function ClampR(v: real, lo: real, hi: real): (r: real)
    requires lo <= hi
    ensures lo <= r <= hi
    ensures lo <= v <= hi ==> r == v
    ensures v < lo ==> r == lo
    ensures v > hi ==> r == hi
  {
    if v < lo then lo else if v > hi then hi else v
  }

  /** The integer form of the same clamp (`std::max(lo, std::min(hi, v))`). */
  function ClampI(v: int, lo: int, hi: int): (r: int)
    requires lo <= hi
    ensures lo <= r <= hi
    ensures lo <= v <= hi ==> r == v
    ensures v < lo ==> r == lo
    ensures v > hi ==> r == hi
  {
    if v < lo then lo else if v > hi then hi else v
  }

  /**
   * C++ integer division, which truncates toward zero: the magnitude of the
   * quotient is the largest multiple count of `b` that fits in `|a|`, and
   * its sign is that of `a`.
   */
  function TruncDiv(a: int, b: int): (q: int)
    requires b > 0
    ensures (a >= 0 ==> q >= 0) && (a <= 0 ==> q <= 0)
    ensures a >= 0 ==> q * b <= a < (q + 1) * b
    ensures a < 0 ==> (-q) * b <= -a < (-q + 1) * b
  {
    TruncDivBounds(a, b);
    if a >= 0 then a / b else -((-a) / b)
  }

  /** The bounds of TruncDiv, for the quotient its body computes. */
  lemma TruncDivBounds(a: int, b: int)
    requires b > 0
    ensures var q := if a >= 0 then a / b else -((-a) / b);
      (a >= 0 ==> q >= 0) && (a <= 0 ==> q <= 0)
      && (a >= 0 ==> q * b <= a < (q + 1) * b)
      && (a < 0 ==> (-q) * b <= -a < (-q + 1) * b)
  {
    if a >= 0 {
      FloorDivBounds(a, b);
    } else {
      FloorDivBounds(-a, b);
      var m := (-a) / b;
      assert -(-m) == m;
    }
  }

  /** Dafny's division of a non-negative number by a positive one rounds down. */
  lemma FloorDivBounds(n: int, b: int)
    requires n >= 0 && b > 0
    ensures n / b >= 0
    ensures (n / b) * b <= n < (n / b + 1) * b
  {
    var m := n / b;
    assert n == m * b + n % b;
    assert (m + 1) * b == m * b + b;
  }

  // ---------------------------------------------------------------------
  // Sorting. Every std::sort of the modelled code orders by one real key;
  // a descending comparator is the ascending order of the negated key.
  // The model fixes one order for equal keys (stable); only sortedness and
  // the permutation property are claimed.

  predicate SortedBy<T>(s: seq<T>, key: T -> real)
  {
    forall i, j :: 0 <= i < j < |s| ==> key(s[i]) <= key(s[j])
  }

  function InsertBy<T>(x: T, s: seq<T>, key: T -> real): seq<T>
  {
    if s == [] then [x]
    else if key(x) <= key(s[0]) then [x] + s
    else [s[0]] + InsertBy(x, s[1..], key)
  }

  function SortBy<T>(s: seq<T>, key: T -> real): seq<T>
  {
    if s == [] then [] else InsertBy(s[0], SortBy(s[1..], key), key)
  }

  /** Every element of the insertion result is bounded below when x and s are. */
  lemma {:induction false} InsertByLowerBound<T>(x: T, s: seq<T>, key: T -> real, b: real)
    requires b <= key(x)
    requires forall i :: 0 <= i < |s| ==> b <= key(s[i])
    ensures forall i :: 0 <= i < |InsertBy(x, s, key)| ==> b <= key(InsertBy(x, s, key)[i])
  {
    if s != [] && key(x) > key(s[0]) {
      InsertByLowerBound(x, s[1..], key, b);
    }
  }

  /** Dropping the first element keeps a sequence sorted. */
  lemma SortedTail<T>(s: seq<T>, key: T -> real)
    requires s != [] && SortedBy(s, key)
    ensures SortedBy(s[1..], key)
    ensures forall i :: 0 <= i < |s| - 1 ==> key(s[0]) <= key(s[1..][i])
  {
    var tail := s[1..];
    forall i, j | 0 <= i < j < |tail| ensures key(tail[i]) <= key(tail[j]) {
      assert tail[i] == s[i + 1] && tail[j] == s[j + 1];
    }
    forall i | 0 <= i < |tail| ensures key(s[0]) <= key(tail[i]) {
      assert tail[i] == s[i + 1];
    }
  }

  lemma {:induction false} InsertByPermutes<T>(x: T, s: seq<T>, key: T -> real)
    ensures multiset(InsertBy(x, s, key)) == multiset{x} + multiset(s)
    ensures |InsertBy(x, s, key)| == |s| + 1
  {
    if s != [] && key(x) > key(s[0]) {
      InsertByPermutes(x, s[1..], key);
      assert s == [s[0]] + s[1..];
    }
  }

  lemma {:induction false} InsertBySorted<T>(x: T, s: seq<T>, key: T -> real)
    requires SortedBy(s, key)
    ensures SortedBy(InsertBy(x, s, key), key)
  {
    if s == [] {
    } else if key(x) <= key(s[0]) {
      var r := [x] + s;
      forall i, j | 0 <= i < j < |r| ensures key(r[i]) <= key(r[j]) {
        if i == 0 {
          assert r[j] == s[j - 1];
          assert key(s[0]) <= key(s[j - 1]);
        } else {
          assert r[i] == s[i - 1] && r[j] == s[j - 1];
        }
      }
    } else {
      var tail := s[1..];
      SortedTail(s, key);
      InsertBySorted(x, tail, key);
      var rest := InsertBy(x, tail, key);
      InsertByLowerBound(x, tail, key, key(s[0]));
      var r := [s[0]] + rest;
      assert InsertBy(x, s, key) == r;
      forall i, j | 0 <= i < j < |r| ensures key(r[i]) <= key(r[j]) {
        assert r[j] == rest[j - 1];
        if i > 0 {
          assert r[i] == rest[i - 1];
        }
      }
    }
  }

  /** Inserting into a sorted sequence keeps it sorted and adds exactly the one element. */
  lemma InsertByCorrect<T>(x: T, s: seq<T>, key: T -> real)
    requires SortedBy(s, key)
    ensures SortedBy(InsertBy(x, s, key), key)
    ensures multiset(InsertBy(x, s, key)) == multiset{x} + multiset(s)
    ensures |InsertBy(x, s, key)| == |s| + 1
  {
    InsertBySorted(x, s, key);
    InsertByPermutes(x, s, key);
  }

  lemma {:induction false} SortByCorrect<T>(s: seq<T>, key: T -> real)
    ensures SortedBy(SortBy(s, key), key)
    ensures multiset(SortBy(s, key)) == multiset(s)
    ensures |SortBy(s, key)| == |s|
  {
    if s != [] {
      SortByCorrect(s[1..], key);
      InsertByCorrect(s[0], SortBy(s[1..], key), key);
      assert s == [s[0]] + s[1..];
    }
  }

  /** Decimal rendering of a natural number, as `%d` prints it. */
  function NatToString(n: nat): (s: string)
    ensures |s| > 0
    ensures forall i :: 0 <= i < |s| ==> '0' <= s[i] <= '9'
    decreases n
  {
    if n < 10 then [Digit(n)] else NatToString(n / 10) + [Digit(n % 10)]
  }

  function Digit(d: nat): (c: char)
    requires d < 10
    ensures '0' <= c <= '9'
  {
    ['0', '1', '2', '3', '4', '5', '6', '7', '8', '9'][d]
  }

  function DigitValue(c: char): int { (c as int) - ('0' as int) }

  /** Reading the digits back gives the number, so distinct numbers give distinct names. */
  function ParseDigits(s: string): int
  {
    if s == [] then 0 else ParseDigits(s[..|s| - 1]) * 10 + DigitValue(s[|s| - 1])
  }

  lemma {:induction false} NatToStringRoundTrip(n: nat)
    ensures ParseDigits(NatToString(n)) == n
    decreases n
  {
    var s := NatToString(n);
    if n < 10 {
      assert s[..|s| - 1] == [];
      assert DigitValue(Digit(n)) == n by {
        assert Digit(n) == ['0', '1', '2', '3', '4', '5', '6', '7', '8', '9'][n];
      }
    } else {
      NatToStringRoundTrip(n / 10);
      assert s[..|s| - 1] == NatToString(n / 10);
      var d := n % 10;
      assert DigitValue(Digit(d)) == d by {
        assert Digit(d) == ['0', '1', '2', '3', '4', '5', '6', '7', '8', '9'][d];
      }
    }
  }
}
