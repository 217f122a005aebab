// The service's enumerator of virtual trackers: it walks the indexes
// 0 .. count-1 of the configured virtual trackers, naming each
// "VirtualTracker_<index>".

module VirtualTracker {
  import opened Common

  const Prefix: string := "VirtualTracker_"

  /** The path of the virtual tracker at `index`. */
  function Identifier(index: nat): (s: string)
    ensures |s| > |Prefix| && s[..|Prefix|] == Prefix
  {
    Prefix + NatToString(index)
  }

  /** Distinct virtual trackers get distinct paths. */
  lemma IdentifierInjective(a: nat, b: nat)
    requires Identifier(a) == Identifier(b)
    ensures a == b
  {
    assert Identifier(a)[|Prefix|..] == NatToString(a);
    assert Identifier(b)[|Prefix|..] == NatToString(b);
    NatToStringRoundTrip(a);
    NatToStringRoundTrip(b);
  }

  /**
   * The index whose path the enumerator holds at `index`: the index itself
   * while it is valid, afterwards the last valid one (or 0 when none was).
   */
  function NamedIndex(index: nat, count: int): (r: nat)
    ensures r <= index || r == 0
    ensures index < count ==> r == index
    ensures index >= count ==> r < count || r == 0
  {
    if index < count then index else MaxI(0, count - 1)
  }

  class VirtualTrackerEnumerator {
    var deviceIndex: int
    var currentIdentifier: string
    var deviceCount: int

    /** The index never goes below 0 and the path names the last index that was valid. */
    ghost predicate Valid()
      reads this
    {
      && deviceIndex >= 0
      && currentIdentifier == Identifier(NamedIndex(deviceIndex, deviceCount))
    }

    /** Starts at index 0, named "VirtualTracker_0", over the configured number of virtual trackers. */
    constructor (virtualTrackerCount: int)
      ensures Valid()
      ensures deviceIndex == 0 && currentIdentifier == "VirtualTracker_0"
      ensures deviceCount == virtualTrackerCount
    {
      deviceIndex := 0;
      currentIdentifier := "VirtualTracker_0";
      deviceCount := virtualTrackerCount;
      assert NatToString(0) == "0";
      assert Identifier(0) == "VirtualTracker_0";
    }

    /** is_valid: the index is below the count. */
    predicate IsValid()
      reads this
    {
      deviceIndex < deviceCount
    }

    /** Vendor id: 0 for a valid virtual tracker, -1 past the end. */
    function VendorId(): (r: int)
      reads this
      ensures r == 0 <==> IsValid()
      ensures r == -1 <==> !IsValid()
    {
      if IsValid() then 0x0000 else -1
    }

    /** Product id: 0 for a valid virtual tracker, -1 past the end. */
    function ProductId(): (r: int)
      reads this
      ensures r == 0 <==> IsValid()
      ensures r == -1 <==> !IsValid()
    {
      if IsValid() then 0x0000 else -1
    }

    /** get_path: the path of the index last named. */
    function Path(): (s: string)
      reads this
      requires Valid()
      ensures s == Identifier(NamedIndex(deviceIndex, deviceCount))
      ensures IsValid() ==> s == Identifier(deviceIndex)
    {
      currentIdentifier
    }

    /**
     * next: moves to the following index, renames the path only when the
     * new index is still valid, and always reports false.
     */
    method Next() returns (foundValid: bool)
      requires Valid()
      modifies this
      ensures Valid()
      ensures !foundValid
      ensures deviceIndex == old(deviceIndex) + 1 && deviceCount == old(deviceCount)
      ensures currentIdentifier == if deviceIndex < deviceCount then Identifier(deviceIndex) else old(currentIdentifier)
    {
      foundValid := false;
      deviceIndex := deviceIndex + 1;
      if deviceIndex < deviceCount {
        currentIdentifier := Identifier(deviceIndex);
      }
    }
  }
}
