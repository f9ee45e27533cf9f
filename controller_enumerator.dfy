/**
 * Device/Enumerator/ControllerDeviceEnumerator: a cursor over the HID
 * enumerations of the supported controller types, one list per type, walked
 * type after type.
 *
 * A list of `HidDevice` values stands for the linked list hid_enumerate
 * returns for one vendor/product pair; the cursor `cur` is an index into the
 * list of the current type, and `cur == |list|` is the null pointer.
 */
module ControllerDeviceEnumerator {
  import opened Wrappers

  datatype UsbDeviceInfo = UsbDeviceInfo(vendorId: int, productId: int)

  /** One entry of a HID enumeration; only its path matters here. */
  datatype HidDevice = HidDevice(path: seq<char>)

  /** g_supported_controller_infos, in device-type order. */
  const SupportedControllers: seq<UsbDeviceInfo> :=
    [UsbDeviceInfo(0x054c, 0x03d5),   // PSMove
     UsbDeviceInfo(0x054c, 0x042F)]   // PSNavi

  const PSMoveType: nat := 0
  const PSNaviType: nat := 1

  /** On Windows each PSMove appears three times; only the "&col01#" collection is used. */
  const DataCollectionMarker: seq<char> := "&col01#"

  predicate OccursAt(text: seq<char>, part: seq<char>, k: nat)
  {
    k + |part| <= |text| && text[k..k + |part|] == part
  }

  /** strstr(text, part) != nullptr */
  predicate Contains(text: seq<char>, part: seq<char>)
  {
    exists k: nat :: k <= |text| && OccursAt(text, part, k)
  }

  /** The per-device part of is_valid for a non-null cursor. */
  predicate DeviceAccepted(d: HidDevice, deviceType: nat, windows: bool)
  {
    !(windows && deviceType == PSMoveType && !Contains(d.path, DataCollectionMarker))
  }

  /** One enumeration list per supported controller type. */
  predicate WellShaped(enums: seq<seq<HidDevice>>)
  {
    |enums| == |SupportedControllers|
  }

  /** Position (t, i) holds a device the enumerator reports. */
  predicate ValidAt(enums: seq<seq<HidDevice>>, windows: bool, t: int, i: int)
  {
    0 <= t < |enums| && 0 <= i < |enums[t]| && DeviceAccepted(enums[t][i], t, windows)
  }

  /** Positions are visited type by type, and in list order within a type. */
  predicate Before(t1: int, i1: int, t2: int, i2: int)
  {
    t1 < t2 || (t1 == t2 && i1 < i2)
  }

  /**
   * No reported device lies strictly between two positions, except possibly
   * (when `exceptHeads`) at the head of a list of a later type than `t0`.
   */
  ghost predicate NoValidBetween(enums: seq<seq<HidDevice>>, windows: bool,
                                 t0: int, i0: int, t1: int, i1: int, exceptHeads: bool)
  {
    forall t, i :: Before(t0, i0, t, i) && Before(t, i, t1, i1) && !(exceptHeads && t > t0 && i == 0)
      ==> !ValidAt(enums, windows, t, i)
  }

  /**
   * What `next` does as written, from cursor (t0, i0) to (t, i): it reports
   * whether it stopped on a reported device; when it did not, the cursor is
   * null; the device type never decreases; the only reported devices it can
   * pass over are the heads of later lists; it never stops on such a head.
   * It moves to later types only through non-empty lists: it ends null on the
   * last type, on the first empty list it moves to, or where it started when
   * the cursor was already null, in which case it does not move at all.
   */
  ghost predicate AsWrittenNextOutcome(enums: seq<seq<HidDevice>>, windows: bool,
                                       t0: int, i0: int, t: int, i: int, found: bool)
    requires 0 <= t < |enums|
  {
    && found == ValidAt(enums, windows, t, i)
    && (!found ==> i == |enums[t]|)
    && t0 <= t
    && (found ==> Before(t0, i0, t, i))
    && (found && t > t0 ==> i > 0)
    && NoValidBetween(enums, windows, t0, i0, t, i, true)
    && (forall u :: 0 <= u && t0 < u < t ==> |enums[u]| > 0)
    && (!found ==> t == |enums| - 1 || (t > t0 && |enums[t]| == 0) || (t == t0 && i0 == |enums[t0]|))
    && (0 <= t0 < |enums| && i0 == |enums[t0]| ==> t == t0 && i == i0)
  }

  /**
   * What a cursor step is meant to do: stop at the first reported device after
   * (t0, i0) over all types, or end null on the last type when there is none.
   */
  ghost predicate IntendedNextOutcome(enums: seq<seq<HidDevice>>, windows: bool,
                                      t0: int, i0: int, t: int, i: int, found: bool)
    requires 0 <= t < |enums|
  {
    && found == ValidAt(enums, windows, t, i)
    && (found ==> Before(t0, i0, t, i))
    && (!found ==> t == |enums| - 1 && i == |enums[t]|)
    && NoValidBetween(enums, windows, t0, i0, t, i, false)
  }

  /**
   * The head of the second list is skipped: one PSMove followed by one
   * PSNavi. Stepping from the PSMove, the intended cursor stops on the PSNavi,
   * while every outcome `next` can have as written ends null.
   */
  lemma SecondTypeHeadIsSkipped(t: int, i: int, found: bool)
    requires 0 <= t < 2
    ensures var enums := [[HidDevice("move")], [HidDevice("navi")]];
      (AsWrittenNextOutcome(enums, false, 0, 0, t, i, found) ==> !found) &&
      (IntendedNextOutcome(enums, false, 0, 0, t, i, found) ==> found && t == 1 && i == 0)
  {
    var enums := [[HidDevice("move")], [HidDevice("navi")]];
    assert ValidAt(enums, false, 1, 0);
    assert Before(0, 0, 1, 0);
  }

  /**
   * No PSMove connected, one PSNavi: the PSMove list is empty, so the cursor
   * starts null and `next` as written stops at once; the PSNavi is never
   * reached. The intended step from the same place stops on the PSNavi.
   */
  lemma EmptyFirstListEndsEnumeration(t: int, i: int, found: bool)
    requires 0 <= t < 2
    ensures var enums := [[], [HidDevice("navi")]];
      (AsWrittenNextOutcome(enums, false, 0, 0, t, i, found) ==> t == 0 && i == 0 && !found) &&
      (IntendedNextOutcome(enums, false, 0, 0, t, i, found) ==> found && t == 1 && i == 0)
  {
    var enums: seq<seq<HidDevice>> := [[], [HidDevice("navi")]];
    assert ValidAt(enums, false, 1, 0);
    assert Before(0, 0, 1, 0);
  }

  /** The as-written step has exactly one outcome from any cursor position. */
  lemma AsWrittenNextIsDeterministic(enums: seq<seq<HidDevice>>, windows: bool, t0: int, i0: int,
                                     t: int, i: int, found: bool, t': int, i': int, found': bool)
    requires 0 <= t0 < |enums| && 0 <= i0 <= |enums[t0]|
    requires 0 <= t < |enums| && 0 <= t' < |enums|
    requires AsWrittenNextOutcome(enums, windows, t0, i0, t, i, found)
    requires AsWrittenNextOutcome(enums, windows, t0, i0, t', i', found')
    ensures t == t' && i == i' && found == found'
  {
  }

  /** The intended step has exactly one outcome. */
  lemma IntendedNextIsDeterministic(enums: seq<seq<HidDevice>>, windows: bool, t0: int, i0: int,
                                    t: int, i: int, found: bool, t': int, i': int, found': bool)
    requires 0 <= t < |enums| && 0 <= t' < |enums|
    requires IntendedNextOutcome(enums, windows, t0, i0, t, i, found)
    requires IntendedNextOutcome(enums, windows, t0, i0, t', i', found')
    ensures t == t' && i == i' && found == found'
  {
  }

  class Enumerator {
    /** The result of hid_enumerate for each supported type, in table order. */
    const enums: seq<seq<HidDevice>>
    /** The Windows build, where a PSMove is accepted only through its data collection. */
    const windows: bool
    /** m_deviceType */
    var deviceType: nat
    /** cur_dev, as an index into the current list; the list's length is null. */
    var cur: nat

    ghost predicate Valid()
      reads this
    {
      WellShaped(enums) && deviceType < |enums| && cur <= |enums[deviceType]|
    }

    /** is_valid */
    predicate IsValid()
      reads this
      requires Valid()
    {
      cur < |enums[deviceType]| && DeviceAccepted(enums[deviceType][cur], deviceType, windows)
    }

    /** get_path: the current device's path, or null when the cursor is null. */
    function GetPath(): (r: Option<seq<char>>)
      reads this
      requires Valid()
      ensures r.None? <==> cur == |enums[deviceType]|
      ensures r.Some? ==> r.value == enums[deviceType][cur].path
    {
      if cur < |enums[deviceType]| then Some(enums[deviceType][cur].path) else None
    }

    /** Both constructors: start at the head of the given type's list, and step only if it is not reported. */
    constructor (deviceType: nat, enums: seq<seq<HidDevice>>, windows: bool)
      requires WellShaped(enums) && deviceType < |SupportedControllers|
      ensures Valid() && this.enums == enums && this.windows == windows
      ensures ValidAt(enums, windows, deviceType, 0) ==> this.deviceType == deviceType && cur == 0
      ensures !ValidAt(enums, windows, deviceType, 0) ==>
        AsWrittenNextOutcome(enums, windows, deviceType, 0, this.deviceType, cur, IsValid())
    {
      this.enums := enums;
      this.windows := windows;
      this.deviceType := deviceType;
      this.cur := 0;
      new;
      if !IsValid() {
        var _ := Next();
      }
    }

    /**
     * The constructors with the intended step: a null starting cursor moves on
     * to the next type's list instead of ending the enumeration.
     */
    constructor Corrected(deviceType: nat, enums: seq<seq<HidDevice>>, windows: bool)
      requires WellShaped(enums) && deviceType < |SupportedControllers|
      ensures Valid() && this.enums == enums && this.windows == windows
      ensures ValidAt(enums, windows, deviceType, 0) ==> this.deviceType == deviceType && cur == 0
      ensures !ValidAt(enums, windows, deviceType, 0) ==>
        IntendedNextOutcome(enums, windows, deviceType, 0, this.deviceType, cur, IsValid())
    {
      this.enums := enums;
      this.windows := windows;
      this.deviceType := deviceType;
      this.cur := 0;
      new;
      if !IsValid() {
        var _ := NextCorrected();
      }
    }

    /** next, as written: steps past the head of every later list it moves to. */
    method Next() returns (found: bool)
      requires Valid()
      modifies this
      ensures Valid()
      ensures found == IsValid()
      ensures AsWrittenNextOutcome(enums, windows, old(deviceType), old(cur), deviceType, cur, found)
    {
      ghost var t0, i0 := deviceType, cur;
      found := false;
      while cur < |enums[deviceType]| && !found
        invariant Valid()
        invariant t0 <= deviceType
        invariant found ==> IsValid() && Before(t0, i0, deviceType, cur) && (deviceType > t0 ==> cur > 0)
        invariant !found ==> (deviceType == t0 && cur == i0) || !IsValid() || (deviceType > t0 && cur == 0)
        invariant deviceType == t0 ==> i0 <= cur
        invariant NoValidBetween(enums, windows, t0, i0, deviceType, cur, true)
        invariant forall u :: 0 <= u < |enums| && t0 < u < deviceType ==> |enums[u]| > 0
        invariant !found && cur == |enums[deviceType]| ==>
          deviceType == |enums| - 1 || (deviceType > t0 && |enums[deviceType]| == 0) || (deviceType == t0 && cur == i0)
        invariant i0 == |enums[t0]| ==> deviceType == t0 && cur == i0
        decreases |enums| - deviceType, |enums[deviceType]| - cur
      {
        cur := cur + 1;
        found := IsValid();
        if cur == |enums[deviceType]| && deviceType + 1 < |enums| {
          deviceType := deviceType + 1;
          cur := 0;
          found := false;
        }
      }
    }

    /** The intended step: the heads of later lists, and lists after an empty one, are visited too. */
    method NextCorrected() returns (found: bool)
      requires Valid()
      modifies this
      ensures Valid()
      ensures IntendedNextOutcome(enums, windows, old(deviceType), old(cur), deviceType, cur, found)
    {
      ghost var t0, i0 := deviceType, cur;
      found := false;
      while !found && !(deviceType == |enums| - 1 && cur == |enums[deviceType]|)
        invariant Valid()
        invariant found ==> IsValid() && Before(t0, i0, deviceType, cur)
        invariant !found ==> (deviceType == t0 && cur == i0) || !IsValid()
        invariant t0 < deviceType || (t0 == deviceType && i0 <= cur)
        invariant NoValidBetween(enums, windows, t0, i0, deviceType, cur, false)
        decreases |enums| - deviceType, |enums[deviceType]| - cur
      {
        if cur < |enums[deviceType]| {
          cur := cur + 1;
        }
        if cur == |enums[deviceType]| && deviceType + 1 < |enums| {
          deviceType := deviceType + 1;
          cur := 0;
        }
        found := IsValid();
      }
    }
  }

  /**
   * No PSMove connected and one PSNavi: an enumerator built from the PSMove
   * type as written reports nothing, one built with the intended step
   * reports the PSNavi.
   */
  method NaviWithoutPSMove() returns (asWritten: bool, corrected: bool)
    ensures !asWritten && corrected
  {
    var enums: seq<seq<HidDevice>> := [[], [HidDevice("navi")]];
    assert ValidAt(enums, false, 1, 0);
    var e := new Enumerator(PSMoveType, enums, false);
    asWritten := e.IsValid();
    var c := new Enumerator.Corrected(PSMoveType, enums, false);
    corrected := c.IsValid();
  }
}
