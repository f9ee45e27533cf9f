/**
 * Device/Enumerator/TrackerDeviceEnumerator: a cursor over the USB manager's
 * filtered device list that stops on every device whose vendor and product id
 * are those of a supported tracking camera.
 */
module TrackerDeviceEnumerator {
  import opened Wrappers

  datatype UsbDeviceInfo = UsbDeviceInfo(vendorId: int, productId: int)

  /** One entry of the filtered device list: its ids and its port path. */
  datatype FilteredDevice = FilteredDevice(info: UsbDeviceInfo, path: seq<char>)

  /** k_supported_tracker_infos, in tracker device-type order (TrackingCamera + index). */
  const SupportedTrackers: seq<UsbDeviceInfo> := [UsbDeviceInfo(0x1415, 0x2000)]   // PS3Eye

  /** getFilteredDeviceInfo: the ids of the device at `index`, or nothing outside the list. */
  function FilteredDeviceInfo(devices: seq<FilteredDevice>, index: int): (r: Option<UsbDeviceInfo>)
    ensures r.Some? <==> 0 <= index < |devices|
    ensures r.Some? ==> r.value == devices[index].info
  {
    if 0 <= index < |devices| then Some(devices[index].info) else None
  }

  /** Position `i` holds a supported camera. */
  predicate IsCamera(devices: seq<FilteredDevice>, i: int)
  {
    0 <= i < |devices| && devices[i].info in SupportedTrackers
  }

  /** The number of supported cameras among the first `n` devices. */
  function CameraCount(devices: seq<FilteredDevice>, n: nat): (c: nat)
    requires n <= |devices|
    ensures c <= n
  {
    if n == 0 then 0 else CameraCount(devices, n - 1) + (if IsCamera(devices, n - 1) then 1 else 0)
  }

  /** Counting over a stretch without cameras adds nothing. */
  lemma {:induction false} CameraCountSkips(devices: seq<FilteredDevice>, lo: nat, hi: nat)
    requires lo <= hi <= |devices|
    requires forall i :: lo <= i < hi ==> !IsCamera(devices, i)
    ensures CameraCount(devices, hi) == CameraCount(devices, lo)
    decreases hi - lo
  {
    if lo < hi {
      CameraCountSkips(devices, lo, hi - 1);
    }
  }

  /**
   * The inner search of next: the first table entry whose product and vendor
   * ids both equal the device's, or nothing.
   */
  method FindSupportedType(info: UsbDeviceInfo) returns (k: Option<nat>)
    ensures k.Some? ==> k.value < |SupportedTrackers| && SupportedTrackers[k.value] == info
    ensures forall j :: 0 <= j < |SupportedTrackers| && (k.None? || j < k.value) ==> SupportedTrackers[j] != info
  {
    k := None;
    var index := 0;
    while k.None? && index < |SupportedTrackers|
      invariant 0 <= index <= |SupportedTrackers|
      invariant k.Some? ==> k.value < index && SupportedTrackers[k.value] == info
      invariant forall j :: 0 <= j < index && (k.None? || j < k.value) ==> SupportedTrackers[j] != info
      decreases |SupportedTrackers| - index
    {
      var supported := SupportedTrackers[index];
      if info.productId == supported.productId && info.vendorId == supported.vendorId {
        k := Some(index);
      }
      index := index + 1;
    }
  }

  class Enumerator {
    /** The filtered device list the manager holds while this enumerator runs. */
    const devices: seq<FilteredDevice>
    var devIndex: int
    var devCount: int
    var cameraIndex: int
    /** m_deviceType, as an index into the supported-tracker table. */
    var trackerType: nat
    /** cur_path, the cached path of the current device. */
    var curPath: seq<char>

    /**
     * The cursor is before the list, on a camera, or at the end; the camera
     * index is the 0-based rank of the current camera among all cameras.
     */
    ghost predicate Cursor()
      reads this
    {
      && devCount == |devices|
      && -1 <= devIndex <= devCount
      && (devIndex == -1 || devIndex == devCount || IsCamera(devices, devIndex))
      && cameraIndex == CameraCount(devices, if devIndex < devCount then devIndex + 1 else devCount) - 1
      && (0 <= devIndex < devCount ==>
            && trackerType < |SupportedTrackers|
            && SupportedTrackers[trackerType] == devices[devIndex].info
            && curPath == devices[devIndex].path)
    }

    /** After construction the cursor has left its before-the-list position for good. */
    ghost predicate Valid()
      reads this
    {
      Cursor() && 0 <= devIndex
    }

    /** is_valid */
    predicate IsValid()
      reads this
    {
      devIndex < devCount
    }

    /** get_path: the cached path while the enumerator is valid, null otherwise. */
    function GetPath(): (r: Option<seq<char>>)
      reads this
      requires Valid()
      ensures r.None? <==> !IsValid()
      ensures r.Some? ==> IsCamera(devices, devIndex) && r.value == devices[devIndex].path
    {
      if IsValid() then Some(curPath) else None
    }

    /** Both constructors: before the first device, then one call to next. */
    constructor (devices: seq<FilteredDevice>)
      ensures Valid() && this.devices == devices
      ensures IsValid() <==> exists i :: 0 <= i < |devices| && IsCamera(devices, i)
      ensures IsValid() ==>
        && cameraIndex == 0
        && forall i :: 0 <= i < devIndex ==> !IsCamera(devices, i)
    {
      this.devices := devices;
      devCount := |devices|;
      devIndex := -1;
      cameraIndex := -1;
      trackerType := 0;
      curPath := [];
      new;
      var _ := Next();
    }

    /**
     * next: move to the next supported camera after the current position,
     * or to the end of the list. The index strictly grows and never passes
     * the device count; the camera index grows by one exactly when a camera
     * is found.
     */
    method Next() returns (found: bool)
      requires Cursor()
      modifies this
      ensures Valid() && devCount == old(devCount)
      ensures found == IsValid()
      ensures old(devIndex) < devCount ==> old(devIndex) < devIndex
      ensures found ==> IsCamera(devices, devIndex)
      ensures forall i :: old(devIndex) < i < devIndex ==> !IsCamera(devices, i)
      ensures !found ==> devIndex == devCount
      ensures cameraIndex == old(cameraIndex) + (if found then 1 else 0)
    {
      found := false;
      ghost var start := devIndex;
      while devIndex < devCount && !found
        invariant devCount == |devices| && start <= devIndex <= devCount
        invariant -1 <= devIndex
        invariant found ==>
          && IsCamera(devices, devIndex) && start < devIndex
          && trackerType < |SupportedTrackers|
          && SupportedTrackers[trackerType] == devices[devIndex].info
          && curPath == devices[devIndex].path
        invariant forall i :: start < i < devIndex ==> !IsCamera(devices, i)
        invariant !found ==> devIndex == start || !IsCamera(devices, devIndex)
        invariant cameraIndex == old(cameraIndex)
        decreases devCount - devIndex, !found
      {
        devIndex := devIndex + 1;
        var info := FilteredDeviceInfo(devices, devIndex);
        if info.Some? {
          var supportedType := FindSupportedType(info.value);
          if supportedType.Some? {
            curPath := devices[devIndex].path;
            trackerType := supportedType.value;
            found := true;
          }
        }
      }
      if found {
        cameraIndex := cameraIndex + 1;
      }
      CountAcross(start, devIndex, found);
    }

    /** How the camera count moves when the cursor goes from `start` to `stop`. */
    lemma CountAcross(start: int, stop: int, found: bool)
      requires devCount == |devices| && -1 <= start <= stop <= devCount
      requires forall i :: start < i < stop ==> !IsCamera(devices, i)
      requires found ==> IsCamera(devices, stop) && start < stop
      requires !found ==> stop == devCount || stop == start
      ensures start < devCount ==>
        CameraCount(devices, if stop < devCount then stop + 1 else devCount)
          == CameraCount(devices, start + 1) + (if found then 1 else 0)
    {
      if start < devCount {
        if found {
          CameraCountSkips(devices, start + 1, stop);
        } else if stop == devCount {
          CameraCountSkips(devices, start + 1, devCount);
        }
      }
    }
  }
}
