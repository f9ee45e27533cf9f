/**
 * Device/Manager/USBDeviceManager: the bookkeeping of the USB device manager.
 *
 * A device handle is an index into the device-state list. Bulk-transfer
 * bundles are kept as value records (the device handle, the request, the
 * number of transfers in flight and the canceled flag) in an active list and
 * a canceled list. A counter tracks the control transfers in flight, and every
 * result posted to the outgoing result queue is appended to `results`.
 * libusb outcomes are supplied by the caller.
 */
module UsbDeviceManager {
  import opened Wrappers
  import Bulk = UsbBulkTransferBundle

  /** k_invalid_usb_device_handle */
  const InvalidHandle: int := -1

  datatype UsbDeviceInfo = UsbDeviceInfo(vendorId: int, productId: int)

  /**
   * LibUSBDeviceState: the device's ids, whether `device_handle` is set (the
   * device is open) and whether interface 0 is claimed.
   */
  datatype DeviceState = DeviceState(info: UsbDeviceInfo, deviceHandleOpen: bool, interfaceClaimed: bool)

  /** eUSBResultCode */
  datatype ResultCode =
    | Started | Canceled | Completed | TimedOut | Pipe | DeviceNotOpen | Overflow | GeneralError
    | BadHandle | NoMemory | SubmitFailed | TransferAlreadyStarted | TransferNotActive

  /** USBTransferResult, tagged by its result type. */
  datatype TransferResult =
    | ControlTransferResult(handle: int, code: ResultCode, data: seq<bv8>)
    | BulkTransferResult(handle: int, code: ResultCode)

  /** A bulk-transfer bundle as the manager sees it. */
  datatype BundleRecord = BundleRecord(handle: int, request: Bulk.BulkRequest, activeTransferCount: nat, canceled: bool)

  /** The "path" getUSBDevicePath formats: vendor id, product id and index. */
  datatype UsbDevicePath = UsbDevicePath(vendorId: int, productId: int, index: nat)

  /** get_libusb_state_from_handle_const: the state of an in-range handle, null otherwise. */
  function StateFromHandle(devices: seq<DeviceState>, handle: int): (r: Option<DeviceState>)
    ensures r.Some? <==> 0 <= handle < |devices|
    ensures r.Some? ==> r.value == devices[handle]
  {
    if 0 <= handle < |devices| then Some(devices[handle]) else None
  }

  /** getIsUSBDeviceOpen: the handle is in range and its device handle is set. */
  function IsUSBDeviceOpen(devices: seq<DeviceState>, handle: int): (r: bool)
    ensures r <==> 0 <= handle < |devices| && devices[handle].deviceHandleOpen
  {
    var state := StateFromHandle(devices, handle);
    state.Some? && state.value.deviceHandleOpen
  }

  /** getFirstUSBDeviceHandle */
  function FirstUSBDeviceHandle(count: int): (h: int)
    ensures h == 0 <==> count > 0
    ensures h != 0 ==> h == InvalidHandle
  {
    if count > 0 then 0 else InvalidHandle
  }

  /** getNextUSBDeviceHandle */
  function NextUSBDeviceHandle(handle: int, count: int): (h: int)
    ensures 0 <= handle ==> (h == handle + 1 <==> handle + 1 < count)
    ensures 0 <= handle && handle + 1 >= count ==> h == InvalidHandle
  {
    if handle + 1 < count then handle + 1 else InvalidHandle
  }

  /** The handles a caller visits by starting at `handle` and calling next until it is invalid. */
  function HandlesFrom(handle: int, count: int): seq<int>
    requires 0 <= handle < count
    decreases count - handle
  {
    var next := NextUSBDeviceHandle(handle, count);
    [handle] + if next == InvalidHandle then [] else HandlesFrom(next, count)
  }

  /** The handles visited by the usual first/next loop. */
  function IteratedHandles(count: int): seq<int>
  {
    var first := FirstUSBDeviceHandle(count);
    if first == InvalidHandle then [] else HandlesFrom(first, count)
  }

  lemma {:induction false} HandlesFromAreTheRest(handle: int, count: int)
    requires 0 <= handle < count
    ensures HandlesFrom(handle, count) == seq(count - handle, i => handle + i)
    decreases count - handle
  {
    if handle + 1 < count {
      HandlesFromAreTheRest(handle + 1, count);
    }
  }

  /** Iterating from the first handle visits 0 .. count-1, each once and in order. */
  lemma IterationVisitsEveryHandleOnce(count: int)
    ensures IteratedHandles(count) == seq(if count > 0 then count else 0, i => i)
  {
    if count > 0 {
      HandlesFromAreTheRest(0, count);
    }
  }

  /** getUSBDeviceInfo: the ids of the device behind an in-range handle. */
  function USBDeviceInfoOf(devices: seq<DeviceState>, handle: int): (r: Option<UsbDeviceInfo>)
    ensures r.Some? <==> 0 <= handle < |devices|
    ensures r.Some? ==> r.value == devices[handle].info
  {
    match StateFromHandle(devices, handle)
      case None => None
      case Some(state) => Some(state.info)
  }

  /** getUSBDevicePath: the fields of "USB\VID_%04X&PID_%04X\%d" for an in-range handle. */
  function USBDevicePathOf(devices: seq<DeviceState>, handle: int): (r: Option<UsbDevicePath>)
    ensures r.Some? <==> 0 <= handle < |devices|
    ensures r.Some? ==> r.value.index == handle && r.value.vendorId == devices[handle].info.vendorId
                        && r.value.productId == devices[handle].info.productId
  {
    if 0 <= handle < |devices| then
      Some(UsbDevicePath(devices[handle].info.vendorId, devices[handle].info.productId, handle))
    else None
  }

  /** The status switch of control_transfer_cb. */
  function ResultCodeOfStatus(status: Bulk.TransferStatus): (r: ResultCode)
    ensures r == Completed <==> status == Bulk.Completed
    ensures r == Canceled <==> status == Bulk.Cancelled
    ensures r in {Completed, TimedOut, Pipe, DeviceNotOpen, Overflow, GeneralError, Canceled}
  {
    match status
      case Completed => Completed
      case TimedOut => TimedOut
      case Stall => Pipe
      case NoDevice => DeviceNotOpen
      case Overflow => Overflow
      case Error => GeneralError
      case Cancelled => Canceled
  }

  /** Each transfer status has its own result code: the switch loses no information. */
  lemma ResultCodeIsInjective(a: Bulk.TransferStatus, b: Bulk.TransferStatus)
    requires ResultCodeOfStatus(a) == ResultCodeOfStatus(b)
    ensures a == b
  {
  }

  predicate HasActiveBundle(bundles: seq<BundleRecord>, handle: int)
  {
    exists i :: 0 <= i < |bundles| && bundles[i].handle == handle
  }

  /** At most one bundle per device handle. */
  ghost predicate OnePerHandle(bundles: seq<BundleRecord>)
  {
    forall i, j :: 0 <= i < j < |bundles| ==> bundles[i].handle != bundles[j].handle
  }

  /** The bundles still waiting for transfers to finish, in their order. */
  function BusyBundles(bundles: seq<BundleRecord>): (r: seq<BundleRecord>)
    ensures |r| <= |bundles|
    ensures forall b :: b in r <==> b in bundles && b.activeTransferCount > 0
  {
    if |bundles| == 0 then []
    else (if bundles[0].activeTransferCount > 0 then [bundles[0]] else []) + BusyBundles(bundles[1..])
  }

  lemma BusyBundlesAppend(a: seq<BundleRecord>, b: BundleRecord)
    ensures BusyBundles(a + [b]) == BusyBundles(a) + (if b.activeTransferCount > 0 then [b] else [])
  {
    if |a| > 0 {
      assert (a + [b])[1..] == a[1..] + [b];
      BusyBundlesAppend(a[1..], b);
    }
  }

  /**
   * cleanupCanceledRequests as written, with the behaviour of a contiguous
   * vector: after erase the iterator designates the element that followed,
   * and the loop's increment then steps over it. The flag reports that the
   * increment went past the end, from where the loop would read beyond the
   * vector.
   */
  function SweepAsWritten(bundles: seq<BundleRecord>, i: nat): (r: (seq<BundleRecord>, bool))
    requires i <= |bundles| + 1
    decreases |bundles| + 1 - i
  {
    if i >= |bundles| then (bundles, i > |bundles|)
    else if bundles[i].activeTransferCount == 0 then SweepAsWritten(bundles[..i] + bundles[i + 1..], i + 1)
    else SweepAsWritten(bundles, i + 1)
  }

  /** Two finished bundles in a row: the second is stepped over and kept. */
  lemma SweepAsWrittenKeepsSecondIdleBundle(a: BundleRecord, b: BundleRecord)
    requires a.activeTransferCount == 0 && b.activeTransferCount == 0
    ensures SweepAsWritten([a, b], 0) == ([b], false)
    ensures BusyBundles([a, b]) == []
  {
    assert [a, b][..0] + [a, b][1..] == [b];
  }

  /** A finished bundle at the end: erasing it sends the iterator past the end. */
  lemma SweepAsWrittenRunsPastEnd(a: BundleRecord)
    requires a.activeTransferCount == 0
    ensures SweepAsWritten([a], 0).1
  {
    assert [a][..0] + [a][1..] == [];
  }

  class Manager {
    /** m_device_state_list */
    var devices: seq<DeviceState>
    /** m_active_bulk_transfer_bundles */
    var active: seq<BundleRecord>
    /** m_canceled_bulk_transfer_bundles */
    var canceled: seq<BundleRecord>
    /** m_active_control_transfers */
    var activeControlTransfers: int
    /** The control transfers submitted to libusb whose completion has not run yet. */
    ghost var controlInFlight: nat
    /** Everything posted to the outgoing result queue, oldest first. */
    var results: seq<TransferResult>

    /**
     * The intended bookkeeping: one active bundle per device, the canceled
     * flag matching the list, and the counter equal to the control transfers
     * in flight.
     */
    ghost predicate Valid()
      reads this
    {
      && OnePerHandle(active)
      && (forall b :: b in active ==> !b.canceled)
      && (forall b :: b in canceled ==> b.canceled)
      && activeControlTransfers == controlInFlight
    }

    /** The manager after startup, over the filtered device list, with no transfers. */
    constructor (devices: seq<DeviceState>)
      ensures Valid() && this.devices == devices
      ensures active == [] && canceled == [] && activeControlTransfers == 0 && results == []
    {
      this.devices := devices;
      active := [];
      canceled := [];
      activeControlTransfers := 0;
      controlInFlight := 0;
      results := [];
    }

    /** getUSBDeviceCount */
    function USBDeviceCount(): (n: int)
      reads this
      ensures n == |devices| && n >= 0
    {
      |devices|
    }

    /** closeUSBDevice: releases the interface and closes the handle; it reads the state without a null check. */
    method CloseUSBDevice(handle: int)
      requires StateFromHandle(devices, handle).Some?
      modifies this`devices
      ensures devices == old(devices)[handle := DeviceState(old(devices)[handle].info, false, false)]
    {
      var state := devices[handle];
      if state.interfaceClaimed {
        state := state.(interfaceClaimed := false);
      }
      if state.deviceHandleOpen {
        state := state.(deviceHandleOpen := false);
      }
      devices := devices[handle := state];
    }

    /**
     * openUSBDevice as written: an open device is left alone; otherwise the
     * device is isOpen and interface 0 claimed, and any failure closes the
     * handle again. That close reads the state of the handle unguarded, so
     * the handle must be in range.
     */
    method OpenUSBDevice(handle: int, openOk: bool, claimOk: bool) returns (isOpen: bool)
      requires 0 <= handle < |devices|
      modifies this`devices
      ensures isOpen <==> OpenAsWrittenPath(old(devices), handle, openOk, claimOk) == Opened
      ensures old(devices)[handle].deviceHandleOpen ==> !isOpen && devices == old(devices)
      ensures !old(devices)[handle].deviceHandleOpen ==> isOpen == (openOk && claimOk)
      ensures !old(devices)[handle].deviceHandleOpen ==>
        devices == old(devices)[handle := DeviceState(old(devices)[handle].info, isOpen, isOpen)]
    {
      isOpen := false;
      if !IsUSBDeviceOpen(devices, handle) {
        var state := StateFromHandle(devices, handle);
        if state.Some? {
          if openOk {
            devices := devices[handle := devices[handle].(deviceHandleOpen := true)];
            if claimOk {
              devices := devices[handle := devices[handle].(interfaceClaimed := true)];
              isOpen := true;
            }
          }
        }
        if !isOpen {
          CloseUSBDevice(handle);
        }
      }
    }

    /** openUSBDevice with the close on failure limited to handles that have a state. */
    method OpenUSBDeviceCorrected(handle: int, openOk: bool, claimOk: bool) returns (isOpen: bool)
      modifies this`devices
      ensures !(0 <= handle < |old(devices)|) ==> !isOpen && devices == old(devices)
      ensures IsUSBDeviceOpen(old(devices), handle) ==> !isOpen && devices == old(devices)
      ensures 0 <= handle < |old(devices)| && !old(devices)[handle].deviceHandleOpen ==>
        && isOpen == (openOk && claimOk)
        && devices == old(devices)[handle := DeviceState(old(devices)[handle].info, isOpen, isOpen)]
    {
      isOpen := false;
      if !IsUSBDeviceOpen(devices, handle) {
        var state := StateFromHandle(devices, handle);
        if state.Some? {
          if openOk {
            devices := devices[handle := devices[handle].(deviceHandleOpen := true)];
            if claimOk {
              devices := devices[handle := devices[handle].(interfaceClaimed := true)];
              isOpen := true;
            }
          }
          if !isOpen {
            CloseUSBDevice(handle);
          }
        }
      }
    }

    /**
     * postUSBTransferResult as written: every control-transfer result lowers
     * the counter (the source asserts it was positive), then the result is queued.
     */
    method PostUSBTransferResult(result: TransferResult)
      modifies this`activeControlTransfers, this`results
      ensures results == old(results) + [result]
      ensures activeControlTransfers == old(activeControlTransfers) - (if result.ControlTransferResult? then 1 else 0)
    {
      if result.ControlTransferResult? {
        activeControlTransfers := activeControlTransfers - 1;
      }
      results := results + [result];
    }

    /**
     * handleControlTransferRequest as written: a bad handle, a failed
     * allocation or a failed submission posts a failure result at once; a
     * submitted transfer raises the counter and its result comes later. The
     * failure result goes through postUSBTransferResult and so lowers a
     * counter it never raised.
     */
    method HandleControlTransferRequest(handle: int, allocTransferOk: bool, allocBufferOk: bool,
                                        allocStateOk: bool, submitOk: bool) returns (code: ResultCode)
      modifies this`activeControlTransfers, this`results, this`controlInFlight
      ensures code == BadHandle <==> !(0 <= handle < |devices|)
      ensures code == NoMemory <==> 0 <= handle < |devices| && !(allocTransferOk && allocBufferOk && allocStateOk)
      ensures code == SubmitFailed <==> 0 <= handle < |devices| && allocTransferOk && allocBufferOk && allocStateOk && !submitOk
      ensures code == Started <==> 0 <= handle < |devices| && allocTransferOk && allocBufferOk && allocStateOk && submitOk
      ensures code == Started ==>
        && activeControlTransfers == old(activeControlTransfers) + 1
        && controlInFlight == old(controlInFlight) + 1 && results == old(results)
      ensures code != Started ==>
        && activeControlTransfers == old(activeControlTransfers) - 1
        && controlInFlight == old(controlInFlight)
        && results == old(results) + [ControlTransferResult(handle, code, [])]
    {
      code := StartControlTransfer(handle, allocTransferOk, allocBufferOk, allocStateOk, submitOk);
      if code != Started {
        PostUSBTransferResult(ControlTransferResult(handle, code, []));
      }
    }

    /** The part of handleControlTransferRequest up to the submission. */
    method StartControlTransfer(handle: int, allocTransferOk: bool, allocBufferOk: bool,
                                allocStateOk: bool, submitOk: bool) returns (code: ResultCode)
      modifies this`activeControlTransfers, this`controlInFlight
      ensures code in {BadHandle, NoMemory, SubmitFailed, Started}
      ensures code == BadHandle <==> !(0 <= handle < |devices|)
      ensures code == NoMemory <==> 0 <= handle < |devices| && !(allocTransferOk && allocBufferOk && allocStateOk)
      ensures code == Started <==> 0 <= handle < |devices| && allocTransferOk && allocBufferOk && allocStateOk && submitOk
      ensures code == Started ==>
        activeControlTransfers == old(activeControlTransfers) + 1 && controlInFlight == old(controlInFlight) + 1
      ensures code != Started ==>
        activeControlTransfers == old(activeControlTransfers) && controlInFlight == old(controlInFlight)
    {
      var state := StateFromHandle(devices, handle);
      if state.Some? {
        if !allocTransferOk || !allocBufferOk || !allocStateOk {
          code := NoMemory;
        } else if submitOk {
          activeControlTransfers := activeControlTransfers + 1;
          controlInFlight := controlInFlight + 1;
          code := Started;
        } else {
          code := SubmitFailed;
        }
      } else {
        code := BadHandle;
      }
    }

    /**
     * handleControlTransferRequest with the early failure queued directly,
     * so that only completions of submitted transfers lower the counter.
     */
    method HandleControlTransferRequestCorrected(handle: int, allocTransferOk: bool, allocBufferOk: bool,
                                                 allocStateOk: bool, submitOk: bool) returns (code: ResultCode)
      requires Valid()
      modifies this`activeControlTransfers, this`results, this`controlInFlight
      ensures Valid()
      ensures code == Started <==> 0 <= handle < |devices| && allocTransferOk && allocBufferOk && allocStateOk && submitOk
      ensures code == Started ==> controlInFlight == old(controlInFlight) + 1 && results == old(results)
      ensures code != Started ==>
        controlInFlight == old(controlInFlight) && results == old(results) + [ControlTransferResult(handle, code, [])]
    {
      code := StartControlTransfer(handle, allocTransferOk, allocBufferOk, allocStateOk, submitOk);
      if code != Started {
        results := results + [ControlTransferResult(handle, code, [])];
      }
    }

    /**
     * control_transfer_cb: a submitted control transfer finished with
     * `status`; a device-to-host transfer that received bytes posts them with
     * its result.
     */
    method ControlTransferCallback(handle: int, status: Bulk.TransferStatus, directionIn: bool, received: seq<bv8>)
      requires Valid() && controlInFlight > 0
      modifies this`activeControlTransfers, this`results, this`controlInFlight
      ensures Valid() && controlInFlight == old(controlInFlight) - 1
      ensures results == old(results) +
        [ControlTransferResult(handle, ResultCodeOfStatus(status), if directionIn then received else [])]
    {
      var data := if directionIn && |received| > 0 then received else [];
      PostUSBTransferResult(ControlTransferResult(handle, ResultCodeOfStatus(status), data));
      controlInFlight := controlInFlight - 1;
    }

    /** The find_if over the active bundles: the first with this device handle. */
    method FindActiveBundle(handle: int) returns (index: Option<nat>)
      ensures index.Some? ==> index.value < |active| && active[index.value].handle == handle
      ensures index.None? <==> !HasActiveBundle(active, handle)
      ensures index.Some? ==> forall j :: 0 <= j < index.value ==> active[j].handle != handle
    {
      index := None;
      var i := 0;
      while i < |active| && index.None?
        invariant 0 <= i <= |active|
        invariant index.Some? ==> index.value < i && active[index.value].handle == handle
        invariant forall j :: 0 <= j < i && (index.None? || j < index.value) ==> active[j].handle != handle
        decreases |active| - i
      {
        if active[i].handle == handle {
          index := Some(i);
        }
        i := i + 1;
      }
    }

    /**
     * handleStartBulkTransferRequest: the checks run in a fixed order (bad
     * handle, device not open, transfer already started, no memory, submit
     * failed); only a bundle whose every transfer started joins the active
     * list, and a partly started one is canceled and parked on the canceled
     * list. One bulk result is posted in every case.
     */
    method HandleStartBulkTransferRequest(request: Bulk.BulkRequest, initOk: bool, submitOk: seq<bool>)
      returns (code: ResultCode)
      requires Valid() && |submitOk| == request.inFlightCount
      modifies this`active, this`canceled, this`results
      ensures Valid()
      ensures var h := request.deviceHandle;
        && (code == BadHandle <==> !(0 <= h < |devices|))
        && (code == DeviceNotOpen <==> 0 <= h < |devices| && !devices[h].deviceHandleOpen)
        && (code == TransferAlreadyStarted <==> IsUSBDeviceOpen(devices, h) && HasActiveBundle(old(active), h))
        && (code == NoMemory <==> IsUSBDeviceOpen(devices, h) && !HasActiveBundle(old(active), h) && !initOk)
        && (code == SubmitFailed <==> IsUSBDeviceOpen(devices, h) && !HasActiveBundle(old(active), h) && initOk
                                      && Bulk.LeadingSuccesses(submitOk) < request.inFlightCount)
        && (code == Started <==> IsUSBDeviceOpen(devices, h) && !HasActiveBundle(old(active), h) && initOk
                                 && Bulk.LeadingSuccesses(submitOk) == request.inFlightCount)
      ensures active == if code == Started
                        then old(active) + [BundleRecord(request.deviceHandle, request, request.inFlightCount, false)]
                        else old(active)
      ensures canceled == if code == SubmitFailed && Bulk.LeadingSuccesses(submitOk) > 0
                          then old(canceled) + [BundleRecord(request.deviceHandle, request, Bulk.LeadingSuccesses(submitOk), true)]
                          else old(canceled)
      ensures results == old(results) + [BulkTransferResult(request.deviceHandle, code)]
    {
      var h := request.deviceHandle;
      var state := StateFromHandle(devices, h);
      if state.Some? {
        if state.value.deviceHandleOpen {
          var existing := FindActiveBundle(h);
          if existing.None? {
            if initOk {
              var started := Bulk.LeadingSuccesses(submitOk);
              if started == request.inFlightCount {
                active := active + [BundleRecord(h, request, started, false)];
                code := Started;
              } else {
                if started > 0 {
                  canceled := canceled + [BundleRecord(h, request, started, true)];
                }
                code := SubmitFailed;
              }
            } else {
              code := NoMemory;
            }
          } else {
            code := TransferAlreadyStarted;
          }
        } else {
          code := DeviceNotOpen;
        }
      } else {
        code := BadHandle;
      }
      results := results + [BulkTransferResult(h, code)];
    }

    /**
     * handleCancelBulkTransferRequest: the device's active bundle is canceled
     * and moved, unchanged otherwise, to the end of the canceled list; no
     * other bundle is touched. One bulk result is posted in every case.
     */
    method HandleCancelBulkTransferRequest(handle: int) returns (code: ResultCode)
      requires Valid()
      modifies this`active, this`canceled, this`results
      ensures Valid()
      ensures code == BadHandle <==> !(0 <= handle < |devices|)
      ensures code == TransferNotActive <==> 0 <= handle < |devices| && !HasActiveBundle(old(active), handle)
      ensures code == Canceled <==> 0 <= handle < |devices| && HasActiveBundle(old(active), handle)
      ensures code != Canceled ==> active == old(active) && canceled == old(canceled)
      ensures code == Canceled ==>
        exists k :: && 0 <= k < |old(active)| && old(active)[k].handle == handle
                    && active == old(active)[..k] + old(active)[k + 1..]
                    && canceled == old(canceled) + [old(active)[k].(canceled := true)]
      ensures code == Canceled ==> !HasActiveBundle(active, handle)
      ensures results == old(results) + [BulkTransferResult(handle, code)]
    {
      if 0 <= handle < |devices| {
        var found := FindActiveBundle(handle);
        if found.Some? {
          var k := found.value;
          var bundle := active[k];
          active := active[..k] + active[k + 1..];
          canceled := canceled + [bundle.(canceled := true)];
          code := Canceled;
          assert forall i :: 0 <= i < |active| ==> active[i] == old(active)[if i < k then i else i + 1];
        } else {
          code := TransferNotActive;
        }
      } else {
        code := BadHandle;
      }
      results := results + [BulkTransferResult(handle, code)];
    }

    /** A transfer of a canceled bundle has finished (cancelled transfers are never resubmitted). */
    method CanceledTransferFinished(i: nat)
      requires Valid() && i < |canceled| && canceled[i].activeTransferCount > 0
      modifies this`canceled
      ensures Valid()
      ensures canceled == old(canceled)[i := old(canceled)[i].(activeTransferCount := old(canceled)[i].activeTransferCount - 1)]
    {
      canceled := canceled[i := canceled[i].(activeTransferCount := canceled[i].activeTransferCount - 1)];
    }

    /**
     * cleanupCanceledRequests as written (see SweepAsWritten): returns
     * whether the iterator went past the end of the list.
     */
    method CleanupCanceledRequestsAsWritten() returns (overran: bool)
      modifies this`canceled
      ensures (canceled, overran) == SweepAsWritten(old(canceled), 0)
    {
      var i := 0;
      while i < |canceled|
        invariant i <= |canceled| + 1
        invariant SweepAsWritten(canceled, i) == SweepAsWritten(old(canceled), 0)
        decreases |canceled| + 1 - i
      {
        if canceled[i].activeTransferCount == 0 {
          canceled := canceled[..i] + canceled[i + 1..];
        }
        i := i + 1;
      }
      overran := i > |canceled|;
    }

    /** cleanupCanceledRequests as intended: exactly the finished bundles are destroyed. */
    method CleanupCanceledRequests()
      requires Valid()
      modifies this`canceled
      ensures Valid()
      ensures canceled == BusyBundles(old(canceled))
    {
      var kept: seq<BundleRecord> := [];
      var i := 0;
      while i < |canceled|
        invariant canceled == old(canceled)
        invariant 0 <= i <= |canceled|
        invariant kept == BusyBundles(canceled[..i])
        decreases |canceled| - i
      {
        BusyBundlesAppend(canceled[..i], canceled[i]);
        assert canceled[..i + 1] == canceled[..i] + [canceled[i]];
        if canceled[i].activeTransferCount > 0 {
          kept := kept + [canceled[i]];
        }
        i := i + 1;
      }
      assert canceled[..i] == canceled;
      canceled := kept;
    }
  }

  /** A fresh manager and a control request on a handle it does not have: the counter goes negative. */
  method EarlyControlFailureUnderflows() returns (counter: int)
    ensures counter == -1
  {
    var manager := new Manager([]);
    var code := manager.HandleControlTransferRequest(0, true, true, true, true);
    counter := manager.activeControlTransfers;
  }

  /** The branch openUSBDevice takes as written. */
  datatype OpenPath = AlreadyOpen | Opened | CloseAfterFailure

  /**
   * openUSBDevice's branches as written: an open device is left alone; a
   * device with a state that opens and claims its interface is opened; every
   * other case, a missing state included, ends in closeUSBDevice.
   */
  function OpenAsWrittenPath(devices: seq<DeviceState>, handle: int, openOk: bool, claimOk: bool): OpenPath
  {
    if IsUSBDeviceOpen(devices, handle) then AlreadyOpen
    else if StateFromHandle(devices, handle).Some? && openOk && claimOk then Opened
    else CloseAfterFailure
  }

  /**
   * For an out-of-range handle, whatever libusb would answer, openUSBDevice as
   * written calls closeUSBDevice, whose precondition (a state for the handle,
   * which it dereferences unchecked) does not hold.
   */
  lemma InvalidHandleReachesUnguardedClose(devices: seq<DeviceState>, handle: int, openOk: bool, claimOk: bool)
    requires !(0 <= handle < |devices|)
    ensures OpenAsWrittenPath(devices, handle, openOk, claimOk) == CloseAfterFailure
    ensures StateFromHandle(devices, handle).None?
  {
  }
}
