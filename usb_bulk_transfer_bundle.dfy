/**
 * Device/USB/USBBulkTransferBundle: a set of libusb bulk transfers that share
 * one buffer, with a count of transfers in flight and a canceled flag.
 *
 * Every libusb call is an outcome the caller supplies: whether an allocation
 * or a submission succeeded, and the descriptors the device reports.
 */
module UsbBulkTransferBundle {
  import opened Wrappers

  /** libusb_transfer_status */
  datatype TransferStatus = Completed | Error | TimedOut | Cancelled | Stall | NoDevice | Overflow

  /** USBRequestPayload_BulkTransfer; the data callback and its user data are not modelled. */
  datatype BulkRequest = BulkRequest(deviceHandle: int, packetSize: nat, inFlightCount: nat, autoResubmit: bool)

  /** The parts of the libusb descriptors the endpoint search reads. */
  datatype EndpointDescriptor = EndpointDescriptor(address: bv8, attributes: bv8, maxPacketSize: nat)
  /** altsetting[0] of one interface. */
  datatype InterfaceDescriptor = InterfaceDescriptor(interfaceNumber: nat, endpoints: seq<EndpointDescriptor>)
  datatype ConfigDescriptor = ConfigDescriptor(interfaces: seq<InterfaceDescriptor>)

  const TransferTypeMask: bv8 := 0x03   // LIBUSB_TRANSFER_TYPE_MASK
  const TransferTypeBulk: bv8 := 0x02   // LIBUSB_TRANSFER_TYPE_BULK

  predicate IsBulkEndpoint(e: EndpointDescriptor)
  {
    e.attributes & TransferTypeMask == TransferTypeBulk && e.maxPacketSize != 0
  }

  /** The first interface whose first alternate setting has number 0. */
  function FirstInterfaceZero(ifs: seq<InterfaceDescriptor>): (k: Option<nat>)
    ensures k.Some? ==> k.value < |ifs| && ifs[k.value].interfaceNumber == 0
    ensures k.Some? ==> forall j :: 0 <= j < k.value ==> ifs[j].interfaceNumber != 0
    ensures k.None? ==> forall j :: 0 <= j < |ifs| ==> ifs[j].interfaceNumber != 0
  {
    if |ifs| == 0 then None
    else if ifs[0].interfaceNumber == 0 then Some(0)
    else match FirstInterfaceZero(ifs[1..])
      case None => None
      case Some(k) => Some(k + 1)
  }

  /** The first bulk endpoint with a non-zero packet size. */
  function FirstBulkEndpoint(eps: seq<EndpointDescriptor>): (k: Option<nat>)
    ensures k.Some? ==> k.value < |eps| && IsBulkEndpoint(eps[k.value])
    ensures k.Some? ==> forall j :: 0 <= j < k.value ==> !IsBulkEndpoint(eps[j])
    ensures k.None? ==> forall j :: 0 <= j < |eps| ==> !IsBulkEndpoint(eps[j])
  {
    if |eps| == 0 then None
    else if IsBulkEndpoint(eps[0]) then Some(0)
    else match FirstBulkEndpoint(eps[1..])
      case None => None
      case Some(k) => Some(k + 1)
  }

  /**
   * The endpoint the search is meant to find: a bulk endpoint of the first
   * interface numbered 0. Later interfaces are never consulted.
   */
  function BulkEndpointOf(config: Option<ConfigDescriptor>): Option<bv8>
  {
    if config.None? then None
    else match FirstInterfaceZero(config.value.interfaces)
      case None => None
      case Some(i) =>
        var eps := config.value.interfaces[i].endpoints;
        match FirstBulkEndpoint(eps)
          case None => None
          case Some(e) => Some(eps[e].address)
  }

  /** find_bulk_transfer_endpoint, with the active configuration (null when unavailable). */
  method FindBulkTransferEndpoint(config: Option<ConfigDescriptor>) returns (found: bool, address: bv8)
    ensures found <==> BulkEndpointOf(config).Some?
    ensures found ==> address == BulkEndpointOf(config).value
  {
    found := false;
    address := 0;
    if config.Some? {
      var ifs := config.value.interfaces;
      var altsetting: Option<nat> := None;
      var i := 0;
      while i < |ifs| && altsetting.None?
        invariant 0 <= i <= |ifs|
        invariant altsetting.None? ==> forall j :: 0 <= j < i ==> ifs[j].interfaceNumber != 0
        invariant altsetting.Some? ==> altsetting == FirstInterfaceZero(ifs)
        decreases |ifs| - i
      {
        if ifs[i].interfaceNumber == 0 {
          altsetting := Some(i);
        }
        i := i + 1;
      }
      if altsetting.Some? {
        var eps := ifs[altsetting.value].endpoints;
        var e := 0;
        while e < |eps| && !found
          invariant 0 <= e <= |eps|
          invariant !found ==> forall j :: 0 <= j < e ==> !IsBulkEndpoint(eps[j])
          invariant found ==> FirstBulkEndpoint(eps).Some? && address == eps[FirstBulkEndpoint(eps).value].address
          decreases |eps| - e
        {
          if eps[e].attributes & TransferTypeMask == TransferTypeBulk && eps[e].maxPacketSize != 0 {
            address := eps[e].address;
            found := true;
          }
          e := e + 1;
        }
      }
    }
  }

  /** A filled libusb transfer: its endpoint and the slice of the shared buffer it reads into. */
  datatype Transfer = Transfer(endpoint: bv8, offset: nat, length: nat)

  /** The slice of transfer `i`: [i * size, (i + 1) * size). */
  function SliceOf(endpoint: bv8, i: nat, size: nat): (t: Transfer)
    ensures t.offset + t.length == (i + 1) * size
  {
    Transfer(endpoint, i * size, size)
  }

  /** Distinct transfers get disjoint slices, all inside the buffer of count * size bytes. */
  lemma SlicesDisjoint(endpoint: bv8, count: nat, size: nat, i: nat, j: nat)
    requires i < j < count
    ensures SliceOf(endpoint, i, size).offset + SliceOf(endpoint, i, size).length <= SliceOf(endpoint, j, size).offset
    ensures SliceOf(endpoint, j, size).offset + SliceOf(endpoint, j, size).length <= count * size
  {
    MulMonotone(i + 1, j, size);
    MulMonotone(j + 1, count, size);
  }

  lemma MulMonotone(a: nat, b: nat, size: nat)
    requires a <= b
    ensures a * size <= b * size
  {
  }

  /** How many submissions succeed before the first failure. */
  function LeadingSuccesses(submitOk: seq<bool>): (n: nat)
    ensures n <= |submitOk|
    ensures forall j :: 0 <= j < n ==> submitOk[j]
    ensures n < |submitOk| ==> !submitOk[n]
  {
    if |submitOk| == 0 || !submitOk[0] then 0 else 1 + LeadingSuccesses(submitOk[1..])
  }

  class Bundle {
    const request: BulkRequest
    /** m_active_transfer_count */
    var activeTransferCount: int
    /** m_is_canceled */
    var isCanceled: bool
    /** bulk_transfer_requests: null, or one (possibly null) transfer per in-flight slot. */
    var requests: array?<Option<Transfer>>
    /** transfer_buffer != nullptr */
    var bufferAllocated: bool

    ghost predicate Valid()
      reads this
    {
      requests != null ==> requests.Length == request.inFlightCount
    }

    /** Every slot holds a filled transfer: what a successful initialize leaves. */
    ghost predicate Initialized()
      reads this, requests
    {
      requests != null && requests.Length == request.inFlightCount && bufferAllocated
      && forall i :: 0 <= i < requests.Length ==> requests[i].Some?
    }

    constructor (request: BulkRequest)
      ensures Valid() && this.request == request
      ensures activeTransferCount == 0 && !isCanceled && requests == null && !bufferAllocated
    {
      this.request := request;
      activeTransferCount := 0;
      isCanceled := false;
      requests := null;
      bufferAllocated := false;
    }

    /**
     * initialize: find the bulk endpoint, allocate the transfer array and the
     * buffer, then allocate and fill each transfer. Each stage runs only when
     * the earlier ones succeeded; a failed transfer allocation does not stop
     * the loop.
     */
    method Initialize(config: Option<ConfigDescriptor>, arrayAllocOk: bool, bufferAllocOk: bool,
                      transferAllocOk: seq<bool>) returns (ok: bool)
      requires Valid() && !bufferAllocated && |transferAllocOk| == request.inFlightCount
      modifies this
      ensures Valid() && activeTransferCount == old(activeTransferCount) && isCanceled == old(isCanceled)
      ensures ok <==> old(activeTransferCount) == 0 && BulkEndpointOf(config).Some?
                      && arrayAllocOk && bufferAllocOk && forall i :: 0 <= i < |transferAllocOk| ==> transferAllocOk[i]
      ensures !(old(activeTransferCount) == 0 && BulkEndpointOf(config).Some? && arrayAllocOk) ==>
        requests == old(requests) && bufferAllocated == old(bufferAllocated)
      ensures old(activeTransferCount) == 0 && BulkEndpointOf(config).Some? && arrayAllocOk ==>
        && requests != null && fresh(requests) && bufferAllocated == bufferAllocOk
        && forall i :: 0 <= i < requests.Length ==>
             requests[i] == if bufferAllocOk && transferAllocOk[i]
                            then Some(SliceOf(BulkEndpointOf(config).value, i, request.packetSize))
                            else None
      ensures ok ==> Initialized()
    {
      ok := activeTransferCount == 0;
      var endpoint: bv8 := 0;
      if ok {
        var found;
        found, endpoint := FindBulkTransferEndpoint(config);
        if !found {
          ok := false;
        }
      }
      if ok {
        if arrayAllocOk {
          var slots := new Option<Transfer>[request.inFlightCount](_ => None);
          requests := slots;
          if bufferAllocOk {
            bufferAllocated := true;
            var i := 0;
            var allAllocated := true;
            while i < request.inFlightCount
              invariant 0 <= i <= request.inFlightCount == slots.Length
              invariant requests == slots && bufferAllocated
              invariant activeTransferCount == old(activeTransferCount) && isCanceled == old(isCanceled)
              invariant allAllocated <==> forall j :: 0 <= j < i ==> transferAllocOk[j]
              invariant forall j :: 0 <= j < i ==>
                slots[j] == if transferAllocOk[j] then Some(SliceOf(endpoint, j, request.packetSize)) else None
              invariant forall j :: i <= j < slots.Length ==> slots[j] == None
              decreases request.inFlightCount - i
            {
              if transferAllocOk[i] {
                slots[i] := Some(Transfer(endpoint, i * request.packetSize, request.packetSize));
              } else {
                allAllocated := false;
              }
              i := i + 1;
            }
            ok := allAllocated;
          } else {
            ok := false;
          }
        } else {
          ok := false;
        }
      }
    }

    /** The unguarded walk of dispose is safe: there is an array, or nothing to walk. */
    predicate DisposeCanWalk()
      reads this
    {
      requests != null || request.inFlightCount == 0
    }

    /**
     * dispose, as written: it walks the transfer array without checking it
     * for null, so it needs the array whenever there are slots to walk.
     */
    method Dispose()
      requires Valid() && activeTransferCount == 0 && DisposeCanWalk()
      modifies this
      ensures Valid() && requests == null && !bufferAllocated
      ensures activeTransferCount == old(activeTransferCount) && isCanceled == old(isCanceled)
    {
      requests := null;
      bufferAllocated := false;
    }

    /** dispose with the null check the walk needs; the destructor can then run after any initialize. */
    method DisposeCorrected()
      requires Valid() && activeTransferCount == 0
      modifies this
      ensures Valid() && requests == null && !bufferAllocated
      ensures activeTransferCount == old(activeTransferCount) && isCanceled == old(isCanceled)
    {
      requests := null;
      bufferAllocated := false;
    }

    /**
     * startTransfers: only from an idle, uncanceled bundle; each successful
     * submission adds one to the count, and the first failure stops the loop.
     */
    method StartTransfers(submitOk: seq<bool>) returns (ok: bool)
      requires Valid() && Initialized() && |submitOk| == request.inFlightCount
      modifies this`activeTransferCount
      ensures (old(activeTransferCount) == 0 && !isCanceled) ==>
        activeTransferCount == LeadingSuccesses(submitOk)
        && (ok <==> LeadingSuccesses(submitOk) == request.inFlightCount)
      ensures !(old(activeTransferCount) == 0 && !isCanceled) ==>
        !ok && activeTransferCount == old(activeTransferCount)
      ensures ok ==> activeTransferCount == request.inFlightCount
    {
      ok := activeTransferCount == 0 && !isCanceled;
      if ok {
        var i := 0;
        while i < request.inFlightCount
          invariant 0 <= i <= request.inFlightCount
          invariant forall j :: 0 <= j < i ==> submitOk[j]
          invariant activeTransferCount == i
          decreases request.inFlightCount - i
        {
          if submitOk[i] {
            activeTransferCount := activeTransferCount + 1;
          } else {
            ok := false;
            break;
          }
          i := i + 1;
        }
      }
    }

    /** notifyActiveTransfersDecremented: one transfer fewer in flight. */
    method NotifyActiveTransfersDecremented()
      requires activeTransferCount > 0
      modifies this`activeTransferCount
      ensures activeTransferCount == old(activeTransferCount) - 1
    {
      activeTransferCount := activeTransferCount - 1;
    }

    /**
     * transfer_callback_function for one finished transfer of this bundle:
     * the data callback runs on completion; the transfer is resubmitted when
     * it was not cancelled and the request asks for it; the count drops
     * exactly when it was not restarted.
     */
    method TransferCallback(status: TransferStatus, resubmitOk: bool) returns (delivered: bool, restarted: bool)
      requires activeTransferCount > 0
      modifies this`activeTransferCount
      ensures delivered <==> status == Completed
      ensures restarted <==> status != Cancelled && request.autoResubmit && resubmitOk
      ensures activeTransferCount == old(activeTransferCount) - (if restarted then 0 else 1)
    {
      delivered := status == Completed;
      restarted := false;
      if status != Cancelled && request.autoResubmit {
        if resubmitOk {
          restarted := true;
        }
      }
      if !restarted {
        NotifyActiveTransfersDecremented();
      }
    }

    /**
     * cancelTransfers: the first call cancels every transfer, in slot order,
     * and sets the flag; later calls do nothing. Returns the slots cancelled.
     */
    method CancelTransfers() returns (cancelled: seq<nat>)
      requires Valid() && Initialized()
      modifies this`isCanceled
      ensures isCanceled
      ensures old(isCanceled) ==> cancelled == []
      ensures !old(isCanceled) ==>
        && |cancelled| == request.inFlightCount
        && forall j :: 0 <= j < |cancelled| ==> cancelled[j] == j
    {
      cancelled := [];
      if !isCanceled {
        var i := 0;
        while i < request.inFlightCount
          invariant 0 <= i <= request.inFlightCount
          invariant |cancelled| == i && forall j :: 0 <= j < i ==> cancelled[j] == j
          decreases request.inFlightCount - i
        {
          cancelled := cancelled + [i];
          i := i + 1;
        }
        isCanceled := true;
      }
    }
  }

  /**
   * The destructor after an initialize that failed its endpoint search: the
   * array was never allocated, so dispose as written would walk a null array
   * whenever the request has slots.
   */
  method FailedSearchLeavesNullArray(request: BulkRequest, config: Option<ConfigDescriptor>)
    returns (canWalk: bool)
    requires request.inFlightCount > 0 && BulkEndpointOf(config).None?
    ensures !canWalk
  {
    var bundle := new Bundle(request);
    var _ := bundle.Initialize(config, true, true, seq(request.inFlightCount, _ => true));
    canWalk := bundle.DisposeCanWalk();
  }

  /** With the null check, the destructor's dispose runs after any initialize outcome. */
  method FailedInitializeThenCorrectedDispose(request: BulkRequest, config: Option<ConfigDescriptor>,
                                               arrayAllocOk: bool, bufferAllocOk: bool, transferAllocOk: seq<bool>)
    returns (released: bool)
    requires |transferAllocOk| == request.inFlightCount
    ensures released
  {
    var bundle := new Bundle(request);
    var _ := bundle.Initialize(config, arrayAllocOk, bufferAllocOk, transferAllocOk);
    bundle.DisposeCorrected();
    released := bundle.requests == null && !bundle.bufferAllocated;
  }
}
