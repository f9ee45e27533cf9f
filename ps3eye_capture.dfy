/**
 * PSMoveTracker/PSEye/PS3EyeLibUSBCapture: the asynchronous task queue and
 * the OV534 bridge / SCCB register protocol of the PS3 Eye camera.
 *
 * Every OV534 register access is one USB vendor control transfer. The
 * camera's answers are a `Device`: the response to the n-th transfer the
 * chain issues, as the transfer callback passes it on (success, and the byte
 * read or the result code). An asynchronous chain runs as a sequential step
 * list: each step issues its transfers, a failing step ends the chain, and
 * the chain reports the result of the last step it ran.
 *
 * `Variant` selects the code as written or with its defects repaired: the
 * status check reports what it read, and the read-modify-write chains use
 * the value they read.
 */
module PS3EyeCapture {
  /** OV534 bridge registers and SCCB operations. */
  const RegSubAddr: bv8 := 0xf2
  const RegWrite: bv8 := 0xf3
  const RegRead: bv8 := 0xf4
  const RegOperation: bv8 := 0xf5
  const RegStatus: bv8 := 0xf6
  const OpWrite3: bv8 := 0x37
  const OpWrite2: bv8 := 0x33
  const OpRead2: bv8 := 0xf9

  /** The number of status polls check_status allows. */
  const MaxStatusPolls: nat := 5

  /** bmRequestType bits, section 9.3 of the USB 2.0 specification. */
  const EndpointOut: bv8 := 0x00
  const EndpointIn: bv8 := 0x80
  const RequestTypeVendor: bv8 := 0x40
  const RecipientDevice: bv8 := 0x00

  datatype Transfer = Ov534Write(reg: bv8, val: bv8) | Ov534Read(reg: bv8)

  datatype SetupPacket = SetupPacket(
    bmRequestType: bv8, bRequest: bv8, wValue: int, wIndex: int, wLength: int, timeout: int, data: seq<bv8>)

  /** What the transfer callback passes on: the error code, and the byte read or the result code. */
  datatype Response = Response(ok: bool, value: int)

  /** The camera's response to each transfer, in issue order. */
  type Device = nat -> Response

  /** A chain's transfers, its final error code and its final result. */
  datatype Run = Run(trace: seq<Transfer>, ok: bool, result: int)

  datatype Variant = AsWritten | Intended

  /** async_ov534_reg_write / async_ov534_reg_read: the control transfer's setup packet. */
  function SetupOf(t: Transfer): SetupPacket
  {
    match t
      case Ov534Write(reg, val) =>
        SetupPacket(EndpointOut | RequestTypeVendor | RecipientDevice, 0x01, 0, reg as int, 1, 500, [val])
      case Ov534Read(reg) =>
        SetupPacket(EndpointIn | RequestTypeVendor | RecipientDevice, 0x01, 0, reg as int, 1, 500, [])
  }

  /**
   * Read against section 9.3 of the USB 2.0 specification, every packet is a
   * vendor request to the device, device-to-host exactly for reads, with a
   * one-byte data stage; a write carries the value.
   */
  lemma SetupPacketMeaning(t: Transfer)
    ensures (SetupOf(t).bmRequestType >> 7 == 1) <==> t.Ov534Read?
    ensures (SetupOf(t).bmRequestType >> 5) & 0x03 == 2
    ensures SetupOf(t).bmRequestType & 0x1F == 0
    ensures SetupOf(t).bRequest == 0x01 && SetupOf(t).wValue == 0 && SetupOf(t).wIndex == t.reg as int
    ensures SetupOf(t).wLength == 1 && SetupOf(t).timeout == 500
    ensures t.Ov534Write? ==> SetupOf(t).data == [t.val]
  {
  }

  /** uint8_t truncation of a callback result. */
  function ByteOf(value: int): bv8
  {
    (value % 256) as bv8
  }

  function Ov534WriteRun(dev: Device, at: nat, reg: bv8, val: bv8): Run
  {
    Run([Ov534Write(reg, val)], dev(at).ok, dev(at).value)
  }

  function Ov534ReadRun(dev: Device, at: nat, reg: bv8): Run
  {
    Run([Ov534Read(reg)], dev(at).ok, dev(at).value)
  }

  /** async::series of two steps: the second runs only if the first succeeded. */
  function Then(first: Run, second: Run): (r: Run)
    ensures !first.ok ==> r == first
    ensures first.ok ==> r.trace == first.trace + second.trace && r.ok == second.ok && r.result == second.result
  {
    if first.ok then Run(first.trace + second.trace, second.ok, second.result) else first
  }

  function StatusPollReads(n: nat): (r: seq<Transfer>)
    ensures |r| == n && forall i :: 0 <= i < n ==> r[i] == Ov534Read(RegStatus)
  {
    seq(n, _ => Ov534Read(RegStatus))
  }

  /**
   * async_sccb_check_status as written: the loop test sees the success flag
   * as it was when the test was built (false), so all five polls run, and the
   * final callback reports the status as it was when it was built (0).
   */
  function StatusAsWritten(): Run
  {
    Run(StatusPollReads(MaxStatusPolls), true, 0)
  }

  /** The status the bridge reports while an SCCB operation is still running. */
  const StatusBusy: int := 0x03

  /** A status read that ends the polling: it succeeded and did not report busy. */
  predicate Settled(r: Response)
  {
    r.ok && r.value != StatusBusy
  }

  /**
   * async_sccb_check_status as intended, from poll number `polls`: a failed
   * or busy read polls again; the first settled read ends the polling and
   * reports 1 for status 0x00 and 0 for any other status; five unsettled
   * reads report 0.
   */
  function StatusIntended(dev: Device, at: nat, polls: nat): (r: Run)
    requires polls <= MaxStatusPolls
    ensures r.ok && |r.trace| + polls <= MaxStatusPolls
    ensures polls < MaxStatusPolls ==> 1 <= |r.trace|
    ensures r.trace == StatusPollReads(|r.trace|)
    decreases MaxStatusPolls - polls
  {
    if polls == MaxStatusPolls then Run([], true, 0)
    else if Settled(dev(at)) then Run([Ov534Read(RegStatus)], true, if dev(at).value == 0x00 then 1 else 0)
    else
      var rest := StatusIntended(dev, at + 1, polls + 1);
      Run([Ov534Read(RegStatus)] + rest.trace, true, rest.result)
  }

  /** The response to the k-th status poll of a check that starts at transfer `at`. */
  function Answer(dev: Device, at: nat, k: nat): Response
  {
    dev(at + k)
  }

  /** Among the first n polls, poll k is the first settled one and it read 0x00. */
  ghost predicate FirstSettledReadsReady(dev: Device, at: nat, n: nat, k: nat)
  {
    && k < n && Answer(dev, at, k).ok && Answer(dev, at, k).value == 0x00
    && forall j :: 0 <= j < k ==> !Settled(Answer(dev, at, j))
  }

  lemma ShiftFirstSettled(dev: Device, at: nat, n: nat, k: nat)
    requires n > 0 && !Settled(Answer(dev, at, 0))
    ensures FirstSettledReadsReady(dev, at, n, k + 1) <==> FirstSettledReadsReady(dev, at + 1, n - 1, k)
  {
    assert Answer(dev, at + 1, k) == Answer(dev, at, k + 1);
    if FirstSettledReadsReady(dev, at + 1, n - 1, k) {
      forall j | 0 <= j < k + 1
        ensures !Settled(Answer(dev, at, j))
      {
        if j > 0 {
          assert Answer(dev, at, j) == Answer(dev, at + 1, j - 1);
        }
      }
    }
    if FirstSettledReadsReady(dev, at, n, k + 1) {
      var next := at + 1;
      forall j | 0 <= j < k
        ensures !Settled(Answer(dev, next, j))
      {
        assert Answer(dev, next, j) == Answer(dev, at, j + 1);
      }
    }
  }

  /** The polls left to a check that has made `polls` of them. */
  function Remaining(polls: nat): nat
    requires polls <= MaxStatusPolls
  {
    MaxStatusPolls - polls
  }

  /** The intended check reports 1 exactly when the first settled poll within the bound read 0x00. */
  lemma {:induction false} StatusIntendedMeaning(dev: Device, at: nat, polls: nat)
    requires polls <= MaxStatusPolls
    ensures StatusIntended(dev, at, polls).result == 1 <==>
      exists k: nat :: FirstSettledReadsReady(dev, at, Remaining(polls), k)
    decreases MaxStatusPolls - polls
  {
    var n := Remaining(polls);
    if polls == MaxStatusPolls {
    } else if Settled(dev(at)) {
      assert Answer(dev, at, 0) == dev(at);
      if StatusIntended(dev, at, polls).result == 1 {
        assert FirstSettledReadsReady(dev, at, n, 0);
      }
    } else {
      assert Answer(dev, at, 0) == dev(at);
      assert Remaining(polls + 1) == n - 1;
      StatusIntendedMeaning(dev, at + 1, polls + 1);
      if StatusIntended(dev, at, polls).result == 1 {
        var k: nat :| FirstSettledReadsReady(dev, at + 1, n - 1, k);
        ShiftFirstSettled(dev, at, n, k);
      }
      if k: nat :| FirstSettledReadsReady(dev, at, n, k) {
        assert k != 0;
        ShiftFirstSettled(dev, at, n, k - 1);
        assert FirstSettledReadsReady(dev, at + 1, n - 1, k - 1);
      }
    }
  }

  /** A busy read followed by a ready one: the intended check polls twice and reports ready. */
  lemma BusyThenReadyReportsReady(dev: Device, at: nat)
    requires dev(at) == Response(true, StatusBusy) && dev(at + 1) == Response(true, 0x00)
    ensures StatusIntended(dev, at, 0).result == 1 && |StatusIntended(dev, at, 0).trace| == 2
  {
    assert StatusIntended(dev, at + 1, 1).result == 1;
  }

  function StatusRun(variant: Variant, dev: Device, at: nat): Run
  {
    if variant == AsWritten then StatusAsWritten() else StatusIntended(dev, at, 0)
  }

  /** async_sccb_check_status as written, the loop of async::whilst over status reads. */
  method CheckStatusAsWritten(dev: Device, at: nat) returns (run: Run)
    ensures run == StatusAsWritten()
    ensures run.ok && run.result == 0 && |run.trace| == MaxStatusPolls
  {
    var sccbStatusResult := 0;
    var querySuccess := false;
    var queryAttemptCount := 0;
    var trace: seq<Transfer> := [];
    // the loop test tests the success flag it captured, which stays false
    while queryAttemptCount < MaxStatusPolls
      invariant 0 <= queryAttemptCount <= MaxStatusPolls
      invariant trace == StatusPollReads(queryAttemptCount)
      decreases MaxStatusPolls - queryAttemptCount
    {
      queryAttemptCount := queryAttemptCount + 1;
      var response := dev(at + |trace|);
      trace := trace + [Ov534Read(RegStatus)];
      if response.ok {
        querySuccess := true;
        // case 0x00 falls through into case 0x04
        if response.value == 0x00 || response.value == 0x04 {
          sccbStatusResult := 0;
        }
      }
    }
    // the final callback reports the status it captured when it was built
    run := Run(trace, true, 0);
  }

  /**
   * async_sccb_check_status with the flag and the result shared by reference,
   * the fall-through removed, and a busy status polled again.
   */
  method CheckStatus(dev: Device, at: nat) returns (run: Run)
    ensures run == StatusIntended(dev, at, 0)
  {
    var sccbStatusResult := 0;
    var querySuccess := false;
    var queryAttemptCount := 0;
    var trace: seq<Transfer> := [];
    ghost var total := StatusIntended(dev, at, 0);
    ghost var pending := total;
    while !querySuccess && queryAttemptCount < MaxStatusPolls
      invariant 0 <= queryAttemptCount <= MaxStatusPolls && trace == StatusPollReads(queryAttemptCount)
      invariant !querySuccess ==>
        && sccbStatusResult == 0
        && pending == StatusIntended(dev, at + queryAttemptCount, queryAttemptCount)
        && |total.trace| == queryAttemptCount + |pending.trace| && total.result == pending.result
      invariant querySuccess ==> |total.trace| == queryAttemptCount && total.result == sccbStatusResult
      decreases MaxStatusPolls - queryAttemptCount, if querySuccess then 0 else 1
    {
      var response := dev(at + queryAttemptCount);
      var rest := StatusUnfold(dev, at + queryAttemptCount, queryAttemptCount);
      PollReadsGrow(queryAttemptCount);
      trace := trace + [Ov534Read(RegStatus)];
      queryAttemptCount := queryAttemptCount + 1;
      pending := rest;
      if Settled(response) {
        querySuccess := true;
        if response.value == 0x00 {
          sccbStatusResult := 1;
        } else if response.value == 0x04 {
          sccbStatusResult := 0;
        }
      }
    }
    run := Run(trace, true, sccbStatusResult);
  }

  lemma PollReadsGrow(n: nat)
    ensures StatusPollReads(n) + [Ov534Read(RegStatus)] == StatusPollReads(n + 1)
  {
  }

  /** One poll of the intended check: a settled read ends it, any other read leaves the check from the next poll. */
  ghost method StatusUnfold(dev: Device, at: nat, polls: nat) returns (rest: Run)
    requires polls < MaxStatusPolls
    ensures rest == StatusIntended(dev, at + 1, polls + 1)
    ensures Settled(dev(at)) ==>
      StatusIntended(dev, at, polls) == Run([Ov534Read(RegStatus)], true, if dev(at).value == 0x00 then 1 else 0)
    ensures !Settled(dev(at)) ==>
      StatusIntended(dev, at, polls) == Run([Ov534Read(RegStatus)] + rest.trace, true, rest.result)
  {
    rest := StatusIntended(dev, at + 1, polls + 1);
  }

  /** The status step of an SCCB chain: it succeeds only when the check reported 1. */
  function StatusStep(status: Run): Run
  {
    Run(status.trace, status.result == 1, status.result)
  }

  /** async_sccb_reg_write: sub-address, value, write operation, then the status check. */
  function SccbWrite(variant: Variant, dev: Device, at: nat, reg: bv8, val: bv8): Run
  {
    Then(Ov534WriteRun(dev, at, RegSubAddr, reg),
    Then(Ov534WriteRun(dev, at + 1, RegWrite, val),
    Then(Ov534WriteRun(dev, at + 2, RegOperation, OpWrite3),
         StatusStep(StatusRun(variant, dev, at + 3)))))
  }

  /** async_sccb_reg_read: sub-address, two-phase write, status, read operation, status, then the data read. */
  function SccbRead(variant: Variant, dev: Device, at: nat, reg: bv8): Run
  {
    var s1 := StatusStep(StatusRun(variant, dev, at + 2));
    var next := at + 2 + |s1.trace|;
    var s2 := StatusStep(StatusRun(variant, dev, next + 1));
    Then(Ov534WriteRun(dev, at, RegSubAddr, reg),
    Then(Ov534WriteRun(dev, at + 1, RegOperation, OpWrite2),
    Then(s1,
    Then(Ov534WriteRun(dev, next, RegOperation, OpRead2),
    Then(s2,
         Ov534ReadRun(dev, next + 1 + |s2.trace|, RegRead))))))
  }

  /** As written, every SCCB write fails: either a bridge write fails or the status step sees 0. */
  lemma SccbWriteAsWrittenNeverSucceeds(dev: Device, at: nat, reg: bv8, val: bv8)
    ensures !SccbWrite(AsWritten, dev, at, reg, val).ok
    ensures dev(at).ok && dev(at + 1).ok && dev(at + 2).ok ==>
      SccbWrite(AsWritten, dev, at, reg, val).trace
        == [Ov534Write(RegSubAddr, reg), Ov534Write(RegWrite, val), Ov534Write(RegOperation, OpWrite3)]
           + StatusPollReads(MaxStatusPolls)
  {
  }

  /** As written, every SCCB read fails at its first status step at the latest. */
  lemma SccbReadAsWrittenNeverSucceeds(dev: Device, at: nat, reg: bv8)
    ensures !SccbRead(AsWritten, dev, at, reg).ok
    ensures forall t :: t in SccbRead(AsWritten, dev, at, reg).trace ==> t != Ov534Read(RegRead)
  {
  }

  /** As intended, an SCCB write succeeds exactly when its three bridge writes do and the status reads 0x00. */
  lemma SccbWriteIntendedMeaning(dev: Device, at: nat, reg: bv8, val: bv8)
    ensures SccbWrite(Intended, dev, at, reg, val).ok <==>
      dev(at).ok && dev(at + 1).ok && dev(at + 2).ok && StatusIntended(dev, at + 3, 0).result == 1
    ensures SccbWrite(Intended, dev, at, reg, val).ok ==>
      SccbWrite(Intended, dev, at, reg, val).trace[..3]
        == [Ov534Write(RegSubAddr, reg), Ov534Write(RegWrite, val), Ov534Write(RegOperation, OpWrite3)]
  {
  }

  /** As intended, a successful SCCB read ends with the data read of 0xf4 and reports the byte it returned. */
  lemma SccbReadIntendedResult(dev: Device, at: nat, reg: bv8)
    ensures var r := SccbRead(Intended, dev, at, reg);
      r.ok ==> |r.trace| >= 6 && r.trace[..2] == [Ov534Write(RegSubAddr, reg), Ov534Write(RegOperation, OpWrite2)]
               && r.trace[|r.trace| - 1] == Ov534Read(RegRead)
               && r.result == dev(at + |r.trace| - 1).value
  {
  }

  /** The gain byte's top nibble for gain bits 4-5. */
  function GainHighNibble(k: bv8): (r: bv8)
    requires k <= 3
    ensures r & 0x0F == 0
  {
    if k == 0 then 0x00 else if k == 1 then 0x30 else if k == 2 then 0x70 else 0xF0
  }

  /** async_set_gain's switch on val & 0x30. */
  function GainByte(val: bv8): (r: bv8)
    ensures r == (val & 0x0F) | GainHighNibble((val >> 4) & 0x03)
    ensures r & 0x0F == val & 0x0F
    ensures r >> 4 in {0x0, 0x3, 0x7, 0xF}
  {
    var high := val & 0x30;
    if high == 0x00 then val & 0x0F
    else if high == 0x10 then (val & 0x0F) | 0x30
    else if high == 0x20 then (val & 0x0F) | 0x70
    else (val & 0x0F) | 0xF0
  }

  /** Gain bits 6 and 7 make no difference. */
  lemma GainIgnoresTopBits(val: bv8)
    ensures GainByte(val) == GainByte(val & 0x3F)
  {
  }

  /** async_set_exposure's two register values: bit 7 for 0x08, the rest shifted left for 0x10. */
  function ExposureHigh(val: bv8): (r: bv8)
    ensures r <= 1
  {
    val >> 7
  }

  function ExposureLow(val: bv8): (r: bv8)
    ensures r & 0x01 == 0
  {
    val << 1
  }

  /** The two exposure writes together carry the whole value. */
  lemma ExposureSplitsValue(val: bv8)
    ensures (ExposureHigh(val) << 7) | (ExposureLow(val) >> 1) == val
  {
  }

  /** The flip register value: flip bits cleared, bit 6 for no horizontal and bit 7 for no vertical flip. */
  function FlipValue(base: bv8, horizontal: bool, vertical: bool): (r: bv8)
    ensures r & 0x3F == base & 0x3F
    ensures (r & 0x40 != 0) <==> !horizontal
    ensures (r & 0x80 != 0) <==> !vertical
  {
    (base & !0xC0) | (if !horizontal then 0x40 else 0x00) | (if !vertical then 0x80 else 0x00)
  }

  /** Register 0x64 for auto-gain: the two low bits set when on, cleared when off. */
  function AutogainValue(base: bv8, autoGain: bool): (r: bv8)
    ensures r & 0xFC == base & 0xFC
    ensures r & 0x03 == if autoGain then 0x03 else 0x00
  {
    if autoGain then base | 0x03 else base & 0xFC
  }

  /** The LED bit 7 of bridge registers 0x21 and 0x23. */
  function LedValue(base: bv8, on: bool): (r: bv8)
    ensures r & 0x7F == base & 0x7F
    ensures (r & 0x80 != 0) <==> on
  {
    if on then base | 0x80 else base & !0x80
  }

  /** The value a read-modify-write chain starts from: as written, the zero its write step captured. */
  function ReadBase(variant: Variant, read: Run): bv8
  {
    if variant == AsWritten then 0x00 else ByteOf(read.result)
  }

  /** async_set_gain */
  function SetGain(variant: Variant, dev: Device, at: nat, val: bv8): Run
  {
    SccbWrite(variant, dev, at, 0x00, GainByte(val))
  }

  /** async_set_exposure */
  function SetExposure(variant: Variant, dev: Device, at: nat, val: bv8): Run
  {
    var high := SccbWrite(variant, dev, at, 0x08, ExposureHigh(val));
    Then(high, SccbWrite(variant, dev, at + |high.trace|, 0x10, ExposureLow(val)))
  }

  /** async_set_flip: read register 0x0C, then write the flip bits into it. */
  function SetFlip(variant: Variant, dev: Device, at: nat, horizontal: bool, vertical: bool): Run
  {
    var read := SccbRead(variant, dev, at, 0x0C);
    Then(read, SccbWrite(variant, dev, at + |read.trace|, 0x0C, FlipValue(ReadBase(variant, read), horizontal, vertical)))
  }

  /** async_set_autogain: switch AGC/AEC/AWB, update register 0x64, and when off restore gain and exposure. */
  function SetAutogain(variant: Variant, dev: Device, at: nat, autoGain: bool, gain: bv8, exposure: bv8): Run
  {
    var mode := SccbWrite(variant, dev, at, 0x13, if autoGain then 0xf7 else 0xf0);
    var at1 := at + |mode.trace|;
    var read := SccbRead(variant, dev, at1, 0x64);
    var at2 := at1 + |read.trace|;
    var write := SccbWrite(variant, dev, at2, 0x64, AutogainValue(ReadBase(variant, read), autoGain));
    var at3 := at2 + |write.trace|;
    if autoGain then Then(mode, Then(read, write))
    else
      var g := SetGain(variant, dev, at3, gain);
      Then(mode, Then(read, Then(write, Then(g, SetExposure(variant, dev, at3 + |g.trace|, exposure)))))
  }

  /**
   * The byte an LED write sends after `read`. As intended the read callback
   * sets or clears bit 7 of the byte it read; as written each write step
   * captured the shared byte by value before any read ran, so it sends the
   * initial zero unchanged.
   */
  function LedWriteValue(variant: Variant, read: Run, on: bool): bv8
  {
    if variant == AsWritten then 0x00 else LedValue(ByteOf(read.result), on)
  }

  /** async_ov534_set_led: set bit 7 of 0x21, set or clear bit 7 of 0x23, and when off clear bit 7 of 0x21. */
  function SetLed(variant: Variant, dev: Device, at: nat, on: bool): Run
  {
    var read21 := Ov534ReadRun(dev, at, 0x21);
    var write21 := Ov534WriteRun(dev, at + 1, 0x21, LedWriteValue(variant, read21, true));
    var read23 := Ov534ReadRun(dev, at + 2, 0x23);
    var write23 := Ov534WriteRun(dev, at + 3, 0x23, LedWriteValue(variant, read23, on));
    var head := Then(read21, Then(write21, Then(read23, write23)));
    if on then head
    else
      var again := Ov534ReadRun(dev, at + 4, 0x21);
      Then(head, Then(again, Ov534WriteRun(dev, at + 5, 0x21, LedWriteValue(variant, again, false))))
  }

  /** A camera whose every transfer succeeds and whose every register reads `value`. */
  function Steady(value: int): Device
  {
    _ => Response(true, value)
  }

  /**
   * With every transfer succeeding and register 0x21 reading 0x05, the LED
   * chain as written writes 0x00 where 0x85 (LED bit set, other bits kept)
   * was meant.
   */
  lemma LedAsWrittenWritesZero()
    ensures SetLed(AsWritten, Steady(0x05), 0, true).trace[1] == Ov534Write(0x21, 0x00)
    ensures SetLed(Intended, Steady(0x05), 0, true).trace[1] == Ov534Write(0x21, 0x85)
  {
  }

  /**
   * As written, on any camera and for either switch position, every register
   * write of the LED chain sends 0x00: the LED bit is never set, and the other
   * bits of both registers are cleared.
   */
  lemma LedAsWrittenNeverLights(dev: Device, at: nat, on: bool)
    ensures var r := SetLed(AsWritten, dev, at, on);
      forall k :: 0 <= k < |r.trace| && r.trace[k].Ov534Write? ==> r.trace[k].val == 0x00
  {
  }

  /**
   * As intended, each LED write sends the byte its read returned with only
   * bit 7 changed: set in 0x21, set or cleared in 0x23 as asked, and cleared
   * again in 0x21 when switching off.
   */
  lemma LedWritesReadValue(dev: Device, at: nat, on: bool)
    ensures var r := SetLed(Intended, dev, at, on);
      (dev(at).ok ==>
        r.trace[1] == Ov534Write(0x21, LedValue(ByteOf(dev(at).value), true))) &&
      (dev(at).ok && dev(at + 1).ok && dev(at + 2).ok ==>
        r.trace[3] == Ov534Write(0x23, LedValue(ByteOf(dev(at + 2).value), on))) &&
      (!on && dev(at).ok && dev(at + 1).ok && dev(at + 2).ok && dev(at + 3).ok && dev(at + 4).ok ==>
        r.trace[5] == Ov534Write(0x21, LedValue(ByteOf(dev(at + 4).value), false)))
  {
  }

  /** The flip write as intended keeps the other bits of what was read; as written it starts from zero. */
  lemma FlipWritesReadValue(dev: Device, at: nat, horizontal: bool, vertical: bool)
    ensures var read := SccbRead(Intended, dev, at, 0x0C);
      var r := SetFlip(Intended, dev, at, horizontal, vertical);
      read.ok && dev(at + |read.trace|).ok ==>
        r.trace[|read.trace|] == Ov534Write(RegSubAddr, 0x0C) &&
        r.trace[|read.trace| + 1] == Ov534Write(RegWrite, FlipValue(ByteOf(read.result), horizontal, vertical))
  {
  }

  datatype RateEntry = RateEntry(fps: bv8, r11: bv8, r0d: bv8, re5: bv8)

  /** rate_0, for 640x480 */
  const Rates640: seq<RateEntry> := [
    RateEntry(60, 0x01, 0xc1, 0x04), RateEntry(50, 0x01, 0x41, 0x02), RateEntry(40, 0x02, 0xc1, 0x04),
    RateEntry(30, 0x04, 0x81, 0x02), RateEntry(15, 0x03, 0x41, 0x04)]

  /** rate_1, for 320x240 */
  const Rates320: seq<RateEntry> := [
    RateEntry(205, 0x01, 0xc1, 0x02), RateEntry(187, 0x01, 0x81, 0x02), RateEntry(150, 0x01, 0xc1, 0x04),
    RateEntry(137, 0x02, 0xc1, 0x02), RateEntry(125, 0x02, 0x81, 0x02), RateEntry(100, 0x02, 0xc1, 0x04),
    RateEntry(75, 0x03, 0xc1, 0x04), RateEntry(60, 0x04, 0xc1, 0x04), RateEntry(50, 0x02, 0x41, 0x04),
    RateEntry(37, 0x03, 0x41, 0x04), RateEntry(30, 0x04, 0x41, 0x04)]

  /** The table for a frame width: 640 selects rate_0, any other width rate_1. */
  function RateTable(frameWidth: int): (t: seq<RateEntry>)
    ensures |t| > 0
    ensures t == Rates640 <==> frameWidth == 640
  {
    if frameWidth == 640 then Rates640 else Rates320
  }

  /**
   * The search of async_set_frame_rate: the first entry whose rate does not
   * exceed the requested one, or else the last entry.
   */
  method SelectFrameRate(frameWidth: int, frameRate: bv8) returns (index: nat)
    ensures index < |RateTable(frameWidth)|
    ensures forall j :: 0 <= j < index ==> RateTable(frameWidth)[j].fps > frameRate
    ensures index < |RateTable(frameWidth)| - 1 ==> RateTable(frameWidth)[index].fps <= frameRate
  {
    var table := RateTable(frameWidth);
    var rateIndex := |table|;
    index := 0;
    rateIndex := rateIndex - 1;
    while rateIndex > 0
      invariant 0 <= rateIndex && index + rateIndex == |table| - 1
      invariant forall j :: 0 <= j < index ==> table[j].fps > frameRate
      decreases rateIndex
    {
      if frameRate >= table[index].fps {
        break;
      }
      index := index + 1;
      rateIndex := rateIndex - 1;
    }
  }

  /** The register writes for a chosen rate: SCCB 0x11 and 0x0d, then bridge register 0xe5. */
  function FrameRateWrites(variant: Variant, dev: Device, at: nat, rate: RateEntry): Run
  {
    var w11 := SccbWrite(variant, dev, at, 0x11, rate.r11);
    var w0d := SccbWrite(variant, dev, at + |w11.trace|, 0x0d, rate.r0d);
    Then(w11, Then(w0d, Ov534WriteRun(dev, at + |w11.trace| + |w0d.trace|, 0xe5, rate.re5)))
  }

  /**
   * async_set_frame_rate: the rate chosen is the first table entry at or
   * below the request, or the last entry; it is returned and its registers
   * written, except that a dry run issues nothing.
   */
  method SetFrameRate(variant: Variant, dev: Device, at: nat, frameWidth: int, frameRate: bv8, dryRun: bool)
    returns (fps: bv8, run: Run)
    ensures exists i ::
      && 0 <= i < |RateTable(frameWidth)| && RateTable(frameWidth)[i].fps == fps
      && (forall j :: 0 <= j < i ==> RateTable(frameWidth)[j].fps > frameRate)
      && (i < |RateTable(frameWidth)| - 1 ==> RateTable(frameWidth)[i].fps <= frameRate)
      && (!dryRun ==> run == FrameRateWrites(variant, dev, at, RateTable(frameWidth)[i]))
    ensures dryRun ==> run.trace == []
  {
    var index := SelectFrameRate(frameWidth, frameRate);
    var rate := RateTable(frameWidth)[index];
    if !dryRun {
      run := FrameRateWrites(variant, dev, at, rate);
    } else {
      run := Run([], true, 0);
    }
    fps := rate.fps;
  }

  /** The index of the first 0xff entry of a register/value list, or its length. */
  function FirstReadEntry(sequence: seq<(bv8, bv8)>): (k: nat)
    ensures k <= |sequence|
    ensures k < |sequence| ==> sequence[k].0 == 0xff
    ensures forall j :: 0 <= j < k ==> sequence[j].0 != 0xff
  {
    if |sequence| == 0 then 0
    else if sequence[0].0 == 0xff then 0
    else 1 + FirstReadEntry(sequence[1..])
  }

  function Min(a: nat, b: nat): nat
  {
    if a <= b then a else b
  }

  /**
   * async_sccb_reg_write_array as written: one iteration per entry; an entry
   * whose register is 0xff reads the register named by its value and writes
   * 0x00 to 0xff. The callback after that write increments its own `data`
   * parameter instead of the pointer, so from the first 0xff entry on every
   * remaining iteration repeats that entry. `visited` lists the entry each
   * iteration used. (No final callback is passed to the loop, so the caller
   * is never told the array was written.)
   */
  method SccbWriteArrayAsWritten(variant: Variant, dev: Device, at: nat, sequence: seq<(bv8, bv8)>)
    returns (trace: seq<Transfer>, ok: bool, visited: seq<nat>)
    ensures |visited| <= |sequence| && (ok ==> |visited| == |sequence|)
    ensures forall i :: 0 <= i < |visited| ==> visited[i] == Min(i, FirstReadEntry(sequence))
  {
    var data: nat := 0;
    var len := |sequence|;
    ok := true;
    trace := [];
    visited := [];
    var stuck := FirstReadEntry(sequence);
    while len > 0 && ok
      invariant 0 <= len && |visited| + len == |sequence|
      invariant data == Min(|visited|, stuck)
      invariant forall i :: 0 <= i < |visited| ==> visited[i] == Min(i, stuck)
      invariant ok || |visited| > 0
      decreases len
    {
      len := len - 1;
      visited := visited + [data];
      var entry := sequence[data];
      if entry.0 != 0xff {
        var w := SccbWrite(variant, dev, at + |trace|, entry.0, entry.1);
        trace := trace + w.trace;
        data := data + 1;
        ok := w.ok;
      } else {
        var r := SccbRead(variant, dev, at + |trace|, entry.1);
        var w := SccbWrite(variant, dev, at + |trace| + |r.trace|, 0xff, 0x00);
        trace := trace + r.trace + w.trace;
        ok := w.ok;
      }
    }
  }

  /** async_sccb_reg_write_array with the pointer advanced after a 0xff entry too: each entry once, in order. */
  method SccbWriteArray(variant: Variant, dev: Device, at: nat, sequence: seq<(bv8, bv8)>)
    returns (trace: seq<Transfer>, ok: bool, visited: seq<nat>)
    ensures |visited| <= |sequence| && (ok ==> |visited| == |sequence|)
    ensures forall i :: 0 <= i < |visited| ==> visited[i] == i
  {
    var data: nat := 0;
    var len := |sequence|;
    ok := true;
    trace := [];
    visited := [];
    while len > 0 && ok
      invariant 0 <= len && |visited| + len == |sequence| && data == |visited|
      invariant forall i :: 0 <= i < |visited| ==> visited[i] == i
      decreases len
    {
      len := len - 1;
      visited := visited + [data];
      var entry := sequence[data];
      if entry.0 != 0xff {
        var w := SccbWrite(variant, dev, at + |trace|, entry.0, entry.1);
        trace := trace + w.trace;
        ok := w.ok;
      } else {
        var r := SccbRead(variant, dev, at + |trace|, entry.1);
        var w := SccbWrite(variant, dev, at + |trace| + |r.trace|, 0xff, 0x00);
        trace := trace + r.trace + w.trace;
        ok := w.ok;
      }
      data := data + 1;
    }
  }

  /** A named task of the queue. */
  datatype AsyncTask = AsyncTask(name: string)

  /**
   * USBAsyncTaskQueue: `queue` is the deque of waiting tasks, `started` the
   * tasks whose function has been invoked, in order, and `inFlight` the
   * started tasks whose completion callback has not run yet.
   */
  class TaskQueue {
    var queue: seq<AsyncTask>
    var started: seq<AsyncTask>
    var inFlight: nat
    /** Every task ever added, in order. */
    ghost var added: seq<AsyncTask>

    /** Tasks are started in the order they were added. */
    ghost predicate Valid()
      reads this
    {
      added == started + queue
    }

    /** One task at a time: a waiting task implies one in flight, and never two. */
    ghost predicate OneAtATime()
      reads this
    {
      inFlight <= 1 && (|queue| > 0 ==> inFlight == 1)
    }

    constructor ()
      ensures Valid() && OneAtATime()
      ensures queue == [] && started == [] && inFlight == 0
    {
      queue := [];
      started := [];
      inFlight := 0;
      added := [];
    }

    /** startNextTask: pop the front task and invoke it. */
    method StartNextTask()
      requires Valid()
      modifies this
      ensures Valid() && added == old(added)
      ensures |old(queue)| > 0 ==>
        queue == old(queue)[1..] && started == old(started) + [old(queue)[0]] && inFlight == old(inFlight) + 1
      ensures |old(queue)| == 0 ==> queue == old(queue) && started == old(started) && inFlight == old(inFlight)
    {
      if |queue| > 0 {
        var task := queue[0];
        queue := queue[1..];
        started := started + [task];
        inFlight := inFlight + 1;
      }
    }

    /** addAsyncTask: push at the back, and start a task if the deque now holds just this one. */
    method AddAsyncTask(task: AsyncTask)
      requires Valid()
      modifies this
      ensures Valid() && added == old(added) + [task]
      ensures old(queue) == [] ==> started == old(started) + [task] && queue == [] && inFlight == old(inFlight) + 1
      ensures old(queue) != [] ==> queue == old(queue) + [task] && started == old(started) && inFlight == old(inFlight)
    {
      queue := queue + [task];
      added := added + [task];
      if |queue| == 1 {
        StartNextTask();
      }
    }

    /** addAsyncTask starting the new task only when no task is in flight. */
    method AddAsyncTaskCorrected(task: AsyncTask)
      requires Valid() && OneAtATime()
      modifies this
      ensures Valid() && OneAtATime() && added == old(added) + [task]
      ensures old(inFlight) == 0 ==> started == old(started) + [task] && queue == [] && inFlight == 1
      ensures old(inFlight) != 0 ==> queue == old(queue) + [task] && started == old(started) && inFlight == old(inFlight)
    {
      queue := queue + [task];
      added := added + [task];
      if inFlight == 0 {
        StartNextTask();
      }
    }

    /** The completion callback of a started task: failed or not, the next task starts. */
    method TaskCompleted(failed: bool)
      requires Valid() && inFlight > 0
      modifies this
      ensures Valid() && added == old(added)
      ensures OneAtATime() <== old(OneAtATime())
      ensures |old(queue)| > 0 ==>
        queue == old(queue)[1..] && started == old(started) + [old(queue)[0]] && inFlight == old(inFlight)
      ensures |old(queue)| == 0 ==> queue == [] && started == old(started) && inFlight == old(inFlight) - 1
    {
      inFlight := inFlight - 1;
      StartNextTask();
    }
  }

  /** Two tasks added in a row: as written both are in flight at once; the corrected queue keeps one. */
  method TwoTasksInFlight() returns (asWritten: nat, corrected: nat)
    ensures asWritten == 2 && corrected == 1
  {
    var q := new TaskQueue();
    q.AddAsyncTask(AsyncTask("setGain"));
    q.AddAsyncTask(AsyncTask("setExposure"));
    asWritten := q.inFlight;
    var c := new TaskQueue();
    c.AddAsyncTaskCorrected(AsyncTask("setGain"));
    c.AddAsyncTaskCorrected(AsyncTask("setExposure"));
    corrected := c.inFlight;
  }
}
