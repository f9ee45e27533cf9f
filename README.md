# PSMoveService core, modelled in Dafny

PSMoveService is a background service. It talks to PlayStation Move and
DualShock 4 controllers and to PS3 Eye cameras, and it fuses their sensor
data into a pose: a position and an orientation. This project models the
service's device-facing and filtering core, in one Dafny module per source
file:

| module | file | models |
|---|---|---|
| `Wrappers` | wrappers.dfy | `Option` |
| `ServerUtility` | server_utility.dfy | index checks, the byte conversion, Bluetooth address normalisation |
| `ControllerDeviceEnumerator` | controller_enumerator.dfy | walking the HID devices of each supported controller type |
| `TrackerDeviceEnumerator` | tracker_enumerator.dfy | walking the filtered USB devices, looking for supported cameras |
| `UsbBulkTransferBundle` | usb_bulk_transfer_bundle.dfy | a bundle of in-flight bulk transfers: endpoint search, buffer slicing, start, callback, cancel, dispose |
| `UsbDeviceManager` | usb_device_manager.dfy | the device table, opening and closing, control-transfer requests and their counter, the active and canceled bulk-transfer lists |
| `PS3EyeTracker` | ps3eye_tracker.dfy | the camera configuration and its property-tree round trip, the poll state buffer, `getState`, stride, options |
| `PS3EyeCapture` | ps3eye_capture.dfy | OV534 bridge and SCCB register access as chains of transfers, register values, the frame-rate table, the serial task queue |
| `KalmanPoseFilter` | kalman_pose_filter.dfy | the 15-element state and the 12-element measurement layouts, the process model, the process-noise blocks, the sigma weights and columns, the measurement covariances |
| `KalmanFilterDriver` | kalman_filter_driver.dfy | `KalmanPoseFilter` and its DS4 and PSMove subclasses: measurement building, bootstrap, getters, recentering |

USB, HID, camera and property-tree libraries are not modelled. What they
answer becomes a parameter: an allocation that succeeds or not, a
descriptor, the byte a register read returns (a `Device` function from
transfer number to outcome). Asynchronous chains of callbacks are
sequential chains of steps. Each chain records the transfers it issues and
stops at the first failure. Objects whose fields the source updates become
classes with `modifies` clauses. The 15×15 process-noise matrix and the
sigma-point tables are arrays. Vectors, quaternions and packets are
datatypes. Floating point is modelled with `real`.

Where the code does something other than what it evidently intends, the
model keeps both forms. An `...AsWritten` member follows the code. A
corrected member carries the intended property, and that is the form the
rest of the model uses. "## Findings" lists each pair.

## Model

| member | source | states |
|---|---|---|
| ServerUtility.NoIndexValidInEmptyRange | src/psmoveservice/Server/ServerUtility.h:8-12 | with a count of zero or less, no index is valid |
| ServerUtility.IndexValidMeansInBounds | src/psmoveservice/Server/ServerUtility.h:8-12 | an index is valid for the length of a sequence exactly when it is in bounds of that sequence |
| ServerUtility.Int32ToInt8Verify | src/psmoveservice/Server/ServerUtility.cpp:31-35 | for a value in 0..255, the byte has the same numeric value |
| ServerUtility.NormalizedPrefix | src/psmoveservice/Server/ServerUtility.cpp:88-123 | the first n output characters are the per-position rewrites of the input characters |
| ServerUtility.AcceptanceIgnoresFlags | src/psmoveservice/Server/ServerUtility.cpp:86-130 | an address is accepted iff it is 17 characters with hex digits in pairs separated by ':' or '-'; case and separator choice do not matter |
| ServerUtility.NormalizedShape | src/psmoveservice/Server/ServerUtility.cpp:88-123 | an accepted address yields 17 characters: the chosen separator at every third position, digits kept, letters in the requested case |
| ServerUtility.NormalizeIdempotent | src/psmoveservice/Server/ServerUtility.cpp:79-138 | normalising an already normalised address changes nothing |
| ServerUtility.DocumentedExample | src/psmoveservice/Server/ServerUtility.h:24-33 | the documented example "XX-XX-…" with lowercase and ':' gives "xx:xx:…" |
| ServerUtility.NormalizeBluetoothAddress | src/psmoveservice/Server/ServerUtility.cpp:79-138 | succeeds iff the length is 17, the buffer holds 18 bytes and every character is accepted; it then writes the normalised address and the terminator; on a bad character it has already written the prefix before it; on a bad length or buffer it writes nothing |
| ControllerDeviceEnumerator.SecondTypeHeadIsSkipped | src/psmoveservice/Device/Enumerator/ControllerDeviceEnumerator.cpp:104-136 | with one PSMove and one PSNavi, next() as written never finds the PSNavi; the intended step finds it at type 1, index 0 |
| ControllerDeviceEnumerator.EmptyFirstListEndsEnumeration | src/psmoveservice/Device/Enumerator/ControllerDeviceEnumerator.cpp:35-39 | with no PSMove and one PSNavi, next() as written from the null start of the PSMove list stays there and reports nothing; the intended step stops on the PSNavi |
| ControllerDeviceEnumerator.AsWrittenNextIsDeterministic | src/psmoveservice/Device/Enumerator/ControllerDeviceEnumerator.cpp:104-136 | next() as written has a single outcome from any position |
| ControllerDeviceEnumerator.IntendedNextIsDeterministic | src/psmoveservice/Device/Enumerator/ControllerDeviceEnumerator.cpp:104-136 | the intended next() has a single outcome from any position |
| ControllerDeviceEnumerator.Enumerator.GetPath | src/psmoveservice/Device/Enumerator/ControllerDeviceEnumerator.cpp:68-71 | no path past the end of the current type's list, else the current device's path |
| ControllerDeviceEnumerator.Enumerator.constructor | src/psmoveservice/Device/Enumerator/ControllerDeviceEnumerator.cpp:26-58 | starts at the given type's first device, or advances as next() does when that one is not acceptable; an empty first list leaves the cursor null on that type |
| ControllerDeviceEnumerator.Enumerator.Corrected | src/psmoveservice/Device/Enumerator/ControllerDeviceEnumerator.cpp:26-58 | the same start, advancing with the intended step, so an empty first list moves on to later types |
| ControllerDeviceEnumerator.Enumerator.Next | src/psmoveservice/Device/Enumerator/ControllerDeviceEnumerator.cpp:104-136 | moves as the code does: to the next acceptable device in the current type, then through non-empty later types, skipping each one's first device; it ends null on the last type, on the first empty list it reaches, or where it started when the cursor was already null |
| ControllerDeviceEnumerator.Enumerator.NextCorrected | src/psmoveservice/Device/Enumerator/ControllerDeviceEnumerator.cpp:104-136 | moves to the first acceptable device after the current one, starting each later type at index 0 |
| ControllerDeviceEnumerator.NaviWithoutPSMove | src/psmoveservice/Device/Enumerator/ControllerDeviceEnumerator.cpp:26-58 | with no PSMove and one PSNavi, the enumerator as written reports nothing and the corrected one reports the PSNavi |
| TrackerDeviceEnumerator.FilteredDeviceInfo | src/psmoveservice/Device/Enumerator/TrackerDeviceEnumerator.cpp:83 | device info is returned exactly for indices inside the filtered list |
| TrackerDeviceEnumerator.CameraCount | src/psmoveservice/Device/Enumerator/TrackerDeviceEnumerator.cpp:104-107 | the number of supported cameras among the first n devices is at most n |
| TrackerDeviceEnumerator.CameraCountSkips | src/psmoveservice/Device/Enumerator/TrackerDeviceEnumerator.cpp:74-110 | skipping unsupported devices leaves the camera count unchanged |
| TrackerDeviceEnumerator.FindSupportedType | src/psmoveservice/Device/Enumerator/TrackerDeviceEnumerator.cpp:86-99 | returns the first table entry matching the vendor and product id, or none when no entry matches |
| TrackerDeviceEnumerator.Enumerator.GetPath | src/psmoveservice/Device/Enumerator/TrackerDeviceEnumerator.cpp:56-67 | a path exactly when the cursor is on a supported camera, and then that device's path |
| TrackerDeviceEnumerator.Enumerator.constructor | src/psmoveservice/Device/Enumerator/TrackerDeviceEnumerator.cpp:27-54 | valid iff some device is a supported camera; it then stands on the first one with camera index 0 |
| TrackerDeviceEnumerator.Enumerator.Next | src/psmoveservice/Device/Enumerator/TrackerDeviceEnumerator.cpp:74-110 | moves forward to the next supported camera, skipping only unsupported devices, or to the end; the camera index counts the cameras found |
| TrackerDeviceEnumerator.Enumerator.CountAcross | src/psmoveservice/Device/Enumerator/TrackerDeviceEnumerator.cpp:104-107 | after a step of next(), the camera index still equals the number of supported cameras passed |
| UsbBulkTransferBundle.FirstInterfaceZero | src/psmoveservice/Device/USB/USBBulkTransferBundle.cpp:250-259 | the first interface whose first alternate setting is number 0, or none if there is none |
| UsbBulkTransferBundle.FirstBulkEndpoint | src/psmoveservice/Device/USB/USBBulkTransferBundle.cpp:263-274 | the first endpoint of bulk type with a nonzero packet size, or none |
| UsbBulkTransferBundle.FindBulkTransferEndpoint | src/psmoveservice/Device/USB/USBBulkTransferBundle.cpp:239-281 | the loops find an address iff the descriptor search yields one, and it is that endpoint's address |
| UsbBulkTransferBundle.SliceOf | src/psmoveservice/Device/USB/USBBulkTransferBundle.cpp:99-107 | transfer i's buffer slice ends at (i+1)·packet size |
| UsbBulkTransferBundle.SlicesDisjoint | src/psmoveservice/Device/USB/USBBulkTransferBundle.cpp:76-107 | the slices of different transfers do not overlap and all lie inside the shared buffer |
| UsbBulkTransferBundle.LeadingSuccesses | src/psmoveservice/Device/USB/USBBulkTransferBundle.cpp:146-170 | the number of submissions that succeed before the first failure |
| UsbBulkTransferBundle.Bundle.constructor | src/psmoveservice/Device/USB/USBBulkTransferBundle.cpp:15-27 | nothing active, not canceled, no arrays |
| UsbBulkTransferBundle.Bundle.Initialize | src/psmoveservice/Device/USB/USBBulkTransferBundle.cpp:39-117 | succeeds iff idle, an endpoint exists and every allocation succeeds; each transfer gets its own slice or stays null |
| UsbBulkTransferBundle.Bundle.Dispose | src/psmoveservice/Device/USB/USBBulkTransferBundle.cpp:119-144 | releases the transfers and the buffer; as written it needs the request array to exist |
| UsbBulkTransferBundle.Bundle.DisposeCorrected | src/psmoveservice/Device/USB/USBBulkTransferBundle.cpp:119-144 | releases everything from any state, including a failed initialize |
| UsbBulkTransferBundle.Bundle.StartTransfers | src/psmoveservice/Device/USB/USBBulkTransferBundle.cpp:146-170 | counts the transfers submitted before the first failure; it succeeds iff all were submitted, and refuses when busy or canceled |
| UsbBulkTransferBundle.Bundle.NotifyActiveTransfersDecremented | src/psmoveservice/Device/USB/USBBulkTransferBundle.cpp:172-176 | the active count drops by one |
| UsbBulkTransferBundle.Bundle.TransferCallback | src/psmoveservice/Device/USB/USBBulkTransferBundle.cpp:178-215 | data is delivered iff the transfer completed; it is resubmitted iff not cancelled, auto-resubmit is set and resubmission succeeds; otherwise the count drops |
| UsbBulkTransferBundle.Bundle.CancelTransfers | src/psmoveservice/Device/USB/USBBulkTransferBundle.cpp:217-235 | the first call cancels every transfer, in order; later calls cancel none |
| UsbBulkTransferBundle.FailedSearchLeavesNullArray | src/psmoveservice/Device/USB/USBBulkTransferBundle.cpp:119-144 | after initialize fails to find an endpoint, the request array is null and dispose as written cannot walk it |
| UsbBulkTransferBundle.FailedInitializeThenCorrectedDispose | src/psmoveservice/Device/USB/USBBulkTransferBundle.cpp:39-144 | after any initialize outcome the corrected dispose releases everything |
| UsbDeviceManager.StateFromHandle | src/psmoveservice/Device/Manager/USBDeviceManager.cpp:862-873 | a handle resolves to its state exactly when it is in range |
| UsbDeviceManager.IsUSBDeviceOpen | src/psmoveservice/Device/Manager/USBDeviceManager.cpp:301-312 | open iff the handle is in range and the device handle is open |
| UsbDeviceManager.FirstUSBDeviceHandle | src/psmoveservice/Device/Manager/USBDeviceManager.cpp:206-210 | handle 0 iff there is a device, else the invalid handle |
| UsbDeviceManager.NextUSBDeviceHandle | src/psmoveservice/Device/Manager/USBDeviceManager.cpp:211-216 | the following handle while in range, then the invalid handle |
| UsbDeviceManager.HandlesFromAreTheRest | src/psmoveservice/Device/Manager/USBDeviceManager.cpp:206-216 | iterating from handle h visits h, h+1, …, count-1 |
| UsbDeviceManager.IterationVisitsEveryHandleOnce | src/psmoveservice/Device/Manager/USBDeviceManager.cpp:201-216 | first/next visit every handle exactly once, in order |
| UsbDeviceManager.USBDeviceInfoOf | src/psmoveservice/Device/Manager/USBDeviceManager.cpp:218-234 | device info exactly for in-range handles |
| UsbDeviceManager.USBDevicePathOf | src/psmoveservice/Device/Manager/USBDeviceManager.cpp:236-259 | a path exactly for in-range handles, built from the handle and its vendor and product ids |
| UsbDeviceManager.ResultCodeOfStatus | src/psmoveservice/Device/Manager/USBDeviceManager.cpp:628-653 | a completed transfer maps to success and a cancelled one to canceled; every code is one of the seven listed |
| UsbDeviceManager.ResultCodeIsInjective | src/psmoveservice/Device/Manager/USBDeviceManager.cpp:628-653 | different transfer statuses give different result codes |
| UsbDeviceManager.BusyBundles | src/psmoveservice/Device/Manager/USBDeviceManager.cpp:451-464 | exactly the bundles with transfers still active |
| UsbDeviceManager.BusyBundlesAppend | src/psmoveservice/Device/Manager/USBDeviceManager.cpp:451-464 | filtering distributes over appending a bundle |
| UsbDeviceManager.SweepAsWrittenKeepsSecondIdleBundle | src/psmoveservice/Device/Manager/USBDeviceManager.cpp:451-464 | with two idle canceled bundles, the loop as written erases the first and skips the second |
| UsbDeviceManager.SweepAsWrittenRunsPastEnd | src/psmoveservice/Device/Manager/USBDeviceManager.cpp:451-464 | erasing the last bundle lets the loop increment past end() |
| UsbDeviceManager.Manager.constructor | src/psmoveservice/Device/Manager/USBDeviceManager.cpp:52-67 | no bundles, no control transfers, no results |
| UsbDeviceManager.Manager.USBDeviceCount | src/psmoveservice/Device/Manager/USBDeviceManager.cpp:201-204 | the number of devices in the table |
| UsbDeviceManager.Manager.CloseUSBDevice | src/psmoveservice/Device/Manager/USBDeviceManager.cpp:181-198 | needs a state for the handle; only that device's handle and interface flags become false |
| UsbDeviceManager.Manager.OpenUSBDevice | src/psmoveservice/Device/Manager/USBDeviceManager.cpp:136-179 | opens exactly when the as-written branch function says so; an already open device is refused; otherwise open iff open and claim succeed, and a failure leaves it closed |
| UsbDeviceManager.Manager.OpenUSBDeviceCorrected | src/psmoveservice/Device/Manager/USBDeviceManager.cpp:136-179 | the same, and an out-of-range handle is refused without touching the table |
| UsbDeviceManager.Manager.PostUSBTransferResult | src/psmoveservice/Device/Manager/USBDeviceManager.cpp:684-697 | appends the result; a control result decrements the control counter |
| UsbDeviceManager.Manager.HandleControlTransferRequest | src/psmoveservice/Device/Manager/USBDeviceManager.cpp:466-608 | one result code per failure cause; a started transfer increments the counter; an early failure posts a result and decrements the counter it never incremented |
| UsbDeviceManager.Manager.StartControlTransfer | src/psmoveservice/Device/Manager/USBDeviceManager.cpp:466-594 | a bad handle, an allocation failure, a submit failure or a start, exactly as the conditions say |
| UsbDeviceManager.Manager.HandleControlTransferRequestCorrected | src/psmoveservice/Device/Manager/USBDeviceManager.cpp:466-608 | keeps the invariant that the counter equals the transfers in flight |
| UsbDeviceManager.Manager.ControlTransferCallback | src/psmoveservice/Device/Manager/USBDeviceManager.cpp:610-682 | posts the status's result code, with the received bytes of a device-to-host transfer, and retires one in-flight transfer |
| UsbDeviceManager.Manager.FindActiveBundle | src/psmoveservice/Device/Manager/USBDeviceManager.cpp:710-716 | the first active bundle for the handle, or none iff there is none |
| UsbDeviceManager.Manager.HandleStartBulkTransferRequest | src/psmoveservice/Device/Manager/USBDeviceManager.cpp:699-784 | each result code for exactly its condition; a start appends the bundle; a partial start parks it as canceled |
| UsbDeviceManager.Manager.HandleCancelBulkTransferRequest | src/psmoveservice/Device/Manager/USBDeviceManager.cpp:786-839 | moves the device's bundle from active to canceled, or reports a bad handle or no active transfer |
| UsbDeviceManager.Manager.CanceledTransferFinished | src/psmoveservice/Device/USB/USBBulkTransferBundle.cpp:172-215 | a canceled bundle's transfer finishing lowers only its count |
| UsbDeviceManager.Manager.CleanupCanceledRequestsAsWritten | src/psmoveservice/Device/Manager/USBDeviceManager.cpp:451-464 | the erase-then-increment loop as written |
| UsbDeviceManager.Manager.CleanupCanceledRequests | src/psmoveservice/Device/Manager/USBDeviceManager.cpp:451-464 | keeps exactly the canceled bundles still busy, in order |
| UsbDeviceManager.EarlyControlFailureUnderflows | src/psmoveservice/Device/Manager/USBDeviceManager.cpp:596-607 | a fresh manager that gets a request for a bad handle has its counter at -1 |
| UsbDeviceManager.InvalidHandleReachesUnguardedClose | src/psmoveservice/Device/Manager/USBDeviceManager.cpp:136-179 | for an out-of-range handle and any libusb answers, open as written takes the branch that calls close, and close's precondition (a state for the handle) fails |
| PS3EyeTracker.GetBool | src/psmoveservice/PSMoveTracker/PS3EyeTracker.cpp:98-141 | the stored boolean under the key, else the default |
| PS3EyeTracker.GetInt | src/psmoveservice/PSMoveTracker/PS3EyeTracker.cpp:98-141 | the stored integer under the key, else the default |
| PS3EyeTracker.GetReal | src/psmoveservice/PSMoveTracker/PS3EyeTracker.cpp:98-141 | the stored number, an integer widened, else the default |
| PS3EyeTracker.WriteTree | src/psmoveservice/PSMoveTracker/PS3EyeTracker.cpp:59-95 | writes exactly the modelled keys |
| PS3EyeTracker.RoundTrip | src/psmoveservice/PSMoveTracker/PS3EyeTracker.cpp:59-141 | reading back a written configuration gives the same modelled settings and the current version |
| PS3EyeTracker.MissingKeysGiveDefaults | src/psmoveservice/PSMoveTracker/PS3EyeTracker.cpp:35-57 | a tree with only the version gives the constructor defaults |
| PS3EyeTracker.TrackerConfig.constructor | src/psmoveservice/PSMoveTracker/PS3EyeTracker.cpp:35-57 | current version and default settings |
| PS3EyeTracker.TrackerConfig.ToTree | src/psmoveservice/PSMoveTracker/PS3EyeTracker.cpp:59-95 | the tree carries the version, the valid flag and the field-of-view setting |
| PS3EyeTracker.TrackerConfig.FromTree | src/psmoveservice/PSMoveTracker/PS3EyeTracker.cpp:98-141 | reads the version; it loads the settings only when the version matches, else keeps the old ones |
| PS3EyeTracker.SaveThenLoad | src/psmoveservice/PSMoveTracker/PS3EyeTracker.cpp:59-141 | a configuration saved and loaded into another object gives that object the same modelled settings |
| PS3EyeTracker.TrimAsWritten | src/psmoveservice/PSMoveTracker/PS3EyeTracker.cpp:289-294 | keeps the newest states, at most the maximum |
| PS3EyeTracker.TrimCorrected | src/psmoveservice/PSMoveTracker/PS3EyeTracker.cpp:289-294 | keeps the newest states, fewer than the maximum, so there is room for the new one |
| PS3EyeTracker.AsWrittenBufferExceedsMax | src/psmoveservice/PSMoveTracker/PS3EyeTracker.cpp:12 | once full, a poll as written leaves 17 states, one more than the maximum of 16 |
| PS3EyeTracker.SuffixConsecutive | src/psmoveservice/PSMoveTracker/PS3EyeTracker.cpp:283-294 | dropping the oldest states keeps the sequence numbers consecutive |
| PS3EyeTracker.PushKeepsConsecutive | src/psmoveservice/PSMoveTracker/PS3EyeTracker.cpp:283-294 | trimming and pushing the next state keeps them consecutive |
| PS3EyeTracker.NewestFirst | src/psmoveservice/PSMoveTracker/PS3EyeTracker.cpp:326-333 | a look-back of k gives the k-th newest state, for k inside the buffer only |
| PS3EyeTracker.LookBackFindsSequence | src/psmoveservice/PSMoveTracker/PS3EyeTracker.cpp:283-333 | with consecutive states, a look-back of k gives the state numbered next-1-k |
| PS3EyeTracker.BytesPerPixel | src/psmoveservice/PSMoveTracker/PS3EyeTracker.cpp:358-386 | 3 for BGR, RGB and unknown formats; 2 for YUYV; 1 for gray |
| PS3EyeTracker.Stride | src/psmoveservice/PSMoveTracker/PS3EyeTracker.cpp:346-402 | the stride is bytes per pixel times width, between width and three times width |
| PS3EyeTracker.Tracker.constructor | src/psmoveservice/PSMoveTracker/PS3EyeTracker.cpp:144-153 | closed, no states, sequence 0, default configuration |
| PS3EyeTracker.Tracker.Open | src/psmoveservice/PSMoveTracker/PS3EyeTracker.cpp:201-248 | open iff already open or the capture opens; every success reloads the configuration: the stored tree when its version matches, the defaults otherwise; a failure leaves it as it was |
| PS3EyeTracker.ReopenKeepsSavedOption | src/psmoveservice/PSMoveTracker/PS3EyeTracker.cpp:235-244 | an option saved before a second open survives it; without a saved tree the reopen restores the default |
| PS3EyeTracker.Tracker.Close | src/psmoveservice/PSMoveTracker/PS3EyeTracker.cpp:301-314 | closed afterwards |
| PS3EyeTracker.Tracker.Poll | src/psmoveservice/PSMoveTracker/PS3EyeTracker.cpp:260-299 | fails when closed; otherwise it reports new data iff a frame was grabbed and pushes the next numbered state after trimming as written |
| PS3EyeTracker.Tracker.PollCorrected | src/psmoveservice/PSMoveTracker/PS3EyeTracker.cpp:260-299 | the same, keeping the buffer within the maximum |
| PS3EyeTracker.Tracker.GetStateAsWritten | src/psmoveservice/PSMoveTracker/PS3EyeTracker.cpp:326-333 | a state for 0 ≤ look-back < size, none for look-back ≥ size, and an out-of-range index for negative look-backs |
| PS3EyeTracker.Tracker.GetState | src/psmoveservice/PSMoveTracker/PS3EyeTracker.cpp:326-333 | the newest-first lookup, agreeing with the code wherever the code stays in range |
| PS3EyeTracker.Tracker.SetOptionIndex | src/psmoveservice/PSMoveTracker/PS3EyeTracker.cpp:496-514 | accepts only the field-of-view option with an index in range, stores it, and it reads back |
| PS3EyeTracker.Tracker.GetOptionIndex | src/psmoveservice/PSMoveTracker/PS3EyeTracker.cpp:516-529 | the stored field-of-view index, for that option only |
| PS3EyeTracker.NegativeLookBackIsOutOfRange | src/psmoveservice/PSMoveTracker/PS3EyeTracker.cpp:326-333 | a look-back of -1 indexes past the end as written; the corrected lookup gives none |
| PS3EyeTracker.SeventeenPolls | src/psmoveservice/PSMoveTracker/PS3EyeTracker.cpp:283-294 | seventeen polls of an open tracker leave 17 states as written and 16 corrected |
| PS3EyeCapture.SetupPacketMeaning | src/psmoveservice/PSMoveTracker/PSEye/PS3EyeLibUSBCapture.cpp:1173-1297 | bridge register accesses are vendor, device-recipient requests: IN for reads, OUT for writes, request 1, index = register, one byte, 500 ms (section 9.3 of the USB 2.0 specification) |
| PS3EyeCapture.Then | src/psmoveservice/PSMoveTracker/PSEye/PS3EyeLibUSBCapture.cpp:965-999 | a failed step ends the chain; otherwise the traces concatenate and the second result stands |
| PS3EyeCapture.StatusPollReads | src/psmoveservice/PSMoveTracker/PSEye/PS3EyeLibUSBCapture.cpp:1112-1171 | n reads of the status register |
| PS3EyeCapture.StatusIntended | src/psmoveservice/PSMoveTracker/PSEye/PS3EyeLibUSBCapture.cpp:1112-1171 | the intended poll issues only status reads, at most the bound, and at least one; a failed or busy read polls again |
| PS3EyeCapture.ShiftFirstSettled | src/psmoveservice/PSMoveTracker/PSEye/PS3EyeLibUSBCapture.cpp:1112-1171 | a failed or busy first read shifts the first settled read by one |
| PS3EyeCapture.StatusIntendedMeaning | src/psmoveservice/PSMoveTracker/PSEye/PS3EyeLibUSBCapture.cpp:1112-1171 | the intended check reports ready iff the first settled read (successful and not busy) within the bound returns the ready status 0x00 |
| PS3EyeCapture.BusyThenReadyReportsReady | src/psmoveservice/PSMoveTracker/PSEye/PS3EyeLibUSBCapture.cpp:1112-1171 | a busy read followed by a ready one: the intended check polls twice and reports ready |
| PS3EyeCapture.CheckStatusAsWritten | src/psmoveservice/PSMoveTracker/PSEye/PS3EyeLibUSBCapture.cpp:1112-1171 | the loop as written always polls the whole bound and reports 0 |
| PS3EyeCapture.CheckStatus | src/psmoveservice/PSMoveTracker/PSEye/PS3EyeLibUSBCapture.cpp:1112-1171 | the loop, polling again on a failed or busy read, computes the intended check |
| PS3EyeCapture.SccbWriteAsWrittenNeverSucceeds | src/psmoveservice/PSMoveTracker/PSEye/PS3EyeLibUSBCapture.cpp:965-999 | an SCCB write as written always fails, after the three bridge writes and a full status poll |
| PS3EyeCapture.SccbReadAsWrittenNeverSucceeds | src/psmoveservice/PSMoveTracker/PSEye/PS3EyeLibUSBCapture.cpp:1065-1110 | an SCCB read as written always fails and never reads the data register |
| PS3EyeCapture.SccbWriteIntendedMeaning | src/psmoveservice/PSMoveTracker/PSEye/PS3EyeLibUSBCapture.cpp:965-999 | the intended write succeeds iff the three bridge writes succeed and the status check reports ready |
| PS3EyeCapture.SccbReadIntendedResult | src/psmoveservice/PSMoveTracker/PSEye/PS3EyeLibUSBCapture.cpp:1065-1110 | a successful intended read addresses the register, starts a read, and returns the byte read last from the data register |
| PS3EyeCapture.GainHighNibble | src/psmoveservice/PSMoveTracker/PSEye/PS3EyeLibUSBCapture.cpp:729-745 | the range bits only touch the high nibble |
| PS3EyeCapture.GainByte | src/psmoveservice/PSMoveTracker/PSEye/PS3EyeLibUSBCapture.cpp:723-748 | the low nibble is kept and the high nibble is 0x0, 0x3, 0x7 or 0xF |
| PS3EyeCapture.GainIgnoresTopBits | src/psmoveservice/PSMoveTracker/PSEye/PS3EyeLibUSBCapture.cpp:723-748 | bits 6 and 7 of the gain do not matter |
| PS3EyeCapture.ExposureHigh | src/psmoveservice/PSMoveTracker/PSEye/PS3EyeLibUSBCapture.cpp:757 | the high part is a single bit |
| PS3EyeCapture.ExposureLow | src/psmoveservice/PSMoveTracker/PSEye/PS3EyeLibUSBCapture.cpp:760 | the low part has bit 0 clear |
| PS3EyeCapture.ExposureSplitsValue | src/psmoveservice/PSMoveTracker/PSEye/PS3EyeLibUSBCapture.cpp:750-774 | the two register values put back together give the exposure |
| PS3EyeCapture.FlipValue | src/psmoveservice/PSMoveTracker/PSEye/PS3EyeLibUSBCapture.cpp:850-884 | keeps the low six bits; bit 6 is set iff not horizontal and bit 7 iff not vertical |
| PS3EyeCapture.AutogainValue | src/psmoveservice/PSMoveTracker/PSEye/PS3EyeLibUSBCapture.cpp:639-706 | keeps the upper bits and sets the two low bits iff autogain is on |
| PS3EyeCapture.LedValue | src/psmoveservice/PSMoveTracker/PSEye/PS3EyeLibUSBCapture.cpp:1299-1348 | keeps bits 0-6 and sets bit 7 iff the LED is on |
| PS3EyeCapture.LedAsWrittenWritesZero | src/psmoveservice/PSMoveTracker/PSEye/PS3EyeLibUSBCapture.cpp:1307-1316 | with register 0x21 reading 0x05, turning the LED on writes 0x00 as written and 0x85 as intended |
| PS3EyeCapture.LedAsWrittenNeverLights | src/psmoveservice/PSMoveTracker/PSEye/PS3EyeLibUSBCapture.cpp:1299-1348 | as written, every register write of the LED chain sends 0x00, on any camera and for either switch position |
| PS3EyeCapture.LedWritesReadValue | src/psmoveservice/PSMoveTracker/PSEye/PS3EyeLibUSBCapture.cpp:1299-1348 | as intended, each LED write sends the byte its read returned with bit 7 set in 0x21, set or cleared in 0x23 as asked, and cleared in 0x21 when switching off |
| PS3EyeCapture.FlipWritesReadValue | src/psmoveservice/PSMoveTracker/PSEye/PS3EyeLibUSBCapture.cpp:850-884 | the intended flip writes the flip bits over the value it read |
| PS3EyeCapture.RateTable | src/psmoveservice/PSMoveTracker/PSEye/PS3EyeLibUSBCapture.cpp:893-930 | non-empty; the 640×480 table iff the width is 640 |
| PS3EyeCapture.SelectFrameRate | src/psmoveservice/PSMoveTracker/PSEye/PS3EyeLibUSBCapture.cpp:920-935 | the first entry not faster than the request, or the slowest one |
| PS3EyeCapture.SetFrameRate | src/psmoveservice/PSMoveTracker/PSEye/PS3EyeLibUSBCapture.cpp:886-963 | reports the first table rate at or below the request, or the slowest rate when none is; it writes that entry's registers unless it is a dry run, which writes nothing |
| PS3EyeCapture.FirstReadEntry | src/psmoveservice/PSMoveTracker/PSEye/PS3EyeLibUSBCapture.cpp:1001-1063 | the position of the first 0xff (read) entry, or the length |
| PS3EyeCapture.SccbWriteArrayAsWritten | src/psmoveservice/PSMoveTracker/PSEye/PS3EyeLibUSBCapture.cpp:1001-1063 | as written, the entry visited stops advancing at the first read entry, and every later step revisits it |
| PS3EyeCapture.SccbWriteArray | src/psmoveservice/PSMoveTracker/PSEye/PS3EyeLibUSBCapture.cpp:1001-1063 | visits the entries in order, each once |
| PS3EyeCapture.TaskQueue.constructor | src/psmoveservice/PSMoveTracker/PSEye/PS3EyeLibUSBCapture.cpp:341-343 | empty queue, nothing in flight |
| PS3EyeCapture.TaskQueue.StartNextTask | src/psmoveservice/PSMoveTracker/PSEye/PS3EyeLibUSBCapture.cpp:360-381 | starts the queue's head, if any |
| PS3EyeCapture.TaskQueue.AddAsyncTask | src/psmoveservice/PSMoveTracker/PSEye/PS3EyeLibUSBCapture.cpp:346-358 | as written, starts the task when the queue is empty even while another is in flight |
| PS3EyeCapture.TaskQueue.AddAsyncTaskCorrected | src/psmoveservice/PSMoveTracker/PSEye/PS3EyeLibUSBCapture.cpp:346-358 | starts the task only when nothing is in flight, keeping at most one task in flight |
| PS3EyeCapture.TaskQueue.TaskCompleted | src/psmoveservice/PSMoveTracker/PSEye/PS3EyeLibUSBCapture.cpp:360-381 | the finished task hands over to the next queued one; the one-at-a-time invariant is kept |
| PS3EyeCapture.TwoTasksInFlight | src/psmoveservice/PSMoveTracker/PSEye/PS3EyeLibUSBCapture.cpp:346-381 | adding a task, starting it and adding a second gives two in flight as written and one corrected |
| KalmanPoseFilter.StateIndex | src/psmoveservice/Filter/KalmanPoseFilter.cpp:10-29 | every state quantity and axis has an index below 15 |
| KalmanPoseFilter.StateSlotAt | src/psmoveservice/Filter/KalmanPoseFilter.cpp:10-29 | every index below 15 belongs to a quantity and axis |
| KalmanPoseFilter.StateIndexIsInjective | src/psmoveservice/Filter/KalmanPoseFilter.cpp:10-29 | each index names exactly one slot |
| KalmanPoseFilter.StateLayoutInterleaves | src/psmoveservice/Filter/KalmanPoseFilter.cpp:10-29 | per axis, position is followed by velocity and acceleration, and angle by angular velocity |
| KalmanPoseFilter.PSMoveIndex | src/psmoveservice/Filter/KalmanPoseFilter.cpp:31-46 | every PSMove measurement slot has an index below 12 |
| KalmanPoseFilter.DS4Index | src/psmoveservice/Filter/KalmanPoseFilter.cpp:48-63 | every DS4 measurement slot has an index below 12 |
| KalmanPoseFilter.MeasurementIndicesAreInjective | src/psmoveservice/Filter/KalmanPoseFilter.cpp:31-63 | distinct slots get distinct indices in both layouts |
| KalmanPoseFilter.MeasurementLayoutsDiffer | src/psmoveservice/Filter/KalmanPoseFilter.cpp:31-63 | the PSMove optical position shares its indices with the DS4 optical angle, and the magnetometer with the DS4 optical position |
| KalmanPoseFilter.Set3 | src/psmoveservice/Filter/KalmanPoseFilter.cpp:111-133 | writes the three entries, reads back the value, leaves the rest alone |
| KalmanPoseFilter.SetState | src/psmoveservice/Filter/KalmanPoseFilter.cpp:111-133 | a state setter changes that quantity only |
| KalmanPoseFilter.ZeroStateIsZero | src/psmoveservice/Filter/KalmanPoseFilter.cpp:364-382 | the initial state reads zero for every quantity |
| KalmanPoseFilter.Transition | src/psmoveservice/Filter/KalmanPoseFilter.cpp:427-460 | position, velocity and acceleration follow constant-acceleration kinematics; angular velocity is kept; orientation is the integrated one passed in |
| KalmanPoseFilter.PredictComposes | src/psmoveservice/Filter/KalmanPoseFilter.cpp:440-453 | predicting t1 then t2 equals predicting t1+t2 |
| KalmanPoseFilter.PredictZeroStep | src/psmoveservice/Filter/KalmanPoseFilter.cpp:440-453 | a zero time step changes nothing |
| KalmanPoseFilter.QDiscrete3rdOrderWhiteNoise | src/psmoveservice/Filter/KalmanPoseFilter.cpp:1331-1349 | writes the 3×3 white-noise block at (i,i) and nothing else |
| KalmanPoseFilter.QDiscrete2ndOrderWhiteNoise | src/psmoveservice/Filter/KalmanPoseFilter.cpp:1352-1367 | writes the 2×2 white-noise block at (i,i) and nothing else |
| KalmanPoseFilter.BlockOf | src/psmoveservice/Filter/KalmanPoseFilter.cpp:384-413 | every state index falls in one of the six noise blocks |
| KalmanPoseFilter.ProcessNoiseIsSymmetric | src/psmoveservice/Filter/KalmanPoseFilter.cpp:1331-1367 | the process noise is symmetric |
| KalmanPoseFilter.ProcessNoiseOnlyInBlocks | src/psmoveservice/Filter/KalmanPoseFilter.cpp:384-413 | entries outside the six blocks are zero |
| KalmanPoseFilter.InBlockIsSameBlock | src/psmoveservice/Filter/KalmanPoseFilter.cpp:384-413 | an entry lies in block b iff its row and column both lie in b |
| KalmanPoseFilter.WriteNoiseBlocks | src/psmoveservice/Filter/KalmanPoseFilter.cpp:384-413 | fills the six diagonal blocks and leaves off-block entries untouched |
| KalmanPoseFilter.LerpBetween | src/psmovemath/MathUtility.h:53 | interpolation gives the end points at 0 and 1 and stays between them |
| KalmanPoseFilter.LerpClamp | src/psmovemath/MathUtility.h:54 | clamps the parameter: a at or below 0, b at or above 1, otherwise between a and b |
| KalmanPoseFilter.InitProcessCovariance | src/psmoveservice/Filter/KalmanPoseFilter.cpp:364-382 | the whole 15×15 matrix is the process noise at maximum variance |
| KalmanPoseFilter.UpdateProcessCovariance | src/psmoveservice/Filter/KalmanPoseFilter.cpp:384-413 | blocks use variances interpolated by quality; off-block entries are kept |
| KalmanPoseFilter.SumOfConstant | src/psmoveservice/Filter/KalmanPoseFilter.cpp:972-1000 | a sum of n equal weights is n times the weight |
| KalmanPoseFilter.MeanWeightsSumToOne | src/psmoveservice/Filter/KalmanPoseFilter.cpp:972-1000 | the mean weights sum to 1 |
| KalmanPoseFilter.FilterSigmaWeights | src/psmoveservice/Filter/KalmanPoseFilter.cpp:70-72 | with α=1, β=2, κ=-1 and 15 states: λ=-1, W0=-1/14, Wc0=27/14, Wi=1/28 |
| KalmanPoseFilter.ComputeSigmaWeights | src/psmoveservice/Filter/KalmanPoseFilter.cpp:972-1000 | 2n+1 weights of the unscented transform, and the mean weights sum to 1 |
| KalmanPoseFilter.ComputeSigmaPointsAsWritten | src/psmoveservice/Filter/KalmanPoseFilter.cpp:1007-1028 | as written, points use columns 1..n, read column n (past the last) and never column 0 |
| KalmanPoseFilter.ComputeSigmaPoints | src/psmoveservice/Filter/KalmanPoseFilter.cpp:1007-1028 | points 1..n and n+1..2n use columns 0..n-1, all in range |
| KalmanPoseFilter.PSMoveInitialCovariance | src/psmoveservice/Filter/KalmanPoseFilter.cpp:478-497 | each PSMove measurement slot gets its initial variance |
| KalmanPoseFilter.PSMoveUpdatedCovariance | src/psmoveservice/Filter/KalmanPoseFilter.cpp:499-516 | only the optical-position variances change, to the quality-interpolated value |
| KalmanPoseFilter.DS4CovarianceAsWritten | src/psmoveservice/Filter/KalmanPoseFilter.cpp:578-615 | as written, the optical-angle slots carry the angle variance and everything else is zero |
| KalmanPoseFilter.DS4Covariance | src/psmoveservice/Filter/KalmanPoseFilter.cpp:578-615 | each DS4 slot carries its own variance, position included |
| KalmanPoseFilter.DS4CovarianceAsWrittenIgnoresPositionQuality | src/psmoveservice/Filter/KalmanPoseFilter.cpp:588-615 | the DS4 covariance as written does not depend on position quality |
| KalmanPoseFilter.DS4CovarianceDiffersOnlyInPosition | src/psmoveservice/Filter/KalmanPoseFilter.cpp:588-615 | the two DS4 covariances agree except on the optical-position slots, which are zero as written |
| KalmanFilterDriver.IdentityIsNeutral | src/psmoveservice/Filter/KalmanPoseFilter.cpp:1136-1159 | the identity quaternion is neutral for the Hamilton product |
| KalmanFilterDriver.ConjugateCancels | src/psmoveservice/Filter/KalmanPoseFilter.cpp:1127-1134 | conjugate times q is the squared norm, so a unit q is undone by its conjugate |
| KalmanFilterDriver.WithPSMove | src/psmoveservice/Filter/KalmanPoseFilter.cpp:226-238 | a PSMove measurement setter changes that quantity only |
| KalmanFilterDriver.WithDS4 | src/psmoveservice/Filter/KalmanPoseFilter.cpp:286-304 | a DS4 measurement setter changes that quantity only |
| KalmanFilterDriver.DS4Measurement | src/psmoveservice/Filter/KalmanPoseFilter.cpp:1220-1251 | IMU readings always; optical angle and position (cm to m) only with positive quality, else the predicted value |
| KalmanFilterDriver.PSMoveMeasurementAsWritten | src/psmoveservice/Filter/KalmanPoseFilter.cpp:1293-1314 | as written, the optical position goes in as centimeters |
| KalmanFilterDriver.PSMoveMeasurement | src/psmoveservice/Filter/KalmanPoseFilter.cpp:1293-1314 | the optical position goes in as meters, like the state |
| KalmanFilterDriver.PSMoveOpticalPositionUnits | src/psmoveservice/Filter/KalmanPoseFilter.cpp:1312 | when the camera agrees with the prediction, the corrected measurement equals it and the as-written one is 100 times it |
| KalmanFilterDriver.BootstrapState | src/psmoveservice/Filter/KalmanPoseFilter.cpp:1256-1271 | bootstrap sets position (cm to m) and orientation and zeroes the rest |
| KalmanFilterDriver.DS4BootstrapOrientation | src/psmoveservice/Filter/KalmanPoseFilter.cpp:1256-1271 | the optical orientation iff its quality is positive, else zero |
| KalmanFilterDriver.DS4BootstrapIgnoresOrientationQuality | src/psmoveservice/Filter/KalmanPoseFilter.cpp:1261 | as written, bootstrap takes the optical orientation even at zero quality |
| KalmanFilterDriver.PositionAt | src/psmoveservice/Filter/KalmanPoseFilter.cpp:1171-1188 | zero when invalid; without extrapolation, the position relative to the origin in cm |
| KalmanFilterDriver.PositionAtFollowsProcessModel | src/psmoveservice/Filter/KalmanPoseFilter.cpp:1171-1188 | extrapolation agrees with the process model's prediction |
| KalmanFilterDriver.PositionAsWrittenOvershoots | src/psmoveservice/Filter/KalmanPoseFilter.cpp:1176-1184 | as written, extrapolation adds 9900·t times the velocity too much |
| KalmanFilterDriver.PositionAsWrittenWithoutExtrapolation | src/psmoveservice/Filter/KalmanPoseFilter.cpp:1171-1188 | without extrapolation the two getters agree |
| KalmanFilterDriver.OrientationBeforeRecenter | src/psmoveservice/Filter/KalmanPoseFilter.cpp:1136-1159 | identity when invalid, the state orientation before any recenter |
| KalmanFilterDriver.RecenteredResetIsConjugate | src/psmoveservice/Filter/KalmanPoseFilter.cpp:1127-1134 | the new reset orientation is the conjugate of the reported orientation |
| KalmanFilterDriver.RecenterFacesForward | src/psmoveservice/Filter/KalmanPoseFilter.cpp:1127-1159 | after recentering, the reported orientation is the identity |
| KalmanFilterDriver.InitialCovariance | src/psmoveservice/Filter/KalmanPoseFilter.cpp:478-497 | the measurement covariance has 12 entries for both controllers |
| KalmanFilterDriver.PoseFilter.constructor | src/psmoveservice/Filter/KalmanPoseFilter.cpp:1103-1115 | invalid, identity reset, zero origin and state, no time step, the controller's initial covariance |
| KalmanFilterDriver.PoseFilter.ResetState | src/psmoveservice/Filter/KalmanPoseFilter.cpp:1122-1125 | back to the initial state, keeping the time step |
| KalmanFilterDriver.PoseFilter.UpdateDS4AsWritten | src/psmoveservice/Filter/KalmanPoseFilter.cpp:1212-1272 | a valid filter sets the time step and steps the filter; an invalid one bootstraps from an optical position, with the orientation re-test as written |
| KalmanFilterDriver.PoseFilter.UpdateDS4 | src/psmoveservice/Filter/KalmanPoseFilter.cpp:1212-1272 | the same, with the DS4 covariance and the orientation-quality test corrected |
| KalmanFilterDriver.PoseFilter.UpdatePSMoveAsWritten | src/psmoveservice/Filter/KalmanPoseFilter.cpp:1286-1326 | steps with the old time step and the centimeter measurement; the time step never changes |
| KalmanFilterDriver.PoseFilter.UpdatePSMove | src/psmoveservice/Filter/KalmanPoseFilter.cpp:1286-1326 | sets the time step and steps with the meter measurement |
| KalmanFilterDriver.PoseFilter.RecenterAsWritten | src/psmoveservice/Filter/KalmanPoseFilter.cpp:1127-1134 | the reset orientation is recentered and the origin becomes getPosition(), in centimeters |
| KalmanFilterDriver.PoseFilter.Recenter | src/psmoveservice/Filter/KalmanPoseFilter.cpp:1127-1134 | the origin becomes the state position in meters |
| KalmanFilterDriver.RecenterAsWrittenMisplacesOrigin | src/psmoveservice/Filter/KalmanPoseFilter.cpp:1131-1133 | with the state 1 m along X, the origin becomes 100 and the position then reports -9900 cm |
| KalmanFilterDriver.UnitPositionAtRest | src/psmoveservice/Filter/KalmanPoseFilter.cpp:1171-1188 | with the state 1 m along X, the as-written position is 100·(1-origin) cm |
| KalmanFilterDriver.PositionAsWrittenAtRest | src/psmoveservice/Filter/KalmanPoseFilter.cpp:1171-1188 | without extrapolation, the as-written position is the offset from the origin in cm |
| KalmanFilterDriver.RecenteredPositionIsZero | src/psmoveservice/Filter/KalmanPoseFilter.cpp:1127-1188 | with the origin at the state position, the corrected getter reports zero |
| KalmanFilterDriver.PSMoveFirstPredictionTimeStep | src/psmoveservice/Filter/KalmanPoseFilter.cpp:1286-1326 | after a bootstrap, the first PSMove step uses an unset time step as written and delta_time corrected |

## Left out

- The USB, HID, OpenCV and property-tree libraries. Their answers are parameters.
- Threads, the request and result queues, and the worker thread's event loop. Callbacks run as sequential steps.
- Logging and message text.
- 32-bit float arithmetic. Every value is a `real`. FLT_EPSILON is taken as 2^-23.
- `k_meters_to_centimeters` and `k_centimeters_to_meters`. They are not defined in the modelled files and are taken as 100 and 0.01.
- The UKF's predict and update internals: the Cholesky square root, the covariance propagation, the measurement model h and the gain. `UkfStep` records only what the driver hands to them.
- Quaternion and angle-axis conversion, quaternion normalisation (`normalize_with_default` in recenterState), and getOrientation's extrapolation.
  These need square roots and trigonometry. Recentering is modelled on the quaternion the filter reports.
- The loops with `<=` bounds at src/psmoveservice/Filter/KalmanPoseFilter.cpp:184, 332, 790, 869, 923 and 931. They sit in the UKF internals that are not modelled.
- getAngularVelocity, getAngularAcceleration, getVelocity, getAcceleration and getIsStateValid. Each only reads a state quantity or a flag.
- The `m_filter;` statement at src/psmoveservice/Filter/KalmanPoseFilter.cpp:1111. It has no effect, and the model has no filter pointer.
- Both process-noise kinds use the position constants' mean update time delta. The model follows the code.
- The OV534 and OV772x register initialisation tables. They are data, and only their read entries (0xff) matter to the model.
- PS3EyeCapture.SetGain, PS3EyeCapture.SetExposure, PS3EyeCapture.SetAutogain and PS3EyeCapture.SetLed: these chains have no ensures of their own. Their register values are stated by GainByte, ExposureSplitsValue, AutogainValue and LedValue, and LedAsWrittenNeverLights and LedWritesReadValue are about SetLed.
- ServerUtility.NormalizeBluetoothAddress: the header says the buffer must hold at least 17 bytes, while the code demands 18 (17 characters and the terminator). The model follows the code.
- ServerUtility's wide-string conversion, string formatting, thread naming and sleep. They call platform functions.
- The tracker's video-frame buffer, camera intrinsics, exposure and gain getters, and settings files on disk.
- The controller enumerator's Windows-only device filtering is a boolean parameter. Which devices the platform filters out is an oracle.
- TrackerDeviceEnumerator.FilteredDeviceInfo: the filtered device list's accessors (getFilteredDeviceInfo and its count and path companions) are not part of this model. Their in-range lookup is an assumption, patterned on getUSBDeviceInfo at src/psmoveservice/Device/Manager/USBDeviceManager.cpp:218-234.
- The size of the posted control-transfer result's data buffer. Its declaration is not part of this model, so the received bytes are posted whole.
- The controller types are fixed at two, PSMove then PSNavi, the entries of the supported-device table. The enum that sets `SUPPORTED_CONTROLLER_TYPE_COUNT` is not part of this model, and other parts of the repository name a PSDualShock4 type.
- The configuration file that `cfg.load()` reads and the saves made by setExposure, setGain and setOptionIndex. PSMoveServiceConfig is not part of this model; Tracker.Open takes the stored tree, or none when there is no file.
- PS3EyeTracker.WriteTree, PS3EyeTracker.RoundTrip, PS3EyeTracker.SaveThenLoad and PS3EyeTracker.TrackerConfig: the six HSV colour presets are not modelled. The constructor fills them from `k_default_color_presets` (src/psmoveservice/PSMoveTracker/PS3EyeTracker.cpp:52-55), config2ptree writes them (87-92) and ptree2config reads them (128-133). writeColorPreset and readColorPreset are not part of this model, so the round trip is stated for the modelled keys only.
- A device's new bulk transfer started while its previous bundle is still on the canceled list. The start handler searches only the active list (src/psmoveservice/Device/Manager/USBDeviceManager.cpp:710-716), so the model, like the source, lets both bundles exist. No property is stated about the old bundle's late callbacks for the same device.
- Releasing memory after a failed control-transfer allocation. At src/psmoveservice/Device/Manager/USBDeviceManager.cpp:494 and 579-582 the source tests and frees `buffer`, and can do the same to `transfer`, before either is initialised, which is undefined behaviour. The model has no heap, and an allocation failure is a clean error result.

## Findings

| source | as written | input that shows it | evidently intended | confidence | as-written member | corrected member |
|---|---|---|---|---|---|---|
| src/psmoveservice/Device/Enumerator/ControllerDeviceEnumerator.cpp:110-130 | moving to the next controller type starts at index 1 | one PSMove and one PSNavi connected | the next type starts at its first device | not executed | ControllerDeviceEnumerator.SecondTypeHeadIsSkipped | ControllerDeviceEnumerator.Enumerator.NextCorrected |
| src/psmoveservice/Device/Enumerator/ControllerDeviceEnumerator.cpp:35-39 | with no PSMove connected the constructor calls next() on a null cursor, which returns at once, so PSNavi controllers are never enumerated | no PSMove and one PSNavi connected | move on to the next type's list | not executed | ControllerDeviceEnumerator.EmptyFirstListEndsEnumeration | ControllerDeviceEnumerator.Enumerator.Corrected |
| src/psmoveservice/Device/USB/USBBulkTransferBundle.cpp:119-144 | dispose walks the request array without checking it | initialize finds no bulk endpoint | dispose checks for a null array | not executed | UsbBulkTransferBundle.FailedSearchLeavesNullArray | UsbBulkTransferBundle.FailedInitializeThenCorrectedDispose |
| src/psmoveservice/Device/Manager/USBDeviceManager.cpp:596-607 | an early failure posts a result that decrements the control counter, which was never incremented | a control request for an invalid handle on a fresh manager | the counter equals the transfers in flight | not executed | UsbDeviceManager.EarlyControlFailureUnderflows | UsbDeviceManager.Manager.HandleControlTransferRequestCorrected |
| src/psmoveservice/Device/Manager/USBDeviceManager.cpp:451-464 | the loop discards erase's return value and runs ++it on the erased, invalidated iterator; the model takes a vector's usual shift for that undefined step, so the next bundle is skipped | two idle canceled bundles; or one | every idle bundle is erased, and the loop stops at end() | not executed | UsbDeviceManager.SweepAsWrittenKeepsSecondIdleBundle | UsbDeviceManager.Manager.CleanupCanceledRequests |
| src/psmoveservice/Device/Manager/USBDeviceManager.cpp:136-179 | an invalid handle takes the failure branch, which calls closeUSBDevice, and close dereferences the missing state | openUSBDevice with an out-of-range handle | refuse the handle before closing | not executed | UsbDeviceManager.InvalidHandleReachesUnguardedClose | UsbDeviceManager.Manager.OpenUSBDeviceCorrected |
| src/psmoveservice/PSMoveTracker/PS3EyeTracker.cpp:289-294 | trimming to the maximum happens before the push | 17 polls of an open tracker | at most 16 states | not executed | PS3EyeTracker.SeventeenPolls | PS3EyeTracker.Tracker.PollCorrected |
| src/psmoveservice/PSMoveTracker/PS3EyeTracker.cpp:326-333 | a negative look-back passes the check and indexes past the end | getState(-1) with one state | a negative look-back returns no state | not executed | PS3EyeTracker.NegativeLookBackIsOutOfRange | PS3EyeTracker.Tracker.GetState |
| src/psmoveservice/PSMoveTracker/PSEye/PS3EyeLibUSBCapture.cpp:1112-1171 | the status loop never records a ready status and reports 0 | any SCCB write or read | poll past busy reads and report ready when the first settled status is 0x00 | not executed | PS3EyeCapture.SccbWriteAsWrittenNeverSucceeds | PS3EyeCapture.StatusIntendedMeaning |
| src/psmoveservice/PSMoveTracker/PSEye/PS3EyeLibUSBCapture.cpp:1299-1348 | each write step copies the shared byte when the task list is built, while it is still 0, and the read callbacks update it only later, so every LED write sends 0x00 and the LED never lights | LED on while register 0x21 holds 0x05 | 0x85: bit 7 set and the other bits kept | not executed | PS3EyeCapture.LedAsWrittenNeverLights | PS3EyeCapture.LedWritesReadValue |
| src/psmoveservice/PSMoveTracker/PSEye/PS3EyeLibUSBCapture.cpp:1049 | the read branch's inner callback takes an `int data` parameter that shadows the sequence pointer, so the pointer is not advanced past a read entry and that entry is revisited | a register table with a 0xff entry at position 0 | every entry is visited once, in order | not executed | PS3EyeCapture.SccbWriteArrayAsWritten | PS3EyeCapture.SccbWriteArray |
| src/psmoveservice/PSMoveTracker/PSEye/PS3EyeLibUSBCapture.cpp:346-358 | a task is started whenever the queue is empty, even while one is in flight | add a task, then add another before the first completes | at most one task in flight | not executed | PS3EyeCapture.TwoTasksInFlight | PS3EyeCapture.TaskQueue.AddAsyncTaskCorrected |
| src/psmoveservice/Filter/KalmanPoseFilter.cpp:1016-1026 | sigma columns run 1..n, reading column n of an n-column matrix and never column 0 | any state (n = 15) | columns 0..n-1 | not executed | KalmanPoseFilter.ComputeSigmaPointsAsWritten | KalmanPoseFilter.ComputeSigmaPoints |
| src/psmoveservice/Filter/KalmanPoseFilter.cpp:588-615 | the DS4 covariance writes PSMove indices, so position quality is lost and the optical-position variance stays zero | any position quality | each DS4 slot gets its own variance | not executed | KalmanPoseFilter.DS4CovarianceAsWrittenIgnoresPositionQuality | KalmanPoseFilter.DS4CovarianceDiffersOnlyInPosition |
| src/psmoveservice/Filter/KalmanPoseFilter.cpp:1261 | the bootstrap tests position quality again, not orientation quality | optical position quality 1, orientation quality 0, a nonzero orientation | take the orientation only when its quality is positive | not executed | KalmanFilterDriver.DS4BootstrapIgnoresOrientationQuality | KalmanFilterDriver.PoseFilter.UpdateDS4 |
| src/psmoveservice/Filter/KalmanPoseFilter.cpp:1312 | the optical position enters the measurement in centimeters while the state is in meters | a camera fix equal to the prediction | convert to meters, as the DS4 path does at 1249 | not executed | KalmanFilterDriver.PSMoveOpticalPositionUnits | KalmanFilterDriver.PSMoveMeasurement |
| src/psmoveservice/Filter/KalmanPoseFilter.cpp:1286-1326 | the PSMove update never sets the time step | the first update after a bootstrap | set delta_time, as the DS4 path does at 1217 | not executed | KalmanFilterDriver.PSMoveFirstPredictionTimeStep | KalmanFilterDriver.PoseFilter.UpdatePSMove |
| src/psmoveservice/Filter/KalmanPoseFilter.cpp:1176-1184 | extrapolation adds velocity already in cm/s to meters, then scales by 100 again | time 1 s, velocity 1 m/s | the predicted position in cm | not executed | KalmanFilterDriver.PositionAsWrittenOvershoots | KalmanFilterDriver.PositionAtFollowsProcessModel |
| src/psmoveservice/Filter/KalmanPoseFilter.cpp:1131-1133 | the origin becomes getPosition(), in centimeters and relative to the old origin | state 1 m along X, origin zero | the origin is the state position in meters | not executed | KalmanFilterDriver.RecenterAsWrittenMisplacesOrigin | KalmanFilterDriver.RecenteredPositionIsZero |
