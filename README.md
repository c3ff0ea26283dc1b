# webadb connection panel, remote-control page and bug-report state in Dafny

This project models the core of the webadb front end: the panel that lists
and persists devices and connects to one of them, the remote-control
(scrcpy) page's own logic, and the bug-report page's state.

- **Device registry** (`Devices`, `JsNumbers`, `Connect.ConnectPanel`): USB,
  WebSocket and direct-socket (TCP) device lists. The combined list is USB,
  then WebSocket, then TCP. Each device becomes a dropdown option keyed by
  its serial. The WebSocket and TCP lists only grow, and every append
  rewrites the whole stored list of `{address, port?}` records. The TCP list
  is reloaded from those records at mount. After every change to a list, the
  selection rule re-selects the device with the previous serial, or else the
  first device, or else nothing.
- **Connection lifecycle** (`Connect.ConnectPanel.Connect`, `Connect.Session`,
  `AppState`): `connect` does nothing when no device is selected. Otherwise
  it opens the streams and logs every packet through the inspecting streams.
  It then authenticates. On success it publishes the device and its adb
  connection globally and registers a handler on `disconnected`. On any
  failure it reports the error, and after a failed handshake it disposes of
  the streams. `dispose` cancels the read side and closes the write side. It
  swallows both errors and always clears the global device. A `Session` is
  the closure of one `connect` call. Its invariant proves that `cancel` on
  the read side and `close` on the write side are called together and each
  at most once.
- **Remote-control page** (`Scrcpy`): the one-shot WebCodecs probe, and key
  events mapped to `down`/`up`, with a reset when the window loses focus.
  The keyboard lock is taken at mount and released at unmount, and every
  lock is paired with one unlock. The page also has the predicates that
  gate the connecting dialog's stages, the full-screen hint and the start
  button.
- **Bug-report state** (`BugReportPage.BugReportState`): the capabilities
  follow the global adb connection. A compressed report sets a flag and
  progress counters around the external command. Nothing catches a failure,
  so a failed run leaves the flag set and the button disabled.

Each `async` function is one method. The outcome of every library call it
awaits is a parameter of type `Outcome<T>` (`Ok(value)` or `Err(error)`).
Browser prompts are `Option<string>` inputs. `localStorage` is a map from
keys to record sequences. React effects are methods the caller runs after
the state change that triggers them.

Behaviour worth knowing:

- The WebSocket list is written to storage but never read back. Only the
  TCP list is reloaded.
- `dispose` swallows the write side's close error too; it does not report it.
- `disconnect` only asks the connection to close and reports a failure of
  that call. The teardown runs later, from the `disconnected` handler.
- There is no "already disposed" flag. Teardown runs at most once per
  session because of how the calls are structured (`Session.Valid`). A late
  teardown of an older session still clears the global device.

## Model

| member | source | states |
|---|---|---|
| `Devices.FindBySerial` | packages/webadb/src/components/connect.tsx:297-299 | Returns nothing exactly when no listed device has the serial. Otherwise it returns a listed device with that serial, and no earlier device has it (the first match). |
| `Devices.ResolveSelection` | packages/webadb/src/components/connect.tsx:294-307 | The result is nothing exactly when the list is empty, and is always a listed device. When the list still has a device with the previous serial, the result is the first such device (`FindBySerial`), even when serials of different kinds collide. Otherwise it falls back to the first device. |
| `Devices.ResolveKeepsPresent` | packages/webadb/src/components/connect.tsx:294-307 | When serials are unique, a selected device still in the list stays selected as the same device. |
| `Devices.ResolveIdempotent` | packages/webadb/src/components/connect.tsx:294-307 | Resolving twice against the same list gives the same result as resolving once. |
| `Devices.DeviceOptions` | packages/webadb/src/components/connect.tsx:286-292 | One option per device, in list order. Each option's key is the device's serial, its data is the device, and its text is the option text. |
| `Devices.OptionText` | packages/webadb/src/components/connect.tsx:289 | The text starts with the serial and a space. It is nothing more exactly when the device has no (non-empty) name. Otherwise the rest is `(name)`. |
| `Devices.SelectedKeyListed` | packages/webadb/src/components/connect.tsx:341-349 | A selected device that is in the list has an option whose key is its serial, so the dropdown shows the selection. |
| `Devices.WebSocketRecords` | packages/webadb/src/components/connect.tsx:110-113 | One `{address}` record per WebSocket device, in order, holding the serial and no port. |
| `Devices.DirectSocketsRecords` | packages/webadb/src/components/connect.tsx:158-165 | One record per TCP device, in order: record i holds device i's host and port. |
| `Devices.LoadDirectSockets` | packages/webadb/src/components/connect.tsx:131-139 | One TCP device per stored record, in order: device i is built from record i's address and port. |
| `Devices.DirectSocketsRoundTrip` | packages/webadb/src/components/connect.tsx:121-169 | Reloading the stored records of a TCP list rebuilds the same list, with the same hosts and ports in the same order. |
| `Devices.DirectSocketsRecordsAppend` | packages/webadb/src/components/connect.tsx:155-167 | Appending a device appends exactly its record to the stored list. |
| `Devices.AddMenuItems` | packages/webadb/src/components/connect.tsx:309-337 | WebSocket is always offered. USB is offered exactly when WebUSB is supported, and TCP exactly when direct sockets are supported. The entries are in the order USB, WebSocket, TCP. |
| `JsNumbers.TrimStart` | packages/webadb/src/components/connect.tsx:153 | `parseInt` strips exactly the leading white space. |
| `JsNumbers.DigitPrefix` | packages/webadb/src/components/connect.tsx:153 | `parseInt` reads the longest prefix of decimal digits. |
| `JsNumbers.ParseInt` | packages/webadb/src/components/connect.tsx:153 | Text with no digit at all is NaN. A digit string is read as its decimal value, and a minus sign followed by digits as the negated value. |
| `JsNumbers.NatTextValue` | packages/webadb/src/components/connect.tsx:153 | The decimal text of a number has that number as its digit value. |
| `JsNumbers.ParseIntText` | packages/webadb/src/components/connect.tsx:153 | Parsing the decimal text of any integer gives that integer back. |
| `AppState.LogOf` | packages/webadb/src/components/connect.tsx:197-209 | The log of a traffic sequence has one entry per unit. |
| `AppState.LogOfAt` | packages/webadb/src/components/connect.tsx:198-208 | Entry i of the log records unit i: an inbound packet as "in", the value of an outbound consumable as "out". |
| `AppState.LogOfConcat` | packages/webadb/src/components/connect.tsx:197-209 | Logging two stretches of traffic in turn gives the log of the whole traffic. |
| `AppState.InspectTraffic` | packages/webadb/src/components/connect.tsx:197-209 | Every unit is forwarded unchanged and in order, and the log grows by exactly the traffic's entries. The device, connection and errors do not change. |
| `AppState.GlobalState.SetDevice` | packages/webadb/src/components/connect.tsx:225 | Sets the global device and adb connection and nothing else. |
| `AppState.GlobalState.ShowErrorDialog` | packages/webadb/src/components/connect.tsx:211 | Appends one error to those reported and changes nothing else. |
| `AppState.GlobalState.AppendLog` | packages/webadb/src/components/connect.tsx:200 | Appends one log entry and changes nothing else. |
| `Connect.LocalStorage.SetItem` | packages/webadb/src/components/connect.tsx:110-113 | Replaces the records under one key and leaves the other keys alone. |
| `Connect.ConnectPanel.constructor` | packages/webadb/src/components/connect.tsx:50-54 | Starts with nothing selected, not connecting, USB assumed supported and empty lists. |
| `Connect.ConnectPanel.DeviceList` | packages/webadb/src/components/connect.tsx:276-284 | The combined list holds the USB devices, then the WebSocket devices, then the TCP devices, each group in its own order. |
| `Connect.ConnectPanel.ConnectEnabled` | packages/webadb/src/components/connect.tsx:358 | Once the selection rule has run, the connect button is enabled exactly when the dropdown has an option. |
| `Connect.ConnectPanel.DropdownDisabled` | packages/webadb/src/components/connect.tsx:342 | Once the selection rule has run, the dropdown is disabled exactly while connected or while there is nothing to connect to. |
| `Connect.ConnectPanel.Reselect` | packages/webadb/src/components/connect.tsx:294-307 | The selection effect: the selection becomes the rule's result, so something is selected exactly when there is a device, and it is a listed one. |
| `Connect.ConnectPanel.MountUsb` | packages/webadb/src/components/connect.tsx:62-76 | Without WebUSB, it reports one error and leaves the lists and the selection alone. With WebUSB, it stores the enumerated devices, re-selects and registers the watcher. A failed enumeration changes no list. |
| `Connect.ConnectPanel.UnmountUsb` | packages/webadb/src/components/connect.tsx:91 | The watcher is disposed. |
| `Connect.ConnectPanel.OnUsbDevicesChanged` | packages/webadb/src/components/connect.tsx:77-90 | Stores the new USB list. When a serial is reported, it selects the USB device with that serial, and then the selection rule runs. A failed enumeration changes nothing. |
| `Connect.ConnectPanel.AddUsbDevice` | packages/webadb/src/components/connect.tsx:178-183 | A rejected request changes nothing. A resolved one selects what it returned, which is nothing when the chooser was dismissed. It then re-enumerates and re-selects, so a dismissed chooser ends with the first device selected. A failed enumeration keeps the list. |
| `Connect.ConnectPanel.AddWebSocketDevice` | packages/webadb/src/components/connect.tsx:102-116 | An empty or cancelled prompt changes nothing. Otherwise the relay is appended at the end, storage holds the records of the whole list, the selection is re-resolved and the other lists are unchanged. |
| `Connect.ConnectPanel.LoadDirectSocketsDevices` | packages/webadb/src/components/connect.tsx:121-140 | Without support or a saved list, nothing changes. Otherwise the TCP list becomes the devices rebuilt from the saved records. |
| `Connect.ConnectPanel.AddDirectSocketsDevice` | packages/webadb/src/components/connect.tsx:142-169 | An empty or cancelled host or port prompt changes nothing. Otherwise the device with the parsed port is appended, storage holds the whole list's records, and reloading them gives the list back. |
| `Connect.ConnectPanel.AppendDirectSocketsDevice` | packages/webadb/src/components/connect.tsx:155-167 | The device is appended at the end, storage holds the records of the whole list, reloading them gives the list back, and the selection is re-resolved. |
| `Connect.ConnectPanel.HandleSelectedChange` | packages/webadb/src/components/connect.tsx:171-176 | Selects the chosen option's device. A chosen listed option leaves the selection settled. |
| `Connect.ConnectPanel.Connect` | packages/webadb/src/components/connect.tsx:185-254 | While the connect button is disabled (nothing selected), nothing changes. If opening fails, the error is reported once, `connecting` is false, and there is no session and no device. If authentication succeeds, the global device is the selection with its connection and the handler waits. The dropdown is then disabled and the remote-control page's start button (`Scrcpy.StartButtonDisabled`) is enabled. If authentication fails, the error is reported and the session is disposed once. Every packet of the handshake is logged. |
| `Connect.ConnectPanel.OnAddressOrPortChanged` | packages/webadb/src/components/connect.tsx:256-266 | When both properties are present, `ws://address:port` is appended without being stored. Then `connect` runs for the selection the render saw, with every outcome `Connect` states. With nothing selected, nothing changes. An open failure is reported. On success the device is published and watched. On an authentication failure the error is reported, the device is cleared and the session is disposed once. The log grows by the handshake in every opened case. Finally the selection is re-resolved. |
| `Connect.ConnectPanel.Disconnect` | packages/webadb/src/components/connect.tsx:268-274 | Reports a failure to close, or the TypeError raised when there is no connection. It clears nothing itself. |
| `Connect.Session.constructor` | packages/webadb/src/components/connect.tsx:195-209 | A fresh session has called neither `cancel` nor `close` and has no handler. |
| `Connect.Session.Dispose` | packages/webadb/src/components/connect.tsx:216-226 | Whatever the cancel and close calls report, each is called once more. The global device and connection end up cleared, so the start button is disabled, and no error is reported. |
| `Connect.Session.Watch` | packages/webadb/src/components/connect.tsx:237 | Registers the handler on `disconnected` while neither `cancel` nor `close` has been called. |
| `Connect.Session.OnDisconnected` | packages/webadb/src/components/connect.tsx:237-245 | A resolution reports nothing and a rejection reports its error first. Either way cancel and close are each called exactly once, the device is cleared and the start button is disabled. |
| `Connect.ConnectThenDisconnect` | packages/webadb/src/components/connect.tsx:185-274 | A scenario: connect to a relay through a two-packet handshake, then disconnect. The panel was connected, both packets were logged, and it ends idle with no error and `cancel` and `close` each called once. |
| `Scrcpy.WithWebCodecs` | packages/webadb/src/pages/scrcpy.tsx:208-219 | WebCodecs goes in front of a one-entry list when it is supported, making two entries. Any other list is left unchanged. |
| `Scrcpy.WithWebCodecsOnce` | packages/webadb/src/pages/scrcpy.tsx:208-219 | Running the probe a second time adds nothing. |
| `Scrcpy.SettingState.DetectWebCodecs` | packages/webadb/src/pages/scrcpy.tsx:206-220 | Updates the decoder list in place to the probe's result. |
| `Scrcpy.KeyCallFor` | packages/webadb/src/pages/scrcpy.tsx:138-139 | Forwards the event's own key code. It is a press exactly for `"keydown"` and a release for every other type. |
| `Scrcpy.ScrcpyState.HandleKeyEvent` | packages/webadb/src/pages/scrcpy.tsx:130-140 | Without a client, the event is neither consumed nor forwarded. With one, it is consumed and forwarded as a press or release. A missing keyboard gives a TypeError. |
| `Scrcpy.ScrcpyState.HandleBlur` | packages/webadb/src/pages/scrcpy.tsx:142-148 | With a client and a keyboard, one reset is sent. Otherwise nothing happens. |
| `Scrcpy.ScrcpyPage.Mount` | packages/webadb/src/pages/scrcpy.tsx:206-247 | Runs the probe, and locks the keyboard and enables the lock flag exactly when `navigator.keyboard` exists. It also starts listening for blur. |
| `Scrcpy.ScrcpyPage.Unmount` | packages/webadb/src/pages/scrcpy.tsx:235-246 | Unlocks exactly when a lock was taken, so afterwards the locks and unlocks balance. It stops listening for blur. |
| `Scrcpy.ScrcpyPage.constructor` | packages/webadb/src/pages/scrcpy.tsx:222 | Starts unmounted with the lock flag false and no lock calls. |
| `Scrcpy.DownloadFraction` | packages/webadb/src/pages/scrcpy.tsx:88-93 | Defined exactly when the total is nonzero. It is then downloaded / total, and lies between 0 and 1 while downloaded ≤ total. |
| `Scrcpy.UploadFraction` | packages/webadb/src/pages/scrcpy.tsx:107-109 | uploaded / total. It has no finite value when the total is zero. |
| `Scrcpy.ShownPushFractionFinite` | packages/webadb/src/pages/scrcpy.tsx:101-115 | Whenever the push stage is shown, its fraction is finite. |
| `Scrcpy.StagesShownInOrder` | packages/webadb/src/pages/scrcpy.tsx:101-123 | If uploading starts only after the download completes, the start stage is never shown while the push stage is hidden. |
| `Scrcpy.PushProgressHidden` | packages/webadb/src/pages/scrcpy.tsx:103-106 | The push stage is shown exactly when the download bar is full. |
| `Scrcpy.StartProgressHidden` | packages/webadb/src/pages/scrcpy.tsx:119-122 | The start stage is shown exactly when the push bar is full. |
| `Scrcpy.FullscreenHint.constructor` | packages/webadb/src/pages/scrcpy.tsx:157-160 | The flag starts as the value stored by an earlier visit, or "false" when nothing is stored. |
| `Scrcpy.FullscreenHint.Visible` | packages/webadb/src/pages/scrcpy.tsx:162 | The hint shows only with the keyboard lock enabled and the view in full screen, and never once the stored flag is "true". |
| `Scrcpy.FullscreenHint.Dismiss` | packages/webadb/src/pages/scrcpy.tsx:175 | After dismissal, the hint is hidden whatever the lock and full-screen state. |
| `Scrcpy.DismissalPersists` | packages/webadb/src/pages/scrcpy.tsx:157-175 | A scenario: a first visit shows the hint, and a page started from the value a dismissed hint stored never shows it. |
| `BugReportPage.BugReportState.constructor` | packages/webadb/src/pages/bug-report.tsx:25-57 | Starts idle with no counters and runs the autorun once. |
| `BugReportPage.BugReportState.Autorun` | packages/webadb/src/pages/bug-report.tsx:41-56 | Without a connection, the capabilities are cleared. With one, they become the query's result. A failed query leaves them as they were. |
| `BugReportPage.BugReportState.BugReportEnabled` | packages/webadb/src/pages/bug-report.tsx:113 | The plain report button is enabled when capabilities are known, and every other report button is enabled only when it is. |
| `BugReportPage.BugReportState.BugReportZStreamEnabled` | packages/webadb/src/pages/bug-report.tsx:121 | The streamed button is enabled only when capabilities are known. |
| `BugReportPage.BugReportState.BugReportZEnabled` | packages/webadb/src/pages/bug-report.tsx:135-138 | The compressed button is enabled only when capabilities are known and no progress counts are on show. |
| `BugReportPage.BugReportState.ShowsProgressCounts` | packages/webadb/src/pages/bug-report.tsx:144-146 | While the state is valid, "progress / total" is shown exactly when a non-empty total was reported. |
| `BugReportPage.BugReportState.GenerateBugReport` | packages/webadb/src/pages/bug-report.tsx:59-61 | A file is written exactly when the plain report button is enabled, and it is `bugreport.txt`. Clicking the enabled button yields the save's outcome. Clicking without capabilities gives a TypeError. A success means the file was saved. |
| `BugReportPage.BugReportState.GenerateBugReportZStream` | packages/webadb/src/pages/bug-report.tsx:63-67 | Clicking the enabled streamed button writes `bugreport.zip` and yields the save's outcome. Without capabilities there is no file and a TypeError. A success means the file was saved. |
| `BugReportPage.BugReportState.GenerateBugReportZ` | packages/webadb/src/pages/bug-report.tsx:69-93 | The run succeeds exactly when every step does. The sync session is then disposed, the flag is cleared, both counters are undefined, no progress counts are shown, and the button is enabled again when the device supports it. On any failure, the flag stays set and the button stays disabled. The counters hold the last progress call when progress is supported and some call came in; otherwise they are untouched. |

## Left out

- packages/webadb/src/pages/power.tsx, packages/webadb/src/pages/device-info.tsx and packages/webadb/src/pages/_app.tsx are not part of this model: they forward to the library or only render.
- The deployment run itself (`STATE.start`: download, push, start, throughput and `formatSpeed`) lives in the scrcpy state module, which is not part of this model. Only the dialog's gating of its stages is modelled.
- Key coalescing, stream piping, authentication, WebUSB enumeration and watching, and the `BugReport` commands are library code. Each appears only as an outcome parameter.
- Connect: `connecting` is true only while the call is suspended. The model runs the call atomically, so it states only that the flag is unchanged on the guarded path and false after every other path. Two `connect` calls interleaving is not modelled.
- Connect.Session.Dispose: `readable.cancel()` is not awaited, so a rejected cancel becomes an unhandled rejection, not a caught one. Either way nothing is reported, which is all the model states.
- Connect.Session.OnDisconnected: requires that the handler has not run yet, because a promise settles only once.
- Connect.ConnectPanel.OnAddressOrPortChanged: in the page this effect also re-runs whenever `connect` changes, that is whenever the selection changes. The model gives the effect body; when it runs is up to the caller.
- React's scheduling is reduced to "state change, then effect". Derived values (`deviceList`, `deviceOptions`) are functions of the fields.
- Devices.Serial: a stored TCP record without a port yields the serial `host:undefined`, because the record's port is undefined and the serial is the host and port joined by a colon. The TCP library may fall back to a default port (typically 5555) when it connects, and that library is not part of this model.
- The TCP device's serial is taken to be `host:port` and WebSocket and TCP devices carry no name; both follow the device libraries, which are not part of this model.
- JSON text is not modelled. In particular, `JSON.stringify` writes an unparsable port (NaN) as `null`, which the model's records do not capture.
- JsNumbers.ParseInt: uses unbounded integers. The loss of precision above 2^53, and exponent notation in the text of very large numbers, are not modelled.
- The `isClient` guard and the `STATE.connecting` visibility of the scrcpy connecting dialog, the FPS and serial shown in the hint, and every rendered label are UI only.
