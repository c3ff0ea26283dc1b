/** The connect panel: the three device lists and their persistence, the
    selection, and the connection lifecycle (open streams, log every packet,
    authenticate, watch for disconnection, tear down). Each asynchronous
    function runs here as one method; the outcome of every library call it
    awaits is a parameter. */
module Connect {
  import opened Outcomes
  import opened JsNumbers
  import opened Devices
  import opened AppState
  import Scrcpy

  const WebSocketListKey := "ws-backend-list"
  const DirectSocketsListKey := "tcp-backend-list"

  /** `localStorage`, holding the parsed records rather than their JSON text. */
  class LocalStorage {
    var items: map<string, seq<Record>>

    constructor (initial: map<string, seq<Record>>)
      ensures items == initial
    {
      items := initial;
    }

    method SetItem(key: string, value: seq<Record>)
      modifies this
      ensures items == old(items)[key := value]
    {
      items := items[key := value];
    }
  }

  /** The streams opened by one `connect` call together with its `dispose`
      closure and the handler it registers on `disconnected`. The counters
      record how often the read side was cancelled and the write side closed. */
  class Session {
    const global: GlobalState
    const device: Device
    var readCancels: nat
    var writeCloses: nat
    var watching: bool  // a handler waits on `disconnected` and has not run yet

    /** Cancel and close are called together, each at most once, and never while the
        disconnection handler is still waiting. */
    ghost predicate Valid()
      reads this
    {
      readCancels == writeCloses && readCancels <= 1 && (watching ==> readCancels == 0)
    }

    constructor (global: GlobalState, device: Device)
      ensures this.global == global && this.device == device
      ensures readCancels == 0 && writeCloses == 0 && !watching && Valid()
    {
      this.global := global;
      this.device := device;
      readCancels, writeCloses, watching := 0, 0, false;
    }

    /** `dispose`: cancel the read side and close the write side, swallowing
        whatever either reports, then clear the global device. */
    method Dispose(cancel: Outcome<Unit>, close: Outcome<Unit>)
      modifies this, global
      ensures readCancels == old(readCancels) + 1 && writeCloses == old(writeCloses) + 1
      ensures watching == old(watching)
      ensures global.device.None? && global.adb.None? && Scrcpy.StartButtonDisabled(global.adb)
      ensures global.errors == old(global.errors) && global.log == old(global.log)
    {
      readCancels := readCancels + 1;   // readable.cancel(); a failure is ignored
      writeCloses := writeCloses + 1;   // await writable.close(); a failure is ignored
      global.SetDevice(None, None);
    }

    /** `device.disconnected.then(...)`: register the handler. */
    method Watch()
      requires Valid() && readCancels == 0
      modifies this
      ensures watching && Valid()
      ensures readCancels == old(readCancels) && writeCloses == old(writeCloses)
    {
      watching := true;
    }

    /** The handler runs when `disconnected` settles: a rejection is reported
        first; either way cancel and close are called and the device cleared. */
    method OnDisconnected(outcome: Outcome<Unit>, cancel: Outcome<Unit>, close: Outcome<Unit>)
      requires Valid() && watching
      modifies this, global
      ensures Valid() && !watching && readCancels == 1 && writeCloses == 1
      ensures global.errors == old(global.errors) + (if outcome.Err? then [outcome.error] else [])
      ensures global.device.None? && global.adb.None? && global.log == old(global.log)
      ensures Scrcpy.StartButtonDisabled(global.adb)
    {
      watching := false;
      if outcome.Err? {
        global.ShowErrorDialog(outcome.error);
      }
      Dispose(cancel, close);
    }
  }

  /** The state of the connect panel. */
  class ConnectPanel {
    const global: GlobalState
    const storage: LocalStorage
    var selected: Option<Device>
    var connecting: bool
    var usbSupported: bool
    var usbDevices: seq<Device>
    var webSocketDevices: seq<Device>
    var directSocketsDevices: seq<Device>
    var usbWatching: bool  // the WebUSB device watcher is registered

    ghost predicate Valid()
      reads this`webSocketDevices, this`directSocketsDevices
    {
      AllWebSocket(webSocketDevices) && AllDirectSockets(directSocketsDevices)
    }

    /** `deviceList`: USB devices, then WebSocket devices, then direct-socket
        devices, each group in its own order. */
    function DeviceList(): (list: seq<Device>)
      reads this`usbDevices, this`webSocketDevices, this`directSocketsDevices
      ensures |list| == |usbDevices| + |webSocketDevices| + |directSocketsDevices|
      ensures forall i :: 0 <= i < |usbDevices| ==> list[i] == usbDevices[i]
      ensures forall i :: 0 <= i < |webSocketDevices| ==> (
        list[|usbDevices| + i] == webSocketDevices[i])
      ensures forall i :: 0 <= i < |directSocketsDevices| ==> (
        list[|usbDevices| + |webSocketDevices| + i] == directSocketsDevices[i])
    {
      usbDevices + webSocketDevices + directSocketsDevices
    }

    /** `deviceOptions` */
    function Options(): seq<DropdownOption>
      reads this`usbDevices, this`webSocketDevices, this`directSocketsDevices
    {
      DeviceOptions(DeviceList())
    }

    /** What the selection rule guarantees: something is selected exactly
        when there is a device, and it is one of the listed devices. */
    predicate SelectionSettled()
      reads this`selected, this`usbDevices, this`webSocketDevices, this`directSocketsDevices
    {
      (selected.None? <==> DeviceList() == []) &&
      (selected.Some? ==> selected.value in DeviceList())
    }

    /** The connect button is enabled. Once the selection rule has run, that
        is exactly when the dropdown has an option. */
    predicate ConnectEnabled()
      reads this`selected, this`usbDevices, this`webSocketDevices, this`directSocketsDevices
      ensures SelectionSettled() ==> (ConnectEnabled() <==> |Options()| > 0)
    {
      selected.Some?
    }

    /** The device dropdown is disabled. Once the selection rule has run, that
        is while connected or while there is nothing to connect to. */
    predicate DropdownDisabled()
      reads this`selected, this`usbDevices, this`webSocketDevices, this`directSocketsDevices, global
      ensures SelectionSettled() ==> (DropdownDisabled() <==> global.adb.Some? || !ConnectEnabled())
    {
      global.adb.Some? || |Options()| == 0
    }

    constructor (global: GlobalState, storage: LocalStorage)
      ensures this.global == global && this.storage == storage
      ensures selected.None? && !connecting && usbSupported && !usbWatching
      ensures usbDevices == [] && webSocketDevices == [] && directSocketsDevices == []
      ensures Valid() && SelectionSettled()
    {
      this.global := global;
      this.storage := storage;
      selected, connecting, usbSupported, usbWatching := None, false, true, false;
      usbDevices, webSocketDevices, directSocketsDevices := [], [], [];
    }

    /** The selection effect, run after a device list was replaced. */
    method Reselect()
      modifies this`selected
      ensures selected == ResolveSelection(old(selected), DeviceList())
      ensures SelectionSettled()
    {
      selected := ResolveSelection(selected, DeviceList());
    }

    /** The mount effect for WebUSB: without support, report it and stop;
        otherwise enumerate the devices and register the watcher. */
    method MountUsb(supported: bool, enumeration: Outcome<seq<Device>>)
      modifies this, global
      ensures usbSupported == supported
      ensures webSocketDevices == old(webSocketDevices) && directSocketsDevices == old(directSocketsDevices)
      ensures connecting == old(connecting)
      ensures global.device == old(global.device) && global.adb == old(global.adb)
      ensures global.log == old(global.log)
      ensures !supported ==> (global.errors == old(global.errors) + [WebUsbUnsupported] &&
        usbWatching == old(usbWatching) && usbDevices == old(usbDevices) && selected == old(selected))
      ensures supported ==> global.errors == old(global.errors) && usbWatching
      ensures supported && enumeration.Ok? ==> (usbDevices == enumeration.value &&
        selected == ResolveSelection(old(selected), DeviceList()) && SelectionSettled())
      ensures supported && enumeration.Err? ==> usbDevices == old(usbDevices) && selected == old(selected)
    {
      usbSupported := supported;
      if !supported {
        global.ShowErrorDialog(WebUsbUnsupported);
        return;
      }
      if enumeration.Ok? {
        usbDevices := enumeration.value;
        Reselect();
      }
      usbWatching := true;
    }

    /** The cleanup of the WebUSB effect: dispose of the watcher. */
    method UnmountUsb()
      modifies this`usbWatching
      ensures !usbWatching
    {
      usbWatching := false;
    }

    /** The watcher's callback: re-enumerate; when a serial is reported,
        select the USB device with that serial (or nothing); the selection
        effect then runs on the new list. */
    method OnUsbDevicesChanged(serial: Option<string>, enumeration: Outcome<seq<Device>>)
      requires usbWatching
      modifies this
      ensures usbSupported == old(usbSupported) && usbWatching && connecting == old(connecting)
      ensures webSocketDevices == old(webSocketDevices) && directSocketsDevices == old(directSocketsDevices)
      ensures enumeration.Err? ==> usbDevices == old(usbDevices) && selected == old(selected)
      ensures enumeration.Ok? ==> (usbDevices == enumeration.value && SelectionSettled() &&
        selected == ResolveSelection(
          if serial.Some? && serial.value != "" then FindBySerial(enumeration.value, serial.value)
          else old(selected),
          DeviceList()))
    {
      if enumeration.Err? {
        return;
      }
      usbDevices := enumeration.value;
      if serial.Some? && serial.value != "" {
        selected := FindBySerial(usbDevices, serial.value);
      }
      Reselect();
    }

    /** `addUsbDevice`: ask the browser for a device, select it, then
        re-enumerate; a refused request changes nothing. */
    method AddUsbDevice(request: Outcome<Option<Device>>, enumeration: Outcome<seq<Device>>)
      modifies this`selected, this`usbDevices
      ensures request.Err? ==> usbDevices == old(usbDevices) && selected == old(selected)
      ensures request.Ok? && enumeration.Err? ==> (usbDevices == old(usbDevices) &&
        selected == request.value)
      ensures request.Ok? && enumeration.Ok? ==> (usbDevices == enumeration.value &&
        selected == ResolveSelection(request.value, DeviceList()) && SelectionSettled())
      ensures request == Ok(None) && enumeration.Ok? ==> selected == First(DeviceList())
    {
      if request.Err? {
        return;
      }
      selected := request.value;
      if enumeration.Err? {
        return;
      }
      usbDevices := enumeration.value;
      Reselect();
    }

    /** `addWebSocketDevice`: an empty or cancelled prompt changes nothing;
        otherwise the relay is appended and the whole list is stored. */
    method AddWebSocketDevice(input: Option<string>)
      requires Valid()
      modifies this`webSocketDevices, this`selected, storage
      ensures Valid()
      ensures (input.None? || input.value == "") ==> (webSocketDevices == old(webSocketDevices) &&
        storage.items == old(storage.items) && selected == old(selected))
      ensures input.Some? && input.value != "" ==> (
        webSocketDevices == old(webSocketDevices) + [WebSocket(input.value)] &&
        storage.items == old(storage.items)[WebSocketListKey := WebSocketRecords(webSocketDevices)] &&
        selected == ResolveSelection(old(selected), DeviceList()) && SelectionSettled())
    {
      if input.None? || input.value == "" {
        return;
      }
      webSocketDevices := webSocketDevices + [WebSocket(input.value)];
      storage.SetItem(WebSocketListKey, WebSocketRecords(webSocketDevices));
      Reselect();
    }

    /** The mount effect that restores the direct-socket list from storage
        when the platform supports direct sockets and a list was saved. */
    method LoadDirectSocketsDevices(supported: bool)
      requires Valid()
      modifies this`directSocketsDevices, this`selected
      ensures Valid()
      ensures (!supported || DirectSocketsListKey !in storage.items) ==> (
        directSocketsDevices == old(directSocketsDevices) && selected == old(selected))
      ensures supported && DirectSocketsListKey in storage.items ==> (
        directSocketsDevices == LoadDirectSockets(storage.items[DirectSocketsListKey]) &&
        selected == ResolveSelection(old(selected), DeviceList()) && SelectionSettled())
    {
      if !supported || DirectSocketsListKey !in storage.items {
        return;
      }
      directSocketsDevices := LoadDirectSockets(storage.items[DirectSocketsListKey]);
      Reselect();
    }

    /** `addTcpDevice`: an empty or cancelled host or port prompt changes
        nothing; otherwise the device is appended with the parsed port and the
        whole list is stored, so that reloading it gives the list back. */
    method AddDirectSocketsDevice(hostInput: Option<string>, portInput: Option<string>)
      requires Valid()
      modifies this`directSocketsDevices, this`selected, storage
      ensures Valid()
      ensures (hostInput.None? || hostInput.value == "" || portInput.None? || portInput.value == "") ==> (
        directSocketsDevices == old(directSocketsDevices) && storage.items == old(storage.items) &&
        selected == old(selected))
      ensures hostInput.Some? && hostInput.value != "" && portInput.Some? && portInput.value != "" ==> (
        directSocketsDevices ==
          old(directSocketsDevices) + [DirectSockets(hostInput.value, Some(ParseInt(portInput.value)))] &&
        storage.items == old(storage.items)[DirectSocketsListKey := DirectSocketsRecords(directSocketsDevices)] &&
        LoadDirectSockets(storage.items[DirectSocketsListKey]) == directSocketsDevices &&
        selected == ResolveSelection(old(selected), DeviceList()) && SelectionSettled())
    {
      if hostInput.Some? && hostInput.value != "" && portInput.Some? && portInput.value != "" {
        AppendDirectSocketsDevice(DirectSockets(hostInput.value, Some(ParseInt(portInput.value))));
      }
    }

    /** Append a direct-socket device, store the whole list's records and
        re-resolve the selection. */
    method AppendDirectSocketsDevice(device: Device)
      requires Valid() && device.DirectSockets?
      modifies this`directSocketsDevices, this`selected, storage
      ensures Valid()
      ensures directSocketsDevices == old(directSocketsDevices) + [device]
      ensures storage.items == old(storage.items)[DirectSocketsListKey := DirectSocketsRecords(directSocketsDevices)]
      ensures LoadDirectSockets(storage.items[DirectSocketsListKey]) == directSocketsDevices
      ensures selected == ResolveSelection(old(selected), DeviceList()) && SelectionSettled()
    {
      var devices := directSocketsDevices + [device];
      DirectSocketsRecordsAppend(directSocketsDevices, device);
      DirectSocketsRoundTrip(devices);
      directSocketsDevices := devices;
      assert Valid();
      storage.SetItem(DirectSocketsListKey, DirectSocketsRecords(devices));
      assert selected == old(selected);
      Reselect();
    }

    /** `handleSelectedChange`: select the device behind the chosen option. */
    method HandleSelectedChange(option: Option<DropdownOption>)
      modifies this`selected
      ensures selected == (if option.Some? then Some(option.value.data) else None)
      ensures option.Some? && option.value in old(Options()) ==> SelectionSettled()
    {
      selected := if option.Some? then Some(option.value.data) else None;
    }

    /** `connect`: with nothing selected, nothing happens. Otherwise open the
        selected device's streams (a failure is reported and ends the call),
        run the authentication handshake through the packet-logging streams,
        then either publish the connection and watch for its end, or report
        the failure and dispose of the streams. `connecting` is false again
        when the call returns. */
    method Connect(open: Outcome<Unit>, handshake: seq<Transfer>, auth: Outcome<Adb>,
                   cancel: Outcome<Unit>, close: Outcome<Unit>)
      returns (session: Option<Session>)
      modifies this`connecting, global
      ensures !ConnectEnabled() ==> (session.None? && connecting == old(connecting) &&
        global.device == old(global.device) && global.adb == old(global.adb) &&
        global.errors == old(global.errors) && global.log == old(global.log))
      ensures ConnectEnabled() ==> !connecting
      ensures selected.Some? && open.Err? ==> (session.None? &&
        global.errors == old(global.errors) + [open.error] &&
        global.device == old(global.device) && global.adb == old(global.adb) &&
        global.log == old(global.log))
      ensures selected.Some? && open.Ok? ==> (session.Some? && fresh(session.value) &&
        session.value.global == global && session.value.device == selected.value &&
        session.value.Valid() && global.log == old(global.log) + LogOf(handshake))
      ensures selected.Some? && open.Ok? && auth.Ok? ==> (
        global.device == selected && global.adb == Some(auth.value) &&
        global.errors == old(global.errors) &&
        session.value.watching && session.value.readCancels == 0 &&
        DropdownDisabled() && !Scrcpy.StartButtonDisabled(global.adb))
      ensures selected.Some? && open.Ok? && auth.Err? ==> (
        global.device.None? && global.adb.None? &&
        global.errors == old(global.errors) + [auth.error] &&
        !session.value.watching && session.value.readCancels == 1 && session.value.writeCloses == 1)
    {
      session := None;
      if selected.None? {
        return;
      }
      var device := selected.value;
      connecting := true;
      if open.Err? {
        global.ShowErrorDialog(open.error);
        connecting := false;
        return;
      }
      var s := new Session(global, device);
      var _ := InspectTraffic(global, handshake);
      if auth.Ok? {
        s.Watch();
        global.SetDevice(Some(device), Some(auth.value));
      } else {
        global.ShowErrorDialog(auth.error);
        s.Dispose(cancel, close);
      }
      connecting := false;
      session := Some(s);
    }

    /** The effect on the `address` and `port` properties: when both are
        given, a relay at `ws://address:port` is appended (not stored), then
        `connect` runs for the selection the render saw, and the selection
        effect runs on the longer list. */
    method OnAddressOrPortChanged(address: Option<string>, port: Option<string>,
                                  open: Outcome<Unit>, handshake: seq<Transfer>, auth: Outcome<Adb>,
                                  cancel: Outcome<Unit>, close: Outcome<Unit>)
      returns (session: Option<Session>)
      requires Valid()
      modifies this`webSocketDevices, this`selected, this`connecting, global
      ensures Valid()
      ensures webSocketDevices == old(webSocketDevices) +
        (if address.Some? && port.Some? then [WebSocket("ws://" + address.value + ":" + port.value)] else [])
      ensures selected == ResolveSelection(old(selected), DeviceList()) && SelectionSettled()
      ensures old(selected).None? ==> (session.None? && connecting == old(connecting) &&
        global.device == old(global.device) && global.adb == old(global.adb) &&
        global.errors == old(global.errors) && global.log == old(global.log))
      ensures old(selected).Some? ==> !connecting
      ensures old(selected).Some? && open.Err? ==> (session.None? &&
        global.errors == old(global.errors) + [open.error] &&
        global.device == old(global.device) && global.adb == old(global.adb) &&
        global.log == old(global.log))
      ensures old(selected).Some? && open.Ok? ==> (session.Some? && fresh(session.value) &&
        session.value.global == global && session.value.device == old(selected).value &&
        session.value.Valid() && global.log == old(global.log) + LogOf(handshake))
      ensures old(selected).Some? && open.Ok? && auth.Ok? ==> (
        global.device == old(selected) && global.adb == Some(auth.value) &&
        global.errors == old(global.errors) &&
        session.value.watching && session.value.readCancels == 0)
      ensures old(selected).Some? && open.Ok? && auth.Err? ==> (
        global.device.None? && global.adb.None? &&
        global.errors == old(global.errors) + [auth.error] &&
        !session.value.watching && session.value.readCancels == 1 && session.value.writeCloses == 1)
    {
      if address.Some? && port.Some? {
        webSocketDevices := webSocketDevices + [WebSocket("ws://" + address.value + ":" + port.value)];
      }
      session := Connect(open, handshake, auth, cancel, close);
      Reselect();
    }

    /** `disconnect`: ask the adb connection to close and report what that
        raises; the device itself is cleared by the disconnection handler. */
    method Disconnect(close: Outcome<Unit>)
      modifies global
      ensures global.device == old(global.device) && global.adb == old(global.adb)
      ensures global.log == old(global.log)
      ensures old(global.adb).None? ==> global.errors == old(global.errors) + [TypeError("GLOBAL_STATE.adb")]
      ensures old(global.adb).Some? ==> (
        global.errors == old(global.errors) + (if close.Err? then [close.error] else []))
    {
      if global.adb.None? {
        global.ShowErrorDialog(TypeError("GLOBAL_STATE.adb"));
        return;
      }
      if close.Err? {
        global.ShowErrorDialog(close.error);
      }
    }
  }

  /** A relay device is selected and connected, the handshake exchanges two
      packets, then the user disconnects and the connection ends: the panel
      was connected, both packets were logged, and it ends idle with
      cancel and close each called exactly once. */
  method ConnectThenDisconnect(usb: Device, relay: string, hello: Packet, reply: Packet)
    returns (wasConnected: bool, logged: nat, idle: bool, released: bool)
    ensures wasConnected && logged == 2 && idle && released
  {
    var global := new GlobalState();
    var storage := new LocalStorage(map[]);
    var panel := new ConnectPanel(global, storage);
    panel.MountUsb(true, Ok([usb]));
    assert global.log == [] && global.errors == [];
    panel.AddWebSocketDevice(Some(relay));
    panel.HandleSelectedChange(Some(DropdownOption(relay, relay + " ", WebSocket(relay))));
    assert panel.selected == Some(WebSocket(relay));
    var traffic := [Outbound(Consumable(hello)), Inbound(reply)];
    assert |LogOf(traffic)| == 2;
    var session := panel.Connect(Ok(Unit), traffic, Ok(Adb(1)), Ok(Unit), Ok(Unit));
    wasConnected := global.device == Some(WebSocket(relay)) && global.adb.Some?;
    assert wasConnected && global.errors == [];
    logged := |global.log|;
    panel.Disconnect(Ok(Unit));
    session.value.OnDisconnected(Ok(Unit), Ok(Unit), Ok(Unit));
    idle := global.device.None? && global.adb.None? && !panel.connecting && global.errors == [];
    released := session.value.readCancels == 1 && session.value.writeCloses == 1;
  }
}
