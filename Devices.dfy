/** The device registry of the connect panel as values: the three kinds of
    device, their serials and names, the dropdown options built from them, the
    records they are persisted as, the re-selection rule and the "add" menu. */
module Devices {
  import opened Outcomes
  import opened JsNumbers

  /** A device the panel can connect to. */
  datatype Device =
    | Usb(usbSerial: string, productName: Option<string>)  // reported by WebUSB enumeration
    | WebSocket(address: string)                            // a WebSockify relay URL
    | DirectSockets(host: string, port: Option<ParsedInt>)  // None: the port is `undefined`

  /** The identifier the dropdown keys on and re-selection compares. A
      direct-socket device is identified as `${host}:${port}`. */
  function Serial(d: Device): string
  {
    match d
    case Usb(serial, _) => serial
    case WebSocket(address) => address
    case DirectSockets(host, port) =>
      host + ":" + (match port case Some(p) => ParsedText(p) case None => "undefined")
  }

  /** The human-readable name; only WebUSB devices carry one here. */
  function Name(d: Device): Option<string>
  {
    match d
    case Usb(_, name) => name
    case _ => None
  }

  /** `device.name` is truthy. */
  predicate HasName(d: Device)
  {
    Name(d).Some? && Name(d).value != ""
  }

  // ---------------------------------------------------------------------
  // Dropdown options
  // ---------------------------------------------------------------------

  datatype DropdownOption = DropdownOption(key: string, text: string, data: Device)

  /** `${serial} ${name ? `(${name})` : ""}`: the text starts with the
      serial and a space, and is nothing more exactly when the device has no
      name; a named device's text ends with its name in parentheses. */
  function OptionText(d: Device): (text: string)
    ensures |text| > |Serial(d)| && text[..|Serial(d)| + 1] == Serial(d) + " "
    ensures text == Serial(d) + " " <==> !HasName(d)
    ensures HasName(d) ==> text[|Serial(d)| + 1..] == "(" + Name(d).value + ")"
  {
    Serial(d) + " " + (if HasName(d) then "(" + Name(d).value + ")" else "")
  }

  /** One option per device, in list order, keyed by the device's serial. */
  function DeviceOptions(list: seq<Device>): (options: seq<DropdownOption>)
    ensures |options| == |list|
    ensures forall i :: 0 <= i < |list| ==>
      options[i].key == Serial(list[i]) && options[i].data == list[i] &&
      options[i].text == OptionText(list[i])
  {
    if list == [] then []
    else [DropdownOption(Serial(list[0]), OptionText(list[0]), list[0])] + DeviceOptions(list[1..])
  }

  /** A selected device that is in the list is shown by the dropdown: its
      serial (the dropdown's `selectedKey`) is the key of the option for it. */
  lemma SelectedKeyListed(list: seq<Device>, selected: Device)
    requires selected in list
    ensures exists i :: (0 <= i < |DeviceOptions(list)| &&
      DeviceOptions(list)[i].key == Serial(selected) && DeviceOptions(list)[i].data == selected)
  {
    var i :| 0 <= i < |list| && list[i] == selected;
    assert DeviceOptions(list)[i].data == selected;
  }

  // ---------------------------------------------------------------------
  // Selection
  // ---------------------------------------------------------------------

  /** `list.find(d => d.serial === serial)`: the first device with that serial. */
  function FindBySerial(list: seq<Device>, serial: string): (found: Option<Device>)
    ensures found.None? <==> forall d :: d in list ==> Serial(d) != serial
    ensures found.Some? ==> found.value in list && Serial(found.value) == serial
    ensures found.Some? ==> exists k :: (0 <= k < |list| && list[k] == found.value &&
      forall j :: 0 <= j < k ==> Serial(list[j]) != serial)
  {
    if list == [] then None
    else if Serial(list[0]) == serial then Some(list[0])
    else
      var rest := FindBySerial(list[1..], serial);
      assert forall d :: d in list[1..] ==> d in list;
      assert rest.Some? ==> exists k :: (1 <= k < |list| && list[k] == rest.value &&
        forall j :: 1 <= j < k ==> Serial(list[j]) != serial)
      by {
        if rest.Some? {
          var k :| 0 <= k < |list[1..]| && list[1..][k] == rest.value &&
            forall j :: 0 <= j < k ==> Serial(list[1..][j]) != serial;
          assert list[k + 1] == rest.value;
          forall j | 1 <= j < k + 1 ensures Serial(list[j]) != serial {
            assert list[j] == list[1..][j - 1];
          }
        }
      }
      rest
  }

  /** `list.length ? list[0] : undefined` */
  function First(list: seq<Device>): Option<Device>
  {
    if |list| > 0 then Some(list[0]) else None
  }

  /** The selection after the device list changed: the device with the
      previously selected serial if the list still has one, else the first
      device, else nothing. */
  function ResolveSelection(previous: Option<Device>, list: seq<Device>): (r: Option<Device>)
    ensures r.None? <==> list == []
    ensures r.Some? ==> r.value in list
    ensures previous.Some? && (exists d :: d in list && Serial(d) == Serial(previous.value)) ==>
      r.Some? && Serial(r.value) == Serial(previous.value) && r == FindBySerial(list, Serial(previous.value))
    ensures (previous.None? || forall d :: d in list ==> Serial(d) != Serial(previous.value)) ==>
      r == First(list)
  {
    if previous.Some? then
      match FindBySerial(list, Serial(previous.value))
      case Some(current) => Some(current)
      case None => First(list)
    else First(list)
  }

  /** No two devices in the list share a serial. */
  predicate UniqueSerials(list: seq<Device>)
  {
    forall i, j :: 0 <= i < j < |list| ==> Serial(list[i]) != Serial(list[j])
  }

  /** When serials are unique, a selected device still in the list stays
      selected, as the very same device. */
  lemma ResolveKeepsPresent(previous: Device, list: seq<Device>)
    requires previous in list && UniqueSerials(list)
    ensures ResolveSelection(Some(previous), list) == Some(previous)
  {
    var found := FindBySerial(list, Serial(previous));
    var k :| 0 <= k < |list| && list[k] == found.value &&
      forall j :: 0 <= j < k ==> Serial(list[j]) != Serial(previous);
    var p :| 0 <= p < |list| && list[p] == previous;
    if p != k {
      assert false;
    }
  }

  /** Re-running the rule on an unchanged list changes nothing. */
  lemma ResolveIdempotent(previous: Option<Device>, list: seq<Device>)
    ensures ResolveSelection(ResolveSelection(previous, list), list) == ResolveSelection(previous, list)
  {
    var once := ResolveSelection(previous, list);
    if once.Some? {
      var d := once.value;
      if previous.Some? && FindBySerial(list, Serial(previous.value)).Some? {
        assert Serial(d) == Serial(previous.value);
      } else {
        assert d == list[0];
        assert FindBySerial(list, Serial(list[0])) == Some(list[0]);
      }
    }
  }

  // ---------------------------------------------------------------------
  // Persisted records
  // ---------------------------------------------------------------------

  /** A stored `{address, port?}` record. */
  datatype Record = Record(address: string, port: Option<ParsedInt>)

  predicate AllWebSocket(list: seq<Device>)
  {
    forall i :: 0 <= i < |list| ==> list[i].WebSocket?
  }

  predicate AllDirectSockets(list: seq<Device>)
  {
    forall i :: 0 <= i < |list| ==> list[i].DirectSockets?
  }

  /** `list.map(x => ({ address: x.serial }))` */
  function WebSocketRecords(list: seq<Device>): (records: seq<Record>)
    ensures |records| == |list|
    ensures forall i :: 0 <= i < |list| ==> records[i] == Record(Serial(list[i]), None)
  {
    if list == [] then [] else [Record(Serial(list[0]), None)] + WebSocketRecords(list[1..])
  }

  /** `list.map(x => ({ address: x.host, port: x.port }))` */
  function DirectSocketsRecords(list: seq<Device>): (records: seq<Record>)
    requires AllDirectSockets(list)
    ensures |records| == |list|
    ensures forall i {:trigger records[i]} :: 0 <= i < |list| ==> records[i] == Record(list[i].host, list[i].port)
  {
    if list == [] then []
    else [Record(list[0].host, list[0].port)] + DirectSocketsRecords(list[1..])
  }

  /** `parsed.map(x => new AdbDaemonDirectSocketsDevice(x.address, x.port))` */
  function LoadDirectSockets(records: seq<Record>): (list: seq<Device>)
    ensures |list| == |records| && AllDirectSockets(list)
    ensures forall i {:trigger list[i]} :: 0 <= i < |records| ==> list[i] == DirectSockets(records[i].address, records[i].port)
  {
    if records == [] then []
    else [DirectSockets(records[0].address, records[0].port)] + LoadDirectSockets(records[1..])
  }

  /** Reloading the stored direct-socket records rebuilds the same devices,
      host and port alike, in the same order. */
  lemma {:induction false} DirectSocketsRoundTrip(list: seq<Device>)
    requires AllDirectSockets(list)
    ensures LoadDirectSockets(DirectSocketsRecords(list)) == list
  {
    if list != [] {
      DirectSocketsRoundTrip(list[1..]);
    }
  }

  /** Appending a device appends exactly its record to what is stored. */
  lemma {:induction false} DirectSocketsRecordsAppend(list: seq<Device>, d: Device)
    requires AllDirectSockets(list) && d.DirectSockets?
    ensures AllDirectSockets(list + [d])
    ensures DirectSocketsRecords(list + [d]) == DirectSocketsRecords(list) + [Record(d.host, d.port)]
  {
    if list != [] {
      assert (list + [d])[1..] == list[1..] + [d];
      DirectSocketsRecordsAppend(list[1..], d);
    }
  }

  // ---------------------------------------------------------------------
  // The "add" menu
  // ---------------------------------------------------------------------

  datatype AddAction = AddUsb | AddWebSocket | AddDirectSockets

  datatype MenuItem = MenuItem(key: string, text: string, onClick: AddAction)

  const UsbItem := MenuItem("usb", "USB", AddUsb)
  const WebSocketItem := MenuItem("websocket", "WebSocket", AddWebSocket)
  const DirectSocketsItem := MenuItem("direct-sockets", "Direct Sockets TCP", AddDirectSockets)

  function Rank(a: AddAction): nat
  {
    match a
    case AddUsb => 0
    case AddWebSocket => 1
    case AddDirectSockets => 2
  }

  /** The entries of the split button's menu: WebSocket always, USB only when
      WebUSB is supported, direct sockets only when the platform has them,
      in the order USB, WebSocket, direct sockets. */
  function AddMenuItems(usbSupported: bool, directSocketsSupported: bool): (items: seq<MenuItem>)
    ensures WebSocketItem in items
    ensures UsbItem in items <==> usbSupported
    ensures DirectSocketsItem in items <==> directSocketsSupported
    ensures forall i :: 0 <= i < |items| ==> items[i] in {UsbItem, WebSocketItem, DirectSocketsItem}
    ensures forall i, j :: 0 <= i < j < |items| ==> Rank(items[i].onClick) < Rank(items[j].onClick)
  {
    (if usbSupported then [UsbItem] else []) + [WebSocketItem] +
    (if directSocketsSupported then [DirectSocketsItem] else [])
  }
}
