/** The application-wide state the pages share (the current device and its
    adb connection, the error dialog, the packet log), and the packet log
    entries recorded by the inspecting streams of a connection. */
module AppState {
  import opened Outcomes
  import opened Devices

  /** An authenticated adb connection; the protocol behind it is opaque. */
  datatype Adb = Adb(handle: nat)

  /** An adb packet as read from the device. */
  datatype Packet = Packet(command: nat, arg0: nat, arg1: nat, payload: seq<int>)

  /** An outbound packet as handed to the writable side: wrapped so the
      writer can signal when it has been consumed. */
  datatype Consumable = Consumable(value: Packet)

  /** One unit crossing the connection, in either direction. */
  datatype Transfer = Inbound(packet: Packet) | Outbound(consumable: Consumable)

  datatype Direction = In | Out

  datatype LogEntry = LogEntry(direction: Direction, packet: Packet)

  /** What the inspecting stream records for one unit: an inbound packet as
      "in", the value of an outbound consumable as "out". */
  function EntryOf(t: Transfer): LogEntry
  {
    match t
    case Inbound(p) => LogEntry(In, p)
    case Outbound(c) => LogEntry(Out, c.value)
  }

  /** The log a sequence of units leaves, one entry per unit, in order. */
  function LogOf(traffic: seq<Transfer>): (log: seq<LogEntry>)
    ensures |log| == |traffic|
  {
    if traffic == [] then [] else LogOf(traffic[..|traffic| - 1]) + [EntryOf(traffic[|traffic| - 1])]
  }

  /** Entry `i` of the log records unit `i`, with its direction. */
  lemma {:induction false} LogOfAt(traffic: seq<Transfer>, i: nat)
    requires i < |traffic|
    ensures LogOf(traffic)[i] == EntryOf(traffic[i])
    ensures LogOf(traffic)[i].direction == (if traffic[i].Inbound? then In else Out)
  {
    if i < |traffic| - 1 {
      LogOfAt(traffic[..|traffic| - 1], i);
    }
  }

  /** Logging two stretches of traffic one after the other gives the log of
      the whole traffic. */
  lemma {:induction false} LogOfConcat(a: seq<Transfer>, b: seq<Transfer>)
    ensures LogOf(a + b) == LogOf(a) + LogOf(b)
  {
    if b != [] {
      assert (a + b)[..|a + b| - 1] == a + b[..|b| - 1];
      LogOfConcat(a, b[..|b| - 1]);
    } else {
      assert a + b == a;
    }
  }

  /** `GLOBAL_STATE`: the device the panel is connected to, its adb
      connection, the errors shown in the error dialog and the packet log. */
  class GlobalState {
    var device: Option<Device>
    var adb: Option<Adb>
    var errors: seq<Error>
    var log: seq<LogEntry>

    constructor ()
      ensures device.None? && adb.None? && errors == [] && log == []
    {
      device, adb := None, None;
      errors, log := [], [];
    }

    method SetDevice(d: Option<Device>, a: Option<Adb>)
      modifies this
      ensures device == d && adb == a
      ensures errors == old(errors) && log == old(log)
    {
      device, adb := d, a;
    }

    method ShowErrorDialog(e: Error)
      modifies this
      ensures errors == old(errors) + [e]
      ensures device == old(device) && adb == old(adb) && log == old(log)
    {
      errors := errors + [e];
    }

    method AppendLog(direction: Direction, packet: Packet)
      modifies this
      ensures log == old(log) + [LogEntry(direction, packet)]
      ensures device == old(device) && adb == old(adb) && errors == old(errors)
    {
      log := log + [LogEntry(direction, packet)];
    }
  }

  /** The two `InspectStream`s around a connection's streams: every unit is
      logged and forwarded unchanged, one at a time, in order. */
  method InspectTraffic(global: GlobalState, traffic: seq<Transfer>) returns (forwarded: seq<Transfer>)
    modifies global
    ensures forwarded == traffic
    ensures global.log == old(global.log) + LogOf(traffic)
    ensures global.device == old(global.device) && global.adb == old(global.adb)
    ensures global.errors == old(global.errors)
  {
    forwarded := [];
    var i := 0;
    while i < |traffic|
      invariant 0 <= i <= |traffic|
      invariant forwarded == traffic[..i]
      invariant global.log == old(global.log) + LogOf(traffic[..i])
      invariant global.device == old(global.device) && global.adb == old(global.adb)
      invariant global.errors == old(global.errors)
    {
      match traffic[i] {
        case Inbound(p) => global.AppendLog(In, p);
        case Outbound(c) => global.AppendLog(Out, c.value);
      }
      assert traffic[..i + 1][..i] == traffic[..i];
      forwarded := forwarded + [traffic[i]];
      i := i + 1;
    }
    assert traffic[..i] == traffic;
  }
}
