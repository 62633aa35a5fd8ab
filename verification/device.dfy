/**
  The device controller: a static table from device id to Modbus address,
  and turning a device on or off by sending one Write Single Register frame.
  Sending over the serial port is outside the model; its success is the
  boolean `send` returns for the frame.
 */
module Device {
  import opened Wrappers
  import J = Json
  import Modbus

  /** Where a device sits on the bus and how it is called in replies. */
  datatype DeviceInfo = DeviceInfo(slaveId: int, register: int, name: string)

  const OnValue: int := 0x02
  const OffValue: int := 0x01

  const DeviceMap: map<string, DeviceInfo> := map[
    "kitchen_lamp" := DeviceInfo(0x36, 1, "Kitchen Lamp"),
    "bathroom_lamp" := DeviceInfo(0x36, 2, "Bathroom Lamp"),
    "room1_lamp" := DeviceInfo(0x36, 3, "Room 1 Lamp"),
    "room2_lamp" := DeviceInfo(0x36, 4, "Room 2 Lamp"),
    "room1_ac" := DeviceInfo(0x37, 1, "Room 1 AC Unit"),
    "kitchen_ac" := DeviceInfo(0x37, 2, "Kitchen AC Unit"),
    "living_room_tv" := DeviceInfo(0x37, 3, "Living Room TV")
  ]

  const Lamps: set<string> := {"kitchen_lamp", "bathroom_lamp", "room1_lamp", "room2_lamp"}

  /** The result dictionary of a control call. */
  datatype ControlResult =
    | Controlled(deviceName: string, action: string)
    | Failed(error: string)

  /** A control call: its result, and the frame handed to the serial port, if any. */
  datatype Control = Control(result: ControlResult, sent: Option<seq<Modbus.byte>>)

  /**
    The table's addressing: lamps answer at slave 0x36 on registers 1 to 4,
    the other devices at slave 0x37 on registers 1 to 3, and no two devices
    share a slave and register.
   */
  lemma DeviceMapAddressing()
    ensures forall id :: id in DeviceMap && id in Lamps ==>
      DeviceMap[id].slaveId == 0x36 && 1 <= DeviceMap[id].register <= 4
    ensures forall id :: id in DeviceMap && id !in Lamps ==>
      DeviceMap[id].slaveId == 0x37 && 1 <= DeviceMap[id].register <= 3
    ensures forall a, b :: a in DeviceMap && b in DeviceMap && a != b ==>
      (DeviceMap[a].slaveId, DeviceMap[a].register) != (DeviceMap[b].slaveId, DeviceMap[b].register)
    ensures Lamps <= DeviceMap.Keys
  {
  }

  /** Every entry of the table can be written: one-byte slave id, 16-bit register. */
  lemma DeviceMapWritable()
    ensures forall id :: id in DeviceMap ==>
      0 <= DeviceMap[id].slaveId < 0x100 && 0 <= DeviceMap[id].register < 0x1_0000
  {
  }

  /**
    `_control_device`: an unknown id is reported without building or sending
    anything; a known one gets the Write Single Register frame for its slave
    and register, and the result follows the send.  The value is one of the
    two constants the public operations pass.
   */
  function ControlDevice(deviceId: string, value: int, action: string, send: seq<Modbus.byte> -> bool): (r: Control)
    requires 0 <= value < 0x1_0000
    ensures deviceId !in DeviceMap ==>
      r == Control(Failed("Device '" + deviceId + "' not found."), None)
    ensures deviceId in DeviceMap ==>
      var info := DeviceMap[deviceId];
      && r.sent.Some?
      && Modbus.GenerateWriteCommand(info.slaveId, info.register, value) == r.sent
      && (send(r.sent.value) ==> r.result == Controlled(info.name, action))
      && (!send(r.sent.value) ==> r.result == Failed("Failed to send command to " + info.name + "."))
  {
    if deviceId !in DeviceMap then
      Control(Failed("Device '" + deviceId + "' not found."), None)
    else
      var info := DeviceMap[deviceId];
      DeviceMapWritable();
      var command := Modbus.GenerateWriteCommand(info.slaveId, info.register, value).value;
      if send(command) then
        Control(Controlled(info.name, action), Some(command))
      else
        Control(Failed("Failed to send command to " + info.name + "."), Some(command))
  }

  /** `turn_on_device`: writes 0x02 and reports "turned on". */
  function TurnOnDevice(deviceId: string, send: seq<Modbus.byte> -> bool): (r: Control)
    ensures r.sent.Some? <==> deviceId in DeviceMap
    ensures r.sent.Some? ==> |r.sent.value| == 8 && Modbus.Word(r.sent.value[4], r.sent.value[5]) == OnValue
    ensures r.result.Controlled? ==> r.result.action == "turned on"
  {
    ControlDevice(deviceId, OnValue, "turned on", send)
  }

  /** `turn_off_device`: writes 0x01 and reports "turned off". */
  function TurnOffDevice(deviceId: string, send: seq<Modbus.byte> -> bool): (r: Control)
    ensures r.sent.Some? <==> deviceId in DeviceMap
    ensures r.sent.Some? ==> |r.sent.value| == 8 && Modbus.Word(r.sent.value[4], r.sent.value[5]) == OffValue
    ensures r.result.Controlled? ==> r.result.action == "turned off"
  {
    ControlDevice(deviceId, OffValue, "turned off", send)
  }

  /** The frame sent for a device is addressed to that device and no other. */
  lemma FramesIdentifyDevice(a: string, b: string, value: int, actA: string, actB: string, send: seq<Modbus.byte> -> bool)
    requires a in DeviceMap && b in DeviceMap && a != b && 0 <= value < 0x1_0000
    ensures ControlDevice(a, value, actA, send).sent != ControlDevice(b, value, actB, send).sent
  {
    DeviceMapAddressing();
    var fa := ControlDevice(a, value, actA, send).sent.value;
    var fb := ControlDevice(b, value, actB, send).sent.value;
    assert fa[0] == DeviceMap[a].slaveId && fb[0] == DeviceMap[b].slaveId;
    assert Modbus.Word(fa[2], fa[3]) == DeviceMap[a].register;
    assert Modbus.Word(fb[2], fb[3]) == DeviceMap[b].register;
  }

  /** Turning a device on and turning it off never send the same frame. */
  lemma OnOffFramesDiffer(deviceId: string, send: seq<Modbus.byte> -> bool)
    requires deviceId in DeviceMap
    ensures TurnOnDevice(deviceId, send).sent != TurnOffDevice(deviceId, send).sent
  {
  }

  /** The result as the dictionary the Python function returns, keys in insertion order. */
  function ToJson(r: ControlResult): (j: J.Value)
    ensures j.Obj?
    ensures J.Truthy(J.GetOr(j.fields, "success", J.Null)) <==> r.Controlled?
    ensures r.Controlled? ==> J.Get(j.fields, "deviceName") == Some(J.Str(r.deviceName))
    ensures r.Controlled? ==> J.Get(j.fields, "action") == Some(J.Str(r.action))
    ensures r.Failed? ==> J.Get(j.fields, "error") == Some(J.Str(r.error))
  {
    match r
    case Controlled(name, action) =>
      var fields := [("success", J.Bool(true)), ("deviceName", J.Str(name)), ("action", J.Str(action))];
      assert J.Get(fields[..2], "success") == J.Get(fields[..1], "success");
      J.Obj(fields)
    case Failed(error) =>
      var fields := [("success", J.Bool(false)), ("error", J.Str(error))];
      assert J.Get(fields, "success") == J.Get(fields[..1], "success");
      J.Obj(fields)
  }
}
