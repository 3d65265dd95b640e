/**
 * The device configuration dialog: which tabs a device kind gets, the active tab, and the
 * handlers that build an updated device record for the store (name, one interface field,
 * code, LED colour, sensor reading) or ask it to delete the device.
 */
module ConfigurationModal {
  import opened Optional
  import opened Strings
  import opened Types
  import Graph
  import App

  /** `isIoTController`: the three programmable boards. */
  predicate IsIoTController(t: DeviceType) {
    t == Arduino || t == Esp32 || t == RaspberryPi
  }

  /** `isNetworkDevice`: the kinds with an interfaces tab. */
  predicate IsNetworkDevice(t: DeviceType) {
    t in [Pc, Laptop, Server, Router]
  }

  /** `isSensorOrActuator` */
  predicate IsSensorOrActuator(t: DeviceType) {
    IsSensorName(t) || IsActuatorName(t) || t == Relay
  }

  /** The sensors and actuators are the five sensors, the four actuators and the relay. */
  lemma Classification(t: DeviceType)
    ensures IsSensorOrActuator(t) <==> t in SensorKinds || t in ActuatorKinds || t == Relay
    ensures IsIoTController(t) <==> t in {Arduino, Esp32, RaspberryPi}
    ensures IsNetworkDevice(t) <==> t in {Pc, Laptop, Server, Router}
    ensures !(IsIoTController(t) && IsNetworkDevice(t)) && !(IsIoTController(t) && IsSensorOrActuator(t))
    ensures !(IsNetworkDevice(t) && IsSensorOrActuator(t))
  {
    SensorNames(t);
    ActuatorNames(t);
  }

  datatype Tab = General | Interfaces | Programming | IoConfig

  /** Which tab buttons the dialog shows for a device kind. */
  predicate TabVisible(t: DeviceType, tab: Tab) {
    match tab
    case General => true
    case Interfaces => IsNetworkDevice(t)
    case Programming => IsIoTController(t)
    case IoConfig => IsSensorOrActuator(t) || IsIoTController(t)
  }

  /**
   * General is always shown; a network device gets exactly General and Interfaces, a board
   * General, Programming and I/O, a sensor or actuator General and I/O, and the switch,
   * firewall, access point, cloud and GSM module only General.
   */
  lemma TabsByKind(t: DeviceType)
    ensures TabVisible(t, General)
    ensures IsNetworkDevice(t) ==> TabVisible(t, Interfaces) && !TabVisible(t, Programming) && !TabVisible(t, IoConfig)
    ensures IsIoTController(t) ==> !TabVisible(t, Interfaces) && TabVisible(t, Programming) && TabVisible(t, IoConfig)
    ensures IsSensorOrActuator(t) ==> !TabVisible(t, Interfaces) && !TabVisible(t, Programming) && TabVisible(t, IoConfig)
    ensures t in {Switch, Firewall, AccessPoint, Cloud, GsmModule} ==>
      !TabVisible(t, Interfaces) && !TabVisible(t, Programming) && !TabVisible(t, IoConfig)
  {
    Classification(t);
  }

  /** The interface fields the dialog edits. */
  datatype Field = Ip | Subnet | Gateway

  function SetField(iface: NetworkInterface, f: Field, v: string): NetworkInterface {
    match f
    case Ip => iface.(ip := v)
    case Subnet => iface.(subnet := v)
    case Gateway => iface.(gateway := v)
  }

  /** `handleInterfaceChange(index, field, value)`: copy the interfaces, overwrite one slot. */
  method InterfaceChange(device: Device, index: nat, f: Field, v: string) returns (updated: Device)
    requires index < |device.interfaces|
    ensures |updated.interfaces| == |device.interfaces|
    ensures updated.interfaces[index] == SetField(device.interfaces[index], f, v)
    ensures forall j :: 0 <= j < |device.interfaces| && j != index ==> updated.interfaces[j] == device.interfaces[j]
    ensures updated == device.(interfaces := updated.interfaces)
  {
    var copy := new NetworkInterface[|device.interfaces|];
    var k := 0;
    while k < copy.Length
      invariant 0 <= k <= copy.Length
      invariant forall j :: 0 <= j < k ==> copy[j] == device.interfaces[j]
    {
      copy[k] := device.interfaces[k];
      k := k + 1;
    }
    copy[index] := SetField(copy[index], f, v);
    updated := device.(interfaces := copy[..]);
  }

  /** Only the edited field of the interface changes; its id, name and peer stay. */
  lemma SetFieldSpec(iface: NetworkInterface, f: Field, v: string)
    ensures var r := SetField(iface, f, v);
      && r.id == iface.id && r.name == iface.name && r.connectedToId == iface.connectedToId
      && r.ip == (if f == Ip then v else iface.ip)
      && r.subnet == (if f == Subnet then v else iface.subnet)
      && r.gateway == (if f == Gateway then v else iface.gateway)
  {
  }

  /** The six colours offered for an LED. */
  const LedColors: seq<string> := ["#ef4444", "#22c55e", "#3b82f6", "#eab308", "#a855f7", "#ffffff"]

  /** The handlers for the other fields: each sets one field of the device. */
  function NameChange(d: Device, name: string): Device { d.(name := name) }
  function CodeChange(d: Device, code: string): Device { d.(code := Some(code)) }
  function ColorChange(d: Device, c: string): Device { d.(color := Some(c)) }
  function SensorChange(d: Device, v: int): Device { d.(sensorValue := Some(v)) }

  /** The LED colour and sensor handlers each set only their one field and keep the id. */
  lemma ColorAndSensorChange(d: Device, c: string, v: int)
    ensures var r := ColorChange(d, c);
      r.color == Some(c) && r.id == d.id && r.(color := d.color) == d
    ensures var r := SensorChange(d, v);
      r.sensorValue == Some(v) && r.id == d.id && r.(sensorValue := d.sensorValue) == d
  {
  }

  /** The value the I/O tab shows and the slider starts at: the reading, or 0 when absent. */
  function SensorReadout(d: Device): int {
    d.sensorValue.GetOr(0)
  }

  /**
   * Every handler keeps the id, so the store's replace puts the edited record exactly where
   * the device was and leaves every other device of the list as it was.
   */
  lemma HandlersReplaceInPlace(ds: seq<Device>, d: Device, name: string, code: string, c: string, v: int)
    requires Graph.UniqueDeviceIds(ds) && d in ds
    ensures forall e :: e in [NameChange(d, name), CodeChange(d, code), ColorChange(d, c), SensorChange(d, v)] ==>
      e.id == d.id && e.kind == d.kind && e.x == d.x && e.y == d.y
      && forall i :: 0 <= i < |ds| ==>
        App.ReplaceDevice(ds, e)[i] == if ds[i] == d then e else ds[i]
  {
    forall e, i | e in [NameChange(d, name), CodeChange(d, code), ColorChange(d, c), SensorChange(d, v)] && 0 <= i < |ds|
      ensures App.ReplaceDevice(ds, e)[i] == if ds[i] == d then e else ds[i]
    {
      var j :| 0 <= j < |ds| && ds[j] == d;
      App.ReplaceDeviceSpec(ds, e);
      if ds[i].id == d.id { assert i == j; }
    }
  }

  /** The readout reverses the slider: a reading set by the slider is shown as that value. */
  lemma SensorReadoutAfterChange(d: Device, v: int)
    ensures SensorReadout(SensorChange(d, v)) == v
    ensures d.sensorValue.None? ==> SensorReadout(d) == 0
  {
  }

  /** `Lines:` in the programming tab: number of line feeds plus one; absent code counts as empty. */
  function LineCount(code: Option<string>): (n: nat)
    ensures n >= 1
  {
    CountChar(code.GetOr(""), '\n') + 1
  }

  /** The count is the number of lines the code splits into; no code is one line. */
  lemma LineCountSpec(code: Option<string>)
    ensures LineCount(code) == |Split(code.GetOr(""), '\n')|
    ensures LineCount(None) == 1 && LineCount(Some("")) == 1
  {
  }

  /** What a button asks of the store, in order. */
  datatype Request = Close | DeleteDevice(id: string)

  /** The delete button: delete this device, then close the dialog. */
  function DeleteRequests(d: Device): (r: seq<Request>)
    ensures |r| == 2 && r[0] == DeleteDevice(d.id) && r[1] == Close
  {
    [DeleteDevice(d.id), Close]
  }

  /** Passes one request to the store: its delete handler, or the dialog's close. */
  method Perform(lab: App.Lab, r: Request)
    requires lab.Valid()
    modifies lab
    ensures lab.Valid()
    ensures r.DeleteDevice? ==>
      && lab.devices == App.RemoveDevice(old(lab.devices), r.id)
      && lab.links == App.RemoveIncident(old(lab.links), r.id)
      && lab.configuringDeviceId == (if old(lab.configuringDeviceId) == Some(r.id) then None else old(lab.configuringDeviceId))
      && lab.selectedDeviceId == (if old(lab.selectedDeviceId) == Some(r.id) then None else old(lab.selectedDeviceId))
    ensures r.Close? ==>
      && lab.devices == old(lab.devices) && lab.links == old(lab.links) && lab.configuringDeviceId == None
      && lab.selectedDeviceId == old(lab.selectedDeviceId)
    ensures lab.connectingMode == old(lab.connectingMode) && lab.selectedCableType == old(lab.selectedCableType)
  {
    match r
    case DeleteDevice(id) => lab.DeleteDevice(id);
    case Close => lab.CloseConfiguration();
  }

  /**
   * The delete button's requests, carried out in order, leave no device with that id, no
   * link touching it and the dialog closed; every other device stays, the selection is cleared
   * only if it named this device, and the connection mode and cable kind are kept.
   */
  method DeleteButton(lab: App.Lab, d: Device)
    requires lab.Valid()
    modifies lab
    ensures lab.Valid()
    ensures !Graph.HasDevice(lab.devices, d.id)
    ensures forall e :: e in lab.devices <==> e in old(lab.devices) && e.id != d.id
    ensures forall l :: l in lab.links <==> l in old(lab.links) && l.sourceId != d.id && l.targetId != d.id
    ensures lab.configuringDeviceId == None
    ensures lab.selectedDeviceId == (if old(lab.selectedDeviceId) == Some(d.id) then None else old(lab.selectedDeviceId))
    ensures lab.connectingMode == old(lab.connectingMode) && lab.selectedCableType == old(lab.selectedCableType)
  {
    var rs := DeleteRequests(d);
    Perform(lab, rs[0]);
    Perform(lab, rs[1]);
  }

  class Modal {
    const device: Device
    var activeTab: Tab

    /** The active tab is one whose button is shown for this device. */
    ghost predicate Valid()
      reads this
    {
      TabVisible(device.kind, activeTab)
    }

    /** The dialog opens on General. */
    constructor (d: Device)
      ensures device == d && activeTab == General && Valid()
    {
      device := d;
      activeTab := General;
    }

    /** A tab button; only visible tabs have one. */
    method SelectTab(tab: Tab)
      requires TabVisible(device.kind, tab)
      modifies this
      ensures activeTab == tab && Valid()
    {
      activeTab := tab;
    }
  }
}
