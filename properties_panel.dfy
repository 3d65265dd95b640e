/**
 * The side panel's device editor. It classifies kinds with its own, narrower predicates than
 * the configuration dialog, and builds an updated device record for the store from each edit.
 */
module PropertiesPanel {
  import opened Optional
  import opened Types
  import ConfigurationModal
  import App
  import Graph

  /** The panel's `isIoTController`: Arduino and ESP32 only. */
  predicate IsIoTController(t: DeviceType) {
    t == Arduino || t == Esp32
  }

  /** `isSensor` */
  predicate IsSensor(t: DeviceType) {
    IsSensorName(t)
  }

  /** The panel's `isNetworkDevice`: PC, router and server. */
  predicate IsNetworkDevice(t: DeviceType) {
    t in [Pc, Router, Server]
  }

  /**
   * The panel's classes next to the dialog's: the Raspberry Pi is a controller only in the
   * dialog, the laptop a network device only in the dialog, and the sensors (not the
   * actuators or the relay) get the panel's environment section.
   */
  lemma ClassificationVersusDialog(t: DeviceType)
    ensures IsIoTController(t) <==> ConfigurationModal.IsIoTController(t) && t != RaspberryPi
    ensures IsNetworkDevice(t) <==> ConfigurationModal.IsNetworkDevice(t) && t != Laptop
    ensures IsSensor(t) <==> t in SensorKinds
    ensures IsSensor(t) ==> ConfigurationModal.IsSensorOrActuator(t)
    ensures !IsSensor(Relay) && !IsSensor(ActuatorLed)
  {
    SensorNames(t);
    SensorNames(ActuatorLed);
    ActuatorNames(t);
  }

  /** `handleInterfaceChange(index, field, value)` on a fresh copy of the interfaces. */
  function InterfaceChange(d: Device, index: nat, f: ConfigurationModal.Field, v: string): (r: Device)
    requires index < |d.interfaces|
  {
    d.(interfaces := d.interfaces[index := ConfigurationModal.SetField(d.interfaces[index], f, v)])
  }

  /**
   * Editing one field of one interface keeps the interface count, the other interfaces and
   * every other field of the device, and only that interface field changes.
   */
  lemma InterfaceChangeSpec(d: Device, index: nat, f: ConfigurationModal.Field, v: string)
    requires index < |d.interfaces|
    ensures var r := InterfaceChange(d, index, f, v);
      && |r.interfaces| == |d.interfaces|
      && (forall j :: 0 <= j < |d.interfaces| && j != index ==> r.interfaces[j] == d.interfaces[j])
      && r.interfaces[index].id == d.interfaces[index].id
      && r.interfaces[index].name == d.interfaces[index].name
      && (f == ConfigurationModal.Ip ==> r.interfaces[index] == d.interfaces[index].(ip := v))
      && (f == ConfigurationModal.Subnet ==> r.interfaces[index] == d.interfaces[index].(subnet := v))
      && (f == ConfigurationModal.Gateway ==> r.interfaces[index] == d.interfaces[index].(gateway := v))
      && r.(interfaces := d.interfaces) == d
  {
    ConfigurationModal.SetFieldSpec(d.interfaces[index], f, v);
  }

  /** Two edits of the same field: the later one wins. */
  lemma InterfaceChangeTwice(d: Device, index: nat, f: ConfigurationModal.Field, v: string, w: string)
    requires index < |d.interfaces|
    ensures InterfaceChange(InterfaceChange(d, index, f, v), index, f, w) == InterfaceChange(d, index, f, w)
  {
    var i := d.interfaces[index];
    ConfigurationModal.SetFieldSpec(i, f, v);
    ConfigurationModal.SetFieldSpec(ConfigurationModal.SetField(i, f, v), f, w);
    ConfigurationModal.SetFieldSpec(i, f, w);
    assert d.interfaces[index := ConfigurationModal.SetField(i, f, v)][index := ConfigurationModal.SetField(ConfigurationModal.SetField(i, f, v), f, w)]
        == d.interfaces[index := ConfigurationModal.SetField(i, f, w)];
  }

  /** `handleSensorValueChange`: the slider's value, 0 to 100. */
  function SensorValueChange(d: Device, v: int): (r: Device)
    requires 0 <= v <= 100
    ensures r.sensorValue.Some? && 0 <= r.sensorValue.value <= 100
    ensures ConfigurationModal.SensorReadout(r) == v
    ensures r.(sensorValue := d.sensorValue) == d
  {
    d.(sensorValue := Some(v))
  }

  /**
   * `handleNameChange` and `handleCodeChange` build the same records as the dialog's handlers:
   * each sets its one field and keeps the id and every other field.
   */
  lemma NameAndCodeChange(d: Device, name: string, code: string)
    ensures var r := ConfigurationModal.NameChange(d, name);
      r.name == name && r.id == d.id && r.(name := d.name) == d
    ensures var r := ConfigurationModal.CodeChange(d, code);
      r.code == Some(code) && r.id == d.id && r.(code := d.code) == d
  {
  }

  /** The delete button: only the store's delete, for this device; the panel closes nothing. */
  function DeleteRequest(d: Device): ConfigurationModal.Request {
    ConfigurationModal.DeleteDevice(d.id)
  }

  /**
   * The delete button's request, carried out by a parent that passes the store's delete
   * handler as `onDeleteDevice` (no component mounts the panel), leaves no device with that id
   * and no link touching it; the selected and configuring ids are cleared only if they named
   * this device, and the connection mode and cable kind are kept.
   */
  method DeleteButton(lab: App.Lab, d: Device)
    requires lab.Valid()
    modifies lab
    ensures lab.Valid()
    ensures !Graph.HasDevice(lab.devices, d.id)
    ensures forall e :: e in lab.devices <==> e in old(lab.devices) && e.id != d.id
    ensures forall l :: l in lab.links <==> l in old(lab.links) && l.sourceId != d.id && l.targetId != d.id
    ensures lab.configuringDeviceId == (if old(lab.configuringDeviceId) == Some(d.id) then None else old(lab.configuringDeviceId))
    ensures lab.selectedDeviceId == (if old(lab.selectedDeviceId) == Some(d.id) then None else old(lab.selectedDeviceId))
    ensures lab.connectingMode == old(lab.connectingMode) && lab.selectedCableType == old(lab.selectedCableType)
  {
    ConfigurationModal.Perform(lab, DeleteRequest(d));
  }
}
