/**
 * The topology store of the lab's root component: the device and link lists, the selected
 * and configuring device, the connection-mode toggle and the chosen cable kind. Each handler
 * computes a new list (the functions below) and overwrites the state (class `Lab`).
 * Random ids and positions are parameters: `generateId(prefix)` is `prefix + "-" + suffix`.
 */
module App {
  import opened Optional
  import opened Strings
  import opened Types
  import opened Graph
  import Constants

  // ---------------------------------------------------------------- adding a device

  /** The explicit IoT list of `handleAddDevice`, which picks the `iot` id prefix. */
  predicate IsIoTDevice(t: DeviceType) {
    t in {Arduino, Esp32, RaspberryPi, GsmModule, SensorTemp, SensorMoisture, SensorMotion, SensorGas,
          SensorWater, ActuatorLed, ActuatorMotor, ActuatorBuzzer, ActuatorServo, Relay}
  }

  /** Position of a kind in the enum's declaration (`Object.keys(DeviceType).indexOf(type)`). */
  function DeclarationIndex(t: DeviceType): (i: nat)
    ensures i < |AllDeviceTypes| && AllDeviceTypes[i] == t
  {
    match t
    case Pc => 0 case Laptop => 1 case Server => 2 case Router => 3 case Switch => 4
    case Firewall => 5 case AccessPoint => 6 case Cloud => 7 case Arduino => 8 case Esp32 => 9
    case RaspberryPi => 10 case GsmModule => 11 case SensorTemp => 12 case SensorMoisture => 13
    case SensorGas => 14 case SensorWater => 15 case SensorMotion => 16 case ActuatorLed => 17
    case ActuatorMotor => 18 case Relay => 19 case ActuatorBuzzer => 20 case ActuatorServo => 21
  }

  /** The unused "rough check" `indexOf(type) > 7` agrees with the explicit IoT list. */
  lemma RoughIoTCheckAgrees(t: DeviceType)
    ensures DeclarationIndex(t) > 7 <==> IsIoTDevice(t)
  {
  }

  /** The programmable controllers that receive the starter sketch. */
  predicate GetsStarterCode(t: DeviceType) {
    t == Arduino || t == Esp32 || t == RaspberryPi
  }

  /** Number of devices of kind `t`. */
  function CountKind(ds: seq<Device>, t: DeviceType): nat {
    if |ds| == 0 then 0 else (if ds[0].kind == t then 1 else 0) + CountKind(ds[1..], t)
  }

  lemma CountKindAppend(ds: seq<Device>, d: Device, t: DeviceType)
    ensures CountKind(ds + [d], t) == CountKind(ds, t) + (if d.kind == t then 1 else 0)
  {
    if |ds| > 0 {
      assert (ds + [d])[1..] == ds[1..] + [d];
      CountKindAppend(ds[1..], d, t);
    }
  }

  function NewDeviceId(t: DeviceType, suffix: string): string {
    (if IsIoTDevice(t) then "iot" else "dev") + "-" + suffix
  }

  /** The device `handleAddDevice(t)` creates next to the devices `ds`. */
  function NewDevice(ds: seq<Device>, t: DeviceType, idSuffix: string, ifaceSuffix: string, x: int, y: int): Device {
    Device(
      NewDeviceId(t, idSuffix), t,
      TypeName(t) + "-" + NatToString(CountKind(ds, t) + 1),
      x, y,
      if t == Switch then [] else [Interface("if-" + ifaceSuffix, "eth0", "", "", "")],
      Online,
      if t == ActuatorLed then Some("#ef4444") else None,
      if GetsStarterCode(t) then Some(Constants.DefaultArduinoCode) else None,
      if IsSensorName(t) then Some(0) else None,
      if IsActuatorName(t) then Some(false) else None)
  }

  /**
   * Defaults of a new device: a switch has no interfaces, every other kind one empty `eth0`;
   * the sketch only for Arduino/ESP32/Raspberry Pi; reading 0 only for the five sensors;
   * actuator state off only for the four actuators (not the relay); red only for the LED.
   */
  lemma NewDeviceDefaults(ds: seq<Device>, t: DeviceType, idSuffix: string, ifaceSuffix: string, x: int, y: int)
    ensures var d := NewDevice(ds, t, idSuffix, ifaceSuffix, x, y);
      && d.kind == t && d.x == x && d.y == y && d.status == Online
      && (t == Switch <==> d.interfaces == [])
      && (t != Switch ==> d.interfaces == [NetworkInterface("if-" + ifaceSuffix, "eth0", "", "", "", None)])
      && (d.code.Some? <==> t in {Arduino, Esp32, RaspberryPi})
      && (t in {Arduino, Esp32, RaspberryPi} ==> d.code == Some(Constants.DefaultArduinoCode))
      && (d.sensorValue == Some(0) <==> t in SensorKinds) && (d.sensorValue.Some? ==> t in SensorKinds)
      && (d.actuatorState == Some(false) <==> t in ActuatorKinds) && (d.actuatorState.Some? ==> t in ActuatorKinds)
      && (d.color == Some("#ef4444") <==> t == ActuatorLed) && (d.color.Some? ==> t == ActuatorLed)
  {
    SensorNames(t);
    ActuatorNames(t);
  }

  /** The name is `<TYPE>-<n>` where `n` is one more than the number of devices of that kind. */
  lemma NewDeviceNumbering(ds: seq<Device>, t: DeviceType, s1: string, i1: string, s2: string, i2: string, x: int, y: int)
    ensures NewDevice(ds, t, s1, i1, x, y).name == TypeName(t) + "-" + NatToString(CountKind(ds, t) + 1)
    ensures NewDevice(ds + [NewDevice(ds, t, s1, i1, x, y)], t, s2, i2, x, y).name
         == TypeName(t) + "-" + NatToString(CountKind(ds, t) + 2)
  {
    CountKindAppend(ds, NewDevice(ds, t, s1, i1, x, y), t);
  }

  // ---------------------------------------------------------------- editing the lists

  /** `devices.map(d => d.id === updated.id ? updated : d)` */
  function ReplaceDevice(ds: seq<Device>, updated: Device): (r: seq<Device>)
    ensures |r| == |ds|
  {
    seq(|ds|, i requires 0 <= i < |ds| => if ds[i].id == updated.id then updated else ds[i])
  }

  /** `devices.map(d => d.id === id ? { ...d, x, y } : d)` */
  function MoveDeviceTo(ds: seq<Device>, id: string, x: int, y: int): (r: seq<Device>)
    ensures |r| == |ds|
  {
    seq(|ds|, i requires 0 <= i < |ds| => if ds[i].id == id then ds[i].(x := x, y := y) else ds[i])
  }

  /** `devices.filter(d => d.id !== id)` */
  function RemoveDevice(ds: seq<Device>, id: string): (r: seq<Device>)
    ensures forall d :: d in r <==> d in ds && d.id != id
  {
    if |ds| == 0 then []
    else
      assert forall d :: d in ds <==> d == ds[0] || d in ds[1..];
      (if ds[0].id != id then [ds[0]] else []) + RemoveDevice(ds[1..], id)
  }

  /** `links.filter(l => l.sourceId !== id && l.targetId !== id)` */
  function RemoveIncident(ls: seq<Link>, id: string): (r: seq<Link>)
    ensures forall l :: l in r <==> l in ls && l.sourceId != id && l.targetId != id
  {
    if |ls| == 0 then []
    else
      assert forall l :: l in ls <==> l == ls[0] || l in ls[1..];
      (if ls[0].sourceId != id && ls[0].targetId != id then [ls[0]] else []) + RemoveIncident(ls[1..], id)
  }

  /** The links after `handleConnect(source, target)` with the selected cable kind. */
  function ConnectLinks(ls: seq<Link>, source: string, target: string, linkId: string, cable: CableType): seq<Link> {
    if source == target then ls
    else if Linked(ls, source, target) then ls
    else ls + [Link(linkId, source, target, cable)]
  }

  // ---------------------------------------------------------------- properties of the edits

  /** Replacing: the device with the matching id becomes `updated`, every other one is untouched. */
  lemma ReplaceDeviceSpec(ds: seq<Device>, updated: Device)
    ensures forall i :: 0 <= i < |ds| && ds[i].id != updated.id ==> ReplaceDevice(ds, updated)[i] == ds[i]
    ensures forall i :: 0 <= i < |ds| && ds[i].id == updated.id ==> ReplaceDevice(ds, updated)[i] == updated
    ensures !HasDevice(ds, updated.id) ==> ReplaceDevice(ds, updated) == ds
    ensures forall i :: 0 <= i < |ds| ==> ReplaceDevice(ds, updated)[i].id == ds[i].id
  {
  }

  /** Moving changes only `x` and `y` of the device with that id; an unknown id changes nothing. */
  lemma MoveDeviceSpec(ds: seq<Device>, id: string, x: int, y: int)
    ensures forall i :: 0 <= i < |ds| && ds[i].id != id ==> MoveDeviceTo(ds, id, x, y)[i] == ds[i]
    ensures forall i :: 0 <= i < |ds| && ds[i].id == id ==>
      MoveDeviceTo(ds, id, x, y)[i] == ds[i].(x := x, y := y)
    ensures !HasDevice(ds, id) ==> MoveDeviceTo(ds, id, x, y) == ds
    ensures forall i :: 0 <= i < |ds| ==> MoveDeviceTo(ds, id, x, y)[i].id == ds[i].id
  {
  }

  /** Removal distributes over concatenation, so the survivors keep their order. */
  lemma {:induction false} RemoveDeviceAppend(a: seq<Device>, b: seq<Device>, id: string)
    ensures RemoveDevice(a + b, id) == RemoveDevice(a, id) + RemoveDevice(b, id)
  {
    if |a| > 0 {
      assert (a + b)[1..] == a[1..] + b;
      RemoveDeviceAppend(a[1..], b, id);
    } else {
      assert a + b == b;
    }
  }

  lemma {:induction false} RemoveIncidentAppend(a: seq<Link>, b: seq<Link>, id: string)
    ensures RemoveIncident(a + b, id) == RemoveIncident(a, id) + RemoveIncident(b, id)
  {
    if |a| > 0 {
      assert (a + b)[1..] == a[1..] + b;
      RemoveIncidentAppend(a[1..], b, id);
    } else {
      assert a + b == b;
    }
  }

  /** Deleting an id that no device has leaves the device list as it is. */
  lemma {:induction false} RemoveDeviceAbsent(ds: seq<Device>, id: string)
    requires !HasDevice(ds, id)
    ensures RemoveDevice(ds, id) == ds
  {
    if |ds| > 0 {
      assert ds[0] in ds;
      assert forall d :: d in ds[1..] ==> d in ds;
      RemoveDeviceAbsent(ds[1..], id);
      assert ds == [ds[0]] + ds[1..];
    }
  }

  /** With unique ids, deleting a present device removes exactly one entry. */
  lemma {:induction false} RemoveDeviceCount(ds: seq<Device>, id: string)
    requires UniqueDeviceIds(ds) && HasDevice(ds, id)
    ensures |RemoveDevice(ds, id)| == |ds| - 1
  {
    if ds[0].id == id {
      assert !HasDevice(ds[1..], id) by {
        forall d | d in ds[1..] ensures d.id != id {
          var j :| 0 <= j < |ds[1..]| && ds[1..][j] == d;
          assert ds[j + 1] == d;
        }
      }
      RemoveDeviceAbsent(ds[1..], id);
    } else {
      var d :| d in ds && d.id == id;
      assert d in ds[1..] by { assert ds == [ds[0]] + ds[1..]; }
      RemoveDeviceCount(ds[1..], id);
    }
  }

  /** Deletion leaves a well-formed topology well formed: no incident link survives. */
  lemma RemovePreservesEndpoints(ds: seq<Device>, ls: seq<Link>, id: string)
    requires EndpointsExist(ds, ls)
    ensures EndpointsExist(RemoveDevice(ds, id), RemoveIncident(ls, id))
    ensures forall l :: l in RemoveIncident(ls, id) ==> l.sourceId != id && l.targetId != id
  {
    forall l | l in RemoveIncident(ls, id)
      ensures HasDevice(RemoveDevice(ds, id), l.sourceId) && HasDevice(RemoveDevice(ds, id), l.targetId)
    {
      var s :| s in ds && s.id == l.sourceId;
      var t :| t in ds && t.id == l.targetId;
      assert s in RemoveDevice(ds, id) && t in RemoveDevice(ds, id);
    }
  }

  lemma {:induction false} RemoveUniqueIds(ds: seq<Device>, id: string)
    requires UniqueDeviceIds(ds)
    ensures UniqueDeviceIds(RemoveDevice(ds, id))
  {
    if |ds| > 0 {
      RemoveUniqueIds(ds[1..], id);
      var rest := RemoveDevice(ds[1..], id);
      if ds[0].id != id {
        forall d | d in rest ensures d.id != ds[0].id {
          var j :| 0 <= j < |ds[1..]| && ds[1..][j] == d;
          assert ds[j + 1] == d;
        }
        var r := [ds[0]] + rest;
        forall i, j | 0 <= i < j < |r| ensures r[i].id != r[j].id {
          if i > 0 { assert r[i] == rest[i - 1] && r[j] == rest[j - 1]; }
          else { assert r[j] in rest; }
        }
      } else {
        assert RemoveDevice(ds, id) == rest;
      }
    }
  }

  /** The link-list conditions that do not mention the devices. */
  predicate LinkListOk(ls: seq<Link>) {
    UniqueLinkIds(ls) && NoSelfLinks(ls) && NoDuplicatePairs(ls)
  }

  /** The tail of a good link list is good, and its head differs from every later link. */
  lemma LinkListSplit(ls: seq<Link>)
    requires |ls| > 0 && LinkListOk(ls)
    ensures LinkListOk(ls[1..]) && ls[0].sourceId != ls[0].targetId
    ensures forall m :: m in ls[1..] ==> m.id != ls[0].id && !Joins(m, ls[0].sourceId, ls[0].targetId)
  {
    assert ls[0] in ls;
    forall m | m in ls[1..] ensures m.id != ls[0].id && !Joins(m, ls[0].sourceId, ls[0].targetId) {
      var j :| 0 <= j < |ls[1..]| && ls[1..][j] == m;
      assert ls[j + 1] == m;
    }
  }

  /** Putting a link in front of a good list keeps it good when it clashes with none of it. */
  lemma LinkListCons(l: Link, rest: seq<Link>)
    requires LinkListOk(rest) && l.sourceId != l.targetId
    requires forall m :: m in rest ==> m.id != l.id && !Joins(m, l.sourceId, l.targetId)
    ensures LinkListOk([l] + rest)
  {
    var r := [l] + rest;
    forall i, j | 0 <= i < j < |r| ensures r[i].id != r[j].id && !Joins(r[j], r[i].sourceId, r[i].targetId) {
      if i > 0 { assert r[i] == rest[i - 1] && r[j] == rest[j - 1]; }
      else { assert r[j] in rest; }
    }
  }

  /** Dropping the links at a device keeps the link-list conditions. */
  lemma {:induction false} RemoveIncidentKeeps(ls: seq<Link>, id: string)
    requires LinkListOk(ls)
    ensures LinkListOk(RemoveIncident(ls, id))
  {
    if |ls| > 0 {
      LinkListSplit(ls);
      RemoveIncidentKeeps(ls[1..], id);
      var rest := RemoveIncident(ls[1..], id);
      if ls[0].sourceId != id && ls[0].targetId != id {
        LinkListCons(ls[0], rest);
      } else {
        assert RemoveIncident(ls, id) == rest;
      }
    }
  }

  /** Deleting a device keeps every other device. */
  lemma RemoveKeepsOthers(ds: seq<Device>, id: string)
    ensures forall other :: other != id && HasDevice(ds, other) ==> HasDevice(RemoveDevice(ds, id), other)
  {
    forall other | other != id && HasDevice(ds, other) ensures HasDevice(RemoveDevice(ds, id), other) {
      var d :| d in ds && d.id == other;
      assert d in RemoveDevice(ds, id);
    }
  }

  /** A self-connection never changes the links. */
  lemma ConnectSelf(ls: seq<Link>, id: string, linkId: string, cable: CableType)
    ensures ConnectLinks(ls, id, id, linkId, cable) == ls
  {
  }

  /**
   * Connecting a pair already joined in either orientation changes nothing; otherwise exactly
   * one link with the chosen cable is appended and the existing links keep their order.
   */
  lemma ConnectSpec(ls: seq<Link>, s: string, t: string, linkId: string, cable: CableType)
    ensures Linked(ls, s, t) || Linked(ls, t, s) ==> ConnectLinks(ls, s, t, linkId, cable) == ls
    ensures s != t && !Linked(ls, s, t) ==>
      var r := ConnectLinks(ls, s, t, linkId, cable);
      |r| == |ls| + 1 && r[..|ls|] == ls && r[|ls|] == Link(linkId, s, t, cable)
  {
    if Linked(ls, t, s) {
      var l :| l in ls && Joins(l, t, s);
      assert Joins(l, s, t);
    }
  }

  /** Connecting keeps the invariants of the links, given a fresh link id. */
  lemma ConnectKeeps(ds: seq<Device>, ls: seq<Link>, s: string, t: string, linkId: string, cable: CableType)
    requires LinkListOk(ls)
    requires forall l :: l in ls ==> l.id != linkId
    ensures LinkListOk(ConnectLinks(ls, s, t, linkId, cable))
    ensures EndpointsExist(ds, ls) && HasDevice(ds, s) && HasDevice(ds, t) ==>
      EndpointsExist(ds, ConnectLinks(ls, s, t, linkId, cable))
  {
    var r := ConnectLinks(ls, s, t, linkId, cable);
    if s != t && !Linked(ls, s, t) {
      forall i, j | 0 <= i < j < |r| ensures r[i].id != r[j].id && !Joins(r[j], r[i].sourceId, r[i].targetId) {
        if j == |ls| {
          assert r[i] in ls;
          if Joins(r[j], r[i].sourceId, r[i].targetId) { assert Joins(r[i], s, t); }
        }
      }
    }
  }

  /**
   * Whatever was there before, connecting `a` and `b` twice, or `a`-`b` and then `b`-`a`,
   * leaves exactly one link between them (when the links had no duplicate pair).
   */
  lemma {:induction false} ConnectTwice(ls: seq<Link>, a: string, b: string, id1: string, id2: string, c1: CableType, c2: CableType)
    requires a != b && NoDuplicatePairs(ls) && forall l :: l in ls ==> l.id != id1
    ensures PairCount(ConnectLinks(ConnectLinks(ls, a, b, id1, c1), a, b, id2, c2), a, b) == 1
    ensures PairCount(ConnectLinks(ConnectLinks(ls, a, b, id1, c1), b, a, id2, c2), a, b) == 1
  {
    var once := ConnectLinks(ls, a, b, id1, c1);
    ConnectSpec(ls, a, b, id1, c1);
    if Linked(ls, a, b) {
      PairCountZeroIff(ls, a, b);
      PairCountAtMostOne(ls, a, b);
    } else {
      PairCountZeroIff(ls, a, b);
      PairCountAppend(ls, Link(id1, a, b, c1), a, b);
    }
    assert Linked(once, a, b) by {
      if !Linked(ls, a, b) { assert once[|ls|] in once; }
    }
    ConnectSpec(once, a, b, id2, c2);
    ConnectSpec(once, b, a, id2, c2);
  }

  // ---------------------------------------------------------------- the tutor's context text

  /** A readout of an optional number by a template literal: `undefined` when absent. */
  function NumberText(v: Option<int>): string {
    match v
    case None => "undefined"
    case Some(n) => IntToString(n)
  }

  function InterfaceConfig(ifs: seq<NetworkInterface>): seq<string> {
    seq(|ifs|, i requires 0 <= i < |ifs| => ifs[i].name + ": " + ifs[i].ip)
  }

  /** One line of `getNetworkContext`: code first, then a sensor reading, else the interfaces. */
  function DeviceSummary(d: Device): string {
    var head := d.name + " (" + TypeName(d.kind) + ") [";
    if d.code.Some? && d.code.value != "" then head + "Code]"
    else if IsSensorName(d.kind) then head + "Value: " + NumberText(d.sensorValue) + "]"
    else head + Join(InterfaceConfig(d.interfaces), ", ") + "]"
  }

  /** The device lines of the context text, one summary per device in list order. */
  function Summaries(ds: seq<Device>): (r: seq<string>)
    ensures |r| == |ds| && forall i :: 0 <= i < |ds| ==> r[i] == DeviceSummary(ds[i])
  {
    seq(|ds|, i requires 0 <= i < |ds| => DeviceSummary(ds[i]))
  }

  function NetworkContext(ds: seq<Device>, ls: seq<Link>): string {
    "Topology Devices:\n" + Join(Summaries(ds), "\n") + "\nTotal Links: " + NatToString(|ls|)
  }

  /**
   * The context text opens with the device header, then holds the devices' summaries in list
   * order, one per line, and closes with the number of links, written in decimal so that it
   * reads back as the count.
   */
  lemma NetworkContextShape(ds: seq<Device>, ls: seq<Link>)
    ensures var r := NetworkContext(ds, ls); var n := NatToString(|ls|);
      && StartsWith(r, "Topology Devices:\n")
      && |n| + 32 <= |r| && r[18..|r| - |n| - 14] == Join(Summaries(ds), "\n")
      && r[|r| - |n|..] == n && ParseDigits(n) == |ls|
      && r[|r| - |n| - 14..|r| - |n|] == "\nTotal Links: "
  {
    var r := NetworkContext(ds, ls);
    var n := NatToString(|ls|);
    var m := Join(Summaries(ds), "\n");
    assert r == "Topology Devices:\n" + m + "\nTotal Links: " + n;
    assert |"Topology Devices:\n"| == 18;
    assert r[18..|r| - |n| - 14] == m;
    ParseNatToString(|ls|);
  }

  /**
   * The summary of a device with code says `[Code]`, whatever its kind; that of a sensor
   * without code its reading; that of any other device its interfaces as `name: ip`.
   */
  lemma DeviceSummaryCases(d: Device)
    ensures d.code.Some? && d.code.value != "" ==> DeviceSummary(d) == d.name + " (" + TypeName(d.kind) + ") [Code]"
    ensures (d.code == None || d.code == Some("")) && d.kind in SensorKinds ==>
      DeviceSummary(d) == d.name + " (" + TypeName(d.kind) + ") [Value: " + NumberText(d.sensorValue) + "]"
    ensures (d.code == None || d.code == Some("")) && d.kind !in SensorKinds ==>
      DeviceSummary(d) == d.name + " (" + TypeName(d.kind) + ") [" + Join(InterfaceConfig(d.interfaces), ", ") + "]"
    ensures forall i :: 0 <= i < |d.interfaces| ==>
      InterfaceConfig(d.interfaces)[i] == d.interfaces[i].name + ": " + d.interfaces[i].ip
  {
    SensorNames(d.kind);
  }

  // ---------------------------------------------------------------- the store

  class Lab {
    var devices: seq<Device>
    var links: seq<Link>
    var selectedDeviceId: Option<string>
    var configuringDeviceId: Option<string>
    var connectingMode: bool
    var selectedCableType: CableType

    /** The conditions every handler keeps. */
    ghost predicate Valid()
      reads this
    {
      UniqueDeviceIds(devices) && LinkListOk(links)
    }

    /** Every link endpoint is an existing device. */
    ghost predicate Closed()
      reads this
    {
      EndpointsExist(devices, links)
    }

    /** The selected and the configuring ids, when set, name existing devices. */
    ghost predicate SelectionLive()
      reads this
    {
      (selectedDeviceId.Some? ==> HasDevice(devices, selectedDeviceId.value))
      && (configuringDeviceId.Some? ==> HasDevice(devices, configuringDeviceId.value))
    }

    /** The store starts with the first challenge's topology, nothing selected, straight cable. */
    constructor ()
      ensures devices == Constants.InitialChallenges[0].devices && links == Constants.InitialChallenges[0].links
      ensures selectedDeviceId == None && configuringDeviceId == None
      ensures !connectingMode && selectedCableType == Straight
      ensures Valid() && Closed() && SelectionLive()
    {
      Constants.InitialTopology();
      devices := Constants.InitialChallenges[0].devices;
      links := Constants.InitialChallenges[0].links;
      selectedDeviceId := None;
      configuringDeviceId := None;
      connectingMode := false;
      selectedCableType := Straight;
    }

    /** The device the terminal is attached to. */
    function SelectedDevice(): (r: Option<Device>)
      reads this
      ensures r.Some? ==> r.value in devices && selectedDeviceId == Some(r.value.id)
    {
      if selectedDeviceId.Some? then Find(devices, selectedDeviceId.value) else None
    }

    /** The device whose configuration dialog is open, if any. */
    function ConfiguringDevice(): (r: Option<Device>)
      reads this
      ensures r.Some? ==> r.value in devices && configuringDeviceId == Some(r.value.id)
    {
      if configuringDeviceId.Some? then Find(devices, configuringDeviceId.value) else None
    }

    /** `handleAddDevice`: append the new device and select it. Position in [100, 150). */
    method AddDevice(t: DeviceType, idSuffix: string, ifaceSuffix: string, x: int, y: int)
      requires Valid()
      requires !HasDevice(devices, NewDeviceId(t, idSuffix))
      requires 100 <= x < 150 && 100 <= y < 150
      modifies this
      ensures devices == old(devices) + [NewDevice(old(devices), t, idSuffix, ifaceSuffix, x, y)]
      ensures selectedDeviceId == Some(NewDeviceId(t, idSuffix))
      ensures links == old(links) && configuringDeviceId == old(configuringDeviceId)
      ensures connectingMode == old(connectingMode) && selectedCableType == old(selectedCableType)
      ensures Valid() && (old(Closed()) ==> Closed()) && (old(SelectionLive()) ==> SelectionLive())
    {
      var d := NewDevice(devices, t, idSuffix, ifaceSuffix, x, y);
      assert forall e :: e in devices ==> e.id != d.id;
      devices := devices + [d];
      selectedDeviceId := Some(d.id);
      assert d in devices;
      assert forall e :: e in old(devices) ==> e in devices;
    }

    /** `handleUpdateDevice`: replace the device with the same id; an unknown id is a no-op. */
    method UpdateDevice(updated: Device)
      requires Valid()
      modifies this
      ensures devices == ReplaceDevice(old(devices), updated)
      ensures links == old(links) && selectedDeviceId == old(selectedDeviceId)
      ensures configuringDeviceId == old(configuringDeviceId)
      ensures connectingMode == old(connectingMode) && selectedCableType == old(selectedCableType)
      ensures Valid() && (old(Closed()) ==> Closed()) && (old(SelectionLive()) ==> SelectionLive())
    {
      ghost var before := devices;
      devices := ReplaceDevice(devices, updated);
      ReplaceDeviceSpec(before, updated);
      SameIds(before, devices);
    }

    /** `handleMoveDevice`: only that device's position changes. */
    method MoveDevice(id: string, x: int, y: int)
      requires Valid()
      modifies this
      ensures devices == MoveDeviceTo(old(devices), id, x, y)
      ensures links == old(links) && selectedDeviceId == old(selectedDeviceId)
      ensures configuringDeviceId == old(configuringDeviceId)
      ensures connectingMode == old(connectingMode) && selectedCableType == old(selectedCableType)
      ensures Valid() && (old(Closed()) ==> Closed()) && (old(SelectionLive()) ==> SelectionLive())
    {
      ghost var before := devices;
      devices := MoveDeviceTo(devices, id, x, y);
      MoveDeviceSpec(before, id, x, y);
      SameIds(before, devices);
    }

    /**
     * `handleDeleteDevice`: drop the device and every link at it; clear the selected and the
     * configuring id only when they are this id.
     */
    method DeleteDevice(id: string)
      requires Valid()
      modifies this
      ensures devices == RemoveDevice(old(devices), id)
      ensures links == RemoveIncident(old(links), id)
      ensures selectedDeviceId == if old(selectedDeviceId) == Some(id) then None else old(selectedDeviceId)
      ensures configuringDeviceId == if old(configuringDeviceId) == Some(id) then None else old(configuringDeviceId)
      ensures connectingMode == old(connectingMode) && selectedCableType == old(selectedCableType)
      ensures Valid() && (old(Closed()) ==> Closed()) && (old(SelectionLive()) ==> SelectionLive())
    {
      RemoveUniqueIds(devices, id);
      RemoveIncidentKeeps(links, id);
      if Closed() { RemovePreservesEndpoints(devices, links, id); }
      ghost var before := devices;
      devices := RemoveDevice(devices, id);
      links := RemoveIncident(links, id);
      RemoveKeepsOthers(before, id);
      if selectedDeviceId == Some(id) { selectedDeviceId := None; }
      if configuringDeviceId == Some(id) { configuringDeviceId := None; }
    }

    /**
     * `handleConnect`: refuse a self-link and a pair already joined either way, otherwise
     * append one link, `link-<suffix>`, with the selected cable kind.
     */
    method Connect(sourceId: string, targetId: string, linkSuffix: string)
      requires Valid()
      requires forall l :: l in links ==> l.id != "link-" + linkSuffix
      modifies this
      ensures links == ConnectLinks(old(links), sourceId, targetId, "link-" + linkSuffix, selectedCableType)
      ensures devices == old(devices) && selectedDeviceId == old(selectedDeviceId)
      ensures configuringDeviceId == old(configuringDeviceId)
      ensures connectingMode == old(connectingMode) && selectedCableType == old(selectedCableType)
      ensures Valid() && SelectionLive() == old(SelectionLive())
      ensures old(Closed()) && HasDevice(devices, sourceId) && HasDevice(devices, targetId) ==> Closed()
    {
      ConnectKeeps(devices, links, sourceId, targetId, "link-" + linkSuffix, selectedCableType);
      links := ConnectLinks(links, sourceId, targetId, "link-" + linkSuffix, selectedCableType);
    }

    /** `toggleConnectionMode` */
    method ToggleConnectionMode()
      modifies this`connectingMode
      ensures connectingMode == !old(connectingMode)
    {
      connectingMode := !connectingMode;
    }

    /** The cable selector's `onChange`. */
    method SelectCableType(c: CableType)
      modifies this`selectedCableType
      ensures selectedCableType == c
    {
      selectedCableType := c;
    }

    /** The canvas's `onSelectDevice` callback, with a device of the list. */
    method SelectDevice(id: string)
      requires HasDevice(devices, id)
      modifies this`selectedDeviceId
      ensures selectedDeviceId == Some(id)
      ensures old(SelectionLive()) ==> SelectionLive()
    {
      selectedDeviceId := Some(id);
    }

    /** The canvas's `onDeviceDoubleClick` callback: open that device's configuration. */
    method OpenConfiguration(id: string)
      requires HasDevice(devices, id)
      modifies this`configuringDeviceId
      ensures configuringDeviceId == Some(id)
      ensures old(SelectionLive()) ==> SelectionLive()
    {
      configuringDeviceId := Some(id);
    }

    /** The configuration dialog's `onClose`. */
    method CloseConfiguration()
      modifies this`configuringDeviceId
      ensures configuringDeviceId == None
      ensures old(SelectionLive()) ==> SelectionLive()
    {
      configuringDeviceId := None;
    }

    /** `getNetworkContext` */
    function Context(): string
      reads this
    {
      NetworkContext(devices, links)
    }
  }

  /** Two lists with the same ids position by position have the same id facts. */
  lemma SameIds(a: seq<Device>, b: seq<Device>)
    requires |a| == |b| && forall i :: 0 <= i < |a| ==> a[i].id == b[i].id
    ensures UniqueDeviceIds(a) <==> UniqueDeviceIds(b)
    ensures forall id :: HasDevice(a, id) <==> HasDevice(b, id)
    ensures forall ls :: EndpointsExist(a, ls) <==> EndpointsExist(b, ls)
  {
    forall id ensures HasDevice(a, id) <==> HasDevice(b, id) {
      if HasDevice(a, id) {
        var d :| d in a && d.id == id;
        var i :| 0 <= i < |a| && a[i] == d;
        assert b[i] in b;
      }
      if HasDevice(b, id) {
        var d :| d in b && d.id == id;
        var i :| 0 <= i < |b| && b[i] == d;
        assert a[i] in a;
      }
    }
  }

  /**
   * The connection scenario: two PCs without links; a cable drag from the first to the second
   * creates one link between them, and repeating the same drag creates no second link.
   */
  lemma TwoPcScenario(a: Device, b: Device, id1: string, id2: string)
    requires a.kind == Pc && b.kind == Pc && a.id != b.id
    ensures var once := ConnectLinks([], a.id, b.id, id1, Straight);
      && once == [Link(id1, a.id, b.id, Straight)]
      && ConnectLinks(once, a.id, b.id, id2, Straight) == once
      && EndpointsExist([a, b], once)
  {
    var once := ConnectLinks([], a.id, b.id, id1, Straight);
    ConnectSpec(once, a.id, b.id, id2, Straight);
    assert once[0] in once && Joins(once[0], a.id, b.id);
    assert a in [a, b] && b in [a, b];
  }
}
