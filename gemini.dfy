/**
 * The simulation service's own computations around the language-model calls: the links and
 * neighbouring devices of the device a command runs on, which part of the topology is
 * described, the mapping of chat roles onto the model's roles, and the strings returned when
 * the model's answer is empty or the call fails. The calls themselves are inputs here.
 */
module Gemini {
  import opened Optional
  import opened Types
  import Graph
  import App

  /** The device is the link's source or its target. */
  predicate Touches(l: Link, id: string) {
    l.sourceId == id || l.targetId == id
  }

  /** `connectedLinks`: the links with the device at either end, in list order. */
  function ConnectedLinks(links: seq<Link>, id: string): (r: seq<Link>)
    ensures |r| <= |links|
    ensures forall l :: l in r <==> l in links && Touches(l, id)
  {
    if |links| == 0 then []
    else
      assert forall l :: l in links <==> l == links[0] || l in links[1..];
      (if Touches(links[0], id) then [links[0]] else []) + ConnectedLinks(links[1..], id)
  }

  /** Filtering keeps the order: the links of a concatenation are the links of each part, in turn. */
  lemma {:induction false} ConnectedLinksAppend(a: seq<Link>, b: seq<Link>, id: string)
    ensures ConnectedLinks(a + b, id) == ConnectedLinks(a, id) + ConnectedLinks(b, id)
  {
    if |a| == 0 {
      assert a + b == b;
    } else {
      assert (a + b)[1..] == a[1..] + b;
      ConnectedLinksAppend(a[1..], b, id);
    }
  }

  /**
   * The links the simulator sees and the links the store keeps when deleting the device are
   * complementary: together they account for every link exactly once.
   */
  lemma {:induction false} ConnectedComplementsRemoval(links: seq<Link>, id: string)
    ensures |ConnectedLinks(links, id)| + |App.RemoveIncident(links, id)| == |links|
    ensures multiset(ConnectedLinks(links, id)) + multiset(App.RemoveIncident(links, id)) == multiset(links)
  {
    if |links| > 0 {
      ConnectedComplementsRemoval(links[1..], id);
      assert links == [links[0]] + links[1..];
    }
  }

  /** The end of a link that is not the device; for a link from the device, its target. */
  function OtherEnd(l: Link, id: string): string {
    if l.sourceId == id then l.targetId else l.sourceId
  }

  /** `connectedLinks.map(l => allDevices.find(...)).filter(Boolean)`: ids with no device are dropped. */
  function Neighbours(ds: seq<Device>, cl: seq<Link>, id: string): (r: seq<Device>)
    ensures |r| <= |cl|
    ensures forall d :: d in r ==> d in ds
  {
    if |cl| == 0 then []
    else
      var found := Graph.Find(ds, OtherEnd(cl[0], id));
      (if found.Some? then [found.value] else []) + Neighbours(ds, cl[1..], id)
  }

  /** Every neighbour is the device at the other end of one of the links. */
  lemma {:induction false} NeighboursSound(ds: seq<Device>, cl: seq<Link>, id: string)
    ensures forall d :: d in Neighbours(ds, cl, id) ==> exists l :: l in cl && OtherEnd(l, id) == d.id
  {
    if |cl| > 0 {
      NeighboursSound(ds, cl[1..], id);
      forall d | d in Neighbours(ds, cl, id) ensures exists l :: l in cl && OtherEnd(l, id) == d.id {
        if d !in Neighbours(ds, cl[1..], id) {
          assert OtherEnd(cl[0], id) == d.id;
        } else {
          var l :| l in cl[1..] && OtherEnd(l, id) == d.id;
          assert l in cl;
        }
      }
    }
  }

  /** Every link whose other end names a device contributes a device with that id. */
  lemma {:induction false} NeighboursComplete(ds: seq<Device>, cl: seq<Link>, id: string)
    ensures forall l :: l in cl && Graph.HasDevice(ds, OtherEnd(l, id)) ==>
      exists d :: d in Neighbours(ds, cl, id) && d.id == OtherEnd(l, id)
  {
    if |cl| > 0 {
      NeighboursComplete(ds, cl[1..], id);
      forall l | l in cl && Graph.HasDevice(ds, OtherEnd(l, id))
        ensures exists d :: d in Neighbours(ds, cl, id) && d.id == OtherEnd(l, id)
      {
        if l == cl[0] {
          var found := Graph.Find(ds, OtherEnd(l, id));
          assert found.value in Neighbours(ds, cl, id);
        } else {
          assert l in cl[1..];
          var d :| d in Neighbours(ds, cl[1..], id) && d.id == OtherEnd(l, id);
          assert d in Neighbours(ds, cl, id);
        }
      }
    }
  }

  /** Links whose other ends all name devices give one neighbour each; links to no device give none. */
  lemma {:induction false} NeighboursCount(ds: seq<Device>, cl: seq<Link>, id: string)
    ensures (forall i :: 0 <= i < |cl| ==> Graph.HasDevice(ds, OtherEnd(cl[i], id))) ==> |Neighbours(ds, cl, id)| == |cl|
    ensures (forall i :: 0 <= i < |cl| ==> !Graph.HasDevice(ds, OtherEnd(cl[i], id))) ==> Neighbours(ds, cl, id) == []
  {
    if |cl| > 0 {
      NeighboursCount(ds, cl[1..], id);
      assert forall i :: 1 <= i < |cl| ==> cl[1..][i - 1] == cl[i];
    }
  }

  /** With unique device ids, the neighbour found for an id is the one device carrying it. */
  lemma NeighbourIsTheDevice(ds: seq<Device>, l: Link, id: string, d: Device)
    requires Graph.UniqueDeviceIds(ds) && d in ds && d.id == OtherEnd(l, id)
    ensures Neighbours(ds, [l], id) == [d]
  {
    var found := Graph.Find(ds, OtherEnd(l, id));
    var i :| 0 <= i < |ds| && ds[i] == d;
    var j :| 0 <= j < |ds| && ds[j] == found.value;
    assert [l][1..] == [];
  }

  /** `isIoT`: commands on an Arduino or ESP32 are run as sketches. */
  predicate IsIoT(t: DeviceType) {
    t in [Arduino, Esp32]
  }

  lemma IsIoTSpec(t: DeviceType)
    ensures IsIoT(t) <==> t == Arduino || t == Esp32
    ensures !IsIoT(RaspberryPi) && !IsIoT(Pc) && !IsIoT(Router)
  {
  }

  /** An entry of `networkTopology`. */
  datatype TopologyEntry = TopologyEntry(id: string, name: string, kind: DeviceType, interfaces: seq<NetworkInterface>)

  /** An entry of `connectedPeripherals`. */
  datatype Peripheral = Peripheral(name: string, kind: DeviceType, currentValue: Option<int>)

  function Describe(d: Device): TopologyEntry {
    TopologyEntry(d.id, d.name, d.kind, d.interfaces)
  }

  /** `networkTopology`: nothing for a board, else every device in order. */
  function NetworkTopology(source: Device, ds: seq<Device>): (r: seq<TopologyEntry>)
    ensures IsIoT(source.kind) ==> r == []
    ensures !IsIoT(source.kind) ==> |r| == |ds|
  {
    if IsIoT(source.kind) then [] else seq(|ds|, i requires 0 <= i < |ds| => Describe(ds[i]))
  }

  /** For a network device each entry carries its device's id, name, type and interfaces. */
  lemma NetworkTopologySpec(source: Device, ds: seq<Device>)
    requires !IsIoT(source.kind)
    ensures forall i :: 0 <= i < |ds| ==>
      var e := NetworkTopology(source, ds)[i];
      e.id == ds[i].id && e.name == ds[i].name && e.kind == ds[i].kind && e.interfaces == ds[i].interfaces
  {
  }

  /** `connectedPeripherals`: one entry per neighbour, in order, with its name, type and reading. */
  function Peripherals(ns: seq<Device>): (r: seq<Peripheral>)
    ensures |r| == |ns|
    ensures forall i :: 0 <= i < |ns| ==>
      r[i].name == ns[i].name && r[i].kind == ns[i].kind && r[i].currentValue == ns[i].sensorValue
  {
    seq(|ns|, i requires 0 <= i < |ns| => Peripheral(ns[i].name, ns[i].kind, ns[i].sensorValue))
  }

  /** The chat turn sent for one message. */
  datatype Turn = Turn(role: string, text: string)

  /** The bot's messages go as the model's turns, everything else as the user's. */
  function ModelRole(r: Role): string {
    if r == System then "model" else "user"
  }

  /** `history` */
  function History(msgs: seq<TerminalMessage>): (r: seq<Turn>)
    ensures |r| == |msgs|
  {
    seq(|msgs|, i requires 0 <= i < |msgs| => Turn(ModelRole(msgs[i].role), msgs[i].content))
  }

  /** One turn per message, in order, with the same text; `model` exactly for the bot's. */
  lemma HistorySpec(msgs: seq<TerminalMessage>)
    ensures forall i :: 0 <= i < |msgs| ==>
      && History(msgs)[i].text == msgs[i].content
      && (History(msgs)[i].role == "model" <==> msgs[i].role == System)
      && (History(msgs)[i].role == "user" <==> msgs[i].role == User)
  {
  }

  /** How a call to the model ended: an exception, or a response whose text may be missing. */
  datatype Outcome = Failed | Answered(text: Option<string>)

  const NoOutput: string := "No output returned."
  const SimulationUnavailable: string := "Error: Simulation service unavailable."
  const NoResponse: string := "I couldn't generate a response."
  const TutorUnavailable: string := "I'm having trouble connecting to the knowledge base right now."

  /** `simulateNetworkCommand`'s result for an outcome. */
  function SimulationReply(o: Outcome): (r: string)
    ensures r != ""
    ensures o.Failed? ==> r == SimulationUnavailable
    ensures o.Answered? && o.text.Some? && o.text.value != "" ==> r == o.text.value
    ensures o.Answered? && (o.text.None? || o.text.value == "") ==> r == NoOutput
  {
    match o
    case Failed => SimulationUnavailable
    case Answered(t) => if t.Some? && t.value != "" then t.value else NoOutput
  }

  /** `getTutorResponse`'s result for an outcome. */
  function TutorReply(o: Outcome): (r: string)
    ensures r != ""
    ensures o.Failed? ==> r == TutorUnavailable
    ensures o.Answered? && o.text.Some? && o.text.value != "" ==> r == o.text.value
    ensures o.Answered? && (o.text.None? || o.text.value == "") ==> r == NoResponse
  {
    match o
    case Failed => TutorUnavailable
    case Answered(t) => if t.Some? && t.value != "" then t.value else NoResponse
  }
}
