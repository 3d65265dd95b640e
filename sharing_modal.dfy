/**
 * The network sharing center: a per-device access map, a message and an optional attached
 * file, and a broadcast that, after a delay, logs how many devices received the message and
 * how many were blocked. The delayed callback is a separate step: each broadcast enqueues a
 * delivery that captures the values the callback closes over, and `Deliver` runs the oldest.
 */
module SharingModal {
  import opened Optional
  import opened Strings
  import opened Types

  datatype MessageKind = Text | File
  datatype LogStatus = Sent | Blocked

  /** `MessageLog`; `id` and `time` come from the random source and the clock. */
  datatype MessageLog = MessageLog(id: string, time: string, from: string, content: string, kind: MessageKind, status: LogStatus)

  /** What the delayed callback of one broadcast sees. */
  datatype Delivery = Delivery(devices: seq<Device>, access: map<string, bool>, content: string, kind: MessageKind, time: string)

  /** The files the attach button picks from. */
  const MockFiles: seq<string> := ["network_config.json", "topology_report.pdf", "firmware_v2.bin", "data_log.csv"]

  /** A nullable string is truthy when set and not empty. */
  predicate Truthy(s: Option<string>) {
    s.Some? && s.value != ""
  }

  // ---------------------------------------------------------------- the access map

  /** `!!accessMap[id]`: the broadcast's test; a device without an entry is blocked. */
  predicate HasAccess(m: map<string, bool>, id: string) {
    id in m && m[id]
  }

  /** `accessMap[id] ?? true`: what the access list shows; a device without an entry shows as granted. */
  predicate ShownAccess(m: map<string, bool>, id: string) {
    if id in m then m[id] else true
  }

  /** `toggleAccess(id)`: `{ ...prev, [id]: !prev[id] }`. */
  function ToggleAccess(m: map<string, bool>, id: string): map<string, bool> {
    m[id := !HasAccess(m, id)]
  }

  /** Toggling negates exactly that entry (a missing one becomes `true`) and keeps all others. */
  lemma ToggleSpec(m: map<string, bool>, id: string)
    ensures var r := ToggleAccess(m, id);
      && r.Keys == m.Keys + {id}
      && HasAccess(r, id) == !HasAccess(m, id)
      && (forall k :: k in m && k != id ==> r[k] == m[k])
    ensures id in m ==> ToggleAccess(ToggleAccess(m, id), id) == m
  {
    if id in m {
      var r := ToggleAccess(ToggleAccess(m, id), id);
      assert r.Keys == m.Keys;
      assert forall k :: k in r ==> r[k] == m[k];
    }
  }

  /**
   * The access list and the broadcast agree on devices with an entry, and disagree on a
   * device without one: it is shown as granted, blocked on broadcast, and its first toggle
   * sets it to granted.
   */
  lemma ShownVersusDelivered(m: map<string, bool>, id: string)
    ensures id in m ==> ShownAccess(m, id) == HasAccess(m, id)
    ensures id !in m ==> ShownAccess(m, id) && !HasAccess(m, id)
    ensures id !in m ==> ShownAccess(ToggleAccess(m, id), id) && HasAccess(ToggleAccess(m, id), id)
  {
  }

  /** The mount effect's loop: every device's id maps to `true`. */
  method InitialMap(ds: seq<Device>) returns (m: map<string, bool>)
    ensures m.Keys == set d | d in ds :: d.id
    ensures forall id :: id in m ==> m[id]
  {
    m := map[];
    var i := 0;
    while i < |ds|
      invariant 0 <= i <= |ds|
      invariant m.Keys == set d | d in ds[..i] :: d.id
      invariant forall id :: id in m ==> m[id]
    {
      assert ds[..i + 1] == ds[..i] + [ds[i]];
      m := m[ds[i].id := true];
      i := i + 1;
    }
    assert ds[..i] == ds;
  }

  /** `{ ...initialMap, ...prev }`: an existing entry wins over the default. */
  lemma MergeSpec(initial: map<string, bool>, prev: map<string, bool>)
    ensures (initial + prev).Keys == initial.Keys + prev.Keys
    ensures forall id :: id in prev ==> (initial + prev)[id] == prev[id]
    ensures forall id :: id in initial && id !in prev ==> (initial + prev)[id] == initial[id]
  {
  }

  // ---------------------------------------------------------------- composing a broadcast

  /** The button's guard: a message that is more than white space, or an attachment. */
  predicate CanBroadcast(message: string, file: Option<string>) {
    Trim(message) != "" || Truthy(file)
  }

  function Content(message: string, file: Option<string>): string {
    if Truthy(file) then "Transferred File: " + file.value + (if message != "" then " | Note: " + message else "")
    else message
  }

  function Kind(file: Option<string>): MessageKind {
    if Truthy(file) then File else Text
  }

  /**
   * With an attachment the content names the file, with the note only when the message is
   * not empty, and is a file message; without one it is the message itself, as text.
   */
  lemma ContentSpec(message: string, file: Option<string>)
    ensures Truthy(file) ==> Kind(file) == File && StartsWith(Content(message, file), "Transferred File: ")
    ensures Truthy(file) && message == "" ==> Content(message, file) == "Transferred File: " + file.value
    ensures Truthy(file) && message != "" ==> Content(message, file) == "Transferred File: " + file.value + " | Note: " + message
    ensures !Truthy(file) ==> Kind(file) == Text && Content(message, file) == message
  {
    if Truthy(file) {
      var c := Content(message, file);
      assert c[..18] == "Transferred File: ";
    }
  }

  /** A broadcast goes ahead exactly when the message has a non-space character or a file is attached. */
  lemma CanBroadcastSpec(message: string, file: Option<string>)
    ensures CanBroadcast(message, file) <==> Truthy(file) || exists i :: 0 <= i < |message| && !IsSpace(message[i])
  {
    TrimEmptyIff(message);
  }

  // ---------------------------------------------------------------- delivering

  /** `devices.filter(d => accessMap[d.id])` */
  function ActiveDevices(ds: seq<Device>, m: map<string, bool>): (r: seq<Device>)
    ensures forall d :: d in r <==> d in ds && HasAccess(m, d.id)
  {
    if |ds| == 0 then []
    else
      assert forall d :: d in ds <==> d == ds[0] || d in ds[1..];
      (if HasAccess(m, ds[0].id) then [ds[0]] else []) + ActiveDevices(ds[1..], m)
  }

  /** `devices.filter(d => !accessMap[d.id])` */
  function BlockedDevices(ds: seq<Device>, m: map<string, bool>): (r: seq<Device>)
    ensures forall d :: d in r <==> d in ds && !HasAccess(m, d.id)
  {
    if |ds| == 0 then []
    else
      assert forall d :: d in ds <==> d == ds[0] || d in ds[1..];
      (if !HasAccess(m, ds[0].id) then [ds[0]] else []) + BlockedDevices(ds[1..], m)
  }

  /** The active and the blocked devices split the device list: each device is in exactly one. */
  lemma {:induction false} Partition(ds: seq<Device>, m: map<string, bool>)
    ensures |ActiveDevices(ds, m)| + |BlockedDevices(ds, m)| == |ds|
    ensures multiset(ActiveDevices(ds, m)) + multiset(BlockedDevices(ds, m)) == multiset(ds)
  {
    if |ds| > 0 {
      Partition(ds[1..], m);
      assert ds == [ds[0]] + ds[1..];
    }
  }

  function SentText(n: nat, content: string): string {
    "Sent to " + NatToString(n) + " devices: \"" + content + "\""
  }

  function BlockedText(n: nat): string {
    "Blocked for " + NatToString(n) + " devices (Access Denied)"
  }

  /** The entries one delivery adds, given the two random ids. */
  function DeliveryLogs(dv: Delivery, sentId: string, blockedId: string): seq<MessageLog> {
    var active := |ActiveDevices(dv.devices, dv.access)|;
    var blocked := |BlockedDevices(dv.devices, dv.access)|;
    (if active > 0 then [MessageLog(sentId, dv.time, "System Broadcast", SentText(active, dv.content), dv.kind, Sent)] else [])
    + (if blocked > 0 then [MessageLog(blockedId, dv.time, "Firewall/ACL", BlockedText(blocked), dv.kind, Blocked)] else [])
  }

  /**
   * A `sent` entry exactly when some device is active, a `blocked` entry exactly when some
   * device is blocked, sent before blocked, and at least one entry when there are devices.
   */
  lemma DeliveryLogsSpec(dv: Delivery, sentId: string, blockedId: string)
    ensures var logs := DeliveryLogs(dv, sentId, blockedId);
      var active := ActiveDevices(dv.devices, dv.access);
      var blocked := BlockedDevices(dv.devices, dv.access);
      && |logs| == (if |active| > 0 then 1 else 0) + (if |blocked| > 0 then 1 else 0)
      && (|active| > 0 ==> logs[0].status == Sent && logs[0].content == SentText(|active|, dv.content))
      && (|blocked| > 0 ==> logs[|logs| - 1].status == Blocked && logs[|logs| - 1].content == BlockedText(|blocked|))
      && (forall i :: 0 <= i < |logs| ==> logs[i].kind == dv.kind && logs[i].time == dv.time)
      && (|dv.devices| > 0 ==> |logs| >= 1)
  {
    Partition(dv.devices, dv.access);
  }

  /** The number in each log text reads back as the size of its set of devices. */
  lemma CountsInLogText(n: nat, content: string)
    ensures var k := |NatToString(n)|;
      && SentText(n, content)[..8] == "Sent to " && ParseDigits(SentText(n, content)[8..8 + k]) == n
      && BlockedText(n)[..12] == "Blocked for " && ParseDigits(BlockedText(n)[12..12 + k]) == n
  {
    ParseNatToString(n);
    var s := NatToString(n);
    assert SentText(n, content)[8..8 + |s|] == s;
    assert BlockedText(n)[12..12 + |s|] == s;
  }

  // ---------------------------------------------------------------- the component's state

  datatype Tab = Access | Broadcast

  class Center {
    var devices: seq<Device>
    var activeTab: Tab
    var accessMap: map<string, bool>
    var message: string
    var logs: seq<MessageLog>
    var isTransmitting: bool
    var attachedFile: Option<string>
    /** Deliveries scheduled and not yet run, oldest first. */
    var pending: seq<Delivery>

    constructor (ds: seq<Device>)
      ensures devices == ds && activeTab == Access && accessMap == map[] && message == ""
      ensures logs == [] && !isTransmitting && attachedFile == None && pending == []
    {
      devices := ds;
      activeTab := Access;
      accessMap := map[];
      message := "";
      logs := [];
      isTransmitting := false;
      attachedFile := None;
      pending := [];
    }

    /** The mount effect: default every device to `true`, keeping existing entries. */
    method Mount()
      modifies this
      ensures accessMap.Keys == old(accessMap).Keys + (set d | d in devices :: d.id)
      ensures forall id :: id in old(accessMap) ==> accessMap[id] == old(accessMap)[id]
      ensures forall d :: d in devices && d.id !in old(accessMap) ==> accessMap[d.id]
      ensures forall d :: d in devices ==> ShownAccess(accessMap, d.id) == HasAccess(accessMap, d.id)
      ensures devices == old(devices) && logs == old(logs) && pending == old(pending)
      ensures message == old(message) && attachedFile == old(attachedFile) && isTransmitting == old(isTransmitting)
      ensures activeTab == old(activeTab)
    {
      var initial := InitialMap(devices);
      accessMap := initial + accessMap;
    }

    /** The parent re-renders with another device list; the map is not resynchronised. */
    method DevicesChanged(ds: seq<Device>)
      modifies this`devices
      ensures devices == ds
    {
      devices := ds;
    }

    method SelectTab(tab: Tab)
      modifies this`activeTab
      ensures activeTab == tab
    {
      activeTab := tab;
    }

    /** A device's lock button. */
    method Toggle(id: string)
      modifies this`accessMap
      ensures accessMap == ToggleAccess(old(accessMap), id)
    {
      accessMap := ToggleAccess(accessMap, id);
    }

    /** `handleAttachFile`, with the random pick as a parameter. */
    method AttachFile(i: nat)
      requires i < |MockFiles|
      modifies this`attachedFile
      ensures attachedFile == Some(MockFiles[i])
    {
      attachedFile := Some(MockFiles[i]);
    }

    method DetachFile()
      modifies this`attachedFile
      ensures attachedFile == None
    {
      attachedFile := None;
    }

    method SetMessage(m: string)
      modifies this`message
      ensures message == m
    {
      message := m;
    }

    /**
     * `handleBroadcast` at clock reading `time`: ignored when there is nothing to send;
     * otherwise mark the transfer as running, clear the message and the attachment at once,
     * and schedule a delivery of what is on screen now.
     */
    method Send(time: string)
      modifies this
      ensures !CanBroadcast(old(message), old(attachedFile)) ==>
        message == old(message) && attachedFile == old(attachedFile) && pending == old(pending)
        && isTransmitting == old(isTransmitting)
      ensures CanBroadcast(old(message), old(attachedFile)) ==>
        && message == "" && attachedFile == None && isTransmitting
        && pending == old(pending) + [Delivery(old(devices), old(accessMap),
             Content(old(message), old(attachedFile)), Kind(old(attachedFile)), time)]
      ensures devices == old(devices) && accessMap == old(accessMap) && logs == old(logs)
      ensures activeTab == old(activeTab)
    {
      if !CanBroadcast(message, attachedFile) {
        return;
      }
      isTransmitting := true;
      var content := Content(message, attachedFile);
      var kind := Kind(attachedFile);
      message := "";
      attachedFile := None;
      pending := pending + [Delivery(devices, accessMap, content, kind, time)];
    }

    /** The delay's callback for the oldest scheduled delivery, with its two random log ids. */
    method Deliver(sentId: string, blockedId: string)
      requires |pending| > 0
      modifies this
      ensures logs == DeliveryLogs(old(pending)[0], sentId, blockedId) + old(logs)
      ensures pending == old(pending)[1..] && !isTransmitting
      ensures devices == old(devices) && accessMap == old(accessMap)
      ensures message == old(message) && attachedFile == old(attachedFile) && activeTab == old(activeTab)
    {
      var dv := pending[0];
      pending := pending[1..];
      var active := ActiveDevices(dv.devices, dv.access);
      var blocked := BlockedDevices(dv.devices, dv.access);
      var newLogs: seq<MessageLog> := [];
      if |active| > 0 {
        newLogs := newLogs + [MessageLog(sentId, dv.time, "System Broadcast", SentText(|active|, dv.content), dv.kind, Sent)];
      }
      if |blocked| > 0 {
        newLogs := newLogs + [MessageLog(blockedId, dv.time, "Firewall/ACL", BlockedText(|blocked|), dv.kind, Blocked)];
      }
      logs := newLogs + logs;
      isTransmitting := false;
    }
  }
}
