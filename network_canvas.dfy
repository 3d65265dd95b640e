/**
 * The canvas's pointer state machine. Three transient fields (`draggingId`, `dragOffset`,
 * `tempConnection`) are updated by pointer-down on a device, pointer-move over the canvas and
 * pointer-up on a device or on the canvas. The store's callbacks that a handler calls are
 * returned as an `Effect`. Coordinates are integers; the canvas origin in client coordinates
 * (`getBoundingClientRect().left/top`) is a parameter, `None` while the canvas is not mounted.
 */
module NetworkCanvas {
  import opened Optional
  import opened Types
  import opened Graph
  import Constants

  /** Half of the 64-pixel device tile: a device's centre is its corner plus this. */
  const HalfTile: int := 32

  datatype Point = Point(x: int, y: int)

  /** A cable being dragged from `sourceId`; its loose end is at `(endX, endY)`. */
  datatype PendingCable = PendingCable(sourceId: string, endX: int, endY: int)

  /** The three transient fields. */
  datatype Pointer = Pointer(draggingId: Option<string>, dragOffset: Point, tempConnection: Option<PendingCable>)

  const Idle: Pointer := Pointer(None, Point(0, 0), None)

  /** The callback a handler invokes on the store, if any. */
  datatype Effect =
    | NoEffect
    | SelectDevice(id: string)
    | MoveDevice(id: string, x: int, y: int)
    | ConnectDevices(sourceId: string, targetId: string)
    | OpenConfiguration(id: string)
    | DeleteDevice(id: string)

  datatype Transition = Transition(next: Pointer, effect: Effect)

  /** `if (draggingId)`: set and not the empty string. */
  predicate Dragging(p: Pointer) {
    p.draggingId.Some? && p.draggingId.value != ""
  }

  // ---------------------------------------------------------------- the drag offset

  /** The offset the handler records: client pointer minus device corner. */
  function GrabOffsetAsWritten(client: Point, device: Device): Point {
    Point(client.x - device.x, client.y - device.y)
  }

  /** The offset in the canvas coordinates the move handler subtracts it from. */
  function GrabOffset(client: Point, origin: Point, device: Device): Point {
    Point(client.x - origin.x - device.x, client.y - origin.y - device.y)
  }

  /** Where a move to `client` puts the dragged device, given the recorded offset. */
  function DragTarget(client: Point, origin: Point, offset: Point): Point {
    Point(client.x - origin.x - offset.x, client.y - origin.y - offset.y)
  }

  /**
   * With the offset as written, a device follows the pointer shifted by minus the canvas
   * origin: grabbing a device and not moving the pointer at all already moves it.
   */
  lemma GrabJumpsAsWritten(client: Point, origin: Point, device: Device, now: Point)
    ensures DragTarget(now, origin, GrabOffsetAsWritten(client, device))
         == Point(device.x + (now.x - client.x) - origin.x, device.y + (now.y - client.y) - origin.y)
    ensures origin != Point(0, 0) ==>
      DragTarget(client, origin, GrabOffsetAsWritten(client, device)) != Point(device.x, device.y)
  {
  }

  /** The canvas below the 56-pixel header: a device at (100, 100) jumps to (100, 44) on grab. */
  lemma GrabJumpExample()
    ensures var d := Plain("dev-1", Pc, "PC1", 100, 100, []);
      DragTarget(Point(150, 206), Point(0, 56), GrabOffsetAsWritten(Point(150, 206), d)) == Point(100, 44)
  {
  }

  /** With the corrected offset the device moves exactly as far as the pointer. */
  lemma GrabFollowsPointer(client: Point, origin: Point, device: Device, now: Point)
    ensures DragTarget(now, origin, GrabOffset(client, origin, device))
         == Point(device.x + (now.x - client.x), device.y + (now.y - client.y))
  {
  }

  // ---------------------------------------------------------------- the handlers

  /** Pointer-down on a device, recording `offset` if it starts a move. */
  function DownWith(p: Pointer, device: Device, connecting: bool, offset: Point): Transition {
    if connecting then
      Transition(p.(tempConnection := Some(PendingCable(device.id, device.x + HalfTile, device.y + HalfTile))), NoEffect)
    else
      Transition(p.(draggingId := Some(device.id), dragOffset := offset), SelectDevice(device.id))
  }

  /** `handleMouseDown(e, device)`, recording the offset as the handler computes it. */
  function Down(p: Pointer, device: Device, connecting: bool, client: Point): Transition {
    DownWith(p, device, connecting, GrabOffsetAsWritten(client, device))
  }

  /** The pointer-down the move handler evidently expects: the offset in canvas coordinates. */
  function DownCorrected(p: Pointer, device: Device, connecting: bool, client: Point, origin: Point): Transition {
    DownWith(p, device, connecting, GrabOffset(client, origin, device))
  }

  /** `handleMouseMove(e)`; `origin` is `None` while the canvas element is absent. */
  function Move(p: Pointer, client: Point, origin: Option<Point>): Transition {
    if origin.None? then Transition(p, NoEffect)
    else
      var mouse := Point(client.x - origin.value.x, client.y - origin.value.y);
      if p.tempConnection.Some? then
        Transition(p.(tempConnection := Some(p.tempConnection.value.(endX := mouse.x, endY := mouse.y))), NoEffect)
      else if Dragging(p) then
        var target := DragTarget(client, origin.value, p.dragOffset);
        Transition(p, MoveDevice(p.draggingId.value, target.x, target.y))
      else Transition(p, NoEffect)
  }

  /** `handleMouseUpDevice(e, target)` */
  function UpOnDevice(p: Pointer, target: Device): Transition {
    var effect :=
      if p.tempConnection.Some? && p.tempConnection.value.sourceId != target.id
      then ConnectDevices(p.tempConnection.value.sourceId, target.id) else NoEffect;
    Transition(p.(tempConnection := None, draggingId := None), effect)
  }

  /** `handleMouseUpCanvas()` */
  function UpOnCanvas(p: Pointer): Transition {
    Transition(p.(tempConnection := None, draggingId := None), NoEffect)
  }

  /** `handleDoubleClick(e, device)` */
  function DoubleClick(p: Pointer, device: Device): Transition {
    Transition(p, OpenConfiguration(device.id))
  }

  /** The delete button on a tile; it stops the pointer-down, so no drag starts. */
  function DeleteClick(p: Pointer, device: Device): Transition {
    Transition(p, DeleteDevice(device.id))
  }

  // ---------------------------------------------------------------- properties of the handlers

  /**
   * Pointer-down in connect mode starts a cable at the device's centre and neither starts
   * a move nor selects.
   */
  lemma DownConnecting(p: Pointer, device: Device, client: Point)
    ensures var t := Down(p, device, true, client);
      && t.next.tempConnection == Some(PendingCable(device.id, device.x + 32, device.y + 32))
      && t.next.draggingId == p.draggingId && t.next.dragOffset == p.dragOffset
      && t.effect == NoEffect
  {
  }

  /**
   * Pointer-down otherwise starts a move of that device and selects it. The first move, even
   * one back to the very point where the pointer went down, asks for the device's position
   * shifted by minus the canvas origin.
   */
  lemma DownDragging(p: Pointer, device: Device, client: Point, origin: Point)
    ensures var t := Down(p, device, false, client);
      && t.next.draggingId == Some(device.id) && t.next.tempConnection == p.tempConnection
      && t.effect == SelectDevice(device.id)
      && (p.tempConnection.None? && device.id != "" ==>
            Move(t.next, client, Some(origin)).effect
              == MoveDevice(device.id, device.x - origin.x, device.y - origin.y))
  {
  }

  /** With the corrected pointer-down, a move back to the grab point leaves the device in place. */
  lemma DownCorrectedDragging(p: Pointer, device: Device, client: Point, origin: Point)
    ensures var t := DownCorrected(p, device, false, client, origin);
      && t.next.draggingId == Some(device.id) && t.next.tempConnection == p.tempConnection
      && t.effect == SelectDevice(device.id)
      && (p.tempConnection.None? && device.id != "" ==>
            Move(t.next, client, Some(origin)).effect == MoveDevice(device.id, device.x, device.y))
  {
  }

  /**
   * Pointer-move never changes `draggingId` or the offset, and does one thing at most: with a
   * pending cable it moves only the cable's loose end; otherwise, while dragging, it asks
   * for the dragged device to move; otherwise nothing.
   */
  lemma MoveExclusive(p: Pointer, client: Point, origin: Point)
    ensures var t := Move(p, client, Some(origin));
      && t.next.draggingId == p.draggingId && t.next.dragOffset == p.dragOffset
      && (p.tempConnection.Some? ==>
            && t.effect == NoEffect
            && t.next.tempConnection == Some(PendingCable(p.tempConnection.value.sourceId,
                                                          client.x - origin.x, client.y - origin.y)))
      && (p.tempConnection.None? ==> t.next == p)
      && (t.effect.MoveDevice? <==> p.tempConnection.None? && Dragging(p))
      && (t.effect.MoveDevice? ==> t.effect.id == p.draggingId.value)
      && (t.effect.NoEffect? || t.effect.MoveDevice?)
  {
  }

  /** Without a mounted canvas a pointer-move does nothing. */
  lemma MoveUnmounted(p: Pointer, client: Point)
    ensures Move(p, client, None) == Transition(p, NoEffect)
  {
  }

  /**
   * Pointer-up on a device connects exactly when a cable is pending from another device;
   * every pointer-up, on a device or on the canvas, clears both transient states.
   */
  lemma UpSpec(p: Pointer, target: Device)
    ensures var t := UpOnDevice(p, target);
      && t.next.tempConnection == None && t.next.draggingId == None && !Dragging(t.next)
      && (t.effect.ConnectDevices? <==> p.tempConnection.Some? && p.tempConnection.value.sourceId != target.id)
      && (t.effect.ConnectDevices? ==> t.effect == ConnectDevices(p.tempConnection.value.sourceId, target.id))
      && (!t.effect.ConnectDevices? ==> t.effect == NoEffect)
    ensures UpOnCanvas(p).next.tempConnection == None && UpOnCanvas(p).next.draggingId == None
    ensures UpOnCanvas(p).effect == NoEffect
  {
  }

  /**
   * The two transient states are not exclusive: a pointer-down in move mode and another in
   * connect mode without a pointer-up between leave both set. A move then still only
   * stretches the cable.
   */
  lemma BothStatesReachable(a: Device, b: Device, client: Point, origin: Point)
    requires a.id != ""
    ensures var p := Down(Down(Idle, a, false, client).next, b, true, client).next;
      && Dragging(p) && p.tempConnection.Some?
      && Move(p, client, Some(origin)).effect == NoEffect
  {
  }

  /** The drag session: the positions a sequence of pointer-moves asks for. */
  function MoveAll(p: Pointer, clients: seq<Point>, origin: Point): (r: seq<Effect>)
    ensures |r| == |clients|
    decreases |clients|
  {
    if |clients| == 0 then []
    else [Move(p, clients[0], Some(origin)).effect] + MoveAll(Move(p, clients[0], Some(origin)).next, clients[1..], origin)
  }

  /**
   * A drag as the handlers are written: after grabbing a device at `grab`, every later move
   * asks for the device's original position plus the pointer's displacement since the grab,
   * minus the canvas origin.
   */
  lemma {:induction false} DragAsWritten(p: Pointer, device: Device, grab: Point, origin: Point, clients: seq<Point>)
    requires p.tempConnection.None? && device.id != ""
    ensures var q := Down(p, device, false, grab).next;
      forall k :: 0 <= k < |clients| ==>
        MoveAll(q, clients, origin)[k]
          == MoveDevice(device.id, device.x + clients[k].x - grab.x - origin.x,
                                   device.y + clients[k].y - grab.y - origin.y)
  {
    var q := Down(p, device, false, grab).next;
    DragSession(q, device.id, q.dragOffset, clients, origin);
  }

  /**
   * No drift with the corrected pointer-down: every later move asks for the device's original
   * position plus exactly the pointer's displacement since the grab.
   */
  lemma {:induction false} DragNoDriftCorrected(p: Pointer, device: Device, grab: Point, origin: Point, clients: seq<Point>)
    requires p.tempConnection.None? && device.id != ""
    ensures var q := DownCorrected(p, device, false, grab, origin).next;
      forall k :: 0 <= k < |clients| ==>
        MoveAll(q, clients, origin)[k]
          == MoveDevice(device.id, device.x + clients[k].x - grab.x, device.y + clients[k].y - grab.y)
  {
    var q := DownCorrected(p, device, false, grab, origin).next;
    DragSession(q, device.id, q.dragOffset, clients, origin);
  }

  lemma {:induction false} DragSession(q: Pointer, id: string, offset: Point, clients: seq<Point>, origin: Point)
    requires q.tempConnection.None? && q.draggingId == Some(id) && id != "" && q.dragOffset == offset
    ensures forall k :: 0 <= k < |clients| ==>
      MoveAll(q, clients, origin)[k]
        == MoveDevice(id, clients[k].x - origin.x - offset.x, clients[k].y - origin.y - offset.y)
  {
    if |clients| > 0 {
      assert Move(q, clients[0], Some(origin)).next == q;
      DragSession(q, id, offset, clients[1..], origin);
      forall k | 1 <= k < |clients|
        ensures MoveAll(q, clients, origin)[k]
          == MoveDevice(id, clients[k].x - origin.x - offset.x, clients[k].y - origin.y - offset.y)
      {
        assert MoveAll(q, clients, origin)[k] == MoveAll(q, clients[1..], origin)[k - 1];
        assert clients[1..][k - 1] == clients[k];
      }
    }
  }

  // ---------------------------------------------------------------- drawing helpers

  /** `getCenter(id)`: the centre of the first device with that id, or the origin. */
  function Center(ds: seq<Device>, id: string): Point {
    match Find(ds, id)
    case None => Point(0, 0)
    case Some(d) => Point(d.x + HalfTile, d.y + HalfTile)
  }

  lemma CenterSpec(ds: seq<Device>, id: string)
    ensures !HasDevice(ds, id) ==> Center(ds, id) == Point(0, 0)
    ensures UniqueDeviceIds(ds) ==>
      forall i :: 0 <= i < |ds| && ds[i].id == id ==> Center(ds, id) == Point(ds[i].x + 32, ds[i].y + 32)
  {
    if UniqueDeviceIds(ds) {
      forall i | 0 <= i < |ds| && ds[i].id == id ensures Center(ds, id) == Point(ds[i].x + 32, ds[i].y + 32) {
        assert ds[i] in ds;
        var d := Find(ds, id).value;
        var j :| 0 <= j < |ds| && ds[j] == d;
        assert i == j;
      }
    }
  }

  /** The style a drawn link uses: its cable's entry, falling back to the straight cable's. */
  function LinkStyle(l: Link): Constants.CableStyle {
    if l.cable in Constants.CableStyles then Constants.CableStyles[l.cable]
    else Constants.CableStyles[Straight]
  }

  /** The fallback never applies, because the table covers every cable kind. */
  lemma LinkStyleFallbackUnused(l: Link)
    ensures l.cable in Constants.CableStyles && LinkStyle(l) == Constants.CableStyles[l.cable]
  {
    Constants.CableStylesTable(l.cable);
  }

  const SelectedClass: string := "bg-blue-600 ring-2 ring-blue-400 shadow-[0_0_15px_rgba(37,99,235,0.5)]"
  const SensorClass: string := "bg-amber-800 hover:bg-amber-700 border-amber-600"
  const ActuatorClass: string := "bg-emerald-800 hover:bg-emerald-700 border-emerald-600"
  const ControllerClass: string := "bg-teal-900 hover:bg-teal-800 border-teal-700"
  const FirewallClass: string := "bg-red-900 hover:bg-red-800 border-red-700"
  const CloudClass: string := "bg-sky-900 hover:bg-sky-800 border-sky-700"
  const NetworkClass: string := "bg-slate-800 hover:bg-slate-700 border-slate-600"

  /** `getDeviceColor(type, isSelected)` */
  function DeviceColor(t: DeviceType, selected: bool): string {
    if selected then SelectedClass
    else if IsSensorName(t) then SensorClass
    else if IsActuatorName(t) then ActuatorClass
    else if t == Arduino || t == Esp32 || t == RaspberryPi then ControllerClass
    else if t == Firewall then FirewallClass
    else if t == Cloud then CloudClass
    else NetworkClass
  }

  /**
   * The colour classes by kind: selection overrides everything; the five sensors, the four
   * actuators, the three controllers, the firewall and the cloud have their own; the relay,
   * the GSM module and the remaining network kinds share the default.
   */
  lemma DeviceColorTable(t: DeviceType, selected: bool)
    ensures selected ==> DeviceColor(t, selected) == SelectedClass
    ensures !selected && t in SensorKinds ==> DeviceColor(t, selected) == SensorClass
    ensures !selected && t in ActuatorKinds ==> DeviceColor(t, selected) == ActuatorClass
    ensures !selected && t in {Arduino, Esp32, RaspberryPi} ==> DeviceColor(t, selected) == ControllerClass
    ensures !selected && t == Firewall ==> DeviceColor(t, selected) == FirewallClass
    ensures !selected && t == Cloud ==> DeviceColor(t, selected) == CloudClass
    ensures !selected && t in {Relay, GsmModule, Pc, Laptop, Server, Router, Switch, AccessPoint} ==>
      DeviceColor(t, selected) == NetworkClass
  {
    SensorNames(t);
    ActuatorNames(t);
  }

  /** How a tile is drawn: its colour classes and, for a coloured LED, its inline colour. */
  datatype TileStyle = TileStyle(colorClass: string, customColor: Option<string>)

  /** The tile's style: an unselected LED with a colour clears the classes and uses the colour. */
  function Tile(d: Device, selected: bool): TileStyle {
    var colorClass := DeviceColor(d.kind, selected);
    if d.color.Some? && d.color.value != "" && d.kind == ActuatorLed && !selected then TileStyle("", d.color)
    else TileStyle(colorClass, None)
  }

  /**
   * A selected tile always has the selection classes and no inline colour; an unselected LED
   * with a non-empty colour has no classes and that colour; every other tile has its kind's
   * classes. The classes are empty exactly when an inline colour applies.
   */
  lemma TileSpec(d: Device, selected: bool)
    ensures selected ==> Tile(d, selected) == TileStyle(SelectedClass, None)
    ensures !selected && d.kind == ActuatorLed && d.color.Some? && d.color.value != "" ==>
      Tile(d, selected) == TileStyle("", d.color)
    ensures !(!selected && d.kind == ActuatorLed && d.color.Some? && d.color.value != "") ==>
      Tile(d, selected) == TileStyle(DeviceColor(d.kind, selected), None)
    ensures Tile(d, selected).colorClass == "" <==> Tile(d, selected).customColor.Some?
  {
  }

  // ---------------------------------------------------------------- the component's state

  class Session {
    var draggingId: Option<string>
    var dragOffset: Point
    var tempConnection: Option<PendingCable>

    function State(): Pointer
      reads this
    {
      Pointer(draggingId, dragOffset, tempConnection)
    }

    /** Nothing pending and no offset, as on mount. */
    constructor ()
      ensures State() == Idle
    {
      draggingId := None;
      dragOffset := Point(0, 0);
      tempConnection := None;
    }

    method Apply(t: Transition) returns (e: Effect)
      modifies this
      ensures State() == t.next && e == t.effect
    {
      draggingId := t.next.draggingId;
      dragOffset := t.next.dragOffset;
      tempConnection := t.next.tempConnection;
      e := t.effect;
    }

    method MouseDown(device: Device, connecting: bool, client: Point) returns (e: Effect)
      modifies this
      ensures var t := Down(old(State()), device, connecting, client); State() == t.next && e == t.effect
    {
      e := Apply(Down(State(), device, connecting, client));
    }

    method MouseMove(client: Point, origin: Option<Point>) returns (e: Effect)
      modifies this
      ensures var t := Move(old(State()), client, origin); State() == t.next && e == t.effect
    {
      e := Apply(Move(State(), client, origin));
    }

    method MouseUpDevice(target: Device) returns (e: Effect)
      modifies this
      ensures var t := UpOnDevice(old(State()), target); State() == t.next && e == t.effect
    {
      e := Apply(UpOnDevice(State(), target));
    }

    method MouseUpCanvas()
      modifies this
      ensures State() == UpOnCanvas(old(State())).next
    {
      var _ := Apply(UpOnCanvas(State()));
    }
  }
}
