# Virtual Networking & IoT Lab — a Dafny model of its core

The lab is a browser application in which a student places network devices (PCs, routers,
switches, ...) and IoT parts (boards, sensors, actuators) on a canvas, wires them with cables,
configures them, writes Arduino-style sketches, and asks a language model to simulate
terminal commands or to tutor them. This project models the logic of that application and
proves properties of it:

- **Topology store** (`app.dfy`, module `App`): the device and link lists of the root
  component and their handlers — add a device with its kind-dependent defaults, update, move,
  delete (with its incident links), connect (no self-links, no second link between the same
  pair), the connection-mode toggle, the cable selector, selection and the configuration
  dialog id, and the context text sent to the tutor. Class `App.Lab` holds the store's state;
  its methods keep unique device ids, unique link ids, no self-links and no duplicate pairs.
  Add, update, move and delete also preserve "every link endpoint exists"; connect preserves it
  only when both ids name devices, because `handleConnect` does not check its endpoints.
  The selection handlers keep "selected ids name existing devices".
- **Canvas pointer state machine** (`network_canvas.dfy`, module `NetworkCanvas`): the three
  transient fields (`draggingId`, `dragOffset`, `tempConnection`) updated by pointer-down,
  pointer-move and pointer-up, the callbacks each handler asks of the store, the link and
  device drawing helpers, and class `NetworkCanvas.Session` holding the fields.
- **Port picker** (`port_connection_modal.dfy`): one selection slot per side, only free ports
  selectable, connect only with both slots filled, and the short port labels.
- **Configuration dialog and side panel** (`configuration_modal.dfy`, `properties_panel.dfy`):
  which tabs a device kind gets, the record each edit handler builds, the dialog's delete
  button carried out on the store as the root component wires it, the panel's delete request
  (and its effect under an assumed wiring to the store's delete handler), the line counter, and
  the panel's narrower kind predicates compared with the dialog's.
- **Sketch editor** (`code_editor.dfy`): the library table and which kinds see which library,
  the `#include` toggle (removal pass and insertion at the top), the line count and gutter.
- **Sharing center** (`sharing_modal.dfy`): the per-device access map, the broadcast guard and
  content, and the delayed delivery that logs how many devices received or were blocked;
  class `SharingModal.Center` with a queue of scheduled deliveries.
- **Simulation service helpers** (`gemini.dfy`): the links and neighbours of the device a
  command runs on, which topology is described, the chat-role mapping, and the fallback texts.
- **Terminal** (`terminal.dfy`): the transcript reset on device change, command acceptance,
  `clear`, and the single outstanding command while the simulator answers
  (class `Terminal.Console`).
- **Project dashboard** (`project_dashboard.dfy`): start from scratch, the eight built-in
  templates (each proved well formed), the case-insensitive search and the "first four" view.
- **Shared definitions**: `types.dfy` (the enumerations and records), `constants.dfy` (cable
  styles, default sketch, the initial challenge), `graph.dfy` (the topology consistency
  conditions), `strings.dfy` (the JavaScript string operations used, written out on
  `seq<char>`), `optional.dfy`.

Randomness, the clock, the canvas's position on the page and the language model's answers are
parameters of the operations that use them. Asynchronous continuations (the broadcast's
800 ms timer, the awaited simulator call) are separate steps (`SharingModal.Center.Deliver`,
`Terminal.Console.Complete`).

## Model

| member | source | states |
|---|---|---|
| Types.DeviceTypeClosed | types.ts:1-28 | the device kind enumeration has exactly 22 distinct values and every kind is one of them |
| Types.SensorNames | types.ts:17-21 | exactly the five SENSOR_ kinds satisfy `startsWith('SENSOR')` |
| Types.ActuatorNames | types.ts:23-27 | exactly the four ACTUATOR_ kinds satisfy `startsWith('ACTUATOR')`; the relay is neither a sensor nor an actuator by name |
| Constants.CableStylesTable | constants.ts:9-16 | every cable kind has a style; GPIO is 1 wide, all others 2; only crossover is dashed, `5,5` |
| Constants.InitialTopology | constants.ts:46-65 | the initial challenge is a well-formed topology of two PCs with one empty `eth0` each and an interface-less switch, both links ending at the switch |
| Constants.PingBasicsWellFormed | constants.ts:54-62 | the challenge's devices and links satisfy every topology consistency condition |
| Strings.IndexOf | components/PortConnectionModal.tsx:62 | the result is the first position of the pattern, or -1 exactly when the pattern does not occur |
| Strings.ReplaceFirstAtStart | components/PortConnectionModal.tsx:62 | a string-pattern `replace` on a string starting with the pattern swaps that prefix |
| Strings.ReplaceFirstAbsent | components/PortConnectionModal.tsx:62 | `replace` leaves a string without the pattern unchanged |
| Strings.TrimStart | components/CodeEditor.tsx:39 | the result is a suffix of the input that starts without white space, and everything dropped is white space |
| Strings.TrimEmptyIff | components/Terminal.tsx:64 | `trim()` is empty exactly when every character is white space |
| Strings.TrimShape | components/Terminal.tsx:65 | a non-empty trimmed string neither begins nor ends with white space and is no longer than the input |
| Strings.LowerChar | components/ProjectDashboard.tsx:231-239 | an ASCII capital maps to the letter 32 code points above it; every other character is kept |
| Strings.LowerCharIs | components/ProjectDashboard.tsx:231-239 | a character lower-cases to a given small letter exactly when it is that letter or its capital |
| Strings.ToLowerAppend | components/ProjectDashboard.tsx:231-239 | lower-casing distributes over concatenation |
| Strings.ToLowerIdempotent | components/ProjectDashboard.tsx:231-239 | lower-casing twice is lower-casing once, and the result holds no capital |
| Strings.Split | components/CodeEditor.tsx:30 | `split` on one character gives one more piece than there are separators, none containing the separator |
| Strings.JoinSplit | components/CodeEditor.tsx:30 | joining the pieces of a split with the separator gives back the string |
| Strings.ParseNatToString | App.tsx:111 | the decimal text of a number reads back as that number |
| Strings.NatToStringInjective | App.tsx:48 | different numbers get different decimal texts, so generated names differ by their number |
| Graph.Find | App.tsx:32-33 | `find` returns the first device of the list with that id, and nothing exactly when no device has it |
| Graph.PairCountZeroIff | App.tsx:84-87 | no link joins a pair exactly when the `links.some` test of connect is false |
| Graph.PairCountAtMostOne | App.tsx:80-97 | in a link list without duplicate pairs, two devices are joined by at most one link |
| Graph.PairCountAppend | App.tsx:90-95 | appending a link adds one to the count of the pair it joins and nothing to any other |
| Graph.IndexedWellFormed | constants.ts:54-62 | a topology whose links each join two different device positions, no pair twice, with unique ids, is well formed |
| App.DeclarationIndex | App.tsx:36 | the index of a kind in the enumeration's declaration order names that kind |
| App.RoughIoTCheckAgrees | App.tsx:36-43 | the unused "rough check" `indexOf(type) > 7` agrees with the explicit IoT list on every kind |
| App.CountKindAppend | App.tsx:48 | adding a device raises the count of its kind by one and leaves the others |
| App.NewDeviceDefaults | App.tsx:45-60 | a new device is online at the given spot; a switch has no interfaces and every other kind one empty `eth0`; code, the default sketch, exactly for Arduino/ESP32/Raspberry Pi, reading 0 exactly for sensors, state off exactly for actuators (not the relay), red exactly for the LED |
| App.NewDeviceNumbering | App.tsx:48 | the new name is `<TYPE>-<n>` with n one past the devices of that kind, so a second device of the kind gets the next number |
| App.ReplaceDeviceSpec | App.tsx:65-67 | update replaces exactly the device with the matching id, keeps all ids and positions, and is a no-op for an unknown id |
| App.MoveDeviceSpec | App.tsx:76-78 | move changes only x and y of the device with that id; an unknown id changes nothing |
| App.RemoveDeviceAppend | App.tsx:70 | device removal distributes over concatenation, so the survivors keep their order |
| App.NewDevice | App.tsx:45-60 | `addDevice`'s record, specified by App.NewDeviceDefaults and App.NewDeviceNumbering |
| App.ReplaceDevice | App.tsx:65-67 | `handleUpdateDevice`'s map, specified by App.ReplaceDeviceSpec |
| App.MoveDeviceTo | App.tsx:76-78 | `handleMoveDevice`'s map, specified by App.MoveDeviceSpec |
| App.RemoveDevice | App.tsx:70 | the device filter keeps exactly the devices with another id |
| App.RemoveIncident | App.tsx:71 | the link filter keeps exactly the links with neither end at the id |
| App.ConnectLinks | App.tsx:80-97 | `handleConnect`'s link list, specified by App.ConnectSpec and App.ConnectKeeps |
| App.DeviceSummary | App.tsx:104-108 | one line of the context text, specified by App.DeviceSummaryCases |
| App.NetworkContext | App.tsx:103-112 | `getNetworkContext`, specified by App.NetworkContextShape |
| App.RemoveIncidentAppend | App.tsx:71 | link removal distributes over concatenation |
| App.RemoveDeviceAbsent | App.tsx:70 | deleting an id no device has leaves the device list unchanged |
| App.RemoveDeviceCount | App.tsx:70 | with unique ids, deleting a present device removes exactly one entry |
| App.RemovePreservesEndpoints | App.tsx:69-74 | after deletion every remaining link still ends at existing devices and none touches the deleted id |
| App.RemoveUniqueIds | App.tsx:70 | deletion keeps device ids unique |
| App.RemoveIncidentKeeps | App.tsx:71 | dropping the links at a device keeps link ids unique, no self-links and no duplicate pairs |
| App.RemoveKeepsOthers | App.tsx:70 | deleting a device keeps every device with another id |
| App.ConnectSelf | App.tsx:82 | a self-connection never changes the links |
| App.ConnectSpec | App.tsx:80-97 | connecting an already joined pair, in either orientation, changes nothing; otherwise exactly one link with the chosen cable is appended after the unchanged old links |
| App.ConnectKeeps | App.tsx:80-97 | with a fresh link id, connecting keeps the link-list conditions, and endpoint existence when both ends exist |
| App.ConnectTwice | App.tsx:84-96 | connecting a pair twice, in the same or the opposite orientation, leaves exactly one link between them |
| App.TwoPcScenario | App.tsx:80-97 | two unlinked PCs: a first connect creates one link, repeating it creates none |
| App.NetworkContextShape | App.tsx:103-112 | the tutor context opens with the device header, then holds the joined device summaries in list order, and ends with `Total Links: ` and the link count in decimal |
| App.Summaries | App.tsx:104-108 | one summary per device, in list order |
| App.DeviceSummaryCases | App.tsx:104-108 | a device with non-empty code is summarised as `[Code]` whatever its kind; a sensor without code shows its value; any other device lists its interfaces as `name: ip`, comma-separated |
| App.Lab.constructor | App.tsx:21-27 | the store starts on the first challenge's topology, nothing selected, connection mode off, straight cable, with all invariants |
| App.Lab.SelectedDevice | App.tsx:32 | the selected device, when found, is in the list and carries the selected id |
| App.Lab.ConfiguringDevice | App.tsx:33 | the configuring device, when found, is in the list and carries the configuring id |
| App.Lab.AddDevice | App.tsx:35-63 | the new device is appended and selected, nothing else changes, and the store's invariants are kept |
| App.Lab.UpdateDevice | App.tsx:65-67 | the device list becomes the replaced list, nothing else changes, invariants kept |
| App.Lab.MoveDevice | App.tsx:76-78 | the device list becomes the moved list, nothing else changes, invariants kept |
| App.Lab.DeleteDevice | App.tsx:69-74 | the device and its incident links go; the selected and configuring ids are cleared only when they are that id; invariants kept |
| App.Lab.Connect | App.tsx:80-97 | the link list becomes the connected list with the selected cable, nothing else changes, invariants kept |
| App.Lab.ToggleConnectionMode | App.tsx:99-101 | the connection mode flips |
| App.Lab.SelectCableType | App.tsx:197-198 | the selector sets the cable kind |
| App.Lab.SelectDevice | App.tsx:229 | the canvas's selection callback selects that device and keeps selections live |
| App.Lab.OpenConfiguration | App.tsx:230 | a double-click opens that device's configuration |
| App.Lab.CloseConfiguration | App.tsx:271 | closing the dialog clears the configuring id |
| App.Lab.Context | App.tsx:103-112 | the store's context text is the tutor context of its devices and links, as App.NetworkContextShape describes |
| NetworkCanvas.GrabOffsetAsWritten | components/NetworkCanvas.tsx:99-102 | the drag offset as the handler records it, in client coordinates |
| NetworkCanvas.GrabJumpsAsWritten | components/NetworkCanvas.tsx:99-120 | with that offset the dragged device follows the pointer shifted by minus the canvas origin, so with the canvas away from the page corner a grab without motion already moves it |
| NetworkCanvas.GrabJumpExample | components/NetworkCanvas.tsx:99-120 | a device at (100, 100) on a canvas at (0, 56) grabbed at (150, 206) is asked to move to (100, 44) |
| NetworkCanvas.GrabFollowsPointer | components/NetworkCanvas.tsx:107-123 | with the offset taken in canvas coordinates the device moves exactly as far as the pointer |
| NetworkCanvas.Down | components/NetworkCanvas.tsx:86-105 | `handleMouseDown` with the offset as written, specified by NetworkCanvas.DownConnecting and NetworkCanvas.DownDragging |
| NetworkCanvas.DownCorrected | components/NetworkCanvas.tsx:86-105 | the pointer-down with the offset in canvas coordinates, specified by NetworkCanvas.DownCorrectedDragging |
| NetworkCanvas.Move | components/NetworkCanvas.tsx:107-123 | `handleMouseMove`, specified by NetworkCanvas.MoveExclusive and NetworkCanvas.MoveUnmounted |
| NetworkCanvas.UpOnDevice | components/NetworkCanvas.tsx:125-132 | `handleMouseUpDevice`, specified by NetworkCanvas.UpSpec |
| NetworkCanvas.UpOnCanvas | components/NetworkCanvas.tsx:134-137 | `handleMouseUpCanvas`, specified by NetworkCanvas.UpSpec |
| NetworkCanvas.DownConnecting | components/NetworkCanvas.tsx:86-95 | pointer-down in connect mode starts a cable at the device's centre, starts no move and selects nothing |
| NetworkCanvas.DownDragging | components/NetworkCanvas.tsx:96-104 | pointer-down otherwise starts moving and selects that device; a first move even back to the grab point asks for the device's position minus the canvas origin |
| NetworkCanvas.DownCorrectedDragging | components/NetworkCanvas.tsx:96-120 | with the offset in canvas coordinates a move back to the grab point leaves the device in place |
| NetworkCanvas.MoveExclusive | components/NetworkCanvas.tsx:107-123 | a pointer-move keeps the drag fields and does at most one thing: stretch a pending cable to the pointer, else ask to move the dragged device, else nothing |
| NetworkCanvas.MoveUnmounted | components/NetworkCanvas.tsx:108 | without the canvas element a pointer-move does nothing |
| NetworkCanvas.UpSpec | components/NetworkCanvas.tsx:125-137 | pointer-up on a device connects exactly when a cable is pending from another device; every pointer-up clears both transient states |
| NetworkCanvas.BothStatesReachable | components/NetworkCanvas.tsx:86-123 | a move-mode and a connect-mode pointer-down with no pointer-up between leave both a drag and a cable pending; a move then only stretches the cable |
| NetworkCanvas.MoveAll | components/NetworkCanvas.tsx:107-123 | a sequence of pointer-moves yields one effect per move |
| NetworkCanvas.DragAsWritten | components/NetworkCanvas.tsx:86-123 | after a grab, every later move asks for the original position plus the pointer's displacement since the grab, minus the canvas origin |
| NetworkCanvas.DragNoDriftCorrected | components/NetworkCanvas.tsx:86-123 | with the corrected pointer-down, every later move asks for the original position plus exactly the pointer's displacement |
| NetworkCanvas.DragSession | components/NetworkCanvas.tsx:119-120 | while dragging without a cable, each move asks for the pointer in canvas coordinates minus the fixed offset |
| NetworkCanvas.CenterSpec | components/NetworkCanvas.tsx:144-148 | an unknown id has centre (0, 0); with unique ids the centre is the device's corner plus 32 in both axes |
| NetworkCanvas.Center | components/NetworkCanvas.tsx:144-148 | `getCenter`, specified by NetworkCanvas.CenterSpec |
| NetworkCanvas.LinkStyle | components/NetworkCanvas.tsx:166 | a link's style, specified by NetworkCanvas.LinkStyleFallbackUnused |
| NetworkCanvas.DeviceColor | components/NetworkCanvas.tsx:57-67 | `getDeviceColor`, specified by NetworkCanvas.DeviceColorTable |
| NetworkCanvas.LinkStyleFallbackUnused | components/NetworkCanvas.tsx:166 | the straight-cable fallback never applies: every link is drawn with its own cable's style |
| NetworkCanvas.DeviceColorTable | components/NetworkCanvas.tsx:57-67 | selection overrides; sensors, actuators, boards, firewall and cloud get their own classes; relay, GSM module and network kinds the default |
| NetworkCanvas.Tile | components/NetworkCanvas.tsx:207-221 | a tile's colour class and inline colour, specified by NetworkCanvas.TileSpec |
| NetworkCanvas.TileSpec | components/NetworkCanvas.tsx:207-221 | a selected tile has the selection classes and no inline colour; an unselected LED with a colour has the empty class and that colour; every other tile its kind's classes; the class is empty exactly when an inline colour applies |
| NetworkCanvas.Session.constructor | components/NetworkCanvas.tsx:81-83 | the component starts with no drag, no cable and a zero offset |
| NetworkCanvas.Session.MouseDown | components/NetworkCanvas.tsx:86-105 | the fields become those of the pointer-down as written (offset in client coordinates) and the returned effect is its callback |
| NetworkCanvas.Session.MouseMove | components/NetworkCanvas.tsx:107-123 | the fields become the pointer-move transition's and the returned effect is its callback |
| NetworkCanvas.Session.MouseUpDevice | components/NetworkCanvas.tsx:125-132 | the fields become the pointer-up-on-device transition's and the returned effect is its callback |
| NetworkCanvas.Session.MouseUpCanvas | components/NetworkCanvas.tsx:134-137 | both transient states are cleared |
| PortConnectionModal.ClickSpec | components/PortConnectionModal.tsx:34-41 | a click on a taken port changes nothing; on a free port (no peer or an empty peer id) it selects exactly that port |
| PortConnectionModal.ClickKeepsFree | components/PortConnectionModal.tsx:23 | after any click a slot is still empty or the id of a free port of its side |
| PortConnectionModal.ConfirmSpec | components/PortConnectionModal.tsx:25-29 | confirming reports both ids exactly when both slots hold non-empty ids, and otherwise nothing |
| PortConnectionModal.PortLabelPlain | components/PortConnectionModal.tsx:62 | a name with neither long prefix is shown as is |
| PortConnectionModal.PortLabelFast | components/PortConnectionModal.tsx:62 | `FastEthernet...` is shown as `Fa...`, provided no `GigabitEthernet` follows the prefix (that would be shortened too) |
| PortConnectionModal.AbsentAfterShortPrefix | components/PortConnectionModal.tsx:62 | the first shortening adds no occurrence of `GigabitEthernet` for the second to find |
| PortConnectionModal.PortLabelGigabit | components/PortConnectionModal.tsx:62 | `GigabitEthernet...` is shown as `Gi...`, provided the name holds no `FastEthernet` (that would be shortened first) |
| PortConnectionModal.IsAvailable | components/PortConnectionModal.tsx:23 | a port is free when it has no peer or an empty peer id, used by PortConnectionModal.ClickSpec |
| PortConnectionModal.Click | components/PortConnectionModal.tsx:34-41 | a grid click, specified by PortConnectionModal.ClickSpec and PortConnectionModal.ClickKeepsFree |
| PortConnectionModal.Confirm | components/PortConnectionModal.tsx:25-29 | the connect button, specified by PortConnectionModal.ConfirmSpec |
| PortConnectionModal.PortLabel | components/PortConnectionModal.tsx:62 | the short label, specified by the three PortLabel lemmas |
| PortConnectionModal.Picker.constructor | components/PortConnectionModal.tsx:18-19 | both slots start empty |
| PortConnectionModal.Picker.ClickSource | components/PortConnectionModal.tsx:103 | a source-grid click updates only the source slot and keeps both slots on free ports |
| PortConnectionModal.Picker.ClickTarget | components/PortConnectionModal.tsx:120 | a destination-grid click updates only the target slot and keeps both slots on free ports |
| PortConnectionModal.Picker.ConnectCable | components/PortConnectionModal.tsx:134-136 | the connect button asks to connect exactly when both slots are filled |
| PortConnectionModal.Picker.Cancel | components/PortConnectionModal.tsx:128-133 | cancel closes without connecting |
| ConfigurationModal.Classification | components/ConfigurationModal.tsx:22-24 | the dialog's three kind classes are the named sets and are pairwise disjoint |
| ConfigurationModal.TabsByKind | components/ConfigurationModal.tsx:63-95 | General always; network devices get Interfaces only, boards Programming and I/O, sensors and actuators I/O, the rest nothing more |
| ConfigurationModal.InterfaceChange | components/ConfigurationModal.tsx:30-34 | the copied interface list has the same length, the indexed interface has its field set, the others and every other device field are unchanged |
| ConfigurationModal.SetFieldSpec | components/ConfigurationModal.tsx:32 | only the edited field of the interface changes; id, name and peer stay |
| ConfigurationModal.NameChange | components/ConfigurationModal.tsx:26-28 | `handleNameChange`'s record, specified by PropertiesPanel.NameAndCodeChange |
| ConfigurationModal.CodeChange | components/ConfigurationModal.tsx:36-38 | `handleCodeChange`'s record, specified by PropertiesPanel.NameAndCodeChange |
| ConfigurationModal.ColorChange | components/ConfigurationModal.tsx:132 | the LED colour button's record, specified by ConfigurationModal.ColorAndSensorChange |
| ConfigurationModal.SensorChange | components/ConfigurationModal.tsx:261 | the sensor slider's record, specified by ConfigurationModal.ColorAndSensorChange |
| ConfigurationModal.ColorAndSensorChange | components/ConfigurationModal.tsx:132-261 | the colour button sets exactly the colour and the slider exactly the reading; each keeps the id and every other field |
| ConfigurationModal.HandlersReplaceInPlace | components/ConfigurationModal.tsx:26-38 | each edit keeps the device's id, so the store's update puts the edited record exactly where the device was |
| ConfigurationModal.SensorReadoutAfterChange | components/ConfigurationModal.tsx:253-261 | the readout shows the value the slider set, and 0 for a device without a reading |
| ConfigurationModal.LineCount | components/ConfigurationModal.tsx:239 | the line counter is at least one |
| ConfigurationModal.LineCountSpec | components/ConfigurationModal.tsx:239 | the counter equals the number of line-feed separated lines; no code counts as one line |
| ConfigurationModal.DeleteRequests | components/ConfigurationModal.tsx:99 | the delete button asks to delete this device and then to close the dialog; what that does to the store is ConfigurationModal.DeleteButton |
| ConfigurationModal.Perform | App.tsx:270-271 | a delete request runs the store's delete handler (lists filtered, selected and configuring ids cleared only when they are that id); a close request clears the configuring id and keeps the lists and the selection; neither touches the connection mode or the cable kind |
| ConfigurationModal.DeleteButton | components/ConfigurationModal.tsx:99 | carried out on the store, the delete button leaves no device with that id, no link touching it, every other device and link, and the dialog closed; the selection is cleared only if it named the device; mode and cable kind are kept |
| ConfigurationModal.Modal.constructor | components/ConfigurationModal.tsx:20 | the dialog opens on General |
| ConfigurationModal.Modal.SelectTab | components/ConfigurationModal.tsx:63-95 | selecting a shown tab keeps the active tab one the device's kind shows |
| PropertiesPanel.ClassificationVersusDialog | components/PropertiesPanel.tsx:12-14 | the panel's controller class lacks the Raspberry Pi, its network class lacks the laptop, and its sensor class is the five sensors, against the dialog's classes |
| PropertiesPanel.InterfaceChangeSpec | components/PropertiesPanel.tsx:16-20 | one interface field changes; the count, the other interfaces and the rest of the device stay |
| PropertiesPanel.InterfaceChangeTwice | components/PropertiesPanel.tsx:16-20 | two edits of the same field: the later wins |
| PropertiesPanel.SensorValueChange | components/PropertiesPanel.tsx:30-32 | the slider sets a reading in 0..100 that the readout shows, and changes nothing else |
| PropertiesPanel.NameAndCodeChange | components/PropertiesPanel.tsx:22-28 | the name and code edits, the same records in the panel and in the dialog, set exactly their field and keep the id and every other field |
| PropertiesPanel.DeleteRequest | components/PropertiesPanel.tsx:152 | the panel's delete button asks only for this device's deletion |
| PropertiesPanel.DeleteButton | components/PropertiesPanel.tsx:152 | if a parent wires `onDeleteDevice` to the store's delete handler (none in the source does), carrying the request out leaves no device with that id and no link touching it, keeps every other device and link, clears the selected and configuring ids only when they named this device, and keeps the mode and cable kind |
| CodeEditor.SupportedLibraries | components/CodeEditor.tsx:166-171 | the listed libraries are no more than the table |
| CodeEditor.SupportedLibrariesMembers | components/CodeEditor.tsx:169-171 | a library is listed exactly when it is in the table and supports the device kind |
| CodeEditor.LibrarySupport | components/CodeEditor.tsx:12-19 | the ESP32 sees all six libraries, the Arduino the four without WiFi and PubSubClient, every other kind none |
| CodeEditor.FileName | components/CodeEditor.tsx:33 | the tab is `wifi-scan.ino` exactly for the ESP32, otherwise `sketch.ino` |
| CodeEditor.LineCountSpec | components/CodeEditor.tsx:29-30 | the editor's count is at least one, one past the line feeds, agrees with the dialog's counter, and the gutter shows the larger of it and 25 |
| CodeEditor.RemoveAll | components/CodeEditor.tsx:39-40 | the removal pass never lengthens the code |
| CodeEditor.RemoveAllAbsent | components/CodeEditor.tsx:35-41 | code without the header is left exactly as it is |
| CodeEditor.RemoveAllAfterHeader | components/CodeEditor.tsx:39-40 | a header on top goes together with the white space after it |
| CodeEditor.RemoveAllTrimmedAbsent | components/CodeEditor.tsx:39-40 | code without the header still has none once its leading white space is trimmed, so the pass keeps it |
| CodeEditor.AddInstalls | components/CodeEditor.tsx:44 | adding a library makes it count as installed |
| CodeEditor.AddThenRemove | components/CodeEditor.tsx:35-46 | adding then removing a library gives back the code without its leading white space, so code not starting with white space comes back unchanged |
| CodeEditor.LibrariesRoundTrip | components/CodeEditor.tsx:12-46 | every listed library toggled twice on code without it gives the code back |
| CodeEditor.Toggle | components/CodeEditor.tsx:35-46 | the library toggle, specified by CodeEditor.AddInstalls and CodeEditor.AddThenRemove |
| SharingModal.ToggleSpec | components/SharingModal.tsx:38-40 | toggling negates exactly that entry (a missing one becomes granted), keeps the others, and twice restores an existing entry |
| SharingModal.ShownVersusDelivered | components/SharingModal.tsx:153 | the list and the broadcast agree on devices with an entry; a device without one shows as granted but is blocked, and its first toggle grants it |
| SharingModal.InitialMap | components/SharingModal.tsx:29-34 | the mount loop maps exactly the devices' ids, all to granted |
| SharingModal.MergeSpec | components/SharingModal.tsx:35 | an existing entry wins over the default when the maps are merged |
| SharingModal.ContentSpec | components/SharingModal.tsx:54-58 | with an attachment the content names the file, with the note only for a non-empty message, as a file message; otherwise the message as text |
| SharingModal.CanBroadcastSpec | components/SharingModal.tsx:50 | a broadcast goes ahead exactly when the message has a non-space character or a file is attached |
| SharingModal.ActiveDevices | components/SharingModal.tsx:65 | the receivers are exactly the listed devices with a granted entry |
| SharingModal.BlockedDevices | components/SharingModal.tsx:66 | the blocked are exactly the listed devices without a granted entry |
| SharingModal.Partition | components/SharingModal.tsx:65-66 | receivers and blocked split the device list: each device is in exactly one |
| SharingModal.DeliveryLogsSpec | components/SharingModal.tsx:68-94 | a sent entry exactly when some device receives, a blocked entry exactly when some is blocked, sent first, same kind and time, at least one entry when there are devices |
| SharingModal.CountsInLogText | components/SharingModal.tsx:76-88 | the number in each log text reads back as the size of its device set |
| SharingModal.ToggleAccess | components/SharingModal.tsx:38-40 | the lock toggle, specified by SharingModal.ToggleSpec |
| SharingModal.CanBroadcast | components/SharingModal.tsx:50 | the send guard, specified by SharingModal.CanBroadcastSpec |
| SharingModal.Content | components/SharingModal.tsx:54-58 | the broadcast content, specified by SharingModal.ContentSpec |
| SharingModal.DeliveryLogs | components/SharingModal.tsx:68-94 | the delivery's log entries, specified by SharingModal.DeliveryLogsSpec |
| SharingModal.Center.constructor | components/SharingModal.tsx:20-26 | the center opens on the access tab, empty map, message, logs and attachment, nothing transmitting |
| SharingModal.Center.Mount | components/SharingModal.tsx:29-36 | every device gets an entry, new ones granted, existing ones kept, after which list and broadcast agree on every device |
| SharingModal.Center.DevicesChanged | components/SharingModal.tsx:19 | a new device list replaces the old without touching the map |
| SharingModal.Center.SelectTab | components/SharingModal.tsx:122-128 | the tab buttons set the active tab |
| SharingModal.Center.Toggle | components/SharingModal.tsx:157 | a lock button toggles that device's entry |
| SharingModal.Center.AttachFile | components/SharingModal.tsx:42-47 | one of the four mock files is attached |
| SharingModal.Center.DetachFile | components/SharingModal.tsx:216 | the attachment is removed |
| SharingModal.Center.SetMessage | components/SharingModal.tsx:231 | typing sets the message |
| SharingModal.Center.Send | components/SharingModal.tsx:49-64 | nothing happens without content; otherwise transmission starts, message and attachment clear at once, and a delivery of what was on screen is scheduled |
| SharingModal.Center.Deliver | components/SharingModal.tsx:64-96 | the oldest delivery's log entries go in front of the log and transmission ends |
| Gemini.ConnectedLinks | services/gemini.ts:24 | the device's links are exactly the links with it at either end |
| Gemini.ConnectedLinksAppend | services/gemini.ts:24 | the link filter keeps list order |
| Gemini.ConnectedComplementsRemoval | services/gemini.ts:24 | the device's links and the links the store keeps on deleting it together account for every link exactly once |
| Gemini.Neighbours | services/gemini.ts:25-28 | there are no more neighbours than links, and each is a device of the list |
| Gemini.NeighboursSound | services/gemini.ts:25-28 | every neighbour is the device at the other end of one of the links |
| Gemini.NeighboursComplete | services/gemini.ts:25-28 | every link whose other end names a device contributes a device with that id |
| Gemini.NeighboursCount | services/gemini.ts:25-28 | one neighbour per link when every other end exists; none when no other end does |
| Gemini.NeighbourIsTheDevice | services/gemini.ts:27 | with unique ids the neighbour found is the one device carrying the id |
| Gemini.IsIoTSpec | services/gemini.ts:30 | commands run as sketches exactly on Arduino and ESP32 |
| Gemini.NetworkTopology | services/gemini.ts:47-52 | a board gets no topology; a network device gets one entry per device |
| Gemini.NetworkTopologySpec | services/gemini.ts:47-52 | each entry carries its device's id, name, kind and interfaces, in order |
| Gemini.Peripherals | services/gemini.ts:42-46 | one entry per neighbour, in order, with its name, type and reading |
| Gemini.History | services/gemini.ts:133-136 | one turn per chat message |
| Gemini.HistorySpec | services/gemini.ts:133-136 | each turn keeps its message's text; the bot's messages go as `model`, the user's as `user` |
| Gemini.ModelRole | services/gemini.ts:134 | the chat role, specified by Gemini.HistorySpec |
| Gemini.SimulationReply | services/gemini.ts:104-107 | the reply is never empty: the model's non-empty text, else `No output returned.`, or the unavailable message on a failure |
| Gemini.TutorReply | services/gemini.ts:146-149 | the reply is never empty: the model's non-empty text, else the no-response text, or the knowledge-base message on a failure |
| Terminal.Greeting | components/Terminal.tsx:31-40 | without a device one `No device selected.` line; with one, a connection line naming it and the serial-monitor or help line by kind |
| Terminal.Accept | components/Terminal.tsx:64-65 | an accepted command is the trimmed input and is not empty |
| Terminal.AcceptSpec | components/Terminal.tsx:64-65 | a command is accepted exactly on Enter, while idle, with an input having a non-space character; it neither begins nor ends with white space |
| Terminal.IsClearSpec | components/Terminal.tsx:68 | `clear` is recognised exactly for a five-character command whose each character is that letter of `clear` in either case |
| Terminal.IsClear | components/Terminal.tsx:68 | the clear test, specified by Terminal.IsClearSpec |
| Terminal.ReplyLine | components/Terminal.tsx:52-56 | a thrown call adds the error line; a returned one an output line with the simulator's non-empty reply |
| Terminal.Console.constructor | components/Terminal.tsx:18-23 | the terminal opens with the banner, empty input, idle and expanded |
| Terminal.Console.Mount | components/Terminal.tsx:31-40 | the first render sets the transcript to the greeting |
| Terminal.Console.SetDevice | components/Terminal.tsx:31-40 | the transcript resets to the greeting exactly when the device id or its board status changes |
| Terminal.Console.Type | components/Terminal.tsx:149 | typing sets the input |
| Terminal.Console.ToggleOpen | components/Terminal.tsx:87 | the header bar flips the expanded state |
| Terminal.Console.Execute | components/Terminal.tsx:46-61 | without a device nothing; otherwise the input line is added and the command waits, processing on |
| Terminal.Console.Complete | components/Terminal.tsx:52-60 | exactly one reply line is added and processing ends |
| Terminal.Console.KeyDown | components/Terminal.tsx:63-74 | an accepted command clears the input; `clear` empties the transcript; any other command executes; otherwise nothing changes |
| Terminal.Console.RunCode | components/Terminal.tsx:77-79 | the RUN button executes `run` |
| ProjectDashboard.StartScratchSpec | components/ProjectDashboard.tsx:72-89 | the network start is empty in `net` mode; a board start is one online `My Board` of that kind at (400, 300) with the default sketch in `iot` mode; both are well formed |
| ProjectDashboard.StartScratch | components/ProjectDashboard.tsx:72-89 | the two blank starts, specified by ProjectDashboard.StartScratchSpec |
| ProjectDashboard.TemplatesWellFormed | components/ProjectDashboard.tsx:95-222 | every built-in template has unique ids, no self-link, no pair joined twice and no dangling link |
| ProjectDashboard.EndsDistinct | components/ProjectDashboard.tsx:95-222 | no template wires the same two devices twice |
| ProjectDashboard.Filter | components/ProjectDashboard.tsx:231-239 | the filtered list holds exactly the elements that pass, and is no longer |
| ProjectDashboard.FilterAppend | components/ProjectDashboard.tsx:231-239 | filtering keeps order |
| ProjectDashboard.MentionsEmpty | components/ProjectDashboard.tsx:232 | every text includes the empty query |
| ProjectDashboard.SearchSpec | components/ProjectDashboard.tsx:231-239 | a template is listed exactly when its title or description contains the query in any letter case, a project exactly when its title or author does, and matches keep their order |
| ProjectDashboard.TemplateSearch | components/ProjectDashboard.tsx:231-234 | the template filter, specified by ProjectDashboard.SearchSpec |
| ProjectDashboard.ProjectSearch | components/ProjectDashboard.tsx:236-239 | the project filter, specified by ProjectDashboard.SearchSpec |
| ProjectDashboard.EmptyQuery | components/ProjectDashboard.tsx:231-239 | the empty query lists every template and project |
| ProjectDashboard.Displayed | components/ProjectDashboard.tsx:242 | no more templates are shown than match |
| ProjectDashboard.DisplayedSpec | components/ProjectDashboard.tsx:242 | while searching all matches show; otherwise all templates when expanded, the first four when not; always a prefix of the matches |
| ProjectDashboard.DashboardDisplay | components/ProjectDashboard.tsx:224-242 | eight templates and three projects; the first four templates show until expanded |

## Left out

- Rendering: JSX, CSS classes other than the device colour table, icons, animations, and the
  `HomePage`, `Logo` and `TutorChat` components (the tutor's context text and reply mapping are modelled).
- The language-model client, its prompts and `getDiagramJson` (`JSON.stringify`, `Math.round`);
  the model's answer or failure is an input (`Gemini.Outcome`). `DEVICE_ICONS`, the model name
  constants and the `LogEntry` record are unused by the modelled logic.
- Randomness: `generateId` suffixes, the new device's position (an integer in [100, 150) instead
  of a fractional number), the mock file index and the log ids are parameters.
  `App.Lab.AddDevice` and `App.Lab.Connect` take fresh ids as a precondition, which the random
  suffixes make likely but do not guarantee.
- Time: the 800 ms broadcast timer and the awaited simulator call are separate steps
  (`SharingModal.Center.Deliver`, `Terminal.Console.Complete`); `toLocaleTimeString` is a string
  parameter; scrolling and focus are not modelled.
- `getBoundingClientRect` is the `origin` parameter of the canvas handlers; coordinates are integers.
- `parseInt` on slider values: the handlers take the integer the slider produces.
- `toLowerCase` is modelled for ASCII letters only.
- The root component's page view, its net/iot sidebar tab and the mobile sidebar flag.
- `connectedToId` is read by the port picker but no handler in the core writes it.
- The root component does not render the port picker, the sharing center, the dashboard, the
  side panel or the sketch editor, and no other component does either; each is modelled on its
  own props.
- PropertiesPanel.DeleteButton: assumes a parent that passes the store's delete handler as the
  panel's `onDeleteDevice` and so runs `App.Lab.DeleteDevice`; no component in the source
  mounts the panel, so that wiring is hypothetical.
- The dashboard's legal notice dialog and `handleExplore` (scrolling).
- The terminal's prompt prefix in the transcript rendering.
- SharingModal.Center.DevicesChanged: the `devices` prop changes only through this step; the
  access map is not resynchronised, as in the source.
- Terminal.Console.RunCode: the RUN button is rendered only for boards (Terminal.tsx:133); the
  method models the handler, which does not check the kind itself.
- ConfigurationModal.SensorChange: the slider's 0..1023 bounds are not a precondition; any
  integer is stored.
- NetworkCanvas.DoubleClick and NetworkCanvas.DeleteClick only forward the device id to the
  store; their effects are modelled by `App.Lab.OpenConfiguration` and `App.Lab.DeleteDevice`.

## Findings

| source | as written | input that shows it | evidently intended | confidence | as-written member | corrected member |
|---|---|---|---|---|---|---|
| components/NetworkCanvas.tsx:99-120 | the drag offset is recorded as client pointer minus device corner, but the move handler subtracts it from the pointer in canvas coordinates, so the device jumps by minus the canvas origin on the first move | a device at (100, 100), the canvas at client (0, 56), grabbed at client (150, 206): the first move without motion asks for (100, 44) | the offset taken in canvas coordinates (pointer minus canvas origin minus device corner), so the device follows the pointer without a jump | high; not executed | NetworkCanvas.GrabJumpsAsWritten | NetworkCanvas.DragNoDriftCorrected |

The session class and the other canvas lemmas follow the handlers as written; the corrected
pointer-down is `NetworkCanvas.DownCorrected`, about which `NetworkCanvas.DragNoDriftCorrected` is proved.
