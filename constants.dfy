/** The lab's constant tables: cable styles, the default sketch and the built-in challenge. */
module Constants {
  import opened Optional
  import opened Types
  import opened Graph

  const DefaultSubnet: string := "255.255.255.0"
  const DefaultGateway: string := "0.0.0.0"

  /** How a cable kind is drawn: stroke colour, stroke width and an optional dash pattern. */
  datatype CableStyle = CableStyle(color: string, width: nat, dash: Option<string>)

  /** The `CABLE_STYLES` record. */
  const CableStyles: map<CableType, CableStyle> := map[
    Straight := CableStyle("#000000", 2, None),
    Crossover := CableStyle("#000000", 2, Some("5,5")),
    Fiber := CableStyle("#ea580c", 2, None),
    Serial := CableStyle("#2563eb", 2, None),
    Gpio := CableStyle("#16a34a", 1, None),
    Usb := CableStyle("#64748b", 2, None)
  ]

  /**
   * Every cable kind has a style; GPIO is drawn 1 wide and every other kind 2 wide;
   * only the crossover cable is dashed, with the pattern `5,5`.
   */
  lemma CableStylesTable(t: CableType)
    ensures t in CableStyles
    ensures CableStyles[t].width == if t == Gpio then 1 else 2
    ensures CableStyles[t].dash == if t == Crossover then Some("5,5") else None
  {
  }

  const DefaultArduinoCode: string :=
    "void setup() {\n  Serial.begin(9600);\n  pinMode(LED_BUILTIN, OUTPUT);\n}\n\nvoid loop() {\n"
    + "  Serial.println(\"System Running...\");\n  digitalWrite(LED_BUILTIN, HIGH);\n  delay(1000);\n"
    + "  digitalWrite(LED_BUILTIN, LOW);\n  delay(1000);\n}"

  /** The `Ping Basics` challenge: two PCs wired to one switch. */
  const PingBasics: Challenge := Challenge(
    "ping-basics",
    "Ping Basics",
    "Two PCs are connected to a Switch. Configure them with IP addresses in the same subnet and successfully ping between them.",
    Beginner,
    [
      Plain("dev-1", Pc, "PC1", 100, 150, [Interface("if-1", "eth0", "", "", "")]),
      Plain("dev-2", Pc, "PC2", 500, 150, [Interface("if-2", "eth0", "", "", "")]),
      Plain("dev-3", Switch, "Switch1", 300, 300, [])
    ],
    [
      Link("link-1", "dev-1", "dev-3", Straight),
      Link("link-2", "dev-2", "dev-3", Straight)
    ],
    "Ensure PC1 (192.168.1.10) can ping PC2 (192.168.1.11)")

  const InitialChallenges: seq<Challenge> := [PingBasics]

  /**
   * The initial topology is well formed: three devices with distinct ids and two links,
   * both to `dev-3`; the switch has no interfaces and each PC one empty `eth0`.
   */
  lemma InitialTopology()
    ensures var c := InitialChallenges[0];
      && |c.devices| == 3 && |c.links| == 2
      && WellFormed(c.devices, c.links)
      && (forall l :: l in c.links ==> l.targetId == "dev-3")
      && c.devices[2].kind == Switch && c.devices[2].interfaces == []
      && (forall i :: 0 <= i < 2 ==> c.devices[i].kind == Pc && c.devices[i].interfaces == [Interface(c.devices[i].interfaces[0].id, "eth0", "", "", "")])
  {
    PingBasicsWellFormed();
  }

  lemma PingBasicsWellFormed()
    ensures WellFormed(PingBasics.devices, PingBasics.links)
  {
    IndexedWellFormed(PingBasics.devices, PingBasics.links, [Ends(0, 2), Ends(1, 2)]);
  }
}
