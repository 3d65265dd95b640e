/**
 * The project dashboard: start an empty lab or a board from scratch, search the built-in
 * templates and the featured projects, and show either every match or the first four.
 */
module ProjectDashboard {
  import opened Optional
  import opened Strings
  import opened Types
  import opened Graph
  import Constants

  datatype Mode = Net | Iot

  /** What `onSelectTemplate` receives. */
  datatype Selection = Selection(devices: seq<Device>, links: seq<Link>, mode: Mode)

  /** `handleStartScratch`: `None` is the `NET` button; `Some(t)` a board button. */
  function StartScratch(kind: Option<DeviceType>): Selection {
    if kind.None? then Selection([], [], Net)
    else Selection([Plain("dev-1", kind.value, "My Board", 400, 300, []).(code := Some(Constants.DefaultArduinoCode))], [], Iot)
  }

  /**
   * The empty network lab has no devices, no links and mode `net`; a board start has one
   * online device `dev-1` of that kind named `My Board` at (400, 300), with no interfaces and
   * the default sketch, no links and mode `iot`. Either way the topology is well formed.
   */
  lemma StartScratchSpec(kind: Option<DeviceType>)
    ensures var s := StartScratch(kind); WellFormed(s.devices, s.links) && s.links == []
    ensures kind.None? ==> StartScratch(kind) == Selection([], [], Net)
    ensures kind.Some? ==> var s := StartScratch(kind);
      && s.mode == Iot && |s.devices| == 1
      && s.devices[0].id == "dev-1" && s.devices[0].kind == kind.value && s.devices[0].name == "My Board"
      && s.devices[0].x == 400 && s.devices[0].y == 300 && s.devices[0].interfaces == []
      && s.devices[0].status == Online && s.devices[0].code == Some(Constants.DefaultArduinoCode)
  {
  }

  datatype Template = Template(title: string, description: string, mode: Mode, devices: seq<Device>, links: seq<Link>)

  datatype Project = Project(id: string, title: string, author: string, kind: string)

  /** An online device with no interfaces and the default sketch. */
  function Board(id: string, kind: DeviceType, name: string, x: int, y: int): Device {
    Plain(id, kind, name, x, y, []).(code := Some(Constants.DefaultArduinoCode))
  }

  function Led(id: string, name: string, x: int, y: int, color: string): Device {
    Plain(id, ActuatorLed, name, x, y, []).(color := Some(color))
  }

  function Sensor(id: string, kind: DeviceType, name: string, x: int, y: int, v: int): Device {
    Plain(id, kind, name, x, y, []).(sensorValue := Some(v))
  }

  const WifiScanCode: string :=
    "void setup() {\n  Serial.begin(115200);\n  Serial.println(\"Scanning WiFi...\");\n}\n\n"
    + "void loop() {\n  Serial.println(\"Found: DanMudi_Lab_5G\");\n  delay(5000);\n}"

  const ArduinoBlink: Template := Template("Arduino Blink", "Basic LED example", Iot,
    [Board("dev-1", Arduino, "Arduino Uno", 200, 200), Led("dev-2", "LED1", 400, 200, "#ef4444")],
    [Link("link-1", "dev-1", "dev-2", Gpio)])

  const WifiScan: Template := Template("ESP32 WiFi Scan", "Scan nearby networks", Iot,
    [Plain("dev-1", Esp32, "ESP32", 300, 200, []).(code := Some(WifiScanCode))],
    [])

  const SensorMonitor: Template := Template("Sensor Monitor", "Temp & Motion", Iot,
    [Board("dev-1", Esp32, "ESP32 Controller", 200, 200),
     Sensor("dev-2", SensorTemp, "DHT22", 450, 150, 24),
     Sensor("dev-3", SensorMotion, "PIR", 450, 280, 0)],
    [Link("l1", "dev-1", "dev-2", Gpio), Link("l2", "dev-1", "dev-3", Gpio)])

  const SmallOffice: Template := Template("Small Office Net", "Router + 2 PCs", Net,
    [Plain("d1", Router, "Gateway", 300, 100, [Interface("i1", "fa0/0", "192.168.1.1", "255.255.255.0", "")]),
     Plain("d2", Switch, "Switch", 300, 250, []),
     Plain("d3", Pc, "Admin PC", 150, 400, [Interface("i2", "eth0", "192.168.1.10", "255.255.255.0", "192.168.1.1")]),
     Plain("d4", Pc, "Guest PC", 450, 400, [Interface("i3", "eth0", "192.168.1.11", "255.255.255.0", "192.168.1.1")])],
    [Link("l1", "d1", "d2", Straight), Link("l2", "d2", "d3", Straight), Link("l3", "d2", "d4", Straight)])

  const TrafficLight: Template := Template("Traffic Light Sim", "Red, Yellow, Green logic", Iot,
    [Board("t1", Arduino, "Controller", 200, 200),
     Led("t2", "Red", 400, 150, "#ef4444"),
     Led("t3", "Yellow", 400, 220, "#eab308"),
     Led("t4", "Green", 400, 290, "#22c55e")],
    [Link("l1", "t1", "t2", Gpio), Link("l2", "t1", "t3", Gpio), Link("l3", "t1", "t4", Gpio)])

  const Enterprise: Template := Template("Enterprise Topology", "Gateway + Server + DMZ", Net,
    [Plain("e1", Router, "Core Router", 300, 100, []),
     Plain("e2", Firewall, "Firewall", 300, 200, []),
     Plain("e3", Switch, "DMZ Switch", 150, 300, []),
     Plain("e4", Switch, "LAN Switch", 450, 300, []),
     Plain("e5", Server, "Web Server", 150, 400, []),
     Plain("e6", Pc, "Workstation", 450, 400, [])],
    [Link("l1", "e1", "e2", Straight), Link("l2", "e2", "e3", Straight), Link("l3", "e2", "e4", Straight),
     Link("l4", "e3", "e5", Straight), Link("l5", "e4", "e6", Straight)])

  const WeatherStation: Template := Template("IoT Weather Station", "WiFi + Temp + Cloud", Iot,
    [Plain("w1", Esp32, "Weather Node", 200, 200, []),
     Plain("w2", SensorTemp, "Env Sensor", 400, 200, []),
     Plain("w3", Cloud, "IoT Cloud", 100, 100, [])],
    [Link("l1", "w1", "w2", Gpio), Link("l2", "w1", "w3", Fiber)])

  const ServoControl: Template := Template("Servo Control", "Motor PWM logic", Iot,
    [Plain("s1", Arduino, "Uno", 200, 200, []),
     Plain("s2", ActuatorServo, "Servo X", 400, 150, []),
     Plain("s3", ActuatorServo, "Servo Y", 400, 250, [])],
    [Link("l1", "s1", "s2", Gpio), Link("l2", "s1", "s3", Gpio)])

  /** `allTemplates`, in display order. */
  const AllTemplates: seq<Template> :=
    [ArduinoBlink, WifiScan, SensorMonitor, SmallOffice, TrafficLight, Enterprise, WeatherStation, ServoControl]

  /** `featuredProjects` */
  const FeaturedProjects: seq<Project> := [
    Project("p1", "Smart Home Hub V2", "@david_villasenor", "Community"),
    Project("p2", "ESP32 Micropython Weather", "@iot_master", "Python"),
    Project("p3", "Audio FFT Visualizer", "@audio_wiz", "C++")
  ]

  // ---------------------------------------------------------------- well-formed templates

  /**
   * Positions of the ends of each link of each template, in the order of `AllTemplates`:
   * link `k` of template `i` joins the devices at positions `TemplateEnds[i][k]`.
   */
  const TemplateEnds: seq<seq<Ends>> := [
    [Ends(0, 1)],
    [],
    [Ends(0, 1), Ends(0, 2)],
    [Ends(0, 1), Ends(1, 2), Ends(1, 3)],
    [Ends(0, 1), Ends(0, 2), Ends(0, 3)],
    [Ends(0, 1), Ends(1, 2), Ends(1, 3), Ends(2, 4), Ends(3, 5)],
    [Ends(0, 1), Ends(0, 2)],
    [Ends(0, 1), Ends(0, 2)]
  ]

  // The facts about each template's literal data are proved one template at a time, which
  // keeps each proof small.

  lemma ArduinoBlinkIds()
    ensures UniqueDeviceIds(ArduinoBlink.devices) && UniqueLinkIds(ArduinoBlink.links)
  {
  }

  lemma ArduinoBlinkJoined()
    ensures Joined(ArduinoBlink.devices, ArduinoBlink.links, TemplateEnds[0])
  {
  }

  lemma WifiScanIds()
    ensures UniqueDeviceIds(WifiScan.devices) && UniqueLinkIds(WifiScan.links)
  {
  }

  lemma WifiScanJoined()
    ensures Joined(WifiScan.devices, WifiScan.links, TemplateEnds[1])
  {
  }

  lemma SensorMonitorIds()
    ensures UniqueDeviceIds(SensorMonitor.devices) && UniqueLinkIds(SensorMonitor.links)
  {
  }

  lemma SensorMonitorJoined()
    ensures Joined(SensorMonitor.devices, SensorMonitor.links, TemplateEnds[2])
  {
  }

  lemma SmallOfficeIds()
    ensures UniqueDeviceIds(SmallOffice.devices) && UniqueLinkIds(SmallOffice.links)
  {
  }

  lemma SmallOfficeJoined()
    ensures Joined(SmallOffice.devices, SmallOffice.links, TemplateEnds[3])
  {
  }

  lemma TrafficLightIds()
    ensures UniqueDeviceIds(TrafficLight.devices) && UniqueLinkIds(TrafficLight.links)
  {
  }

  lemma TrafficLightJoined()
    ensures Joined(TrafficLight.devices, TrafficLight.links, TemplateEnds[4])
  {
  }

  lemma EnterpriseIds()
    ensures UniqueDeviceIds(Enterprise.devices) && UniqueLinkIds(Enterprise.links)
  {
  }

  lemma EnterpriseJoined()
    ensures Joined(Enterprise.devices, Enterprise.links, TemplateEnds[5])
  {
  }

  lemma WeatherStationIds()
    ensures UniqueDeviceIds(WeatherStation.devices) && UniqueLinkIds(WeatherStation.links)
  {
  }

  lemma WeatherStationJoined()
    ensures Joined(WeatherStation.devices, WeatherStation.links, TemplateEnds[6])
  {
  }

  lemma ServoControlIds()
    ensures UniqueDeviceIds(ServoControl.devices) && UniqueLinkIds(ServoControl.links)
  {
  }

  lemma ServoControlJoined()
    ensures Joined(ServoControl.devices, ServoControl.links, TemplateEnds[7])
  {
  }

  /** No template wires the same two devices twice. */
  lemma EndsDistinct()
    ensures |TemplateEnds| == |AllTemplates|
    ensures forall i :: 0 <= i < |TemplateEnds| ==> DistinctPairs(TemplateEnds[i])
  {
  }

  /**
   * Every built-in template has unique device ids, unique link ids, no self-link, no pair
   * of devices joined twice and no link to a device it does not contain.
   */
  lemma TemplatesWellFormed()
    ensures forall t :: t in AllTemplates ==> WellFormed(t.devices, t.links)
  {
    EndsDistinct();
    forall i | 0 <= i < |AllTemplates| ensures WellFormed(AllTemplates[i].devices, AllTemplates[i].links) {
      if i == 0 { ArduinoBlinkIds(); ArduinoBlinkJoined(); }
      else if i == 1 { WifiScanIds(); WifiScanJoined(); }
      else if i == 2 { SensorMonitorIds(); SensorMonitorJoined(); }
      else if i == 3 { SmallOfficeIds(); SmallOfficeJoined(); }
      else if i == 4 { TrafficLightIds(); TrafficLightJoined(); }
      else if i == 5 { EnterpriseIds(); EnterpriseJoined(); }
      else if i == 6 { WeatherStationIds(); WeatherStationJoined(); }
      else { ServoControlIds(); ServoControlJoined(); }
      IndexedWellFormed(AllTemplates[i].devices, AllTemplates[i].links, TemplateEnds[i]);
    }
  }

  // ---------------------------------------------------------------- search

  /** `xs.filter(p)` */
  function Filter<T(!new)>(xs: seq<T>, p: T -> bool): (r: seq<T>)
    ensures |r| <= |xs|
    ensures forall x :: x in r <==> x in xs && p(x)
  {
    if |xs| == 0 then []
    else
      assert forall x :: x in xs <==> x == xs[0] || x in xs[1..];
      (if p(xs[0]) then [xs[0]] else []) + Filter(xs[1..], p)
  }

  /** Filtering keeps the order: the matches of a concatenation are those of each part, in turn. */
  lemma {:induction false} FilterAppend<T(!new)>(a: seq<T>, b: seq<T>, p: T -> bool)
    ensures Filter(a + b, p) == Filter(a, p) + Filter(b, p)
  {
    if |a| == 0 {
      assert a + b == b;
    } else {
      assert (a + b)[1..] == a[1..] + b;
      FilterAppend(a[1..], b, p);
    }
  }

  /** A filter every element passes keeps the whole list. */
  lemma {:induction false} FilterAll<T(!new)>(xs: seq<T>, p: T -> bool)
    requires forall i :: 0 <= i < |xs| ==> p(xs[i])
    ensures Filter(xs, p) == xs
  {
    if |xs| > 0 {
      FilterAll(xs[1..], p);
    }
  }

  /** `s.toLowerCase().includes(q.toLowerCase())` */
  predicate Mentions(s: string, q: string) {
    Contains(ToLower(s), ToLower(q))
  }

  lemma {:induction false} ContainsEmpty(s: string)
    ensures Contains(s, "")
  {
  }

  lemma MentionsEmpty(s: string)
    ensures Mentions(s, "")
  {
    ContainsEmpty(ToLower(s));
  }

  predicate TemplateMatches(q: string, t: Template) {
    Mentions(t.title, q) || Mentions(t.description, q)
  }

  predicate ProjectMatches(q: string, p: Project) {
    Mentions(p.title, q) || Mentions(p.author, q)
  }

  /** `filteredTemplates`, over the template list `ts` (the dashboard passes `AllTemplates`). */
  function TemplateSearch(ts: seq<Template>, q: string): seq<Template> {
    Filter(ts, t => TemplateMatches(q, t))
  }

  /** `filteredProjects`, over the project list `ps` (the dashboard passes `FeaturedProjects`). */
  function ProjectSearch(ps: seq<Project>, q: string): seq<Project> {
    Filter(ps, p => ProjectMatches(q, p))
  }

  /**
   * A template is listed exactly when its title or description contains the query in any
   * letter case, and a project exactly when its title or author does; matches keep their order.
   */
  lemma SearchSpec(ts: seq<Template>, ps: seq<Project>, q: string)
    ensures forall t :: t in TemplateSearch(ts, q) <==> t in ts && (Mentions(t.title, q) || Mentions(t.description, q))
    ensures forall p :: p in ProjectSearch(ps, q) <==> p in ps && (Mentions(p.title, q) || Mentions(p.author, q))
    ensures forall a, b :: TemplateSearch(a + b, q) == TemplateSearch(a, q) + TemplateSearch(b, q)
  {
    forall a, b ensures TemplateSearch(a + b, q) == TemplateSearch(a, q) + TemplateSearch(b, q) {
      FilterAppend(a, b, t => TemplateMatches(q, t));
    }
  }

  /** The empty query lists every template and every project. */
  lemma EmptyQuery(ts: seq<Template>, ps: seq<Project>)
    ensures TemplateSearch(ts, "") == ts && ProjectSearch(ps, "") == ps
  {
    forall i | 0 <= i < |ts| ensures TemplateMatches("", ts[i]) {
      MentionsEmpty(ts[i].title);
    }
    forall i | 0 <= i < |ps| ensures ProjectMatches("", ps[i]) {
      MentionsEmpty(ps[i].title);
    }
    FilterAll(ts, t => TemplateMatches("", t));
    FilterAll(ps, p => ProjectMatches("", p));
  }

  /** `displayedTemplates` */
  function Displayed(ts: seq<Template>, q: string, showAll: bool): (r: seq<Template>)
    ensures |r| <= |TemplateSearch(ts, q)|
  {
    var f := TemplateSearch(ts, q);
    if q != "" || showAll then f
    else if |f| <= 4 then f
    else f[..4]
  }

  /**
   * While searching, every match is shown; otherwise every template when expanded, and the
   * first four (or all, if fewer), in order, when not; what is shown is always a prefix of the matches.
   */
  lemma DisplayedSpec(ts: seq<Template>, q: string, showAll: bool)
    ensures q != "" ==> Displayed(ts, q, showAll) == TemplateSearch(ts, q)
    ensures q == "" && showAll ==> Displayed(ts, q, showAll) == ts
    ensures q == "" && !showAll ==> Displayed(ts, q, showAll) == if |ts| <= 4 then ts else ts[..4]
    ensures Displayed(ts, q, showAll) == TemplateSearch(ts, q)[..|Displayed(ts, q, showAll)|]
  {
    if q == "" {
      EmptyQuery(ts, []);
    }
  }

  /** On the dashboard: eight templates, of which the first four show until expanded. */
  lemma DashboardDisplay()
    ensures |AllTemplates| == 8 && |FeaturedProjects| == 3
    ensures Displayed(AllTemplates, "", false) == [ArduinoBlink, WifiScan, SensorMonitor, SmallOffice]
    ensures Displayed(AllTemplates, "", true) == AllTemplates
  {
    DisplayedSpec(AllTemplates, "", false);
    DisplayedSpec(AllTemplates, "", true);
  }
}
