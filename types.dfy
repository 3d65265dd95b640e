/**
 * The lab's data model: the closed device and cable enumerations and the
 * interface, device, link, terminal message and challenge records.
 * (`type` is a Dafny keyword, so a device's type is `kind` and a link's type is `cable`.)
 */
module Types {
  import opened Optional
  import opened Strings

  /** The 22 device kinds, in declaration order. */
  datatype DeviceType =
    | Pc | Laptop | Server | Router | Switch | Firewall | AccessPoint | Cloud
    | Arduino | Esp32 | RaspberryPi | GsmModule
    | SensorTemp | SensorMoisture | SensorGas | SensorWater | SensorMotion
    | ActuatorLed | ActuatorMotor | Relay | ActuatorBuzzer | ActuatorServo

  /** The enum's string value, which the components test with `startsWith` and print. */
  function TypeName(t: DeviceType): string {
    match t
    case Pc => "PC"
    case Laptop => "LAPTOP"
    case Server => "SERVER"
    case Router => "ROUTER"
    case Switch => "SWITCH"
    case Firewall => "FIREWALL"
    case AccessPoint => "ACCESS_POINT"
    case Cloud => "CLOUD"
    case Arduino => "ARDUINO"
    case Esp32 => "ESP32"
    case RaspberryPi => "RASPBERRY_PI"
    case GsmModule => "GSM_MODULE"
    case SensorTemp => "SENSOR_TEMP"
    case SensorMoisture => "SENSOR_MOISTURE"
    case SensorGas => "SENSOR_GAS"
    case SensorWater => "SENSOR_WATER"
    case SensorMotion => "SENSOR_MOTION"
    case ActuatorLed => "ACTUATOR_LED"
    case ActuatorMotor => "ACTUATOR_MOTOR"
    case Relay => "RELAY"
    case ActuatorBuzzer => "ACTUATOR_BUZZER"
    case ActuatorServo => "ACTUATOR_SERVO"
  }

  const AllDeviceTypes: seq<DeviceType> := [
    Pc, Laptop, Server, Router, Switch, Firewall, AccessPoint, Cloud,
    Arduino, Esp32, RaspberryPi, GsmModule,
    SensorTemp, SensorMoisture, SensorGas, SensorWater, SensorMotion,
    ActuatorLed, ActuatorMotor, Relay, ActuatorBuzzer, ActuatorServo
  ]

  /** The enumeration is closed: 22 distinct values, and every device kind is one of them. */
  lemma DeviceTypeClosed(t: DeviceType)
    ensures |AllDeviceTypes| == 22 && t in AllDeviceTypes
    ensures forall i, j :: 0 <= i < j < |AllDeviceTypes| ==> AllDeviceTypes[i] != AllDeviceTypes[j]
  {
  }

  /** `type.startsWith('SENSOR')` */
  predicate IsSensorName(t: DeviceType) {
    StartsWith(TypeName(t), "SENSOR")
  }

  /** `type.startsWith('ACTUATOR')` */
  predicate IsActuatorName(t: DeviceType) {
    StartsWith(TypeName(t), "ACTUATOR")
  }

  const SensorKinds: set<DeviceType> := {SensorTemp, SensorMoisture, SensorGas, SensorWater, SensorMotion}
  const ActuatorKinds: set<DeviceType> := {ActuatorLed, ActuatorMotor, ActuatorBuzzer, ActuatorServo}

  /** Exactly five kinds have a name starting with `SENSOR`, each in fact with `SENSOR_`. */
  lemma SensorNames(t: DeviceType)
    ensures IsSensorName(t) <==> t in SensorKinds
    ensures IsSensorName(t) ==> StartsWith(TypeName(t), "SENSOR_")
    ensures |SensorKinds| == 5
  {
    var n := TypeName(t);
    if t !in SensorKinds && |n| >= 6 {
      assert n[0] != 'S' || n[1] != 'E' || n[2] != 'N';
      assert n[..6] != "SENSOR" by { assert n[..6][0] == n[0] && n[..6][1] == n[1] && n[..6][2] == n[2]; }
    }
  }

  /** Exactly four kinds have a name starting with `ACTUATOR` (with `ACTUATOR_`); `RELAY` is not one. */
  lemma ActuatorNames(t: DeviceType)
    ensures IsActuatorName(t) <==> t in ActuatorKinds
    ensures IsActuatorName(t) ==> StartsWith(TypeName(t), "ACTUATOR_")
    ensures |ActuatorKinds| == 4
    ensures !IsActuatorName(Relay) && !IsSensorName(Relay)
  {
    var n := TypeName(t);
    if t !in ActuatorKinds && |n| >= 8 {
      assert n[0] != 'A' || n[1] != 'C' || n[2] != 'T';
      assert n[..8] != "ACTUATOR" by { assert n[..8][0] == n[0] && n[..8][1] == n[1] && n[..8][2] == n[2]; }
    }
  }

  /** The six cable kinds. */
  datatype CableType = Straight | Crossover | Fiber | Serial | Gpio | Usb

  const AllCableTypes: seq<CableType> := [Straight, Crossover, Fiber, Serial, Gpio, Usb]

  datatype Status = Online | Offline | Booting

  /** A network interface; `connectedToId` is its only optional field. */
  datatype NetworkInterface = NetworkInterface(
    id: string,
    name: string,
    ip: string,
    subnet: string,
    gateway: string,
    connectedToId: Option<string>)

  /**
   * A device. Coordinates are modelled as integers. `color`, `code`, `sensorValue` and
   * `actuatorState` are the optional, kind-dependent payload.
   */
  datatype Device = Device(
    id: string,
    kind: DeviceType,
    name: string,
    x: int,
    y: int,
    interfaces: seq<NetworkInterface>,
    status: Status,
    color: Option<string>,
    code: Option<string>,
    sensorValue: Option<int>,
    actuatorState: Option<bool>)

  /** A cable between two devices. */
  datatype Link = Link(id: string, sourceId: string, targetId: string, cable: CableType)

  /** A chat message of the tutor; `System` messages are the bot's. */
  datatype Role = User | System
  datatype TerminalMessage = TerminalMessage(role: Role, content: string)

  datatype Difficulty = Beginner | Intermediate | Advanced

  datatype Challenge = Challenge(
    id: string,
    title: string,
    description: string,
    difficulty: Difficulty,
    devices: seq<Device>,
    links: seq<Link>,
    goal: string)

  /** An interface with the given address fields and no peer. */
  function Interface(id: string, name: string, ip: string, subnet: string, gateway: string): NetworkInterface {
    NetworkInterface(id, name, ip, subnet, gateway, None)
  }

  /** An online device without the optional payload, as the data tables write them. */
  function Plain(id: string, kind: DeviceType, name: string, x: int, y: int, interfaces: seq<NetworkInterface>): Device {
    Device(id, kind, name, x, y, interfaces, Online, None, None, None, None)
  }
}
