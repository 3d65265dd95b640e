/**
 * The sketch editor's text rules: the library manager toggles an `#include` line at the top
 * of the code, the gutter numbers the lines, and the file tab names the sketch.
 */
module CodeEditor {
  import opened Optional
  import opened Strings
  import opened Types
  import ConfigurationModal

  datatype Library = Library(name: string, header: string, description: string, supported: seq<DeviceType>)

  /** `AVAILABLE_LIBRARIES` */
  const Libraries: seq<Library> := [WiFi, Servo, Dht, LiquidCrystal, PubSubClient, ArduinoJson]

  const WiFi: Library := Library("WiFi", "#include <WiFi.h>", "Enable WiFi networking for ESP32", [Esp32])
  const Servo: Library := Library("Servo", "#include <Servo.h>", "Control Servo motors", [Arduino, Esp32])
  const Dht: Library := Library("DHT Sensor Library", "#include <DHT.h>", "Read temperature and humidity", [Arduino, Esp32])
  const LiquidCrystal: Library :=
    Library("LiquidCrystal I2C", "#include <LiquidCrystal_I2C.h>", "Control LCD displays", [Arduino, Esp32])
  const PubSubClient: Library := Library("PubSubClient", "#include <PubSubClient.h>", "MQTT Client", [Esp32])
  const ArduinoJson: Library := Library("ArduinoJson", "#include <ArduinoJson.h>", "Efficient JSON parsing", [Arduino, Esp32])

  /** The libraries the manager lists for a device kind, in table order. */
  function SupportedLibraries(libs: seq<Library>, t: DeviceType): (r: seq<Library>)
    ensures |r| <= |libs|
  {
    if |libs| == 0 then []
    else (if t in libs[0].supported then [libs[0]] else []) + SupportedLibraries(libs[1..], t)
  }

  /** A library is listed exactly when it is in the table and supports the kind. */
  lemma {:induction false} SupportedLibrariesMembers(libs: seq<Library>, t: DeviceType)
    ensures forall l :: l in SupportedLibraries(libs, t) <==> l in libs && t in l.supported
  {
    if |libs| > 0 {
      SupportedLibrariesMembers(libs[1..], t);
      assert forall l :: l in libs <==> l == libs[0] || l in libs[1..];
    }
  }

  /**
   * The ESP32 sees all six libraries; the Arduino the four without WiFi and PubSubClient;
   * every other kind, the Raspberry Pi included, none.
   */
  lemma LibrarySupport(t: DeviceType)
    ensures t == Esp32 ==> SupportedLibraries(Libraries, t) == Libraries
    ensures t == Arduino ==> SupportedLibraries(Libraries, t) == [Servo, Dht, LiquidCrystal, ArduinoJson]
    ensures t != Esp32 && t != Arduino ==> SupportedLibraries(Libraries, t) == []
  {
    SupportedUnrolled(t);
    if t == Esp32 {
      assert Libraries == [WiFi] + [Servo] + [Dht] + [LiquidCrystal] + [PubSubClient] + [ArduinoJson];
    } else if t == Arduino {
      assert Pick(WiFi, t) == [] && Pick(PubSubClient, t) == [];
    } else {
      assert t !in [Esp32] && t !in [Arduino, Esp32];
    }
  }

  /** The library if it supports the kind. */
  function Pick(l: Library, t: DeviceType): seq<Library> {
    if t in l.supported then [l] else []
  }

  lemma SupportedUnrolled(t: DeviceType)
    ensures SupportedLibraries(Libraries, t)
      == Pick(WiFi, t) + (Pick(Servo, t) + (Pick(Dht, t) + (Pick(LiquidCrystal, t) + (Pick(PubSubClient, t) + Pick(ArduinoJson, t)))))
  {
    var r5 := [ArduinoJson];
    var r4 := [PubSubClient] + r5;
    var r3 := [LiquidCrystal] + r4;
    var r2 := [Dht] + r3;
    var r1 := [Servo] + r2;
    assert r5 == [ArduinoJson] + [];
    assert Libraries == [WiFi] + r1;
    SupportedCons(ArduinoJson, [], t);
    assert SupportedLibraries(r5, t) == Pick(ArduinoJson, t);
    SupportedCons(PubSubClient, r5, t);
    SupportedCons(LiquidCrystal, r4, t);
    SupportedCons(Dht, r3, t);
    SupportedCons(Servo, r2, t);
    SupportedCons(WiFi, r1, t);
  }

  lemma SupportedCons(l: Library, rest: seq<Library>, t: DeviceType)
    ensures SupportedLibraries([l] + rest, t) == Pick(l, t) + SupportedLibraries(rest, t)
  {
    assert ([l] + rest)[1..] == rest;
  }

  /** `fileName` */
  function FileName(t: DeviceType): (r: string)
    ensures r == "wifi-scan.ino" <==> t == Esp32
    ensures r != "wifi-scan.ino" ==> r == "sketch.ino"
  {
    if t == Esp32 then "wifi-scan.ino" else "sketch.ino"
  }

  /** `device.code || ''` */
  function CodeOf(d: Device): string {
    d.code.GetOr("")
  }

  /** `lineCount`: the number of line-feed separated pieces. */
  function LineCount(code: string): nat {
    |Split(code, '\n')|
  }

  /** The gutter shows at least 25 numbers. */
  function GutterLines(code: string): nat {
    if LineCount(code) < 25 then 25 else LineCount(code)
  }

  /**
   * The editor's line count is never below one, is one more than the number of line feeds,
   * agrees with the configuration dialog's count, and the gutter is its maximum with 25.
   */
  lemma LineCountSpec(d: Device)
    ensures LineCount(CodeOf(d)) >= 1
    ensures LineCount(CodeOf(d)) == CountChar(CodeOf(d), '\n') + 1
    ensures LineCount(CodeOf(d)) == ConfigurationModal.LineCount(d.code)
    ensures GutterLines(CodeOf(d)) >= 25 && GutterLines(CodeOf(d)) >= LineCount(CodeOf(d))
    ensures GutterLines(CodeOf(d)) == 25 || GutterLines(CodeOf(d)) == LineCount(CodeOf(d))
  {
  }

  /**
   * `code.replace(/<header>\s*\n?/g, '')`: one left-to-right pass that deletes each
   * occurrence of the header together with the run of white space after it.
   */
  function RemoveAll(s: string, h: string): (r: string)
    requires |h| > 0
    ensures |r| <= |s|
    decreases |s|
  {
    if |s| == 0 then ""
    else if StartsWith(s, h) then RemoveAll(TrimStart(s[|h|..]), h)
    else [s[0]] + RemoveAll(s[1..], h)
  }

  /** `toggleLibrary`: remove the header if the code has it, else put it on a line of its own on top. */
  function Toggle(code: string, h: string): string
    requires |h| > 0
  {
    if Contains(code, h) then RemoveAll(code, h) else h + "\n" + code
  }

  /** A suffix of a string without the header has none either. */
  lemma {:induction false} ContainsSuffix(s: string, h: string, k: nat)
    requires k <= |s| && Contains(s[k..], h)
    ensures Contains(s, h)
    decreases k
  {
    if k > 0 {
      assert s[1..][k - 1..] == s[k..];
      ContainsSuffix(s[1..], h, k - 1);
    }
  }

  /** Code without the header is left exactly as it is. */
  lemma {:induction false} RemoveAllAbsent(s: string, h: string)
    requires |h| > 0 && !Contains(s, h)
    ensures RemoveAll(s, h) == s
    decreases |s|
  {
    if |s| > 0 {
      assert !StartsWith(s, h);
      RemoveAllAbsent(s[1..], h);
    }
  }

  /** A header on top goes with the white space after it; the rest is processed. */
  lemma RemoveAllAfterHeader(h: string, u: string)
    requires |h| > 0
    ensures RemoveAll(h + u, h) == RemoveAll(TrimStart(u), h)
  {
    HeaderParts(h, u);
    RemoveAllStep(h + u, h);
  }

  lemma HeaderParts(h: string, u: string)
    ensures StartsWith(h + u, h) && (h + u)[|h|..] == u
  {
    assert (h + u)[..|h|] == h;
  }

  /** A string that starts with the header loses it and the white space after it. */
  lemma RemoveAllStep(s: string, h: string)
    requires |h| > 0 && StartsWith(s, h)
    ensures RemoveAll(s, h) == RemoveAll(TrimStart(s[|h|..]), h)
  {
  }

  /** Adding a library makes it count as installed. */
  lemma AddInstalls(code: string, h: string)
    requires |h| > 0 && !Contains(code, h)
    ensures Contains(Toggle(code, h), h)
  {
    assert (h + "\n" + code)[..|h|] == h;
  }

  /**
   * Adding and then removing a library gives back the code without its leading white space;
   * so code that does not start with white space comes back unchanged.
   */
  lemma AddThenRemove(code: string, h: string)
    requires |h| > 0 && !Contains(code, h)
    ensures Toggle(Toggle(code, h), h) == TrimStart(code)
    ensures code == "" || !IsSpace(code[0]) ==> Toggle(Toggle(code, h), h) == code
  {
    AddInstalls(code, h);
    RemoveAdded(code, h);
  }

  lemma RemoveAdded(code: string, h: string)
    requires |h| > 0 && !Contains(code, h)
    ensures RemoveAll(h + "\n" + code, h) == TrimStart(code)
  {
    var u := "\n" + code;
    assert h + "\n" + code == h + u;
    calc {
      RemoveAll(h + u, h);
      { RemoveAllAfterHeader(h, u); }
      RemoveAll(TrimStart(u), h);
      { TrimStartNewline(code); }
      RemoveAll(TrimStart(code), h);
      { RemoveAllTrimmedAbsent(code, h); }
      TrimStart(code);
    }
  }

  /** A code text without the line keeps that property once its leading whitespace is trimmed. */
  lemma RemoveAllTrimmedAbsent(code: string, h: string)
    requires |h| > 0 && !Contains(code, h)
    ensures RemoveAll(TrimStart(code), h) == TrimStart(code)
  {
    var k := |code| - |TrimStart(code)|;
    ContainsSuffixNot(code, h, k);
    RemoveAllAbsent(TrimStart(code), h);
  }

  lemma TrimStartNewline(code: string)
    ensures TrimStart("\n" + code) == TrimStart(code)
  {
    assert ("\n" + code)[1..] == code;
  }

  lemma ContainsSuffixNot(s: string, h: string, k: nat)
    requires k <= |s| && !Contains(s, h)
    ensures !Contains(s[k..], h)
  {
    if Contains(s[k..], h) { ContainsSuffix(s, h, k); }
  }

  /** Every listed library header, toggled twice on the default sketch, gives the sketch back. */
  lemma LibrariesRoundTrip(code: string, i: nat)
    requires i < |Libraries| && !Contains(code, Libraries[i].header)
    requires code == "" || !IsSpace(code[0])
    ensures Toggle(Toggle(code, Libraries[i].header), Libraries[i].header) == code
  {
    AddThenRemove(code, Libraries[i].header);
  }
}
