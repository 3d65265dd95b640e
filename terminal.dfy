/**
 * The terminal under the canvas: a transcript of lines, an input field, and a flag that is
 * set while a command waits for the simulator. The simulator's reply arrives in a later step,
 * `Complete`; the command waiting for it is kept in `outstanding`.
 */
module Terminal {
  import opened Optional
  import opened Strings
  import opened Types
  import Gemini

  datatype LineKind = InputLine | OutputLine | ErrorLine
  datatype Line = Line(kind: LineKind, text: string)

  const Banner: string := "NetSim AI Terminal v1.0.0"
  const SerialStarted: string := "--- SERIAL MONITOR STARTED ---"
  const HelpHint: string := "Type \"help\" for available commands."
  const NoDevice: string := "No device selected."
  const ExecutionError: string := "Error executing command."

  /** `isIoT`: a board whose terminal is a serial monitor. */
  predicate IsIoT(d: Option<Device>) {
    d.Some? && (d.value.kind == Arduino || d.value.kind == Esp32)
  }

  /** The transcript a device switch starts from. */
  function Greeting(d: Option<Device>): (r: seq<Line>)
    ensures d.None? ==> r == [Line(OutputLine, NoDevice)]
    ensures d.Some? ==> |r| == 2 && r[0].text == "Connected to " + d.value.name + " (" + TypeName(d.value.kind) + ")"
    ensures d.Some? ==> r[1].text == (if IsIoT(d) then SerialStarted else HelpHint)
    ensures forall i :: 0 <= i < |r| ==> r[i].kind == OutputLine
  {
    if d.None? then [Line(OutputLine, NoDevice)]
    else [Line(OutputLine, "Connected to " + d.value.name + " (" + TypeName(d.value.kind) + ")"),
          Line(OutputLine, if IsIoT(d) then SerialStarted else HelpHint)]
  }

  /** The effect's dependencies, `[device?.id, isIoT]`: the transcript resets when either changes. */
  predicate ResetsOn(before: Option<Device>, after: Option<Device>) {
    (if before.Some? then Some(before.value.id) else None) != (if after.Some? then Some(after.value.id) else None)
    || IsIoT(before) != IsIoT(after)
  }

  /** Enter with a non-blank input while idle gives the trimmed command; anything else, nothing. */
  function Accept(key: string, input: string, processing: bool): (r: Option<string>)
    ensures r.Some? ==> r.value == Trim(input) && r.value != ""
  {
    if key == "Enter" && !processing && Trim(input) != "" then Some(Trim(input)) else None
  }

  /**
   * A command is accepted exactly on Enter, while idle, with an input that has a character
   * other than white space; it neither begins nor ends with white space.
   */
  lemma AcceptSpec(key: string, input: string, processing: bool)
    ensures Accept(key, input, processing).Some? <==>
      key == "Enter" && !processing && exists i :: 0 <= i < |input| && !IsSpace(input[i])
    ensures var r := Accept(key, input, processing);
      r.Some? ==> !IsSpace(r.value[0]) && !IsSpace(r.value[|r.value| - 1])
  {
    TrimEmptyIff(input);
    TrimShape(input);
  }

  /** `command.toLowerCase() === 'clear'` */
  predicate IsClear(command: string) {
    ToLower(command) == "clear"
  }

  /**
   * The clear command is recognised exactly for the five letters of `clear`, each in either
   * letter case, and nothing longer or shorter.
   */
  lemma IsClearSpec(command: string)
    ensures IsClear(command) <==>
      |command| == 5 && forall i :: 0 <= i < 5 ==> command[i] == "clear"[i] || command[i] == "CLEAR"[i]
    ensures IsClear("clear") && IsClear("CLEAR") && IsClear("Clear")
    ensures !IsClear("clear all") && !IsClear("cls")
  {
    if |command| == 5 {
      forall i | 0 <= i < 5
        ensures LowerChar(command[i]) == "clear"[i] <==> command[i] == "clear"[i] || command[i] == "CLEAR"[i]
      {
        LowerCharIs(command[i], "clear"[i]);
      }
      if forall i :: 0 <= i < 5 ==> command[i] == "clear"[i] || command[i] == "CLEAR"[i] {
        assert ToLower(command) == "clear";
      }
      if IsClear(command) {
        forall i | 0 <= i < 5 ensures LowerChar(command[i]) == "clear"[i] {
          assert ToLower(command)[i] == "clear"[i];
        }
      }
    } else {
      assert |ToLower(command)| == |command|;
    }
    assert ToLower("CLEAR") == "clear";
    assert ToLower("Clear") == "clear";
    assert ToLower("clear all")[5] == ' ';
  }

  /** How the awaited call ended: a returned string, or an exception. */
  datatype Reply = Returned(outcome: Gemini.Outcome) | Threw

  /** The line a reply adds. */
  function ReplyLine(r: Reply): (l: Line)
    ensures r.Threw? <==> l.kind == ErrorLine
    ensures r.Threw? ==> l.text == ExecutionError
    ensures r.Returned? ==> l.kind == OutputLine && l.text == Gemini.SimulationReply(r.outcome) && l.text != ""
  {
    match r
    case Threw => Line(ErrorLine, ExecutionError)
    case Returned(o) => Line(OutputLine, Gemini.SimulationReply(o))
  }

  class Console {
    var device: Option<Device>
    var history: seq<Line>
    var input: string
    var isProcessing: bool
    var isOpen: bool
    /** The command sent to the simulator and not answered yet. */
    var outstanding: Option<string>

    /** Processing is on exactly while a command waits for its reply. */
    ghost predicate Valid()
      reads this
    {
      isProcessing <==> outstanding.Some?
    }

    constructor (d: Option<Device>)
      ensures device == d && history == [Line(OutputLine, Banner)] && input == ""
      ensures !isProcessing && isOpen && outstanding == None && Valid()
    {
      device := d;
      history := [Line(OutputLine, Banner)];
      input := "";
      isProcessing := false;
      isOpen := true;
      outstanding := None;
    }

    /** The reset effect, which also runs on the first render. */
    method Mount()
      modifies this`history
      ensures history == Greeting(device)
    {
      history := Greeting(device);
    }

    /** The parent passes another (or an updated) device. */
    method SetDevice(d: Option<Device>)
      modifies this`device, this`history
      ensures device == d
      ensures ResetsOn(old(device), d) ==> history == Greeting(d)
      ensures !ResetsOn(old(device), d) ==> history == old(history)
    {
      var reset := ResetsOn(device, d);
      device := d;
      if reset {
        history := Greeting(d);
      }
    }

    method Type(text: string)
      modifies this`input
      ensures input == text
    {
      input := text;
    }

    method ToggleOpen()
      modifies this`isOpen
      ensures isOpen == !old(isOpen)
    {
      isOpen := !isOpen;
    }

    /**
     * `executeCommand`, reached only while idle (the input and the RUN button are disabled
     * while processing): nothing without a device; else the input line, and wait for the reply.
     */
    method Execute(cmd: string)
      requires Valid() && !isProcessing
      modifies this`history, this`isProcessing, this`outstanding
      ensures Valid()
      ensures device.None? ==> history == old(history) && !isProcessing && outstanding == None
      ensures device.Some? ==> history == old(history) + [Line(InputLine, cmd)]
      ensures device.Some? ==> isProcessing && outstanding == Some(cmd)
    {
      if device.None? {
        return;
      }
      history := history + [Line(InputLine, cmd)];
      isProcessing := true;
      outstanding := Some(cmd);
    }

    /** The awaited call ends: exactly one line after the input line, and processing stops. */
    method Complete(r: Reply)
      requires Valid() && outstanding.Some?
      modifies this`history, this`isProcessing, this`outstanding
      ensures history == old(history) + [ReplyLine(r)]
      ensures !isProcessing && outstanding == None && Valid()
    {
      history := history + [ReplyLine(r)];
      isProcessing := false;
      outstanding := None;
    }

    /** `handleKeyDown` */
    method KeyDown(key: string)
      requires Valid()
      modifies this`history, this`input, this`isProcessing, this`outstanding
      ensures Valid()
      ensures Accept(key, old(input), old(isProcessing)).None? ==>
        history == old(history) && input == old(input) && outstanding == old(outstanding)
      ensures Accept(key, old(input), old(isProcessing)).Some? ==> input == ""
      ensures var c := Accept(key, old(input), old(isProcessing));
        c.Some? && IsClear(c.value) ==> history == [] && outstanding == old(outstanding)
      ensures var c := Accept(key, old(input), old(isProcessing));
        c.Some? && !IsClear(c.value) && device.Some? ==>
          history == old(history) + [Line(InputLine, c.value)] && outstanding == Some(c.value)
      ensures var c := Accept(key, old(input), old(isProcessing));
        c.Some? && !IsClear(c.value) && device.None? ==> history == old(history) && outstanding == old(outstanding)
    {
      var c := Accept(key, input, isProcessing);
      if c.None? {
        return;
      }
      input := "";
      if IsClear(c.value) {
        history := [];
        return;
      }
      Execute(c.value);
    }

    /** The RUN button, disabled while processing: the command `run`. */
    method RunCode()
      requires Valid() && !isProcessing
      modifies this`history, this`isProcessing, this`outstanding
      ensures Valid()
      ensures device.Some? ==> history == old(history) + [Line(InputLine, "run")] && outstanding == Some("run")
      ensures device.None? ==> history == old(history) && outstanding == old(outstanding)
    {
      Execute("run");
    }
  }
}
