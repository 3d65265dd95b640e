/**
 * The port picker: a source and a target device, each shown as a grid of its interfaces,
 * and one selection slot per side. Only free interfaces can be clicked, and the connect
 * button reports the two chosen interface ids only when both slots are filled.
 */
module PortConnectionModal {
  import opened Optional
  import opened Strings
  import opened Types

  /** `isInterfaceAvailable`: `!iface.connectedToId`, so an empty peer id also counts as free. */
  predicate IsAvailable(iface: NetworkInterface) {
    iface.connectedToId.None? || iface.connectedToId.value == ""
  }

  /** A slot holding a string is filled only when the string is not empty. */
  predicate Filled(slot: Option<string>) {
    slot.Some? && slot.value != ""
  }

  /** What the dialog asks of its owner. */
  datatype Request = NoRequest | ConnectPorts(sourceIfId: string, targetIfId: string) | Close

  /** A click on port `i` of a grid: a free port replaces the side's selection, a taken one is ignored. */
  function Click(slot: Option<string>, ifs: seq<NetworkInterface>, i: nat): Option<string>
    requires i < |ifs|
  {
    if IsAvailable(ifs[i]) then Some(ifs[i].id) else slot
  }

  /** `handleConnect` */
  function Confirm(source: Option<string>, target: Option<string>): Request {
    if Filled(source) && Filled(target) then ConnectPorts(source.value, target.value) else NoRequest
  }

  /** The label under a port: the first `FastEthernet` becomes `Fa`, then the first `GigabitEthernet` `Gi`. */
  function PortLabel(name: string): string {
    ReplaceFirst(ReplaceFirst(name, "FastEthernet", "Fa"), "GigabitEthernet", "Gi")
  }

  /** The slot is empty or holds the id of a free interface of the side's device. */
  predicate HoldsFreePort(slot: Option<string>, ifs: seq<NetworkInterface>) {
    slot.None? || exists i :: 0 <= i < |ifs| && ifs[i].id == slot.value && IsAvailable(ifs[i])
  }

  /** A click on a taken port changes nothing; one on a free port selects exactly that port. */
  lemma ClickSpec(slot: Option<string>, ifs: seq<NetworkInterface>, i: nat)
    requires i < |ifs|
    ensures !IsAvailable(ifs[i]) ==> Click(slot, ifs, i) == slot
    ensures IsAvailable(ifs[i]) ==> Click(slot, ifs, i) == Some(ifs[i].id)
    ensures IsAvailable(ifs[i]) <==> ifs[i].connectedToId.None? || ifs[i].connectedToId == Some("")
  {
  }

  /** Clicking keeps every selection the id of a free port of that side. */
  lemma ClickKeepsFree(slot: Option<string>, ifs: seq<NetworkInterface>, i: nat)
    requires i < |ifs| && HoldsFreePort(slot, ifs)
    ensures HoldsFreePort(Click(slot, ifs, i), ifs)
  {
  }

  /** Confirming reports both ids exactly when both slots are filled, and otherwise nothing. */
  lemma ConfirmSpec(source: Option<string>, target: Option<string>)
    ensures Confirm(source, target).ConnectPorts? <==> Filled(source) && Filled(target)
    ensures Confirm(source, target).ConnectPorts? ==>
      Confirm(source, target) == ConnectPorts(source.value, target.value)
    ensures !Confirm(source, target).ConnectPorts? ==> Confirm(source, target) == NoRequest
  {
  }

  /** A name with neither long prefix is shown as it is. */
  lemma PortLabelPlain(name: string)
    requires !Contains(name, "FastEthernet") && !Contains(name, "GigabitEthernet")
    ensures PortLabel(name) == name
  {
    ReplaceFirstAbsent(name, "FastEthernet", "Fa");
    ReplaceFirstAbsent(name, "GigabitEthernet", "Gi");
  }

  /**
   * A name that starts with `FastEthernet` and has no `GigabitEthernet` after it is shown as
   * `Fa` plus the rest.
   */
  lemma PortLabelFast(name: string)
    requires StartsWith(name, "FastEthernet") && !Contains(name[12..], "GigabitEthernet")
    ensures PortLabel(name) == "Fa" + name[12..]
  {
    ReplaceFirstAtStart(name, "FastEthernet", "Fa");
    AbsentAfterShortPrefix(name[12..], "GigabitEthernet");
    ReplaceFirstAbsent("Fa" + name[12..], "GigabitEthernet", "Gi");
  }

  /** Putting `Fa` in front adds no occurrence of a pattern that starts with neither letter. */
  lemma AbsentAfterShortPrefix(rest: string, p: string)
    requires |p| > 0 && p[0] != 'F' && p[0] != 'a' && !Contains(rest, p)
    ensures !Contains("Fa" + rest, p)
  {
    var mid := "Fa" + rest;
    assert mid[1..][1..] == rest;
  }

  /** A name that starts with `GigabitEthernet` and has no `FastEthernet` is shown as `Gi` plus the rest. */
  lemma PortLabelGigabit(name: string)
    requires StartsWith(name, "GigabitEthernet") && !Contains(name, "FastEthernet")
    ensures PortLabel(name) == "Gi" + name[15..]
  {
    ReplaceFirstAbsent(name, "FastEthernet", "Fa");
    ReplaceFirstAtStart(name, "GigabitEthernet", "Gi");
  }

  class Picker {
    const sourceDevice: Device
    const targetDevice: Device
    var selectedSourceIf: Option<string>
    var selectedTargetIf: Option<string>

    /** Each selection names a free port of its own side's device. */
    ghost predicate Valid()
      reads this
    {
      HoldsFreePort(selectedSourceIf, sourceDevice.interfaces)
      && HoldsFreePort(selectedTargetIf, targetDevice.interfaces)
    }

    /** Both slots start empty. */
    constructor (source: Device, target: Device)
      ensures sourceDevice == source && targetDevice == target
      ensures selectedSourceIf == None && selectedTargetIf == None
      ensures Valid()
    {
      sourceDevice := source;
      targetDevice := target;
      selectedSourceIf := None;
      selectedTargetIf := None;
    }

    /** A click on port `i` of the source grid. */
    method ClickSource(i: nat)
      requires Valid() && i < |sourceDevice.interfaces|
      modifies this
      ensures selectedSourceIf == Click(old(selectedSourceIf), sourceDevice.interfaces, i)
      ensures selectedTargetIf == old(selectedTargetIf)
      ensures Valid()
    {
      ClickKeepsFree(selectedSourceIf, sourceDevice.interfaces, i);
      selectedSourceIf := Click(selectedSourceIf, sourceDevice.interfaces, i);
    }

    /** A click on port `i` of the destination grid. */
    method ClickTarget(i: nat)
      requires Valid() && i < |targetDevice.interfaces|
      modifies this
      ensures selectedTargetIf == Click(old(selectedTargetIf), targetDevice.interfaces, i)
      ensures selectedSourceIf == old(selectedSourceIf)
      ensures Valid()
    {
      ClickKeepsFree(selectedTargetIf, targetDevice.interfaces, i);
      selectedTargetIf := Click(selectedTargetIf, targetDevice.interfaces, i);
    }

    /** The connect button; it is disabled, and does nothing, unless both slots are filled. */
    method ConnectCable() returns (r: Request)
      ensures r == Confirm(selectedSourceIf, selectedTargetIf)
      ensures r.ConnectPorts? <==> Filled(selectedSourceIf) && Filled(selectedTargetIf)
    {
      r := Confirm(selectedSourceIf, selectedTargetIf);
    }

    /** The cancel and close buttons: close without connecting. */
    method Cancel() returns (r: Request)
      ensures r == Close
    {
      r := Close;
    }
  }
}
