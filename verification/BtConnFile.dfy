/**
 The Bluetooth connection-state file: three lines, written with placeholders for a missing
 address or name, and read back through a 128-byte line buffer into the caller's buffers.
 */
module BtConnFile {
  import opened Common
  import opened CText

  const LINE_BUFFER: nat := 128

  const NO_MAC: string := "mac:null"
  const NO_NAME: string := "name:null"

  function StateText(connected: bool): string {
    if connected then "conn" else "disconn"
  }

  function MacText(mac: Option<string>): string {
    match mac case None => NO_MAC case Some(text) => text
  }

  function NameText(name: Option<string>): string {
    match name case None => NO_NAME case Some(text) => text
  }

  function Write(connected: bool, mac: Option<string>, name: Option<string>): string {
    StateText(connected) + "\n" + MacText(mac) + "\n" + NameText(name) + "\n"
  }

  /** `state` is 1 for connected, 0 for not, -1 for an empty file. */
  datatype Reading = Reading(state: int, mac: string, name: string)

  /** One fgets into the line buffer, with the newline cut off. */
  function LineOf(text: string): string {
    TakeUntil(Fgets(text, LINE_BUFFER), {'\n'})
  }

  function AfterLine(text: string): string {
    FgetsPrefix(text, LINE_BUFFER);
    text[|Fgets(text, LINE_BUFFER)|..]
  }

  /** snprintf(buffer, size, "%s", s). */
  function Fit(s: string, size: nat): string
    requires size > 0
  {
    s[..Min(|s|, size - 1)]
  }

  /** Reading into buffers that held `mac0` and `name0`; a line that is not there leaves its buffer alone. */
  function Read(text: string, macLen: nat, nameLen: nat, mac0: string, name0: string): Reading
    requires macLen > 0 && nameLen > 0
  {
    var second := AfterLine(text);
    var third := AfterLine(second);
    Reading(
      if text == "" then -1 else if LineOf(text) == "conn" then 1 else 0,
      if second == "" then mac0 else Fit(LineOf(second), macLen),
      if third == "" then name0 else Fit(LineOf(third), nameLen))
  }

  /** The file itself, absent until first used. */
  class ConnFile {
    var file: Option<string>

    constructor ()
      ensures file == None
    {
      file := None;
    }

    method Update(connected: bool, mac: Option<string>, name: Option<string>)
      modifies this
      ensures file == Some(Write(connected, mac, name))
    {
      var text := StateText(connected) + "\n";
      text := text + if mac == None then "mac:null" else mac.value;
      text := text + "\n";
      text := text + if name == None then "name:null" else name.value;
      file := Some(text + "\n");
    }

    /** A missing file is created, saying "not connected"; the caller's buffers then keep what they held. */
    method Get(macLen: nat, nameLen: nat, mac0: string, name0: string) returns (state: int, mac: string, name: string)
      requires macLen > 0 && nameLen > 0
      modifies this
      ensures old(file) == None ==>
                file == Some(Write(false, None, None)) && state == 0 && mac == mac0 && name == name0
      ensures old(file) != None ==>
                file == old(file) && Reading(state, mac, name) == Read(file.value, macLen, nameLen, mac0, name0)
    {
      mac, name := mac0, name0;
      if file == None {
        file := Some("disconn" + "\n" + "mac:null" + "\n" + "name:null" + "\n");
        state := 0;
        return;
      }
      var text := file.value;
      if text != "" {
        state := if LineOf(text) == "conn" then 1 else 0;
      } else {
        state := -1;
      }
      text := AfterLine(text);
      if text != "" {
        mac := Fit(LineOf(text), macLen);
      }
      text := AfterLine(text);
      if text != "" {
        name := Fit(LineOf(text), nameLen);
      }
    }
  }

  // ---------------------------------------------------------------- lines

  lemma ShortLine(body: string, rest: string)
    requires '\n' !in body && |body| + 2 <= LINE_BUFFER
    ensures LineOf(body + "\n" + rest) == body && AfterLine(body + "\n" + rest) == rest
  {
    FgetsLine(body, rest, LINE_BUFFER);
    assert body + "\n" == body + ['\n'] + "";
    TakeUntilStops(body, '\n', "", {'\n'});
    assert (body + "\n" + rest)[|body + "\n"|..] == rest;
  }

  /** A line too long for the buffer is read in pieces. */
  lemma LongLine(body: string, rest: string)
    requires '\n' !in body && |body| + 2 > LINE_BUFFER
    ensures LineOf(body + "\n" + rest) == body[..LINE_BUFFER - 1]
    ensures AfterLine(body + "\n" + rest) == body[LINE_BUFFER - 1..] + "\n" + rest
  {
    var cut := body[..LINE_BUFFER - 1];
    FgetsCut(body, "\n" + rest, LINE_BUFFER);
    assert body + "\n" + rest == body + ("\n" + rest);
    assert forall c | c in cut :: c in body;
    TakeUntilAll(cut, {'\n'});
    assert (body + "\n" + rest)[LINE_BUFFER - 1..] == body[LINE_BUFFER - 1..] + "\n" + rest;
  }

  lemma {:induction false} FgetsCut(body: string, rest: string, size: nat)
    requires size > 1 && '\n' !in body && |body| >= size - 1
    ensures Fgets(body + rest, size) == body[..size - 1]
  {
    assert (body + rest)[0] == body[0];
    if size > 2 {
      assert (body + rest)[1..] == body[1..] + rest;
      FgetsCut(body[1..], rest, size - 1);
    }
  }

  // ---------------------------------------------------------------- round trip

  /** The part of an address of 127 or more characters that is read as the name. */
  function Spill(mac: string): string
    requires |mac| >= 127
  {
    mac[127..Min(|mac|, 254)]
  }

  /** What the line buffer gives back of a written file, for values of any length: a long address spills into the
      name. */
  lemma WrittenRead(connected: bool, mac: string, name: string, macLen: nat, nameLen: nat, mac0: string, name0: string)
    requires macLen > 0 && nameLen > 0 && '\n' !in mac && '\n' !in name
    ensures var r := Read(Write(connected, Some(mac), Some(name)), macLen, nameLen, mac0, name0);
            && r.state == (if connected then 1 else 0)
            && r.mac == Fit(mac[..Min(|mac|, 127)], macLen)
            && r.name == Fit(if |mac| <= 126 then name[..Min(|name|, 127)] else Spill(mac), nameLen)
  {
    var text := Write(connected, Some(mac), Some(name));
    var last := name + "\n" + "";
    var rest := mac + "\n" + last;
    assert text == StateText(connected) + "\n" + rest;
    ShortLine(StateText(connected), rest);
    if |mac| <= 126 {
      ShortLine(mac, last);
      LineRead(name, "");
      assert mac[..|mac|] == mac;
    } else {
      LongLine(mac, last);
      LineRead(mac[127..], last);
      assert mac[127..][..Min(|mac| - 127, 127)] == Spill(mac);
    }
  }

  lemma LineRead(body: string, rest: string)
    requires '\n' !in body
    ensures LineOf(body + "\n" + rest) == body[..Min(|body|, 127)]
  {
    if |body| <= 126 {
      ShortLine(body, rest);
      assert body[..|body|] == body;
    } else {
      LongLine(body, rest);
    }
  }

  /** Files with lines missing, as a power cut may leave them: what is not there leaves its buffer alone, and an empty
      file is told from one that says disconnected. */
  lemma ShortFiles(state: string, mac: string, macLen: nat, nameLen: nat, mac0: string, name0: string)
    requires macLen > 0 && nameLen > 0
    requires '\n' !in state && '\n' !in mac && |state| + 2 <= LINE_BUFFER && |mac| + 2 <= LINE_BUFFER
    ensures Read("", macLen, nameLen, mac0, name0) == Reading(-1, mac0, name0)
    ensures Read(state + "\n", macLen, nameLen, mac0, name0)
         == Reading(if state == "conn" then 1 else 0, mac0, name0)
    ensures Read(state + "\n" + (mac + "\n"), macLen, nameLen, mac0, name0)
         == Reading(if state == "conn" then 1 else 0, Fit(mac, macLen), name0)
  {
    ShortLine(state, "");
    assert state + "\n" + "" == state + "\n";
    ShortLine(mac, "");
    assert mac + "\n" + "" == mac + "\n";
    ShortLine(state, mac + "\n");
  }

  /** Whether the three values survive the line buffer and the caller's buffers. */
  predicate Fitting(mac: string, name: string, macLen: nat, nameLen: nat) {
    && |mac| < macLen && |name| < nameLen && |name| <= 127
    && (|mac| <= 126 || (|mac| == 127 && name == ""))
  }

  /** Reading back what was written returns the same flag, address and name, or their placeholders, exactly when
      they fit, whatever the caller's buffers held. */
  lemma RoundTripIff(connected: bool, mac: Option<string>, name: Option<string>,
                     macLen: nat, nameLen: nat, mac0: string, name0: string)
    requires macLen > 0 && nameLen > 0 && '\n' !in MacText(mac) && '\n' !in NameText(name)
    ensures Read(Write(connected, mac, name), macLen, nameLen, mac0, name0)
              == Reading(if connected then 1 else 0, MacText(mac), NameText(name))
            <==> Fitting(MacText(mac), NameText(name), macLen, nameLen)
  {
    var m, n := MacText(mac), NameText(name);
    assert Write(connected, mac, name) == Write(connected, Some(m), Some(n));
    WrittenRead(connected, m, n, macLen, nameLen, mac0, name0);
    FitExact(m, macLen);
    FitExact(n, nameLen);
  }

  lemma FitExact(s: string, size: nat)
    requires size > 0
    ensures Fit(s[..Min(|s|, 127)], size) == s <==> |s| < size && |s| <= 127
  {
    if |s| <= 127 {
      assert s[..|s|] == s;
    }
  }

  /** The buffers the source passes: an address of 17 characters and a name of up to 127 always come back. */
  lemma SourceBuffers(connected: bool, mac: string, name: string, mac0: string, name0: string)
    requires |mac| == 17 && |name| <= 127 && '\n' !in mac && '\n' !in name
    ensures Read(Write(connected, Some(mac), Some(name)), 18, 256, mac0, name0)
         == Reading(if connected then 1 else 0, mac, name)
  {
    RoundTripIff(connected, Some(mac), Some(name), 18, 256, mac0, name0);
  }
}
