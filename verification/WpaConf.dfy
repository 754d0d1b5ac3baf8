/**
 Looking up a saved network in wpa_supplicant.conf: a loop over lines that remembers in
 `found` whether the wanted SSID was seen, collects the passphrase, and returns at the
 first key management line after that.
 */
module WpaConf {
  import opened Common
  import opened CText
  import opened HexText

  const SSID: string := "ssid"
  const PSK: string := "psk"
  const PROTO: string := "proto"
  const MGMT: string := "key_mgmt"

  // ---------------------------------------------------------------- the code

  /** `found`, and the caller's two buffers. */
  datatype Search = Search(found: bool, pwd: string, key: string)

  datatype Answer = More(search: Search) | Done(search: Search)

  /** The value after the first '=', without leading blanks, up to a blank, a comment or the end. */
  function Value(line: string): string
    requires '=' in line
  {
    TakeUntil(Skip(Past(line, '='), {' ', '\t'}), {'\n', ' ', '\t', '#'})
  }

  predicate ValueMatches(v: string, ssid: string, hex: string) {
    if v != "" && v[0] == '"' && v[|v| - 1] == '"' then ssid == if |v| == 1 then "" else v[1..|v| - 1]
    else AllHex(v) && SameIgnoringCase(v, hex)
  }

  /** The passphrase between the first two quotes, or else the word after "psk="; the old one if neither is there. */
  function PskOf(line: string, previous: string): string {
    if '"' in line then
      if '"' in Past(line, '"') then TakeUntil(Past(line, '"'), {'"'}) else previous
    else
      match ScanWord(line, PSK + "=", 255)
      case None => previous
      case Some(word) => word
  }

  /** A passphrase whose quote is not closed, or a key with no word behind it, leaves the caller's buffer alone. */
  lemma NothingToRead(text: string, previous: string)
    requires '"' !in text
    ensures PskOf("\tpsk=\"" + text, previous) == previous
    ensures PskOf("\tpsk= \n", previous) == previous
  {
    PastFirst("\tpsk=", '"', text);
    assert "\tpsk=\"" + text == "\tpsk=" + ['"'] + text;
    assert ("\tpsk=\"" + text)[5] == '"';
    NoWord("\t", PSK + "=", " \n", 255);
    assert "\tpsk= \n" == "\t" + (PSK + "=") + " \n";
  }

  function WordOr(line: string, key: string, cap: nat, otherwise: string): string {
    match ScanWord(line, key, cap)
    case None => otherwise
    case Some(word) => word
  }

  /** One line. `junk` is what the local buffer for the protocol holds before this line writes to it. */
  function LineStep(s: Search, line: string, ssid: string, hex: string, junk: string): Answer {
    if Has(line, SSID + "=") && '=' !in line then More(s)
    else
      var found := s.found || (Has(line, SSID + "=") && ValueMatches(Value(line), ssid, hex));
      var pwd := if found && Has(line, PSK + "=") then PskOf(line, s.pwd) else s.pwd;
      if found && Has(line, PROTO + "=") && SameIgnoringCase(WordOr(line, PROTO + "=", 19, junk), "RSN")
      then Done(Search(true, pwd, "WPA2-PSK"))
      else if found && Has(line, MGMT + "=") then Done(Search(true, pwd, WordOr(line, MGMT + "=", 255, s.key)))
      else More(Search(found, pwd, s.key))
  }

  /** The loop over the file's text, read by lines of at most 255 characters. The protocol buffer is a local of the
      loop body, so for every line it may hold something else: `junk` gives it by how much text is left. */
  function Lookup(text: string, s: Search, ssid: string, hex: string, junk: nat -> string): Search
    decreases |text|
  {
    if text == "" then s
    else
      FgetsPrefix(text, 256);
      match LineStep(s, Fgets(text, 256), ssid, hex, junk(|text|))
      case Done(t) => t
      case More(t) => Lookup(text[|Fgets(text, 256)|..], t, ssid, hex, junk)
  }

  /** The SSID as the 512-byte buffer holds it. */
  function HexSsid(ssid: string): string
    requires Bytes(ssid)
  {
    Hex(ssid[..Min(|ssid|, Room(512))])
  }

  method HasSsid(line: string, ssid: string, hex: string) returns (same: bool)
    requires '=' in line
    ensures same <==> ValueMatches(Value(line), ssid, hex)
  {
    var current := Value(line);
    if current != "" && current[0] == '"' && current[|current| - 1] == '"' {
      return if |current| == 1 then ssid == "" else current[1..|current| - 1] == ssid;
    }
    var isHex := IsHexString(current);
    return isHex && SameIgnoringCase(current, hex);
  }

  /** `file` is absent when the file cannot be opened. */
  method GetDev(file: Option<string>, ssid: string, pwd0: string, key0: string, junk: nat -> string)
    returns (found: bool, pwd: string, key: string)
    requires Bytes(ssid)
    ensures Search(found, pwd, key) == match file
              case None => Search(false, pwd0, key0)
              case Some(text) => Lookup(text, Search(false, pwd0, key0), ssid, HexSsid(ssid), junk)
  {
    found, pwd, key := false, pwd0, key0;
    if file == None {
      return;
    }
    var buffer := new char[512](_ => NUL);
    assert buffer[..][0] == NUL;
    Utf8ToHex(ssid, buffer);
    var hex := CString(buffer[..]);
    assert hex == HexSsid(ssid);
    var text := file.value;
    while text != ""
      invariant Lookup(text, Search(found, pwd, key), ssid, hex, junk)
             == Lookup(file.value, Search(false, pwd0, key0), ssid, hex, junk)
      decreases |text|
    {
      FgetsPrefix(text, 256);
      var line := Fgets(text, 256);
      var unwritten := junk(|text|);
      text := text[|line|..];
      if Has(line, SSID + "=") {
        if '=' !in line {
          continue;
        }
        var same := HasSsid(line, ssid, hex);
        if same {
          found := true;
        }
      }
      if found && Has(line, PSK + "=") {
        pwd := PskOf(line, pwd);
      }
      if found && Has(line, PROTO + "=") {
        if SameIgnoringCase(WordOr(line, PROTO + "=", 19, unwritten), "RSN") {
          key := "WPA2-PSK";
          return;
        }
      }
      if found && Has(line, MGMT + "=") {
        key := WordOr(line, MGMT + "=", 255, key);
        return;
      }
    }
  }
}
