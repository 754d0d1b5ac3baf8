/** The lower-case hexadecimal form of an SSID and the test that a text is hexadecimal. */
module HexText {
  import opened Common
  import opened CText

  const NUL: char := 0 as char

  /** The bytes of a C string. */
  predicate Bytes(s: string) {
    forall i | 0 <= i < |s| :: 0 < s[i] as int < 256
  }

  function Digit(n: nat): char
    requires n < 16
  {
    if n < 10 then ('0' as int + n) as char else ('a' as int + n - 10) as char
  }

  /** The value of a hexadecimal digit of either case; -1 for any other character. */
  function Nibble(c: char): int {
    if '0' <= c <= '9' then c as int - '0' as int
    else if 'a' <= c <= 'f' then c as int - 'a' as int + 10
    else if 'A' <= c <= 'F' then c as int - 'A' as int + 10
    else -1
  }

  predicate AllHex(s: string) {
    forall i | 0 <= i < |s| :: Nibble(s[i]) >= 0
  }

  function Hex(s: string): string
    requires Bytes(s)
  {
    if s == "" then ""
    else [Digit(s[0] as int / 16), Digit(s[0] as int % 16)] + Hex(s[1..])
  }

  /** Reading pairs of digits back, independently of `Hex`. */
  function Decode(digits: string): Option<string> {
    if digits == "" then Some("")
    else if |digits| == 1 || Nibble(digits[0]) < 0 || Nibble(digits[1]) < 0 then None
    else match Decode(digits[2..])
      case None => None
      case Some(rest) => Some([(16 * Nibble(digits[0]) + Nibble(digits[1])) as char] + rest)
  }

  /** Length-doubling and made of hexadecimal digits only. */
  lemma {:induction false} HexShape(s: string)
    requires Bytes(s)
    ensures |Hex(s)| == 2 * |s| && AllHex(Hex(s)) && Bytes(Hex(s))
  {
    if s != "" {
      HexShape(s[1..]);
    }
  }

  lemma {:induction false} HexSnoc(s: string, c: char)
    requires Bytes(s + [c])
    ensures Bytes(s) && 0 < c as int < 256
    ensures Hex(s + [c]) == Hex(s) + [Digit(c as int / 16), Digit(c as int % 16)]
  {
    assert (s + [c])[|s|] == c;
    assert forall i | 0 <= i < |s| :: (s + [c])[i] == s[i];
    if s != "" {
      assert (s + [c])[1..] == s[1..] + [c];
      HexSnoc(s[1..], c);
    }
  }

  lemma DigitIff(d: char, n: nat)
    requires n < 16
    ensures Lower(d) == Digit(n) <==> Nibble(d) == n
  {
  }

  /** A text equals the hexadecimal form of an SSID, whatever the case of its digits, exactly when it decodes to
      that SSID. */
  lemma {:induction false} HexMatchIff(digits: string, ssid: string)
    requires Bytes(ssid)
    ensures AllHex(digits) && SameIgnoringCase(digits, Hex(ssid)) <==> Decode(digits) == Some(ssid)
  {
    HexShape(ssid);
    if ssid == "" || |digits| < 2 {
    } else {
      var n := ssid[0] as int;
      HexMatchIff(digits[2..], ssid[1..]);
      DigitIff(digits[0], n / 16);
      DigitIff(digits[1], n % 16);
      HexPair(digits, ssid);
      assert 16 * (n / 16) + n % 16 == n;
      assert [ssid[0]] + ssid[1..] == ssid;
    }
  }

  lemma HexPair(digits: string, ssid: string)
    requires Bytes(ssid) && ssid != "" && |digits| >= 2
    ensures var n := ssid[0] as int;
            AllHex(digits) && SameIgnoringCase(digits, Hex(ssid)) <==>
              Nibble(digits[0]) == n / 16 && Nibble(digits[1]) == n % 16
              && AllHex(digits[2..]) && SameIgnoringCase(digits[2..], Hex(ssid[1..]))
  {
    var n := ssid[0] as int;
    DigitIff(digits[0], n / 16);
    DigitIff(digits[1], n % 16);
    var h, t := Hex(ssid), Hex(ssid[1..]);
    assert h[0] == Digit(n / 16) && h[1] == Digit(n % 16) && h[2..] == t;
    assert forall i | 0 <= i < |t| :: h[i + 2] == t[i];
    assert Lower(h[0]) == h[0] && Lower(h[1]) == h[1];
    if AllHex(digits) && SameIgnoringCase(digits, h) {
      assert Lower(digits[0]) == Lower(h[0]) && Lower(digits[1]) == Lower(h[1]);
      forall i | 0 <= i < |t| ensures Lower(digits[2..][i]) == Lower(t[i]) {
        assert Lower(digits[i + 2]) == Lower(h[i + 2]);
      }
    }
    if Nibble(digits[0]) == n / 16 && Nibble(digits[1]) == n % 16 && AllHex(digits[2..])
       && SameIgnoringCase(digits[2..], t) {
      forall i | 0 <= i < |digits| ensures Nibble(digits[i]) >= 0 && Lower(digits[i]) == Lower(h[i]) {
        if i >= 2 {
          assert digits[i] == digits[2..][i - 2] && h[i] == t[i - 2];
        }
      }
    }
  }

  /** Nothing is lost, so two SSIDs never share a hexadecimal form. */
  lemma HexInjective(a: string, b: string)
    requires Bytes(a) && Bytes(b)
    ensures Decode(Hex(a)) == Some(a)
    ensures Hex(a) == Hex(b) ==> a == b
  {
    HexShape(a);
    HexMatchIff(Hex(a), a);
    HexMatchIff(Hex(a), b);
  }

  /** How many characters of an SSID a buffer has room for. */
  function Room(size: nat): nat {
    if size < 3 then 0 else (size - 1) / 2
  }

  /** The C string in a buffer. */
  function CString(buffer: string): string {
    TakeUntil(buffer, {NUL})
  }

  lemma CStringIs(buffer: string, n: nat)
    requires n < |buffer| && buffer[n] == NUL && Bytes(buffer[..n])
    ensures CString(buffer) == buffer[..n]
  {
    assert buffer == buffer[..n] + [NUL] + buffer[n + 1..];
    TakeUntilStops(buffer[..n], NUL, buffer[n + 1..], {NUL});
  }

  lemma {:induction false} CStringFits(buffer: string)
    requires NUL in buffer
    ensures |CString(buffer)| < |buffer| && buffer[|CString(buffer)|] == NUL
  {
    if buffer[0] != NUL {
      CStringFits(buffer[1..]);
    }
  }

  /** sprintf(buffer + at, "%02x", c). */
  method PutByte(buffer: array<char>, at: nat, c: char)
    requires at + 2 < buffer.Length && c as int < 256
    modifies buffer
    ensures buffer[..at + 2] == old(buffer[..at]) + [Digit(c as int / 16), Digit(c as int % 16)]
    ensures buffer[at + 2] == NUL
  {
    buffer[at] := Digit(c as int / 16);
    buffer[at + 1] := Digit(c as int % 16);
    buffer[at + 2] := NUL;
  }

  /** Writes the hexadecimal form of as much of the SSID as fits, never past the buffer, always terminated. An
      empty SSID leaves a buffer of three or more as it was. */
  method Utf8ToHex(input: string, buffer: array<char>)
    requires Bytes(input) && buffer.Length > 0 && (input == "" ==> NUL in buffer[..])
    modifies buffer
    ensures input == "" && buffer.Length >= 3 ==> buffer[..] == old(buffer[..])
    ensures input != "" || buffer.Length < 3 ==>
              Bytes(input[..Min(|input|, Room(buffer.Length))])
              && CString(buffer[..]) == Hex(input[..Min(|input|, Room(buffer.Length))])
  {
    if buffer.Length < 3 {
      buffer[0] := NUL;
      CStringIs(buffer[..], 0);
      return;
    }
    ghost var was := buffer[..];
    var i := 0;
    while i < |input| && i * 2 + 2 < buffer.Length
      invariant 0 <= i <= Min(|input|, Room(buffer.Length))
      invariant i == 0 ==> buffer[..] == was
      invariant Bytes(input[..i]) && |Hex(input[..i])| == 2 * i && buffer[..2 * i] == Hex(input[..i])
      invariant i > 0 ==> buffer[2 * i] == NUL
    {
      assert input[..i + 1] == input[..i] + [input[i]];
      HexSnoc(input[..i], input[i]);
      HexShape(input[..i + 1]);
      PutByte(buffer, 2 * i, input[i]);
      i := i + 1;
    }
    if i > 0 {
      HexShape(input[..i]);
      CStringIs(buffer[..], 2 * i);
    }
    Terminate(buffer);
  }

  /** Ends the buffer where its C string already ends. */
  method Terminate(buffer: array<char>)
    requires NUL in buffer[..]
    modifies buffer
    ensures buffer[..] == old(buffer[..])
  {
    CStringFits(buffer[..]);
    buffer[|CString(buffer[..])|] := NUL;
  }

  method IsHexString(s: string) returns (hex: bool)
    ensures hex <==> AllHex(s)
  {
    for i := 0 to |s|
      invariant AllHex(s[..i])
    {
      if Nibble(s[i]) < 0 {
        return false;
      }
    }
    return true;
  }
}
