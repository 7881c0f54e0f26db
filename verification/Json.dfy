/** JSON strings and numbers as bytes (sections 6 and 7 of RFC 8259), in the form serde_json
    writes them, and how they read back. */
module Json {
  import opened Prelude
  import opened Utf8

  // ----- strings

  /** One byte inside a JSON string: the short escapes, `\u00xx` for other control
      characters, and everything else as it is. */
  function EscapeByte(b: Byte): Text {
    if b == 0x22 || b == 0x5C then [0x5C, b]
    else if b == 8 then [0x5C, 0x62]
    else if b == 9 then [0x5C, 0x74]
    else if b == 10 then [0x5C, 0x6E]
    else if b == 12 then [0x5C, 0x66]
    else if b == 13 then [0x5C, 0x72]
    else if b < 0x20 then [0x5C, 0x75, 0x30, 0x30, HexDigit(b / 16), HexDigit(b % 16)]
    else [b]
  }

  function Escape(s: Text): Text { if s == [] then [] else EscapeByte(s[0]) + Escape(s[1..]) }

  function Quoted(s: Text): Text { [0x22] + Escape(s) + [0x22] }

  /** What the letter after a backslash stands for. */
  function ShortEscape(letter: Byte): Option<Byte> {
    if letter == 0x22 || letter == 0x5C || letter == 0x2F then Some(letter)
    else if letter == 0x62 then Some(8)
    else if letter == 0x74 then Some(9)
    else if letter == 0x6E then Some(10)
    else if letter == 0x66 then Some(12)
    else if letter == 0x72 then Some(13)
    else None
  }

  /** The first byte of a string's inside and how many bytes it took; code points beyond
      ASCII are never escaped, so their escapes are not read. */
  function ReadByte(t: Text): Option<(Byte, nat)>
    requires t != []
  {
    if t[0] < 0x20 || t[0] == 0x22 then None
    else if t[0] != 0x5C then Some((t[0], 1))
    else if |t| < 2 then None
    else if t[1] != 0x75 then
      if ShortEscape(t[1]).Some? then Some((ShortEscape(t[1]).value, 2)) else None
    else if |t| < 6 || t[2] != 0x30 || t[3] != 0x30 then None
    else
      var high, low := HexValue(t[4]), HexValue(t[5]);
      if high.None? || low.None? || high.value >= 8 then None else Some((16 * high.value + low.value, 6))
  }

  /** Reading the inside of a JSON string. */
  function Unescape(t: Text): Option<Text>
    decreases |t|
  {
    if t == [] then Some([])
    else
      var first := ReadByte(t);
      if first.None? || first.value.1 == 0 || first.value.1 > |t| then None
      else
        var rest := Unescape(t[first.value.1..]);
        if rest.None? then None else Some([first.value.0] + rest.value)
  }

  lemma ByteReadsBack(b: Byte, rest: Text)
    ensures |EscapeByte(b)| == EscapedByte(b)
    ensures ReadByte(EscapeByte(b) + rest) == Some((b, EscapedByte(b)))
  {
    if b < 0x20 {
      HexDigitReads(b / 16);
      HexDigitReads(b % 16);
    }
  }

  lemma EscapedLenCons(s: Text)
    requires s != []
    ensures EscapedLen(s) == EscapedByte(s[0]) + EscapedLen(s[1..])
  {
    EscapedLenConcat([s[0]], s[1..]);
    assert s == [s[0]] + s[1..];
    assert EscapedLen([s[0]][..0]) == 0;
  }

  /** The cost of a text is the length of its escaped form, which reads back as the text. */
  lemma {:induction false} EscapeReadsBack(s: Text)
    ensures |Escape(s)| == EscapedLen(s)
    ensures Unescape(Escape(s)) == Some(s)
  {
    if s != [] {
      var rest := Escape(s[1..]);
      hide EscapeByte, ReadByte, EscapedLen, EscapedByte;
      EscapeReadsBack(s[1..]);
      EscapedLenCons(s);
      ByteReadsBack(s[0], rest);
      var n := |EscapeByte(s[0])|;
      assert (EscapeByte(s[0]) + rest)[n..] == rest;
      assert [s[0]] + s[1..] == s;
    }
  }

  // ----- numbers and flags

  /** A number in decimal. */
  function Decimal(n: nat): (t: Text)
    ensures |t| == Digits(n)
  {
    if n < 10 then [0x30 + n] else Decimal(n / 10) + [0x30 + n % 10]
  }

  /** The number a run of decimal digits stands for. */
  function DecimalValue(t: Text): Option<nat> {
    if t == [] then Some(0)
    else
      var init, last := DecimalValue(t[..|t| - 1]), t[|t| - 1];
      if init.None? || !(0x30 <= last <= 0x39) then None else Some(10 * init.value + last - 0x30)
  }

  /** A written number reads back, and has no leading zero. */
  lemma {:induction false} DecimalReadsBack(n: nat)
    ensures DecimalValue(Decimal(n)) == Some(n)
    ensures n > 0 ==> Decimal(n)[0] != 0x30
  {
    if n < 10 {
      assert Decimal(n)[..0] == [];
    } else {
      DecimalReadsBack(n / 10);
      assert Decimal(n)[..|Decimal(n)| - 1] == Decimal(n / 10);
    }
  }

  function Flag(flag: bool): (t: Text)
    ensures |t| == FlagLen(flag)
  {
    if flag then Ascii("true") else Ascii("false")
  }

  /** The elements of an array with the commas between them. */
  function Commas(parts: seq<Text>): Text {
    if parts == [] then []
    else
      var init, last := parts[..|parts| - 1], parts[|parts| - 1];
      if init == [] then last else Commas(init) + [0x2C] + last
  }

  lemma CommasSize(init: seq<Text>, last: Text)
    ensures |Commas(init + [last])| == |Commas(init)| + (if init == [] then 0 else 1) + |last|
  {
    assert (init + [last])[..|init|] == init;
  }
}
