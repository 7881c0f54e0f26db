/** Byte strings as text: UTF-8 well-formedness and character boundaries
    (sections 3 and 4 of RFC 3629) and the cost of writing a text as a JSON
    string (section 7 of RFC 8259). */
module Utf8 {
  import opened Prelude

  predicate Continuation(b: Byte) { 0x80 <= b < 0xC0 }

  predicate Tails(s: Text, from: nat, to: nat) {
    to <= |s| && forall k :: from <= k < to ==> Continuation(s[k])
  }

  /** Byte length of the first character, or 0 when no well-formed character starts here. */
  function CharLen(s: Text): (n: nat)
    ensures n <= 4 && n <= |s|
    ensures forall k :: 1 <= k < n ==> Continuation(s[k])
    ensures n > 0 ==> !Continuation(s[0])
  {
    if s == [] then 0
    else if s[0] < 0x80 then 1
    else if 0xC2 <= s[0] < 0xE0 then
      if Tails(s, 1, 2) then 2 else 0
    else if 0xE0 <= s[0] < 0xF0 then
      if Tails(s, 1, 3) && (s[0] == 0xE0 ==> s[1] >= 0xA0) && (s[0] == 0xED ==> s[1] < 0xA0) then 3 else 0
    else if 0xF0 <= s[0] < 0xF5 then
      if Tails(s, 1, 4) && (s[0] == 0xF0 ==> s[1] >= 0x90) && (s[0] == 0xF4 ==> s[1] < 0x90) then 4 else 0
    else 0
  }

  predicate Valid(s: Text)
    decreases |s|
  {
    s == [] || (CharLen(s) > 0 && Valid(s[CharLen(s)..]))
  }

  // ----- scalar values

  predicate IsScalar(n: nat) { n < 0xD800 || 0xE000 <= n < 0x11_0000 }

  function Low(n: nat): Byte { 0x80 + n % 64 }

  /** A scalar value in UTF-8: six bits in each continuation byte. */
  function Encode(n: nat): Text
    requires IsScalar(n)
  {
    var n1 := n / 64;
    var n2 := n1 / 64;
    if n < 0x80 then [n]
    else if n < 0x800 then [0xC0 + n1, Low(n)]
    else if n < 0x1_0000 then [0xE0 + n2, Low(n1), Low(n)]
    else [0xF0 + n2 / 64, Low(n2), Low(n1), Low(n)]
  }

  /** Six more bits. */
  function Shift(high: int, b: int): int { high * 64 + (b - 0x80) }

  /** The scalar value of the first character. */
  function ScalarOf(s: Text): int
    requires CharLen(s) > 0
  {
    var n := CharLen(s);
    var lead: int := s[0];
    if n == 1 then lead
    else if n == 2 then Shift(lead - 0xC0, s[1])
    else if n == 3 then Shift(Shift(lead - 0xE0, s[1]), s[2])
    else Shift(Shift(Shift(lead - 0xF0, s[1]), s[2]), s[3])
  }

  lemma ShiftLow(n: nat)
    ensures Shift(n / 64, Low(n)) == n && Continuation(Low(n))
  {}

  lemma LowShift(high: nat, b: Byte)
    requires Continuation(b)
    ensures var n := Shift(high, b); n >= 0 && n / 64 == high && Low(n) == b
  {}

  /** Every encoded scalar value is one character, whatever follows it. */
  lemma EncodedIsCharacter(n: nat, rest: Text)
    requires IsScalar(n)
    ensures CharLen(Encode(n) + rest) == |Encode(n)| && ScalarOf(Encode(n) + rest) == n
  {
    ShiftLow(n);
    ShiftLow(n / 64);
    ShiftLow(n / 64 / 64);
    hide Low, Shift;
    EncodedLength(n, rest);
    var c, s := Encode(n), Encode(n) + rest;
    assert forall k :: 0 <= k < |c| ==> s[k] == c[k];
    hide CharLen;
  }

  lemma EncodedLength(n: nat, rest: Text)
    requires IsScalar(n)
    ensures CharLen(Encode(n) + rest) == |Encode(n)|
  {
    var c, s := Encode(n), Encode(n) + rest;
    assert forall k :: 0 <= k < |c| ==> s[k] == c[k];
    assert forall k :: 1 <= k < |c| ==> Continuation(s[k]);
    hide Low;
    EncodedBytes(n);
    hide Encode;
  }

  /** The bytes of an encoded scalar value meet what well-formed text demands of them. */
  lemma EncodedBytes(n: nat)
    requires IsScalar(n)
    ensures var c := Encode(n);
            && (|c| == 1 ==> c[0] < 0x80)
            && (|c| == 2 ==> 0xC2 <= c[0] < 0xE0)
            && (|c| == 3 ==> 0xE0 <= c[0] < 0xF0 && (c[0] == 0xE0 ==> c[1] >= 0xA0) && (c[0] == 0xED ==> c[1] < 0xA0))
            && (|c| == 4 ==> 0xF0 <= c[0] < 0xF5 && (c[0] == 0xF0 ==> c[1] >= 0x90) && (c[0] == 0xF4 ==> c[1] < 0x90))
            && 1 <= |c| <= 4
  {}

  /** Two, three or four such bytes are the encoding of the scalar value they shift together. */
  lemma TwoBytes(a: Byte, b: Byte)
    requires 0xC2 <= a < 0xE0 && Continuation(b)
    ensures var n := Shift(a - 0xC0, b); 0x80 <= n < 0x800 && Encode(n) == [a, b]
  {
    LowShift(a - 0xC0, b);
    assert 0x80 <= Shift(a - 0xC0, b) < 0x800;
    hide Low, Shift;
  }

  lemma ThreeBytes(a: Byte, b: Byte, c: Byte)
    requires 0xE0 <= a < 0xF0 && Continuation(b) && Continuation(c) && (a == 0xE0 ==> b >= 0xA0) && (a == 0xED ==> b < 0xA0)
    ensures var n := Shift(Shift(a - 0xE0, b), c); 0x800 <= n < 0x1_0000 && IsScalar(n) && Encode(n) == [a, b, c]
  {
    LowShift(a - 0xE0, b);
    LowShift(Shift(a - 0xE0, b), c);
    assert 0x800 <= Shift(Shift(a - 0xE0, b), c) < 0x1_0000 && IsScalar(Shift(Shift(a - 0xE0, b), c));
    hide Low, Shift, IsScalar;
  }

  lemma FourBytes(a: Byte, b: Byte, c: Byte, d: Byte)
    requires 0xF0 <= a < 0xF5 && Continuation(b) && Continuation(c) && Continuation(d) && (a == 0xF0 ==> b >= 0x90) && (a == 0xF4 ==> b < 0x90)
    ensures var n := Shift(Shift(Shift(a - 0xF0, b), c), d); 0x1_0000 <= n < 0x11_0000 && Encode(n) == [a, b, c, d]
  {
    LowShift(a - 0xF0, b);
    LowShift(Shift(a - 0xF0, b), c);
    LowShift(Shift(Shift(a - 0xF0, b), c), d);
    assert 0x1_0000 <= Shift(Shift(Shift(a - 0xF0, b), c), d) < 0x11_0000;
    hide Low, Shift;
  }

  /** And every character is an encoded scalar value. */
  lemma CharacterIsEncoded(s: Text)
    requires CharLen(s) > 0
    ensures ScalarOf(s) >= 0 && IsScalar(ScalarOf(s)) && Encode(ScalarOf(s)) == s[..CharLen(s)]
  {
    var n := CharLen(s);
    hide Encode, Shift, Low;
    if n == 1 {
      OneByte(s[0]);
    } else if n == 2 {
      TwoBytes(s[0], s[1]);
    } else if n == 3 {
      ThreeBytes(s[0], s[1], s[2]);
    } else {
      FourBytes(s[0], s[1], s[2], s[3]);
    }
  }

  lemma OneByte(a: Byte)
    requires a < 0x80
    ensures IsScalar(a) && Encode(a) == [a]
  {}

  /** `str::is_char_boundary`. */
  predicate IsBoundary(s: Text, i: nat) {
    i == 0 || i == |s| || (i < |s| && !Continuation(s[i]))
  }

  /** `str::floor_char_boundary`: the greatest boundary not after `i`. */
  function FloorBoundary(s: Text, i: nat): (r: nat)
    ensures r <= i && r <= |s| && IsBoundary(s, r)
    ensures forall k :: r < k <= i && k <= |s| ==> !IsBoundary(s, k)
    decreases i
  {
    if i >= |s| then |s| else if IsBoundary(s, i) then i else FloorBoundary(s, i - 1)
  }

  lemma CharLenOfPrefix(s: Text, i: nat)
    requires CharLen(s) <= i <= |s|
    ensures CharLen(s) > 0 ==> CharLen(s[..i]) == CharLen(s)
  {
    if CharLen(s) > 0 {
      var p := s[..i];
      assert p[0] == s[0];
      forall k | 1 <= k < CharLen(s) ensures Continuation(p[k]) { assert p[k] == s[k]; }
    }
  }

  /** Cutting a well-formed text at a boundary leaves two well-formed texts. */
  lemma {:induction false} SplitValid(s: Text, i: nat)
    requires Valid(s) && i <= |s| && IsBoundary(s, i)
    ensures Valid(s[..i]) && Valid(s[i..])
    decreases |s|
  {
    if i == 0 {
      assert s[..i] == [] && s[i..] == s;
    } else {
      var n := CharLen(s);
      assert i >= n;
      SplitValid(s[n..], i - n);
      assert s[n..][i - n..] == s[i..];
      assert s[n..][..i - n] == s[..i][n..];
      CharLenOfPrefix(s, i);
    }
  }

  /** The boundaries of a well-formed text are where its well-formed prefixes end. */
  lemma {:induction false} BoundariesEndText(s: Text, i: nat)
    requires Valid(s) && i <= |s|
    ensures IsBoundary(s, i) <==> Valid(s[..i])
    decreases |s|
  {
    if i > 0 {
      var n := CharLen(s);
      if i < n {
        InsideCharacter(s, i);
      } else {
        CharLenOfPrefix(s, i);
        CharEndIsBoundary(s);
        BoundariesEndText(s[n..], i - n);
        hide CharLen;
        MiddleSlice(s, n, i);
        SuffixBoundary(s, n, i);
      }
    }
  }

  lemma InsideCharacter(s: Text, i: nat)
    requires 0 < i < CharLen(s)
    ensures !IsBoundary(s, i) && !Valid(s[..i])
  {
    assert s[..i][0] == s[0];
  }

  lemma SuffixBoundary(s: Text, n: nat, i: nat)
    requires 0 < n <= i <= |s| && IsBoundary(s, n)
    ensures IsBoundary(s[n..], i - n) <==> IsBoundary(s, i)
  {}

  /** The first character of a non-empty well-formed text ends at a boundary. */
  lemma CharEndIsBoundary(s: Text)
    requires Valid(s) && s != []
    ensures 0 < CharLen(s) <= |s| && IsBoundary(s, CharLen(s))
  {
    var rest := s[CharLen(s)..];
    if rest != [] {
      assert rest[0] == s[CharLen(s)];
    }
  }

  lemma {:induction false} ConcatValid(a: Text, b: Text)
    requires Valid(a) && Valid(b)
    ensures Valid(a + b)
    decreases |a|
  {
    if a == [] {
      assert a + b == b;
    } else {
      var n := CharLen(a);
      CharLenOfConcat(a, b);
      ConcatValid(a[n..], b);
      hide CharLen;
      SuffixOfConcat(a, b, n);
    }
  }

  lemma CharLenOfConcat(a: Text, b: Text)
    requires CharLen(a) > 0
    ensures CharLen(a + b) == CharLen(a)
  {
    forall k | 0 <= k < CharLen(a) ensures (a + b)[k] == a[k] {}
  }

  /** Bytes one source byte takes inside a JSON string. */
  function EscapedByte(b: Byte): (n: nat)
    ensures 1 <= n <= 6
  {
    if b in {0x22, 0x5C, 8, 9, 10, 12, 13} then 2 else if b < 0x20 then 6 else 1
  }

  /** Byte-wise cost of a text inside JSON quotes; `json_prefix_lengths` tabulates it. */
  function EscapedLen(s: Text): (n: nat)
    ensures n >= |s|
  {
    if s == [] then 0 else EscapedLen(s[..|s| - 1]) + EscapedByte(s[|s| - 1])
  }

  /** Character-wise cost of the first character (`escaped_char_len`). */
  function EscapedChar(s: Text): nat
    requires CharLen(s) > 0
  {
    if s[0] in {0x22, 0x5C, 8, 9, 10, 12, 13} then 2 else if s[0] < 0x20 then 6 else CharLen(s)
  }

  /** Character-wise cost of a text (`json_escaped_len`). */
  function JsonEscapedLen(s: Text): nat
    requires Valid(s)
    decreases |s|
  {
    if s == [] then 0 else EscapedChar(s) + JsonEscapedLen(s[CharLen(s)..])
  }

  lemma {:induction false} EscapedLenConcat(a: Text, b: Text)
    ensures EscapedLen(a + b) == EscapedLen(a) + EscapedLen(b)
  {
    if b == [] {
      assert a + b == a;
    } else {
      EscapedLenConcat(a, b[..|b| - 1]);
      assert (a + b)[..|a + b| - 1] == a + b[..|b| - 1];
    }
  }

  lemma {:induction false} EscapedLenOfWide(s: Text)
    requires forall k :: 0 <= k < |s| ==> s[k] >= 0x80
    ensures EscapedLen(s) == |s|
  {
    if s != [] {
      EscapedLenOfWide(s[..|s| - 1]);
    }
  }

  lemma EscapedLenOfChar(s: Text)
    requires CharLen(s) > 0
    ensures EscapedLen(s[..CharLen(s)]) == EscapedChar(s)
  {
    var head := s[..CharLen(s)];
    if s[0] < 0x80 {
      assert head == [s[0]] && head[..0] == [];
      assert EscapedLen([]) == 0;
    } else {
      EscapedLenOfWide(head);
    }
  }

  /** The byte-wise table and the character-wise count agree on every well-formed
      text, hence at every boundary of one. */
  lemma {:induction false} EscapeCountsAgree(s: Text)
    requires Valid(s)
    ensures EscapedLen(s) == JsonEscapedLen(s)
    decreases |s|
  {
    if s != [] {
      var n := CharLen(s);
      EscapedLenOfChar(s);
      EscapeCountsAgree(s[n..]);
      EscapedLenConcat(s[..n], s[n..]);
      assert s == s[..n] + s[n..];
    }
  }

  lemma EscapedLenGrows(s: Text, i: nat, j: nat)
    requires i <= j <= |s|
    ensures EscapedLen(s[..i]) + (j - i) <= EscapedLen(s[..j])
  {
    assert s[..j] == s[..i] + s[i..j];
    EscapedLenConcat(s[..i], s[i..j]);
  }

  /** `json_prefix_lengths`: entry `i` is the escaped length of the first `i` bytes. */
  method JsonPrefixLengths(value: Text) returns (bytes: seq<nat>)
    ensures |bytes| == |value| + 1
    ensures forall i :: 0 <= i <= |value| ==> bytes[i] == EscapedLen(value[..i])
    ensures Valid(value) ==>
              forall i :: 0 <= i <= |value| && IsBoundary(value, i) ==>
                Valid(value[..i]) && bytes[i] == JsonEscapedLen(value[..i])
  {
    bytes := [0];
    var size := 0;
    for k := 0 to |value|
      invariant |bytes| == k + 1
      invariant size == EscapedLen(value[..k])
      invariant forall i :: 0 <= i <= k ==> bytes[i] == EscapedLen(value[..i])
    {
      assert value[..k + 1][..k] == value[..k];
      size := size + EscapedByte(value[k]);
      bytes := bytes + [size];
    }
    if Valid(value) {
      forall i | 0 <= i <= |value| && IsBoundary(value, i)
        ensures Valid(value[..i]) && bytes[i] == JsonEscapedLen(value[..i])
      {
        SplitValid(value, i);
        EscapeCountsAgree(value[..i]);
      }
    }
  }

  /** Stepping over one character from a boundary. */
  lemma NextChar(text: Text, end: nat)
    requires end < |text| && Valid(text[end..])
    ensures var n := CharLen(text[end..]);
            && n > 0 && end + n <= |text| && IsBoundary(text, end + n) && Valid(text[end + n..])
            && EscapedLen(text[..end + n]) == EscapedLen(text[..end]) + EscapedChar(text[end..])
            && forall b :: end < b < end + n ==> !IsBoundary(text, b)
  {
    var rest := text[end..];
    var n := CharLen(rest);
    assert n > 0 && Valid(rest[n..]);
    hide CharLen, Valid, EscapedLen;
    CharEndIsBoundary(rest);
    NextCharCosts(text, end, n);
    assert rest[n..] == text[end + n..];
    if end + n < |text| { assert text[end + n] == rest[n]; }
    forall b | end < b < end + n ensures !IsBoundary(text, b) { assert text[b] == rest[b - end]; }
  }

  lemma NextCharCosts(text: Text, end: nat, n: nat)
    requires end < |text| && n == CharLen(text[end..]) > 0
    ensures end + n <= |text| && EscapedLen(text[..end + n]) == EscapedLen(text[..end]) + EscapedChar(text[end..])
  {
    hide CharLen, EscapedLen;
    var rest := text[end..];
    EscapedLenOfChar(rest);
    EscapedLenConcat(text[..end], rest[..n]);
    assert text[..end + n] == text[..end] + rest[..n];
  }

  /** No boundary beyond `end` fits once the character there does not. */
  lemma NothingLongerFits(text: Text, end: nat, budget: nat)
    requires end <= |text| && Valid(text[end..])
    requires end < |text| ==> EscapedLen(text[..end]) + EscapedChar(text[end..]) > budget
    ensures forall b :: end < b <= |text| && IsBoundary(text, b) ==> EscapedLen(text[..b]) > budget
  {
    forall b | end < b <= |text| && IsBoundary(text, b)
      ensures EscapedLen(text[..b]) > budget
    {
      hide CharLen, Valid, EscapedLen, EscapedChar;
      NextChar(text, end);
      hide IsBoundary;
      EscapedLenGrows(text, end + CharLen(text[end..]), b);
    }
  }

  /** The scan stands at a boundary and has spent exactly the cost of what it passed. */
  ghost predicate Scanned(text: Text, end: nat, remaining: nat, budget: nat) {
    && end <= |text| && IsBoundary(text, end) && Valid(text[end..])
    && EscapedLen(text[..end]) + remaining == budget
  }

  lemma ScanStarts(text: Text, budget: nat)
    requires Valid(text)
    ensures Scanned(text, 0, budget, budget)
  {
    assert text[0..] == text;
  }

  lemma ScanContinues(text: Text, end: nat, remaining: nat, budget: nat)
    requires Scanned(text, end, remaining, budget) && end < |text|
    ensures var n, cost := CharLen(text[end..]), EscapedChar(text[end..]);
            n > 0 && (cost <= remaining ==> Scanned(text, end + n, remaining - cost, budget))
  {
    hide Valid, CharLen, EscapedLen, EscapedChar, IsBoundary;
    NextChar(text, end);
  }

  lemma ScanEnds(text: Text, end: nat, remaining: nat, budget: nat)
    requires Valid(text) && Scanned(text, end, remaining, budget)
    requires end < |text| ==> EscapedChar(text[end..]) > remaining
    ensures IsBoundary(text, end) && Valid(text[..end]) && EscapedLen(text[..end]) <= budget
    ensures forall b :: end < b <= |text| && IsBoundary(text, b) ==> EscapedLen(text[..b]) > budget
  {
    hide Valid, CharLen, EscapedLen, EscapedChar, IsBoundary;
    NothingLongerFits(text, end, budget);
    SplitValid(text, end);
  }

  /** `json_string_prefix`: the longest well-formed prefix that fits, quotes included. */
  method JsonStringPrefix(text: Text, maxEncodedBytes: nat) returns (prefix: Text)
    requires Valid(text)
    ensures prefix <= text && IsBoundary(text, |prefix|) && Valid(prefix)
    ensures prefix == [] || EscapedLen(prefix) + 2 <= maxEncodedBytes
    ensures forall b :: |prefix| < b <= |text| && IsBoundary(text, b) ==>
              EscapedLen(text[..b]) + 2 > maxEncodedBytes
  {
    var budget: nat := if maxEncodedBytes >= 2 then maxEncodedBytes - 2 else 0;
    var remaining, end := budget, 0;
    ScanStarts(text, budget);
    hide Scanned, Valid, EscapedChar, IsBoundary, EscapedLen;
    while end < |text|
      invariant end <= |text| && Scanned(text, end, remaining, budget)
      decreases |text| - end
    {
      ScanContinues(text, end, remaining, budget);
      var cost := EscapedChar(text[end..]);
      if cost > remaining {
        break;
      }
      remaining := remaining - cost;
      end := end + CharLen(text[end..]);
    }
    ScanEnds(text, end, remaining, budget);
    prefix := text[..end];
  }
}
