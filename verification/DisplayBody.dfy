/** Display text: control characters made visible, cut at a byte limit, and its lines
    counted, either on the whole string or while it streams. */
module DisplayBody {
  import opened Prelude
  import opened Utf8

  const MAX_RESULT_DISPLAY_BYTES: nat := 512 * 1024

  const NEWLINE: Byte := 10
  const TAB: Byte := 9
  const RETURN: Byte := 13

  // ----- cutting

  /** `truncate`: the longest prefix within a byte limit, cut between characters. */
  function Cut(s: Text, max: nat): (r: Text)
    ensures r <= s && |r| <= max
    ensures |r| < |s| <==> max < |s|
    ensures max >= |s| ==> r == s
  {
    s[..FloorBoundary(s, max)]
  }

  /** No longer prefix within the limit ends between characters. */
  lemma CutIsLongest(s: Text, max: nat, n: nat)
    requires |Cut(s, max)| < n <= |s| && IsBoundary(s, n)
    ensures n > max
  {}

  lemma StartsCharacter(s: Text)
    requires Valid(s) && s != []
    ensures !Continuation(s[0])
  {}

  lemma BoundaryOfConcat(a: Text, b: Text, i: nat)
    requires Valid(b) && i <= |a| + |b|
    ensures i >= |a| ==> (IsBoundary(a + b, i) <==> (i == 0 || IsBoundary(b, i - |a|)))
    ensures i < |a| ==> (IsBoundary(a + b, i) <==> IsBoundary(a, i))
  {
    hide Valid;
    if b != [] {
      StartsCharacter(b);
    }
  }

  /** Cutting two texts in a row: all of the first and part of the second, or part of the first. */
  lemma CutOfConcat(a: Text, b: Text, max: nat)
    requires Valid(b)
    ensures |a| <= max ==> Cut(a + b, max) == a + Cut(b, max - |a|)
    ensures |a| > max ==> Cut(a + b, max) == Cut(a, max)
  {
    hide Valid, IsBoundary;
    var whole := FloorBoundary(a + b, max);
    if |a| <= max {
      var part := FloorBoundary(b, max - |a|);
      BoundaryOfConcat(a, b, |a| + part);
      BoundaryOfConcat(a, b, whole);
      assert IsBoundary(b, 0) by { ZeroIsBoundary(b); }
      BoundaryOfConcat(a, b, |a|);
      assert whole == |a| + part;
    } else {
      var part := FloorBoundary(a, max);
      BoundaryOfConcat(a, b, part);
      BoundaryOfConcat(a, b, whole);
      assert whole == part;
    }
  }

  lemma ZeroIsBoundary(s: Text)
    ensures IsBoundary(s, 0)
  {}

  // ----- lines

  function Newlines(s: Text): nat {
    if s == [] then 0 else if s[|s| - 1] == NEWLINE then Newlines(s[..|s| - 1]) + 1 else Newlines(s[..|s| - 1])
  }

  lemma {:induction false} NewlinesOfConcat(a: Text, b: Text)
    ensures Newlines(a + b) == Newlines(a) + Newlines(b)
    decreases |b|
  {
    if b == [] {
      assert a + b == a;
    } else {
      NewlinesOfConcat(a, b[..|b| - 1]);
      assert (a + b)[..|a + b| - 1] == a + b[..|b| - 1];
    }
  }

  /** Newlines are counted wherever they stand. */
  lemma {:induction false} NewlinesCounted(s: Text)
    ensures Newlines(s) == multiset(s)[NEWLINE]
  {
    if s != [] {
      NewlinesCounted(s[..|s| - 1]);
      assert s == s[..|s| - 1] + [s[|s| - 1]];
    }
  }

  /** `count_lines`. */
  function CountLines(s: Text): nat { if s == [] then 0 else Newlines(s) + 1 }

  // ----- sanitizing

  /** `char::is_control` of one encoded character: U+0000 to U+001F and U+007F to U+009F. */
  predicate IsControl(c: Text) {
    (|c| == 1 && (c[0] < 0x20 || c[0] == 0x7F)) || (|c| == 2 && c[0] == 0xC2 && c[1] < 0xA0)
  }

  function Hex(n: nat): (s: Text)
    requires n < 0x100
    ensures Printable(s)
  {
    if n < 16 then [HexDigit(n)] else [HexDigit(n / 16), HexDigit(n % 16)]
  }

  /** The number hexadecimal digits stand for. */
  function FromHex(s: Text): Option<nat> {
    if s == [] then Some(0)
    else
      var init, last := FromHex(s[..|s| - 1]), HexValue(s[|s| - 1]);
      if init.None? || last.None? then None else Some(16 * init.value + last.value)
  }

  lemma HexReadsBack(n: nat)
    requires n < 0x100
    ensures FromHex(Hex(n)) == Some(n)
  {
    if n < 16 {
      HexDigitReads(n);
      assert Hex(n)[..0] == [];
    } else {
      HexDigitReads(n / 16);
      HexDigitReads(n % 16);
      assert Hex(n)[..1][..0] == [];
      assert FromHex(Hex(n)[..1]) == Some(n / 16);
    }
  }

  predicate Printable(s: Text) { forall k :: 0 <= k < |s| ==> 0x20 <= s[k] < 0x7F }

  /** `char::escape_default` of a control character. */
  function EscapeControl(c: Text): (s: Text)
    requires IsControl(c)
    ensures Printable(s) && s != []
  {
    if c == [TAB] then [0x5C, 0x74]
    else if c == [RETURN] then [0x5C, 0x72]
    else if c == [NEWLINE] then [0x5C, 0x6E]
    else [0x5C, 0x75, 0x7B] + Hex(c[|c| - 1]) + [0x7D]
  }

  /** The scalar value an escape names. */
  function ReadEscape(s: Text): Option<nat> {
    if s == [0x5C, 0x74] then Some(9)
    else if s == [0x5C, 0x72] then Some(13)
    else if s == [0x5C, 0x6E] then Some(10)
    else if |s| > 4 && s[..3] == [0x5C, 0x75, 0x7B] && s[|s| - 1] == 0x7D then FromHex(s[3..|s| - 1])
    else None
  }

  /** The control characters of Unicode are the scalar values below 0x20 and from 0x7F to 0x9F. */
  lemma ControlsByValue(c: Text)
    requires CharLen(c) == |c| > 0
    ensures IsControl(c) <==> ScalarOf(c) < 0x20 || 0x7F <= ScalarOf(c) < 0xA0
  {}

  /** The escape of a control character names that character. */
  lemma EscapeNamesControl(c: Text)
    requires CharLen(c) == |c| > 0 && IsControl(c)
    ensures ReadEscape(EscapeControl(c)) == Some(ScalarOf(c))
  {
    var value := c[|c| - 1];
    assert ScalarOf(c) == value;
    if c != [TAB] && c != [RETURN] && c != [NEWLINE] {
      HexReadsBack(value);
      assert EscapeControl(c)[3..|EscapeControl(c)| - 1] == Hex(value);
    }
  }

  function SanitizeChar(c: Text, multiline: bool): Text {
    if multiline && (c == [NEWLINE] || c == [TAB]) then c
    else if !multiline && (c == [RETURN] || c == [NEWLINE] || c == [TAB]) then [0x20]
    else if IsControl(c) then EscapeControl(c)
    else c
  }

  function Sanitize(s: Text, multiline: bool): Text
    requires Valid(s)
    decreases |s|
  {
    if s == [] then [] else SanitizeChar(s[..CharLen(s)], multiline) + Sanitize(s[CharLen(s)..], multiline)
  }

  /** Splitting off the last character instead of the first. */
  lemma {:induction false} SanitizeConcat(a: Text, b: Text, multiline: bool)
    requires Valid(a) && Valid(b)
    ensures Valid(a + b) && Sanitize(a + b, multiline) == Sanitize(a, multiline) + Sanitize(b, multiline)
    decreases |a|
  {
    hide CharLen, SanitizeChar;
    ConcatValid(a, b);
    if a == [] {
      assert a + b == b;
      ConcatNothing(Sanitize(b, multiline));
    } else {
      var n := CharLen(a);
      CharLenOfConcat(a, b);
      assert (a + b)[..n] == a[..n] && (a + b)[n..] == a[n..] + b;
      SanitizeConcat(a[n..], b, multiline);
      ConcatAssoc(SanitizeChar(a[..n], multiline), Sanitize(a[n..], multiline), Sanitize(b, multiline));
    }
  }

  lemma OneCharacter(s: Text)
    requires Valid(s) && s != []
    ensures 0 < CharLen(s) && Valid(s[..CharLen(s)]) && Valid(s[CharLen(s)..]) && CharLen(s[..CharLen(s)]) == CharLen(s)
  {
    CharEndIsBoundary(s);
    SplitValid(s, CharLen(s));
    CharLenOfPrefix(s, CharLen(s));
  }

  lemma SanitizeOneCharacter(c: Text, multiline: bool)
    requires Valid(c) && c != [] && CharLen(c) == |c|
    ensures Sanitize(c, multiline) == SanitizeChar(c, multiline)
  {
    hide CharLen, SanitizeChar;
    assert c[..|c|] == c && c[|c|..] == [];
    assert Sanitize(c[|c|..], multiline) == [];
    ConcatNothing(SanitizeChar(c, multiline));
  }

  lemma {:induction false} PrintableIsValid(s: Text)
    requires Printable(s)
    ensures Valid(s)
    decreases |s|
  {
    if s != [] {
      PrintableIsValid(s[1..]);
    }
  }

  /** What is shown of a character: itself, a space for flattened white space, or an escape that names it. */
  ghost predicate ShownAs(c: Text, shown: Text, multiline: bool)
    requires CharLen(c) > 0
  {
    var value := ScalarOf(c);
    if value < 0x20 || 0x7F <= value < 0xA0 then
      if value == 10 || value == 9 then shown == if multiline then c else [0x20]
      else if value == 13 && !multiline then shown == [0x20]
      else ReadEscape(shown) == Some(value)
    else shown == c
  }

  /** Every character of a text is shown at its place. */
  lemma CharactersAreShown(before: Text, c: Text, after: Text, multiline: bool)
    requires Valid(before) && Valid(after) && CharLen(c) == |c| > 0
    ensures Valid(before + c + after)
    ensures exists shown ::
              && ShownAs(c, shown, multiline)
              && Sanitize(before + c + after, multiline) == Sanitize(before, multiline) + shown + Sanitize(after, multiline)
  {
    assert Valid(c) by { assert c[|c|..] == []; }
    OneIsShown(c, multiline);
    hide Sanitize, SanitizeChar, ShownAs, CharLen;
    SanitizeOneCharacter(c, multiline);
    SanitizeConcat(before, c, multiline);
    SanitizeConcat(before + c, after, multiline);
  }

  lemma OneIsShown(c: Text, multiline: bool)
    requires CharLen(c) == |c| > 0
    ensures ShownAs(c, SanitizeChar(c, multiline), multiline)
  {
    ControlsByValue(c);
    if IsControl(c) {
      EscapeNamesControl(c);
      assert |c| == 1 ==> c == [ScalarOf(c)];
      hide CharLen, EscapeControl, ReadEscape;
    }
  }

  /** No character of the text acts on a terminal; newlines and tabs may stay in bodies. */
  ghost predicate Harmless(s: Text, multiline: bool)
    decreases |s|
  {
    s == [] || (&& CharLen(s) > 0
                && (IsControl(s[..CharLen(s)]) ==> multiline && (s[0] == NEWLINE || s[0] == TAB))
                && Harmless(s[CharLen(s)..], multiline))
  }

  lemma {:induction false} HarmlessConcat(a: Text, b: Text, multiline: bool)
    requires Harmless(a, multiline) && Harmless(b, multiline)
    ensures Harmless(a + b, multiline)
    decreases |a|
  {
    if a == [] {
      assert a + b == b;
    } else {
      var n := CharLen(a);
      CharLenOfConcat(a, b);
      assert (a + b)[..n] == a[..n] && (a + b)[n..] == a[n..] + b;
      HarmlessConcat(a[n..], b, multiline);
    }
  }

  lemma {:induction false} PrintableIsHarmless(s: Text, multiline: bool)
    requires Printable(s)
    ensures Harmless(s, multiline)
    decreases |s|
  {
    if s != [] {
      PrintableIsHarmless(s[1..], multiline);
    }
  }

  lemma SanitizedCharIsHarmless(c: Text, multiline: bool)
    requires Valid(c) && c != [] && CharLen(c) == |c|
    ensures Harmless(SanitizeChar(c, multiline), multiline)
  {
    assert c[..|c|] == c && c[|c|..] == [];
    assert Harmless([], multiline);
    if IsControl(c) {
      PrintableIsHarmless(EscapeControl(c), multiline);
      PrintableIsHarmless([0x20], multiline);
    }
  }

  /** Sanitized text has no control effects left. */
  lemma {:induction false} SanitizedIsHarmless(s: Text, multiline: bool)
    requires Valid(s)
    ensures Harmless(Sanitize(s, multiline), multiline)
    decreases |s|
  {
    if s != [] {
      OneCharacter(s);
      var n := CharLen(s);
      SanitizedCharIsHarmless(s[..n], multiline);
      SanitizedIsHarmless(s[n..], multiline);
      HarmlessConcat(SanitizeChar(s[..n], multiline), Sanitize(s[n..], multiline), multiline);
    }
  }

  lemma {:induction false} HarmlessIsValid(s: Text, multiline: bool)
    requires Harmless(s, multiline)
    ensures Valid(s)
    decreases |s|
  {
    if s != [] {
      HarmlessIsValid(s[CharLen(s)..], multiline);
    }
  }

  /** Harmless text is left alone, so sanitizing twice is sanitizing once. */
  lemma {:induction false} HarmlessIsKept(s: Text, multiline: bool)
    requires Harmless(s, multiline)
    ensures Valid(s) && Sanitize(s, multiline) == s
    decreases |s|
  {
    HarmlessIsValid(s, multiline);
    if s != [] {
      var n := CharLen(s);
      var c, rest := s[..n], s[n..];
      assert c + rest == s;
      HarmlessCharIsKept(c, multiline);
      HarmlessIsKept(rest, multiline);
      hide SanitizeChar, CharLen, Harmless;
    }
  }

  lemma HarmlessCharIsKept(c: Text, multiline: bool)
    requires c != [] && (IsControl(c) ==> multiline && (c[0] == NEWLINE || c[0] == TAB))
    ensures SanitizeChar(c, multiline) == c
  {
    assert IsControl(c) ==> c == [c[0]];
  }

  /** What is shown of harmless text is harmless. */
  lemma {:induction false} HarmlessPrefix(s: Text, i: nat, multiline: bool)
    requires Harmless(s, multiline) && i <= |s| && IsBoundary(s, i)
    ensures Harmless(s[..i], multiline)
    decreases |s|
  {
    if i > 0 {
      var n := CharLen(s);
      var rest := s[n..];
      assert n <= i;
      assert IsBoundary(rest, i - n);
      HarmlessPrefix(rest, i - n, multiline);
      CharLenOfPrefix(s, i);
      hide CharLen, IsControl, IsBoundary;
      MiddleSlice(s, n, i);
    }
  }

  /** `sanitize_display_text`. */
  method SanitizeDisplayText(value: Text, multiline: bool) returns (text: Text)
    requires Valid(value)
    ensures text == Sanitize(value, multiline)
    ensures Harmless(text, multiline)
  {
    hide CharLen, SanitizeChar, Harmless, Sanitize, Valid;
    text := [];
    var at := 0;
    SanitizeNothing(multiline);
    assert value[..0] == [] && value[0..] == value;
    while at < |value|
      invariant at <= |value| && Valid(value[..at]) && Valid(value[at..])
      invariant text == Sanitize(value[..at], multiline)
    {
      var n := NextCharacter(value, at, multiline);
      var c := value[at..at + n];
      text := text + SanitizeChar(c, multiline);
      at := at + n;
    }
    assert value[..at] == value;
    SanitizedIsHarmless(value, multiline);
  }

  /** The length of the character at a position, and what is known after it. */
  method NextCharacter(value: Text, at: nat, ghost multiline: bool) returns (n: nat)
    requires at < |value| && Valid(value[..at]) && Valid(value[at..])
    ensures 0 < n && at + n <= |value| && Valid(value[..at + n]) && Valid(value[at + n..])
    ensures var c := value[at..at + n];
            && Valid(c) && CharLen(c) == n
            && Sanitize(value[..at + n], multiline) == Sanitize(value[..at], multiline) + SanitizeChar(c, multiline)
  {
    var rest := value[at..];
    OneCharacter(rest);
    n := CharLen(rest);
    hide CharLen, SanitizeChar, Valid, Sanitize;
    var c := value[at..at + n];
    assert rest[..n] == c && rest[n..] == value[at + n..];
    assert value[..at + n] == value[..at] + c;
    SanitizeConcat(value[..at], c, multiline);
    SanitizeOneCharacter(c, multiline);
  }

  // ----- the streaming body

  /** The body shows this text: its cut prefix if it retains one, and always its size, lines and flag. */
  ghost predicate Shows(text: Option<Text>, bytes: nat, lines: nat, limit: nat, truncated: bool, all: Text) {
    && Valid(all)
    && bytes == |Cut(all, limit)|
    && lines == CountLines(Cut(all, limit))
    && truncated == (|all| > limit)
    && (text.Some? ==> text.value == Cut(all, limit))
  }

  /** Pushing more text shows the concatenation. */
  lemma ShowsMore(text: Option<Text>, bytes: nat, lines: nat, limit: nat, all: Text, value: Text)
    requires Shows(text, bytes, lines, limit, false, all) && Valid(value)
    ensures bytes <= limit
    ensures var prefix := Cut(value, limit - bytes);
            Shows(if text.Some? then Some(text.value + prefix) else None, bytes + |prefix|,
                  lines + Newlines(prefix) + (if bytes == 0 && prefix != [] then 1 else 0), limit, |prefix| < |value|, all + value)
  {
    hide Valid, Newlines, FloorBoundary;
    ConcatValid(all, value);
    CutOfConcat(all, value, limit);
    var prefix := Cut(value, limit - bytes);
    NewlinesOfConcat(all, prefix);
    assert all == [] ==> Newlines(all) == 0 && all + prefix == prefix by { NewlinesOfNothing(); }
    assert prefix == [] ==> Newlines(prefix) == 0 && all + prefix == all by { NewlinesOfNothing(); }
  }

  lemma NewlinesOfNothing()
    ensures Newlines([]) == 0
  {}

  lemma ShowsNoMore(text: Option<Text>, bytes: nat, lines: nat, limit: nat, all: Text, value: Text)
    requires Shows(text, bytes, lines, limit, true, all) && Valid(value)
    ensures Shows(text, bytes, lines, limit, true, all + value)
  {
    hide Valid, CountLines, FloorBoundary;
    ConcatValid(all, value);
    CutOfConcat(all, value, limit);
  }

  class Body {
    var text: Option<Text>
    var bytes: nat
    var lines: nat
    const limit: nat
    var truncated: bool

    ghost predicate Represents(all: Text)
      reads this
    {
      Shows(text, bytes, lines, limit, truncated, all)
    }

    constructor (limit: nat, retain: bool)
      ensures Represents([]) && this.limit == limit && text.Some? == retain
    {
      this.text := if retain then Some([]) else None;
      this.bytes, this.lines, this.limit, this.truncated := 0, 0, limit, false;
    }

    /** `push`. */
    method Push(value: Text, ghost all: Text)
      requires Represents(all) && Valid(value)
      modifies this
      ensures Represents(all + value) && text.Some? == old(text.Some?)
    {
      hide Shows, Valid;
      if truncated {
        ShowsNoMore(text, bytes, lines, limit, all, value);
        return;
      }
      ShowsMore(text, bytes, lines, limit, all, value);
      var prefix := Cut(value, limit - bytes);
      lines := lines + Newlines(prefix) + if bytes == 0 && prefix != [] then 1 else 0;
      bytes := bytes + |prefix|;
      if text.Some? {
        text := Some(text.value + prefix);
      }
      truncated := |prefix| < |value|;
    }

    /** A control character, escaped one character at a time. */
    method PushEscaped(escaped: Text, ghost all: Text)
      requires Represents(all) && Printable(escaped)
      modifies this
      ensures Represents(all + escaped) && text.Some? == old(text.Some?)
    {
      hide Shows, Valid;
      ConcatNothing(all);
      for k := 0 to |escaped|
        invariant Represents(all + escaped[..k]) && text.Some? == old(text.Some?)
      {
        PrintableIsValid([escaped[k]]);
        Push([escaped[k]], all + escaped[..k]);
        assert all + escaped[..k] + [escaped[k]] == all + escaped[..k + 1];
      }
      assert escaped[..|escaped|] == escaped;
    }

    /** `sanitized`. */
    method Sanitized(value: Text, ghost all: Text)
      requires Represents(all) && Valid(value)
      modifies this
      ensures Represents(all + Sanitize(value, true)) && text.Some? == old(text.Some?)
    {
      hide Shows, CharLen, SanitizeChar, Harmless, Sanitize;
      var at := 0;
      assert value[..0] == [];
      assert Sanitize([], true) == [] by { SanitizeNothing(true); }
      ConcatNothing(all);
      while at < |value|
        invariant at <= |value| && Valid(value[..at]) && Valid(value[at..])
        invariant Represents(all + Sanitize(value[..at], true)) && text.Some? == old(text.Some?)
      {
        ghost var done := all + Sanitize(value[..at], true);
        if truncated {
          SanitizeSplit(value, at);
          SanitizedIsHarmless(value[at..], true);
          HarmlessIsValid(Sanitize(value[at..], true), true);
          ShowsNoMore(text, bytes, lines, limit, done, Sanitize(value[at..], true));
          ConcatAssoc(all, Sanitize(value[..at], true), Sanitize(value[at..], true));
          return;
        }
        var n := NextCharacter(value, at, true);
        var c := value[at..at + n];
        ConcatAssoc(all, Sanitize(value[..at], true), SanitizeChar(c, true));
        PushCharacter(c, done);
        at := at + n;
      }
      assert value[..at] == value;
    }

    method PushCharacter(c: Text, ghost all: Text)
      requires Represents(all) && Valid(c)
      modifies this
      ensures Represents(all + SanitizeChar(c, true)) && text.Some? == old(text.Some?)
    {
      hide Shows, Valid;
      if IsControl(c) && c != [NEWLINE] && c != [TAB] {
        PushEscaped(EscapeControl(c), all);
      } else {
        Push(c, all);
      }
    }
  }

  lemma SanitizeNothing(multiline: bool)
    ensures Valid([]) && Sanitize([], multiline) == []
  {}

  lemma SanitizeSplit(value: Text, at: nat)
    requires at <= |value| && Valid(value[..at]) && Valid(value[at..])
    ensures Valid(value) && Sanitize(value, true) == Sanitize(value[..at], true) + Sanitize(value[at..], true)
  {
    SanitizeConcat(value[..at], value[at..], true);
    assert value[..at] + value[at..] == value;
  }

  /** `from_text`. */
  method FromText(value: Text, limit: nat, retain: bool) returns (body: Body)
    requires Valid(value)
    ensures fresh(body) && body.limit == limit && body.text.Some? == retain
    ensures body.Represents(Sanitize(value, true))
  {
    hide Shows, Valid, Sanitize;
    body := new Body(limit, retain);
    body.Sanitized(value, []);
    ConcatNothing(Sanitize(value, true));
  }

  /** `bounded_result_content`: the whole-string form. */
  method BoundedResultContent(value: Text, max: nat) returns (text: Text, truncated: bool)
    requires Valid(value)
    ensures text == Cut(Sanitize(value, true), max) && truncated == (|Sanitize(value, true)| > max)
    ensures Harmless(text, true)
  {
    hide Harmless, Sanitize, Valid;
    var sanitized := SanitizeDisplayText(value, true);
    HarmlessPrefix(sanitized, FloorBoundary(sanitized, max), true);
    text, truncated := Cut(sanitized, max), FloorBoundary(sanitized, max) < |sanitized|;
  }

  /** `result_line_count`: the count-only body counts the lines of the text that would be shown. */
  method ResultLineCount(value: Text) returns (lines: nat, truncated: bool)
    requires Valid(value)
    ensures lines == CountLines(Cut(Sanitize(value, true), MAX_RESULT_DISPLAY_BYTES))
    ensures truncated == (|Sanitize(value, true)| > MAX_RESULT_DISPLAY_BYTES)
  {
    var body := FromText(value, MAX_RESULT_DISPLAY_BYTES, false);
    return body.lines, body.truncated;
  }
}
