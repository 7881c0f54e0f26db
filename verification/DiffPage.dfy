/** Paging a planned diff by raw byte offsets under an encoded-size budget. */
module DiffPage {
  import opened Prelude
  import opened Utf8
  import opened DiffPlan

  /** The position part of a diff cursor. */
  datatype Cursor = Cursor(hunk: nat, line: nat, offset: nat)

  predicate Precedes(a: Cursor, b: Cursor) {
    || a.hunk < b.hunk
    || (a.hunk == b.hunk && a.line < b.line)
    || (a.hunk == b.hunk && a.line == b.line && a.offset < b.offset)
  }

  datatype DiffLine = DiffLine(kind: LineKind, oldIndex: Option<nat>, newIndex: Option<nat>,
                               offset: nat, len: nat, text: Text, complete: bool)

  datatype DiffHunk = DiffHunk(oldStart: nat, oldCount: nat, newStart: nat, newCount: nat, lines: seq<DiffLine>)

  datatype PageError = InvalidArguments | Internal

  datatype Page = Page(hunks: seq<DiffHunk>, next: Option<Cursor>, complete: bool)

  // ----- encoded sizes

  function KindLen(kind: LineKind): nat { if kind.Added? then 5 else 7 }

  function IndexLen(index: Option<nat>): nat { if index.Some? then 13 + Digits(index.value) else 0 }

  /** Encoded size of one fragment object. */
  function LineLen(l: DiffLine): nat {
    9 + KindLen(l.kind) + 1 + IndexLen(l.oldIndex) + IndexLen(l.newIndex)
    + 20 + Digits(l.offset) + 17 + Digits(l.len) + 9 + EscapedLen(l.text) + 1 + 17 + FlagLen(l.complete) + 1
  }

  /** Encoded size of a `lines` array without its brackets. */
  function LinesLen(lines: seq<DiffLine>): nat {
    if lines == [] then 0
    else
      var init := lines[..|lines| - 1];
      LinesLen(init) + (if init == [] then 0 else 1) + LineLen(lines[|lines| - 1])
  }

  /** `hunk_open_len`: a hunk object around an empty `lines` array, brackets excluded. */
  function HunkOpenLen(oldStart: nat, oldCount: nat, newStart: nat, newCount: nat): nat {
    13 + Digits(oldStart) + 13 + Digits(oldCount) + 13 + Digits(newStart) + 13 + Digits(newCount) + 9 + 1
  }

  function OpenLen(h: DiffHunk): nat { HunkOpenLen(h.oldStart, h.oldCount, h.newStart, h.newCount) }

  function HunkLen(h: DiffHunk): nat { OpenLen(h) + 2 + LinesLen(h.lines) }

  function HunksSum(hunks: seq<DiffHunk>): nat {
    if hunks == [] then 0 else HunksSum(hunks[..|hunks| - 1]) + HunkLen(hunks[|hunks| - 1])
  }

  /** Encoded size of the `hunks` array without its brackets. */
  function HunksLen(hunks: seq<DiffHunk>): nat {
    if hunks == [] then 0 else HunksSum(hunks) + |hunks| - 1
  }

  datatype Availability = Available | Partial | Unavailable

  function AvailabilityLen(a: Availability): nat {
    match a case Available => 9 case Partial => 7 case Unavailable => 11
  }

  /** Sizes of what a page cannot change: the rest of the result object and of a cursor. */
  datatype Frame = Frame(resultBytes: nat, cursorBytes: nat)

  function CursorLen(frame: Frame, c: Option<Cursor>): nat {
    if c.None? then 0
    else 15 + frame.cursorBytes + Digits(c.value.hunk) + Digits(c.value.line) + Digits(c.value.offset)
  }

  /** Encoded size of a whole result. */
  function ResultLen(frame: Frame, a: Availability, complete: bool, truncated: bool, hunks: seq<DiffHunk>, next: Option<Cursor>): nat {
    frame.resultBytes + AvailabilityLen(a) + FlagLen(complete) + FlagLen(truncated) + 2 + HunksLen(hunks) + CursorLen(frame, next)
  }

  // ----- the meter

  /** The running byte accountant of one page. */
  class PageMeter {
    const baseEmpty: nat
    const maxBytes: nat
    var completedBytes: nat
    var completedHunks: nat
    var current: Option<(nat, nat, nat)>

    constructor (baseEmpty: nat, maxBytes: nat)
      ensures Represents([]) && this.baseEmpty == baseEmpty && this.maxBytes == maxBytes && current == None
    {
      this.baseEmpty, this.maxBytes := baseEmpty, maxBytes;
      completedBytes, completedHunks, current := 0, 0, None;
    }

    /** The counters agree with re-encoding the page; `current` describes its last hunk. */
    ghost predicate Represents(page: seq<DiffHunk>)
      reads this
    {
      if current.None? then completedBytes == HunksSum(page) && completedHunks == |page|
      else
        && page != []
        && var last := page[|page| - 1];
           && current.value == (OpenLen(last), LinesLen(last.lines), |last.lines|)
           && completedBytes == HunksSum(page[..|page| - 1]) && completedHunks == |page| - 1
    }

    method FitsWith(lineLen: nat, ghost page: seq<DiffHunk>, ghost line: DiffLine) returns (fits: bool)
      requires Represents(page) && current.Some? && lineLen == LineLen(line)
      ensures fits <==> baseEmpty + HunksLen(WithLine(page, line)) <= maxBytes
    {
      hide LineLen, LinesLen, HunksSum, OpenLen, WithLine;
      var sum, count := completedBytes, completedHunks;
      if current.Some? {
        var (open, comp, lines) := current.value;
        var comma := if lines > 0 then 1 else 0;
        sum := sum + open + 2 + (comp + comma + lineLen);
        count := count + 1;
      }
      var content := if count == 0 then 0 else sum + count - 1;
      WithLineLen(page, line);
      fits := baseEmpty + content <= maxBytes;
    }

    method CommitLine(lineLen: nat, ghost page: seq<DiffHunk>, ghost line: DiffLine)
      requires Represents(page) && current.Some? && lineLen == LineLen(line)
      modifies this`current
      ensures Represents(WithLine(page, line)) && current.Some?
    {
      hide LineLen, LinesLen, HunksSum, HunkOpenLen;
      if current.Some? {
        var (open, comp, lines) := current.value;
        var comma := if lines > 0 then 1 else 0;
        current := Some((open, comp + comma + lineLen, lines + 1));
      }
      WithLineLen(page, line);
    }

    method OpenHunk(open: nat, ghost page: seq<DiffHunk>, ghost hunk: DiffHunk)
      requires Represents(page) && current.None? && hunk.lines == [] && open == OpenLen(hunk)
      modifies this`current
      ensures Represents(page + [hunk]) && current.Some?
    {
      hide OpenLen, HunksSum;
      current := Some((open, 0, 0));
      assert (page + [hunk])[..|page|] == page;
    }

    method FinishHunk(ghost page: seq<DiffHunk>)
      requires Represents(page)
      modifies this
      ensures Represents(page) && current == None
    {
      if current.Some? {
        var (open, comp, _) := current.value;
        completedBytes := completedBytes + open + 2 + comp;
        completedHunks := completedHunks + 1;
        current := None;
      }
    }
  }

  /** The page with one more fragment in its last hunk. */
  function WithLine(page: seq<DiffHunk>, line: DiffLine): seq<DiffHunk>
    requires page != []
  {
    var last := page[|page| - 1];
    page[..|page| - 1] + [last.(lines := last.lines + [line])]
  }

  lemma WithLineLen(page: seq<DiffHunk>, line: DiffLine)
    requires page != []
    ensures var last, longer := page[|page| - 1], WithLine(page, line);
            && |longer| == |page| && longer[..|page| - 1] == page[..|page| - 1]
            && longer[|page| - 1] == last.(lines := last.lines + [line])
            && LinesLen(last.lines + [line]) == LinesLen(last.lines) + (if last.lines == [] then 0 else 1) + LineLen(line)
            && HunksSum(longer) == HunksSum(page[..|page| - 1]) + OpenLen(last) + 2 + LinesLen(last.lines + [line])
  {
    hide LineLen, HunkOpenLen;
    var last, longer := page[|page| - 1], WithLine(page, line);
    assert (last.lines + [line])[..|last.lines|] == last.lines;
    assert longer[..|page| - 1] == page[..|page| - 1];
  }

  // ----- what a page shows

  datatype Header = Header(oldStart: nat, oldCount: nat, newStart: nat, newCount: nat)

  function HunkHeader(h: DiffHunk): Header { Header(h.oldStart, h.oldCount, h.newStart, h.newCount) }

  function PlanHeader(h: HunkPlan): Header { Header(h.oldStart, h.oldCount, h.newStart, h.newCount) }

  /** One source byte together with the hunk, the line and the offset it is shown at. */
  datatype Tagged = Tagged(header: Header, kind: LineKind, oldIndex: Option<nat>, newIndex: Option<nat>,
                           len: nat, at: nat, byte: Byte)

  function LineTags(header: Header, l: DiffLine): seq<Tagged> {
    seq(|l.text|, i requires 0 <= i < |l.text| => Tagged(header, l.kind, l.oldIndex, l.newIndex, l.len, l.offset + i, l.text[i]))
  }

  function LinesTags(header: Header, lines: seq<DiffLine>): seq<Tagged> {
    if lines == [] then [] else LinesTags(header, lines[..|lines| - 1]) + LineTags(header, lines[|lines| - 1])
  }

  /** Every byte a page shows, in order. */
  function PageTags(page: seq<DiffHunk>): seq<Tagged> {
    if page == [] then []
    else
      var last := page[|page| - 1];
      PageTags(page[..|page| - 1]) + LinesTags(HunkHeader(last), last.lines)
  }

  lemma PageTagsLast(page: seq<DiffHunk>, last: DiffHunk)
    ensures PageTags(page + [last]) == PageTags(page) + LinesTags(HunkHeader(last), last.lines)
  {
    hide LinesTags;
    assert (page + [last])[..|page|] == page;
  }

  lemma LinesTagsLast(header: Header, lines: seq<DiffLine>, line: DiffLine)
    ensures LinesTags(header, lines + [line]) == LinesTags(header, lines) + LineTags(header, line)
  {
    hide LineTags;
    assert (lines + [line])[..|lines|] == lines;
  }

  lemma PageTagsLonger(init: seq<DiffHunk>, last: DiffHunk, longer: DiffHunk, line: DiffLine)
    requires longer == last.(lines := last.lines + [line])
    ensures PageTags(init + [longer]) == PageTags(init + [last]) + LineTags(HunkHeader(last), line)
  {
    hide PageTags, LinesTags, LineTags;
    PageTagsLast(init, last);
    PageTagsLast(init, longer);
    LinesTagsLast(HunkHeader(last), last.lines, line);
    ConcatAssoc(PageTags(init), LinesTags(HunkHeader(last), last.lines), LineTags(HunkHeader(last), line));
  }

  lemma PageTagsWithLine(page: seq<DiffHunk>, line: DiffLine)
    requires page != []
    ensures PageTags(WithLine(page, line)) == PageTags(page) + LineTags(HunkHeader(page[|page| - 1]), line)
  {
    hide PageTags, LineTags;
    var init, last := page[..|page| - 1], page[|page| - 1];
    PageTagsLonger(init, last, last.(lines := last.lines + [line]), line);
    assert page == init + [last];
  }

  lemma PageTagsWithHunk(page: seq<DiffHunk>, hunk: DiffHunk)
    requires hunk.lines == []
    ensures PageTags(page + [hunk]) == PageTags(page)
  {
    assert (page + [hunk])[..|page|] == page;
  }

  predicate InRange(line: LinePlan, before: Text, after: Text) {
    line.byteStart + line.byteLen <= |Side(line.source, before, after)|
  }

  function LineBytes(line: LinePlan, before: Text, after: Text): Text {
    if InRange(line, before, after)
    then Side(line.source, before, after)[line.byteStart..line.byteStart + line.byteLen] else []
  }

  /** The fragment of a planned line from `offset` on, `part` bytes long. */
  function Fragment(line: LinePlan, offset: nat, text: Text): DiffLine {
    DiffLine(line.kind, line.oldIndex, line.newIndex, offset, line.byteLen, text, offset + |text| == line.byteLen)
  }

  /** Every planned byte of a line from an offset on, with the kind, the numbers and the length its plan gives. */
  function LineRest(h: HunkPlan, line: LinePlan, before: Text, after: Text, offset: nat): seq<Tagged> {
    var bytes := LineBytes(line, before, after);
    if offset > |bytes| then []
    else
      seq(|bytes| - offset, i requires 0 <= i < |bytes| - offset =>
        Tagged(PlanHeader(h), line.kind, line.oldIndex, line.newIndex, line.byteLen, offset + i, bytes[offset + i]))
  }

  /** Every planned byte from a cursor on, in order. */
  function Rest(plan: seq<HunkPlan>, before: Text, after: Text, c: Cursor): seq<Tagged>
    decreases |plan| - c.hunk, if c.hunk < |plan| then |plan[c.hunk].lines| - c.line else 0
  {
    if c.hunk >= |plan| then []
    else
      var h := plan[c.hunk];
      if c.line >= |h.lines| then Rest(plan, before, after, Cursor(c.hunk + 1, 0, 0))
      else LineRest(h, h.lines[c.line], before, after, c.offset) + Rest(plan, before, after, Cursor(c.hunk, c.line + 1, 0))
  }

  /** Fragments are never empty and are marked complete exactly at the end of their line. */
  predicate Packed(page: seq<DiffHunk>) {
    forall h :: 0 <= h < |page| ==> page[h].lines != [] && forall k :: 0 <= k < |page[h].lines| ==> GoodFragment(page[h].lines[k])
  }

  predicate GoodFragment(l: DiffLine) { l.text != [] && (l.complete <==> l.offset + |l.text| == l.len) }

  /** A cursor that points inside a planned line, at a character boundary. */
  predicate Resumable(plan: seq<HunkPlan>, before: Text, after: Text, c: Cursor) {
    && c.hunk < |plan| && c.line < |plan[c.hunk].lines|
    && var line := plan[c.hunk].lines[c.line];
       && InRange(line, before, after) && c.offset < line.byteLen && IsBoundary(LineBytes(line, before, after), c.offset)
  }

  // ----- building a page

  method RemoveEmptyTail(page: seq<DiffHunk>) returns (kept: seq<DiffHunk>)
    ensures kept <= page && (kept != [] ==> kept[|kept| - 1].lines != [])
    ensures forall k :: |kept| <= k < |page| ==> page[k].lines == []
  {
    var n: nat := |page|;
    while n > 0 && page[n - 1].lines == []
      invariant n <= |page| && forall k :: n <= k < |page| ==> page[k].lines == []
    {
      n := n - 1;
    }
    kept := page[..n];
  }

  /** The page with the first `n` bytes of this text as one more fragment fits. */
  predicate PartFits(baseEmpty: nat, maxBytes: nat, page: seq<DiffHunk>, line: LinePlan, offset: nat, text: Text, n: nat)
    requires page != [] && n <= |text|
  {
    baseEmpty + HunksLen(WithLine(page, Fragment(line, offset, text[..n]))) <= maxBytes
  }

  lemma LongerLineNeedsMore(page: seq<DiffHunk>, a: DiffLine, b: DiffLine)
    requires page != [] && LineLen(a) <= LineLen(b)
    ensures HunksLen(WithLine(page, a)) <= HunksLen(WithLine(page, b))
  {
    hide LineLen, LinesLen, HunksSum, OpenLen, WithLine;
    WithLineLen(page, a);
    WithLineLen(page, b);
  }

  /** Shorter incomplete fragments never need more room. */
  lemma ShorterPartFits(baseEmpty: nat, maxBytes: nat, page: seq<DiffHunk>, line: LinePlan, offset: nat, text: Text, a: nat, b: nat)
    requires page != [] && a <= b < |text| && offset + |text| == line.byteLen
    requires PartFits(baseEmpty, maxBytes, page, line, offset, text, b)
    ensures PartFits(baseEmpty, maxBytes, page, line, offset, text, a)
  {
    hide HunksLen, WithLine, EscapedLen, Digits;
    EscapedLenGrows(text, a, b);
    LongerLineNeedsMore(page, Fragment(line, offset, text[..a]), Fragment(line, offset, text[..b]));
  }

  /** The prefix lengths the halving search tries, longest first. */
  function Probes(text: Text, take: nat): seq<nat>
    decreases take
  {
    var part := FloorBoundary(text, take);
    if take == 0 || part == 0 then [] else [part] + Probes(text, part / 2)
  }

  /** The last length it tries. */
  function LastProbe(text: Text): nat {
    var probes := Probes(text, |text|);
    if probes == [] then 0 else probes[|probes| - 1]
  }

  lemma {:induction false} ProbesShrink(text: Text, take: nat)
    ensures forall k :: 0 <= k < |Probes(text, take)| ==> 0 < Probes(text, take)[k] <= Min(take, |text|) && IsBoundary(text, Probes(text, take)[k])
    ensures forall j, k :: 0 <= j < k < |Probes(text, take)| ==> Probes(text, take)[j] > Probes(text, take)[k]
    decreases take
  {
    hide IsBoundary;
    var part := FloorBoundary(text, take);
    if take > 0 && part > 0 {
      ProbesShrink(text, part / 2);
    }
  }

  /** Each probe is the boundary at or below half of the one before. */
  lemma {:induction false} ProbesHalve(text: Text, take: nat, k: nat)
    requires k + 1 < |Probes(text, take)|
    ensures Probes(text, take)[k + 1] == FloorBoundary(text, Probes(text, take)[k] / 2)
    decreases take
  {
    hide IsBoundary, FloorBoundary;
    var part := FloorBoundary(text, take);
    if k > 0 {
      ProbesHalve(text, part / 2, k - 1);
    }
  }

  lemma {:induction false} ProbesEnd(text: Text, take: nat)
    requires Probes(text, take) != []
    ensures var probes := Probes(text, take); FloorBoundary(text, probes[|probes| - 1] / 2) == 0
    decreases take
  {
    var part := FloorBoundary(text, take);
    if Probes(text, part / 2) != [] {
      ProbesEnd(text, part / 2);
    }
  }

  /** The search goes down to less than twice the first character. */
  lemma LastProbeIsShort(text: Text)
    requires Valid(text) && text != []
    ensures CharLen(text) <= LastProbe(text) < 2 * CharLen(text) && LastProbe(text) <= |text| && IsBoundary(text, LastProbe(text))
  {
    hide Valid, CharLen;
    var probes := Probes(text, |text|);
    assert probes[0] == |text|;
    ProbesShrink(text, |text|);
    ProbesEnd(text, |text|);
    CharEndIsBoundary(text);
    var last := LastProbe(text);
    if last < CharLen(text) {
      InsideFirstCharacter(text, last);
    }
  }

  lemma InsideFirstCharacter(text: Text, i: nat)
    requires 0 < i < CharLen(text)
    ensures !IsBoundary(text, i)
  {}

  /** A boundary is never more than three bytes away. */
  lemma {:induction false} FloorIsNear(text: Text, i: nat)
    requires Valid(text) && i <= |text|
    ensures i <= FloorBoundary(text, i) + 3
    decreases |text|
  {
    if text != [] && i >= CharLen(text) {
      var n := CharLen(text);
      CharEndIsBoundary(text);
      hide CharLen, Valid;
      FloorIsNear(text[n..], i - n);
      var near := FloorBoundary(text[n..], i - n);
      ShiftBoundary(text, n, near);
    }
  }

  lemma ShiftBoundary(text: Text, n: nat, i: nat)
    requires n + i <= |text| && IsBoundary(text, n) && IsBoundary(text[n..], i)
    ensures IsBoundary(text, n + i)
  {}

  /** What the halving search returns: the first probe that fits. */
  ghost predicate FirstFit(baseEmpty: nat, maxBytes: nat, page: seq<DiffHunk>, line: LinePlan, offset: nat, text: Text, chosen: Option<nat>)
    requires page != []
  {
    var probes := Probes(text, |text|);
    match chosen
    case None =>
      forall k :: 0 <= k < |probes| && probes[k] <= |text| ==> !PartFits(baseEmpty, maxBytes, page, line, offset, text, probes[k])
    case Some(part) =>
      && part <= |text| && PartFits(baseEmpty, maxBytes, page, line, offset, text, part)
      && exists k :: 0 <= k < |probes| && probes[k] == part
           && forall j :: 0 <= j < k && probes[j] <= |text| ==> !PartFits(baseEmpty, maxBytes, page, line, offset, text, probes[j])
  }

  /** The halving search gives up exactly when neither the whole text nor its last probe fits. */
  lemma GivesUpExactly(baseEmpty: nat, maxBytes: nat, page: seq<DiffHunk>, line: LinePlan, offset: nat, text: Text, chosen: Option<nat>)
    requires page != [] && Valid(text) && text != [] && offset + |text| == line.byteLen
    requires FirstFit(baseEmpty, maxBytes, page, line, offset, text, chosen)
    ensures LastProbe(text) <= |text|
    ensures chosen.None? <==> !PartFits(baseEmpty, maxBytes, page, line, offset, text, |text|)
                              && !PartFits(baseEmpty, maxBytes, page, line, offset, text, LastProbe(text))
  {
    hide PartFits, Valid, CharLen, IsBoundary;
    var probes := Probes(text, |text|);
    assert probes[0] == |text|;
    LastProbeIsShort(text);
    ProbesShrink(text, |text|);
    hide Probes;
    if chosen.Some? && chosen.value < |text| {
      ShorterPartFits(baseEmpty, maxBytes, page, line, offset, text, LastProbe(text), chosen.value);
    }
  }

  /** What it returns is at least about half of the longest fragment that fits. */
  lemma AtLeastHalf(baseEmpty: nat, maxBytes: nat, page: seq<DiffHunk>, line: LinePlan, offset: nat, text: Text, part: nat, n: nat)
    requires page != [] && Valid(text) && offset + |text| == line.byteLen && n <= |text|
    requires FirstFit(baseEmpty, maxBytes, page, line, offset, text, Some(part))
    requires PartFits(baseEmpty, maxBytes, page, line, offset, text, n)
    ensures n <= 2 * part + 6
  {
    hide PartFits, Valid, Probes;
    var probes := Probes(text, |text|);
    var k :| 0 <= k < |probes| && probes[k] == part
             && forall j :: 0 <= j < k && probes[j] <= |text| ==> !PartFits(baseEmpty, maxBytes, page, line, offset, text, probes[j]);
    ProbesAreNear(text, k);
    if k > 0 {
      var refused := probes[k - 1];
      if refused <= n < |text| {
        ShorterPartFits(baseEmpty, maxBytes, page, line, offset, text, refused, n);
      }
    }
  }

  lemma ProbesAreNear(text: Text, k: nat)
    requires Valid(text) && k < |Probes(text, |text|)|
    ensures var probes := Probes(text, |text|);
            probes[0] == |text| && (k > 0 ==> probes[k - 1] <= Min(|text|, 2 * probes[k] + 7))
  {
    hide Valid, IsBoundary;
    if k > 0 {
      ProbesShrink(text, |text|);
      ProbesHalve(text, |text|, k - 1);
      FloorIsNear(text, Probes(text, |text|)[k - 1] / 2);
    }
  }

  /** The halving search for a fragment that fits. */
  method ChooseFragment(meter: PageMeter, line: LinePlan, offset: nat, text: Text, ghost page: seq<DiffHunk>)
    returns (chosen: Option<nat>)
    requires meter.Represents(page) && meter.current.Some?
    ensures FirstFit(meter.baseEmpty, meter.maxBytes, page, line, offset, text, chosen)
    ensures chosen.Some? ==> 0 < chosen.value <= |text| && IsBoundary(text, chosen.value)
  {
    hide HunksLen, WithLine, Fragment, LineLen, IsBoundary;
    ghost var probes := Probes(text, |text|);
    ghost var k := 0;
    var take: nat := |text|;
    while take > 0
      invariant take <= |text| && k <= |probes| && probes[k..] == Probes(text, take)
      invariant forall j :: 0 <= j < k && probes[j] <= |text| ==> !PartFits(meter.baseEmpty, meter.maxBytes, page, line, offset, text, probes[j])
    {
      var part := FloorBoundary(text, take);
      if part == 0 {
        return None;
      }
      assert probes[k..][0] == part;
      assert probes[k..][1..] == probes[k + 1..];
      var fragment := Fragment(line, offset, text[..part]);
      var fits := meter.FitsWith(LineLen(fragment), page, fragment);
      if fits {
        return Some(part);
      }
      take := part / 2;
      k := k + 1;
    }
    return None;
  }

  /** A line of one wide and two plain characters. */
  const EURO_AB: Text := [0xE2, 0x82, 0xAC, 0x61, 0x62]

  /** The search can miss a fragment that fits: half of this text lies inside its first
      character, so after the whole text nothing else is tried. */
  lemma FragmentCanBeMissed(h: DiffHunk, line: LinePlan, baseEmpty: nat) returns (maxBytes: nat)
    requires h.lines == [] && line.byteLen == |EURO_AB|
    ensures Valid(EURO_AB) && IsBoundary(EURO_AB, 3)
    ensures PartFits(baseEmpty, maxBytes, [h], line, 0, EURO_AB, 3)
    ensures FirstFit(baseEmpty, maxBytes, [h], line, 0, EURO_AB, None)
  {
    EuroProbes();
    EuroCosts();
    var short, whole := Fragment(line, 0, EURO_AB[..3]), Fragment(line, 0, EURO_AB[..5]);
    maxBytes := baseEmpty + HunksLen(WithLine([h], short));
    assert LineLen(short) + 1 == LineLen(whole);
    WithLineLen([h], short);
    WithLineLen([h], whole);
  }

  lemma EuroProbes()
    ensures Valid(EURO_AB) && IsBoundary(EURO_AB, 3) && Probes(EURO_AB, 5) == [5]
  {
    var text := EURO_AB;
    assert CharLen(text) == 3;
    assert text[3..] == [0x61, 0x62] && text[3..][1..] == [0x62] && text[3..][1..][1..] == [];
    assert FloorBoundary(text, 0) == 0 && FloorBoundary(text, 1) == 0 && FloorBoundary(text, 2) == 0;
    assert Probes(text, 2) == [];
  }

  lemma EuroCosts()
    ensures EscapedLen(EURO_AB[..3]) == 3 && EscapedLen(EURO_AB[..5]) == 5
  {
    var text := EURO_AB;
    assert text[..5] == text && text[..5][..4] == text[..4] && text[..4][..3] == text[..3] && text[..3][..2] == text[..2]
        && text[..2][..1] == text[..1] && text[..1][..0] == [];
    assert EscapedLen(text[..1]) == 1 && EscapedLen(text[..2]) == 2 && EscapedLen(text[..3]) == 3 && EscapedLen(text[..4]) == 4;
  }

  /** The page's last hunk is open and is this one. */
  ghost predicate OpenFor(page: seq<DiffHunk>, h: HunkPlan) {
    page != [] && HunkHeader(page[|page| - 1]) == PlanHeader(h)
  }

  /** A page with nothing but an open hunk. */
  function AloneOnPage(h: HunkPlan): seq<DiffHunk> { [DiffHunk(h.oldStart, h.oldCount, h.newStart, h.newCount, [])] }

  /** What is left of a line from an offset on. */
  function RestText(line: LinePlan, before: Text, after: Text, offset: nat): Text {
    if offset <= |LineBytes(line, before, after)| then LineBytes(line, before, after)[offset..] else []
  }

  /** Neither the whole text nor its last probe fits on this page. */
  predicate Cramped(baseEmpty: nat, maxBytes: nat, page: seq<DiffHunk>, line: LinePlan, offset: nat, text: Text) {
    && page != [] && LastProbe(text) <= |text|
    && !PartFits(baseEmpty, maxBytes, page, line, offset, text, |text|)
    && !PartFits(baseEmpty, maxBytes, page, line, offset, text, LastProbe(text))
  }

  /** The page is full for this line, its hunk opened if necessary. */
  ghost predicate Stuck(baseEmpty: nat, maxBytes: nat, page: seq<DiffHunk>, h: HunkPlan, line: LinePlan, offset: nat, text: Text) {
    exists open :: Opens(page, open) && OpenFor(open, h) && Cramped(baseEmpty, maxBytes, open, line, offset, text)
  }

  /** The page got the first `part` bytes of this text, and nothing much longer would have fitted. */
  ghost predicate WellFilled(baseEmpty: nat, maxBytes: nat, longer: seq<DiffHunk>, h: HunkPlan, line: LinePlan, offset: nat, text: Text, part: nat) {
    && part <= |text|
    && exists open :: OpenFor(open, h) && open != [] && longer == WithLine(open, Fragment(line, offset, text[..part]))
         && forall n :: 0 <= n <= |text| && PartFits(baseEmpty, maxBytes, open, line, offset, text, n) ==> n <= 2 * part + 6
  }

  lemma FilledAs(baseEmpty: nat, maxBytes: nat, open: seq<DiffHunk>, h: HunkPlan, line: LinePlan, offset: nat, text: Text, part: nat)
    requires OpenFor(open, h) && Valid(text) && offset + |text| == line.byteLen
    requires FirstFit(baseEmpty, maxBytes, open, line, offset, text, Some(part))
    ensures part <= |text| && PartFits(baseEmpty, maxBytes, open, line, offset, text, part)
    ensures WellFilled(baseEmpty, maxBytes, WithLine(open, Fragment(line, offset, text[..part])), h, line, offset, text, part)
  {
    hide PartFits, Valid, WithLine, Fragment, Probes;
    forall n | 0 <= n <= |text| && PartFits(baseEmpty, maxBytes, open, line, offset, text, n) ensures n <= 2 * part + 6 {
      AtLeastHalf(baseEmpty, maxBytes, open, line, offset, text, part, n);
    }
  }

  /** One line of the page: open its hunk if necessary, take what fits from `offset` on. */
  method EmitLine(meter: PageMeter, h: HunkPlan, line: LinePlan, offset: nat, before: Text, after: Text, page: seq<DiffHunk>)
    returns (r: Result<Option<nat>, PageError>, longer: seq<DiffHunk>)
    requires meter.Represents(page) && Packed(page) && (meter.current.Some? ==> OpenFor(page, h)) && offset != line.byteLen
    modifies meter
    ensures r.Ok? ==> InRange(line, before, after) && offset <= line.byteLen && IsBoundary(LineBytes(line, before, after), offset)
    ensures r == Ok(None) ==>
              longer == page && Stuck(meter.baseEmpty, meter.maxBytes, page, h, line, offset, RestText(line, before, after, offset))
    ensures r.Ok? && page == [] ==>
              (r.value.None? <==> Cramped(meter.baseEmpty, meter.maxBytes, AloneOnPage(h), line, offset, RestText(line, before, after, offset)))
    ensures r.Ok? && r.value.Some? ==>
              var part := r.value.value;
              && 0 < part && offset + part <= line.byteLen && IsBoundary(LineBytes(line, before, after), offset + part)
              && longer != [] && Packed(longer) && OpenFor(longer, h) && meter.Represents(longer) && meter.current.Some?
              && meter.baseEmpty + HunksLen(longer) <= meter.maxBytes
              && WellFilled(meter.baseEmpty, meter.maxBytes, longer, h, line, offset, RestText(line, before, after, offset), part)
              && PageTags(longer) == PageTags(page)
                   + LineTags(PlanHeader(h), Fragment(line, offset, LineBytes(line, before, after)[offset..offset + part]))
    ensures r.Err? ==> LineError(line, offset, before, after, r.error)
  {
    hide Valid, LineOk, HunksLen, PageTags, Packed, LineTags, LineLen, OpenLen, EscapedLen, LineError, Opens, WithLine, FirstFit, WellFilled, Probes, LastProbe;
    longer := OpenIfNeeded(meter, h, page);
    var slice := LineText(line, offset, before, after);
    if slice.Err? {
      return Err(slice.error), longer;
    }
    var text := slice.value;
    var chosen := ChooseFragment(meter, line, offset, text, longer);
    GivesUpExactly(meter.baseEmpty, meter.maxBytes, longer, line, offset, text, chosen);
    if chosen.None? {
      var kept := RemoveEmptyTail(longer);
      KeptIsPage(page, longer, kept);
      assert Cramped(meter.baseEmpty, meter.maxBytes, longer, line, offset, text);
      return Ok(None), kept;
    }
    var part := chosen.value;
    var fragment := Fragment(line, offset, text[..part]);
    FilledAs(meter.baseEmpty, meter.maxBytes, longer, h, line, offset, text, part);
    assert text[..part] == LineBytes(line, before, after)[offset..offset + part];
    BoundaryShift(LineBytes(line, before, after), offset, part);
    longer := CommitFragment(meter, h, page, longer, fragment);
    return Ok(Some(part)), longer;
  }

  method CommitFragment(meter: PageMeter, h: HunkPlan, ghost page: seq<DiffHunk>, open: seq<DiffHunk>, fragment: DiffLine)
    returns (longer: seq<DiffHunk>)
    requires meter.Represents(open) && meter.current.Some? && OpenFor(open, h)
    requires Packed(page) && Opens(page, open) && PageTags(open) == PageTags(page) && GoodFragment(fragment)
    modifies meter`current
    ensures longer == WithLine(open, fragment) && longer != []
    ensures Packed(longer) && OpenFor(longer, h) && meter.Represents(longer) && meter.current.Some?
    ensures PageTags(longer) == PageTags(page) + LineTags(PlanHeader(h), fragment)
  {
    hide PageTags, LineTags, LineLen, Packed, Opens;
    meter.CommitLine(LineLen(fragment), open, fragment);
    PageTagsWithLine(open, fragment);
    StaysPacked(page, open, fragment);
    longer := WithLine(open, fragment);
  }

  /** `open` is the page, or the page with one empty hunk behind it. */
  ghost predicate Opens(page: seq<DiffHunk>, open: seq<DiffHunk>) {
    open == page || (open != [] && page == open[..|open| - 1] && open[|open| - 1].lines == [])
  }

  method OpenIfNeeded(meter: PageMeter, h: HunkPlan, page: seq<DiffHunk>) returns (open: seq<DiffHunk>)
    requires meter.Represents(page) && (meter.current.Some? ==> OpenFor(page, h))
    modifies meter`current
    ensures meter.Represents(open) && meter.current.Some? && OpenFor(open, h) && Opens(page, open)
    ensures PageTags(open) == PageTags(page)
    ensures page == [] ==> open == AloneOnPage(h)
  {
    hide PageTags;
    open := page;
    if meter.current.None? {
      var empty := DiffHunk(h.oldStart, h.oldCount, h.newStart, h.newCount, []);
      OpenLenOfEmpty(h);
      meter.OpenHunk(HunkOpenLen(h.oldStart, h.oldCount, h.newStart, h.newCount), page, empty);
      PageTagsWithHunk(page, empty);
      open := page + [empty];
    }
  }

  lemma OpenLenOfEmpty(h: HunkPlan)
    ensures OpenLen(DiffHunk(h.oldStart, h.oldCount, h.newStart, h.newCount, []))
         == HunkOpenLen(h.oldStart, h.oldCount, h.newStart, h.newCount)
  {}

  /** Why a line cannot be read at an offset: broken source bytes, or an offset that is
      not a character boundary of the line. */
  predicate LineError(line: LinePlan, offset: nat, before: Text, after: Text, e: PageError) {
    if e == Internal then !LineOk(line, before, after)
    else offset > line.byteLen || !IsBoundary(LineBytes(line, before, after), offset)
  }

  /** The text of a planned line from `offset` on, validated as the source does. */
  method LineText(line: LinePlan, offset: nat, before: Text, after: Text) returns (r: Result<Text, PageError>)
    ensures r.Ok? ==>
              && InRange(line, before, after) && offset <= line.byteLen
              && IsBoundary(LineBytes(line, before, after), offset) && r.value == LineBytes(line, before, after)[offset..] && Valid(r.value)
    ensures r.Err? ==> LineError(line, offset, before, after, r.error)
  {
    var side := Side(line.source, before, after);
    if line.byteStart + line.byteLen > |side| {
      return Err(Internal);
    }
    var bytes := side[line.byteStart..line.byteStart + line.byteLen];
    if offset > |bytes| {
      return Err(InvalidArguments);
    }
    // A non-zero offset must land on a boundary of the whole, well-formed line.
    if offset > 0 {
      if !Valid(bytes) {
        return Err(Internal);
      }
      if !IsBoundary(bytes, offset) {
        return Err(InvalidArguments);
      }
    }
    var text := bytes[offset..];
    if !Valid(text) {
      RestOfValidLine(bytes, offset);
      return Err(Internal);
    }
    return Ok(text);
  }

  lemma RestOfValidLine(bytes: Text, offset: nat)
    requires offset <= |bytes| && (offset > 0 ==> IsBoundary(bytes, offset))
    ensures Valid(bytes) ==> Valid(bytes[offset..])
  {
    if Valid(bytes) {
      SplitValid(bytes, offset);
    }
  }

  lemma BoundaryShift(bytes: Text, offset: nat, part: nat)
    requires offset + part <= |bytes| && 0 < part && IsBoundary(bytes[offset..], part)
    ensures IsBoundary(bytes, offset + part)
  {}

  lemma KeptIsPage(page: seq<DiffHunk>, open: seq<DiffHunk>, kept: seq<DiffHunk>)
    requires Packed(page)
    requires Opens(page, open)
    requires kept <= open && (kept != [] ==> kept[|kept| - 1].lines != [])
    requires forall k :: |kept| <= k < |open| ==> open[k].lines == []
    ensures kept == page
  {
    if page != [] {
      assert open[|page| - 1] == page[|page| - 1];
    }
  }

  lemma StaysPacked(page: seq<DiffHunk>, open: seq<DiffHunk>, fragment: DiffLine)
    requires Packed(page) && GoodFragment(fragment) && open != []
    requires Opens(page, open)
    ensures Packed(WithLine(open, fragment))
  {
    var longer := WithLine(open, fragment);
    forall h | 0 <= h < |longer|
      ensures longer[h].lines != [] && forall k :: 0 <= k < |longer[h].lines| ==> GoodFragment(longer[h].lines[k])
    {
      if h < |page| { assert page[h] == open[h]; }
    }
  }

  /** The worst cursor a page could need. */
  function WorstCursor(plan: seq<HunkPlan>, before: Text, after: Text): Cursor {
    Cursor(|plan|, MaxLines(plan), Max(|before|, |after|))
  }

  function MaxLines(plan: seq<HunkPlan>): (m: nat)
    ensures forall k :: 0 <= k < |plan| ==> |plan[k].lines| <= m
  {
    if plan == [] then 0
    else
      var rest := MaxLines(plan[1..]);
      assert forall k :: 0 < k < |plan| ==> plan[k] == plan[1..][k - 1];
      Max(|plan[0].lines|, rest)
  }

  /** Size of the empty page with the worst cursor, as `build_page` measures it. */
  function BaseEmpty(frame: Frame, plan: seq<HunkPlan>, before: Text, after: Text): nat {
    ResultLen(frame, Unavailable, false, false, [], Some(WorstCursor(plan, before, after)))
  }

  /** The start positions `build_page` accepts. */
  predicate Accepted(plan: seq<HunkPlan>, c: Cursor) {
    && c.hunk <= |plan|
    && (c.hunk == |plan| ==> c.line == 0 && c.offset == 0)
    && (c.hunk < |plan| ==> c.line < |plan[c.hunk].lines|)
  }

  /** Both sides of a page: what it shows, and where the next one goes on. */
  ghost predicate Continues(plan: seq<HunkPlan>, before: Text, after: Text, start: Cursor, page: Page) {
    && Rest(plan, before, after, start)
       == PageTags(page.hunks) + (if page.next.Some? then Rest(plan, before, after, page.next.value) else [])
    && (page.complete <==> page.next.None?)
    && (page.next.Some? ==>
          page.hunks != [] && Precedes(start, page.next.value) && Resumable(plan, before, after, page.next.value))
    && Packed(page.hunks)
  }

  /** The page loop's state. */
  ghost predicate Building(plan: seq<HunkPlan>, before: Text, after: Text, start: Cursor, pos: Cursor, page: seq<DiffHunk>) {
    && Rest(plan, before, after, start) == PageTags(page) + Rest(plan, before, after, pos)
    && Packed(page) && pos.hunk <= |plan|
    && (pos == start || Precedes(start, pos)) && (page != [] ==> Precedes(start, pos))
  }

  lemma BuildingSkips(plan: seq<HunkPlan>, before: Text, after: Text, start: Cursor, pos: Cursor, page: seq<DiffHunk>, next: Cursor)
    requires Building(plan, before, after, start, pos, page) && pos.hunk < |plan|
    requires if pos.line >= |plan[pos.hunk].lines| then next == Cursor(pos.hunk + 1, 0, 0)
             else next == Cursor(pos.hunk, pos.line + 1, 0) && pos.offset == plan[pos.hunk].lines[pos.line].byteLen
    ensures Building(plan, before, after, start, next, page)
  {
    hide PageTags, Packed, Rest, LineRest;
    RestStep(plan, before, after, pos);
    if pos.line < |plan[pos.hunk].lines| {
      LineRestSplit(plan[pos.hunk], plan[pos.hunk].lines[pos.line], before, after, pos.offset, pos.offset);
      ConcatNothing(Rest(plan, before, after, next));
    }
  }

  lemma RestStep(plan: seq<HunkPlan>, before: Text, after: Text, c: Cursor)
    requires c.hunk < |plan|
    ensures var h := plan[c.hunk];
            Rest(plan, before, after, c)
            == if c.line >= |h.lines| then Rest(plan, before, after, Cursor(c.hunk + 1, 0, 0))
               else LineRest(h, h.lines[c.line], before, after, c.offset) + Rest(plan, before, after, Cursor(c.hunk, c.line + 1, 0))
  {
    hide LineRest;
  }

  /** What is left of a line splits at any offset into a fragment and the rest. */
  lemma LineRestSplit(h: HunkPlan, line: LinePlan, before: Text, after: Text, from: nat, to: nat)
    requires from <= to <= line.byteLen
    ensures InRange(line, before, after) ==>
              LineRest(h, line, before, after, from)
              == LineTags(PlanHeader(h), Fragment(line, from, LineBytes(line, before, after)[from..to]))
                 + LineRest(h, line, before, after, to)
    ensures to == line.byteLen ==> LineRest(h, line, before, after, to) == []
  {}

  lemma BuildingEmits(plan: seq<HunkPlan>, before: Text, after: Text, start: Cursor, pos: Cursor, page: seq<DiffHunk>,
                      part: nat, longer: seq<DiffHunk>)
    requires Building(plan, before, after, start, pos, page)
    requires pos.hunk < |plan| && pos.line < |plan[pos.hunk].lines| && part > 0
    requires var line := plan[pos.hunk].lines[pos.line];
             && InRange(line, before, after) && pos.offset + part <= line.byteLen && Packed(longer)
             && PageTags(longer) == PageTags(page)
                  + LineTags(PlanHeader(plan[pos.hunk]), Fragment(line, pos.offset, LineBytes(line, before, after)[pos.offset..pos.offset + part]))
    ensures var line := plan[pos.hunk].lines[pos.line];
            var next := if pos.offset + part == line.byteLen then Cursor(pos.hunk, pos.line + 1, 0) else pos.(offset := pos.offset + part);
            Building(plan, before, after, start, next, longer) && Precedes(start, next)
  {
    hide PageTags, Packed, Rest, LineRest, LineTags;
    var h, line := plan[pos.hunk], plan[pos.hunk].lines[pos.line];
    var bytes := LineBytes(line, before, after);
    var end := pos.offset + part;
    var shown := LineTags(PlanHeader(h), Fragment(line, pos.offset, bytes[pos.offset..end]));
    var left := LineRest(h, line, before, after, end);
    var tail := Rest(plan, before, after, Cursor(pos.hunk, pos.line + 1, 0));
    hide LineBytes, Fragment, PlanHeader;
    RestStep(plan, before, after, pos);
    RestStep(plan, before, after, pos.(offset := end));
    LineRestSplit(h, line, before, after, pos.offset, end);
    ConcatAssoc(shown, left, tail);
    ConcatAssoc(PageTags(page), shown, left + tail);
    ConcatNothing(tail);
  }

  /** The place behind a finished hunk or line. */
  function Passed(plan: seq<HunkPlan>, c: Cursor): (r: Option<Cursor>)
    ensures r.None? && c.hunk < |plan| ==> c.line < |plan[c.hunk].lines|
    ensures r.Some? ==> c.hunk < |plan| && (c.hunk < r.value.hunk || (r.value.hunk == c.hunk && c.line < r.value.line <= |plan[c.hunk].lines|))
  {
    if c.hunk >= |plan| then None
    else if c.line >= |plan[c.hunk].lines| then Some(Cursor(c.hunk + 1, 0, 0))
    else if c.offset == plan[c.hunk].lines[c.line].byteLen then Some(Cursor(c.hunk, c.line + 1, 0))
    else None
  }

  /** Where a start leads once lines already complete are passed. */
  function Settle(plan: seq<HunkPlan>, c: Cursor): (r: Cursor)
    ensures r.hunk < |plan| ==> r.line < |plan[r.hunk].lines|
    decreases |plan| - c.hunk, if c.hunk < |plan| then |plan[c.hunk].lines| - c.line else 0
  {
    if Passed(plan, c).Some? then Settle(plan, Passed(plan, c).value) else c
  }

  predicate OffBoundary(line: LinePlan, before: Text, after: Text, offset: nat) {
    offset > line.byteLen || !IsBoundary(LineBytes(line, before, after), offset)
  }

  /** At this place a page could not even begin: the offset is no boundary of its line, or
      neither the rest of the line nor its last probe fits on a page of its own. */
  predicate NoPlace(baseEmpty: nat, maxBytes: nat, plan: seq<HunkPlan>, before: Text, after: Text, c: Cursor)
    requires c.hunk < |plan| && c.line < |plan[c.hunk].lines|
  {
    var line := plan[c.hunk].lines[c.line];
    || OffBoundary(line, before, after, c.offset)
    || Cramped(baseEmpty, maxBytes, AloneOnPage(plan[c.hunk]), line, c.offset, RestText(line, before, after, c.offset))
  }

  /** The starts a page is refused for. */
  predicate Rejects(baseEmpty: nat, maxBytes: nat, plan: seq<HunkPlan>, before: Text, after: Text, start: Cursor) {
    || !Accepted(plan, start)
    || (var c := Settle(plan, start); c.hunk < |plan| && NoPlace(baseEmpty, maxBytes, plan, before, after, c))
  }

  /** Why a page ends before the plan does: nothing of the next line fits, or its last
      fragment is at least about half of what would have fitted. */
  ghost predicate Full(baseEmpty: nat, maxBytes: nat, plan: seq<HunkPlan>, before: Text, after: Text, page: seq<DiffHunk>, c: Cursor)
    requires c.hunk < |plan| && c.line < |plan[c.hunk].lines|
  {
    var h, line := plan[c.hunk], plan[c.hunk].lines[c.line];
    || Stuck(baseEmpty, maxBytes, page, h, line, c.offset, RestText(line, before, after, c.offset))
    || exists part: nat :: part <= c.offset && FilledUpTo(baseEmpty, maxBytes, page, h, line, before, after, c.offset, part)
  }

  ghost predicate FilledUpTo(baseEmpty: nat, maxBytes: nat, page: seq<DiffHunk>, h: HunkPlan, line: LinePlan, before: Text, after: Text, end: nat, part: nat)
    requires part <= end
  {
    WellFilled(baseEmpty, maxBytes, page, h, line, end - part, RestText(line, before, after, end - part), part)
  }

  lemma FullInside(baseEmpty: nat, maxBytes: nat, plan: seq<HunkPlan>, before: Text, after: Text, page: seq<DiffHunk>, c: Cursor, part: nat)
    requires c.hunk < |plan| && c.line < |plan[c.hunk].lines| && part <= c.offset
    requires var h, line := plan[c.hunk], plan[c.hunk].lines[c.line];
             WellFilled(baseEmpty, maxBytes, page, h, line, c.offset - part, RestText(line, before, after, c.offset - part), part)
    ensures Full(baseEmpty, maxBytes, plan, before, after, page, c)
  {
    hide WellFilled, Stuck;
    var h, line := plan[c.hunk], plan[c.hunk].lines[c.line];
    assert FilledUpTo(baseEmpty, maxBytes, page, h, line, before, after, c.offset, part);
  }

  lemma SettledStart(baseEmpty: nat, maxBytes: nat, plan: seq<HunkPlan>, before: Text, after: Text, start: Cursor, pos: Cursor)
    requires Accepted(plan, start) && Settle(plan, start) == Settle(plan, pos)
    requires pos.hunk < |plan| && pos.line < |plan[pos.hunk].lines| && pos.offset != plan[pos.hunk].lines[pos.line].byteLen
    ensures Rejects(baseEmpty, maxBytes, plan, before, after, start) <==> NoPlace(baseEmpty, maxBytes, plan, before, after, pos)
  {
    hide NoPlace;
  }

  lemma SettledEnd(baseEmpty: nat, maxBytes: nat, plan: seq<HunkPlan>, before: Text, after: Text, start: Cursor, pos: Cursor)
    requires Accepted(plan, start) && Settle(plan, start) == Settle(plan, pos) && pos.hunk >= |plan|
    ensures !Rejects(baseEmpty, maxBytes, plan, before, after, start)
  {
    hide NoPlace;
  }

  lemma PassedShowsNothing(plan: seq<HunkPlan>, before: Text, after: Text, c: Cursor)
    requires c.hunk < |plan|
    ensures var next := Passed(plan, c);
            if next.Some? then Rest(plan, before, after, next.value) == Rest(plan, before, after, c)
            else c.line < |plan[c.hunk].lines| && c.offset != plan[c.hunk].lines[c.line].byteLen
  {
    RestStep(plan, before, after, c);
    hide Rest, LineRest;
    if c.line < |plan[c.hunk].lines| && c.offset == plan[c.hunk].lines[c.line].byteLen {
      LineRestSplit(plan[c.hunk], plan[c.hunk].lines[c.line], before, after, c.offset, c.offset);
      ConcatNothing(Rest(plan, before, after, Cursor(c.hunk, c.line + 1, 0)));
    }
  }

  /** Settling passes no byte and stops only at the end of the plan or inside a line. */
  lemma {:induction false} SettleFindsTheNextByte(plan: seq<HunkPlan>, before: Text, after: Text, c: Cursor)
    ensures var r := Settle(plan, c);
            && Rest(plan, before, after, r) == Rest(plan, before, after, c)
            && (r.hunk < |plan| ==> r.line < |plan[r.hunk].lines| && r.offset != plan[r.hunk].lines[r.line].byteLen)
    decreases |plan| - c.hunk, if c.hunk < |plan| then |plan[c.hunk].lines| - c.line else 0
  {
    hide Rest, Passed;
    if c.hunk < |plan| {
      PassedShowsNothing(plan, before, after, c);
      if Passed(plan, c).Some? {
        SettleFindsTheNextByte(plan, before, after, Passed(plan, c).value);
      }
    } else {
      NothingPassed(plan, c);
    }
  }

  lemma NothingPassed(plan: seq<HunkPlan>, c: Cursor)
    requires c.hunk >= |plan|
    ensures Passed(plan, c).None?
  {}

  lemma SettleSkips(plan: seq<HunkPlan>, pos: Cursor, next: Cursor)
    requires pos.hunk < |plan|
    requires if pos.line >= |plan[pos.hunk].lines| then next == Cursor(pos.hunk + 1, 0, 0)
             else next == Cursor(pos.hunk, pos.line + 1, 0) && pos.offset == plan[pos.hunk].lines[pos.line].byteLen
    ensures Settle(plan, pos) == Settle(plan, next)
  {
    assert Passed(plan, pos) == Some(next);
    hide Passed;
  }

  /** The emission at a place, put in terms of that place. */
  lemma PlaceDecides(baseEmpty: nat, maxBytes: nat, plan: seq<HunkPlan>, before: Text, after: Text, pos: Cursor, r: Result<Option<nat>, PageError>)
    requires pos.hunk < |plan| && pos.line < |plan[pos.hunk].lines|
    requires var h, line := plan[pos.hunk], plan[pos.hunk].lines[pos.line];
             && (r.Ok? ==> pos.offset <= line.byteLen && IsBoundary(LineBytes(line, before, after), pos.offset))
             && (r.Ok? ==> (r.value.None? <==> Cramped(baseEmpty, maxBytes, AloneOnPage(h), line, pos.offset, RestText(line, before, after, pos.offset))))
             && (r.Err? ==> LineError(line, pos.offset, before, after, r.error))
    ensures r == Ok(None) || r == Err(InvalidArguments) ==> NoPlace(baseEmpty, maxBytes, plan, before, after, pos)
    ensures r.Ok? && r.value.Some? ==> !NoPlace(baseEmpty, maxBytes, plan, before, after, pos)
  {
    hide Cramped, RestText, LineOk, IsBoundary, AloneOnPage;
  }

  lemma NoArgumentError(line: LinePlan, before: Text, after: Text)
    ensures !LineError(line, 0, before, after, InvalidArguments)
  {}

  /** `build_page`. */
  method BuildPage(frame: Frame, plan: seq<HunkPlan>, before: Text, after: Text, start: Cursor, maxBytes: nat)
    returns (r: Result<Page, PageError>)
    ensures start.hunk > |plan| || (start.hunk == |plan| && start != Cursor(|plan|, 0, 0)) ==> r == Err(InvalidArguments)
    ensures start.hunk < |plan| && start.line >= |plan[start.hunk].lines| ==> r == Err(InvalidArguments)
    ensures r.Ok? ==> Continues(plan, before, after, start, r.value)
    ensures r.Ok? && r.value.hunks != [] ==> BaseEmpty(frame, plan, before, after) + HunksLen(r.value.hunks) <= maxBytes
    ensures r.Ok? && r.value.next.Some? ==>
              Full(BaseEmpty(frame, plan, before, after), maxBytes, plan, before, after, r.value.hunks, r.value.next.value)
    ensures r == Err(Internal) ==> !PlanOk(plan, before, after)
    ensures r == Err(InvalidArguments) ==> Rejects(BaseEmpty(frame, plan, before, after), maxBytes, plan, before, after, start)
    ensures Rejects(BaseEmpty(frame, plan, before, after), maxBytes, plan, before, after, start) ==> r.Err?
  {
    hide Rest, PageTags, Packed, HunksLen, Building, Valid, BaseEmpty, PlanOk, LineOk, LineTags, EscapedLen, Settle, NoPlace, Rejects, Full, Stuck,
         WellFilled, Cramped, RestText, LineError, Continues, Fragment, LineBytes, IsBoundary;
    if !Accepted(plan, start) {
      assert Rejects(BaseEmpty(frame, plan, before, after), maxBytes, plan, before, after, start) by { NotAccepted(frame, plan, before, after, start, maxBytes); }
      return Err(InvalidArguments);
    }
    ghost var base := BaseEmpty(frame, plan, before, after);
    var meter := new PageMeter(BaseEmpty(frame, plan, before, after), maxBytes);
    var page: seq<DiffHunk> := [];
    var pos := start;
    BuildingStarts(plan, before, after, start);
    while pos.hunk < |plan|
      invariant pos.hunk <= |plan| && Building(plan, before, after, start, pos, page)
      invariant fresh(meter) && meter.Represents(page)
      invariant meter.current.Some? ==> pos.hunk < |plan| && OpenFor(page, plan[pos.hunk])
      invariant meter.baseEmpty == base && meter.maxBytes == maxBytes
      invariant page != [] ==> base + HunksLen(page) <= maxBytes && pos.offset == 0
      invariant page == [] ==> Settle(plan, start) == Settle(plan, pos)
      invariant page != [] ==> !Rejects(base, maxBytes, plan, before, after, start)
      decreases |plan| - pos.hunk, if pos.hunk < |plan| then |plan[pos.hunk].lines| - pos.line else 0
    {
      var h := plan[pos.hunk];
      if pos.line >= |h.lines| {
        BuildingSkips(plan, before, after, start, pos, page, Cursor(pos.hunk + 1, 0, 0));
        SettleSkips(plan, pos, Cursor(pos.hunk + 1, 0, 0));
        meter.FinishHunk(page);
        pos := Cursor(pos.hunk + 1, 0, 0);
        continue;
      }
      var line := h.lines[pos.line];
      if pos.offset == line.byteLen {
        BuildingSkips(plan, before, after, start, pos, page, Cursor(pos.hunk, pos.line + 1, 0));
        SettleSkips(plan, pos, Cursor(pos.hunk, pos.line + 1, 0));
        pos := Cursor(pos.hunk, pos.line + 1, 0);
        continue;
      }
      BuildingIsPacked(plan, before, after, start, pos, page);
      var emitted, longer := EmitLine(meter, h, line, pos.offset, before, after, page);
      if page == [] {
        SettledStart(base, maxBytes, plan, before, after, start, pos);
        PlaceDecides(base, maxBytes, plan, before, after, pos, emitted);
      } else {
        NoArgumentError(line, before, after);
      }
      if emitted.Err? {
        BrokenLine(plan, before, after, pos, emitted.error);
        return Err(emitted.error);
      }
      if emitted.value.None? {
        if page == [] {
          return Err(InvalidArguments);
        }
        BuildingStops(plan, before, after, start, pos, page);
        FullBefore(base, maxBytes, plan, before, after, page, pos);
        return Ok(Page(page, Some(pos), false));
      }
      var part := emitted.value.value;
      BuildingEmits(plan, before, after, start, pos, page, part, longer);
      page := longer;
      if pos.offset + part == line.byteLen {
        pos := Cursor(pos.hunk, pos.line + 1, 0);
      } else {
        pos := pos.(offset := pos.offset + part);
        BuildingStops(plan, before, after, start, pos, page);
        FullInside(base, maxBytes, plan, before, after, page, pos, part);
        return Ok(Page(page, Some(pos), false));
      }
    }
    if page == [] {
      SettledEnd(base, maxBytes, plan, before, after, start, pos);
    }
    BuildingEnds(plan, before, after, start, pos, page);
    return Ok(Page(page, None, true));
  }

  lemma NotAccepted(frame: Frame, plan: seq<HunkPlan>, before: Text, after: Text, start: Cursor, maxBytes: nat)
    requires !Accepted(plan, start)
    ensures Rejects(BaseEmpty(frame, plan, before, after), maxBytes, plan, before, after, start)
  {}

  lemma FullBefore(baseEmpty: nat, maxBytes: nat, plan: seq<HunkPlan>, before: Text, after: Text, page: seq<DiffHunk>, c: Cursor)
    requires c.hunk < |plan| && c.line < |plan[c.hunk].lines|
    requires Stuck(baseEmpty, maxBytes, page, plan[c.hunk], plan[c.hunk].lines[c.line], c.offset,
                   RestText(plan[c.hunk].lines[c.line], before, after, c.offset))
    ensures Full(baseEmpty, maxBytes, plan, before, after, page, c)
  {}

  predicate PlanOk(plan: seq<HunkPlan>, before: Text, after: Text) {
    forall h :: 0 <= h < |plan| ==> forall k :: 0 <= k < |plan[h].lines| ==> LineOk(plan[h].lines[k], before, after)
  }

  lemma BrokenLine(plan: seq<HunkPlan>, before: Text, after: Text, pos: Cursor, e: PageError)
    requires pos.hunk < |plan| && pos.line < |plan[pos.hunk].lines|
    requires LineError(plan[pos.hunk].lines[pos.line], pos.offset, before, after, e)
    ensures e == Internal ==> !PlanOk(plan, before, after)
  {}

  lemma BuildingStarts(plan: seq<HunkPlan>, before: Text, after: Text, start: Cursor)
    requires start.hunk <= |plan|
    ensures Building(plan, before, after, start, start, [])
  {
    assert [] + Rest(plan, before, after, start) == Rest(plan, before, after, start);
  }

  lemma BuildingIsPacked(plan: seq<HunkPlan>, before: Text, after: Text, start: Cursor, pos: Cursor, page: seq<DiffHunk>)
    requires Building(plan, before, after, start, pos, page)
    ensures Packed(page)
  {}

  lemma BuildingStops(plan: seq<HunkPlan>, before: Text, after: Text, start: Cursor, pos: Cursor, page: seq<DiffHunk>)
    requires Building(plan, before, after, start, pos, page) && page != [] && Resumable(plan, before, after, pos)
    ensures Continues(plan, before, after, start, Page(page, Some(pos), false))
  {}

  lemma BuildingEnds(plan: seq<HunkPlan>, before: Text, after: Text, start: Cursor, pos: Cursor, page: seq<DiffHunk>)
    requires Building(plan, before, after, start, pos, page) && pos.hunk == |plan|
    ensures Continues(plan, before, after, start, Page(page, None, true))
  {
    assert Rest(plan, before, after, pos) == [];
  }

  // ----- the finished result and whole readings

  /** Every non-empty page of a tool change passes the final size check: the result
      with its actual cursor, flags and availability is never larger than measured. */
  lemma FinalResultFits(frame: Frame, plan: seq<HunkPlan>, before: Text, after: Text, page: Page, truncated: bool, maxBytes: nat)
    requires BaseEmpty(frame, plan, before, after) + HunksLen(page.hunks) <= maxBytes
    requires page.next.Some? ==> Resumable(plan, before, after, page.next.value)
    ensures ResultLen(frame, if truncated || !page.complete then Partial else Available,
                      page.complete && !truncated, truncated, page.hunks, page.next) <= maxBytes
  {
    hide HunksLen, Digits;
    if page.next.Some? {
      var c, worst := page.next.value, WorstCursor(plan, before, after);
      DigitsMonotone(c.hunk, worst.hunk);
      DigitsMonotone(c.line, worst.line);
      DigitsMonotone(c.offset, worst.offset);
    }
  }

  /** Every emitted cursor is accepted as the start of the next page. */
  lemma ResumableIsAccepted(plan: seq<HunkPlan>, before: Text, after: Text, c: Cursor)
    requires Resumable(plan, before, after, c)
    ensures Accepted(plan, c)
    ensures forall e :: LineError(plan[c.hunk].lines[c.line], c.offset, before, after, e) ==> e == Internal
  {}

  /** Pages read one after another, each from the cursor of the one before. */
  ghost predicate Reading(plan: seq<HunkPlan>, before: Text, after: Text, start: Cursor, pages: seq<Page>)
    decreases |pages|
  {
    pages != [] ==>
      && Continues(plan, before, after, start, pages[0])
      && (|pages| > 1 ==> pages[0].next.Some? && Reading(plan, before, after, pages[0].next.value, pages[1..]))
  }

  function AllTags(pages: seq<Page>): seq<Tagged> {
    if pages == [] then [] else PageTags(pages[0].hunks) + AllTags(pages[1..])
  }

  /** What remains after a reading. */
  ghost function Remaining(plan: seq<HunkPlan>, before: Text, after: Text, pages: seq<Page>): seq<Tagged>
    requires pages != []
  {
    var last := pages[|pages| - 1];
    if last.next.Some? then Rest(plan, before, after, last.next.value) else []
  }

  /** Paging is lossless: whatever the page sizes were, the pages read so far and what
      remains are together every planned byte, each once, in order and at its place. */
  lemma {:induction false} PagingIsLossless(plan: seq<HunkPlan>, before: Text, after: Text, start: Cursor, pages: seq<Page>)
    requires pages != [] && Reading(plan, before, after, start, pages)
    ensures Rest(plan, before, after, start) == AllTags(pages) + Remaining(plan, before, after, pages)
    decreases |pages|
  {
    hide PageTags, Rest, Packed, Resumable;
    if |pages| == 1 {
      assert AllTags(pages[1..]) == [];
      ConcatNothing(PageTags(pages[0].hunks));
    } else {
      PagingIsLossless(plan, before, after, pages[0].next.value, pages[1..]);
      ConcatAssoc(PageTags(pages[0].hunks), AllTags(pages[1..]), Remaining(plan, before, after, pages));
    }
  }

  lemma PackedShowsSomething(hunks: seq<DiffHunk>)
    requires Packed(hunks) && hunks != []
    ensures |PageTags(hunks)| > 0
  {
    var last := hunks[|hunks| - 1];
    var line := last.lines[|last.lines| - 1];
    assert GoodFragment(line);
    assert |LinesTags(HunkHeader(last), last.lines)| >= |LineTags(HunkHeader(last), line)|;
  }

  /** Paging terminates: there are no more incomplete pages than planned bytes. */
  lemma {:induction false} PagingTerminates(plan: seq<HunkPlan>, before: Text, after: Text, start: Cursor, pages: seq<Page>)
    requires pages != [] && Reading(plan, before, after, start, pages)
    ensures |pages| <= |Rest(plan, before, after, start)| + 1
    ensures pages[|pages| - 1].next.Some? ==> |pages| <= |Rest(plan, before, after, start)|
    decreases |pages|
  {
    hide PageTags, Rest, Packed, Resumable;
    if pages[0].next.Some? {
      PackedShowsSomething(pages[0].hunks);
    }
    if |pages| > 1 {
      PagingTerminates(plan, before, after, pages[0].next.value, pages[1..]);
    }
  }

  /** The hunks of a plan, groups without lines left out: every plan built from split,
      well-formed texts is free of the internal errors a page could report. */
  method PlanHunks(groups: seq<seq<DiffOp>>, t: Tables) returns (plan: seq<HunkPlan>, ghost all: seq<HunkPlan>)
    requires forall g :: 0 <= g < |groups| ==> groups[g] != [] && Contiguous(groups[g], t)
    requires TableOk(t.before, t.beforeLines) && TableOk(t.after, t.afterLines)
    ensures PlanOk(plan, t.before, t.after) && forall h :: 0 <= h < |plan| ==> plan[h].lines != []
    ensures |all| == |groups| && forall g :: 0 <= g < |groups| ==> HunkOf(groups[g], all[g], t)
    ensures plan == WithLines(all)
  {
    hide Faithful, TableOk, LineOk, Contiguous, HunkOf;
    plan, all := [], [];
    for g := 0 to |groups|
      invariant PlanOk(plan, t.before, t.after) && forall h :: 0 <= h < |plan| ==> plan[h].lines != []
      invariant |all| == g && forall i :: 0 <= i < g ==> HunkOf(groups[i], all[i], t)
      invariant plan == WithLines(all)
    {
      var hunk := PlanHunk(groups[g], t);
      HunkLinesOk(groups[g], hunk, t);
      if hunk.lines != [] {
        plan := plan + [hunk];
      }
      assert (all + [hunk])[..g] == all;
      all := all + [hunk];
    }
  }

  /** The hunks that show anything. */
  function WithLines(hunks: seq<HunkPlan>): seq<HunkPlan> {
    if hunks == [] then []
    else if hunks[|hunks| - 1].lines == [] then WithLines(hunks[..|hunks| - 1])
    else WithLines(hunks[..|hunks| - 1]) + [hunks[|hunks| - 1]]
  }

  lemma HunkLinesOk(group: seq<DiffOp>, hunk: HunkPlan, t: Tables)
    requires group != [] && HunkOf(group, hunk, t) && TableOk(t.before, t.beforeLines) && TableOk(t.after, t.afterLines)
    ensures forall k :: 0 <= k < |hunk.lines| ==> LineOk(hunk.lines[k], t.before, t.after)
  {
    hide Faithful, TableOk, LineOk;
    forall k | 0 <= k < |hunk.lines| ensures LineOk(hunk.lines[k], t.before, t.after) {
      FaithfulIsOk(hunk.lines[k], t);
    }
  }
}
