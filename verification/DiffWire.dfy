/** The JSON documents of a diff page, and that their sizes are the ones the meter counts. */
module DiffWire {
  import opened Prelude
  import opened Utf8
  import opened Json
  import opened DiffPlan
  import opened DiffPage

  function KindName(kind: LineKind): Text {
    match kind
    case Context => Ascii("context")
    case Added => Ascii("added")
    case Removed => Ascii("removed")
  }

  function IndexField(key: Text, index: Option<nat>): Text {
    if index.Some? then key + Decimal(index.value) else []
  }

  /** One fragment. */
  function LineJson(l: DiffLine): Text {
    Ascii("{\"kind\":\"") + KindName(l.kind) + Ascii("\"")
    + IndexField(Ascii(",\"old_index\":"), l.oldIndex) + IndexField(Ascii(",\"new_index\":"), l.newIndex)
    + Ascii(",\"line_byte_offset\":") + Decimal(l.offset) + Ascii(",\"line_byte_len\":") + Decimal(l.len)
    + Ascii(",\"text\":") + Quoted(l.text) + Ascii(",\"line_complete\":") + Flag(l.complete) + Ascii("}")
  }

  function LineTexts(lines: seq<DiffLine>): seq<Text> {
    seq(|lines|, k requires 0 <= k < |lines| => LineJson(lines[k]))
  }

  function HunkJson(h: DiffHunk): Text {
    Ascii("{\"old_start\":") + Decimal(h.oldStart) + Ascii(",\"old_count\":") + Decimal(h.oldCount)
    + Ascii(",\"new_start\":") + Decimal(h.newStart) + Ascii(",\"new_count\":") + Decimal(h.newCount)
    + Ascii(",\"lines\":[") + Commas(LineTexts(h.lines)) + Ascii("]}")
  }

  function HunkTexts(hunks: seq<DiffHunk>): seq<Text> {
    seq(|hunks|, k requires 0 <= k < |hunks| => HunkJson(hunks[k]))
  }

  function AvailabilityName(a: Availability): Text {
    match a
    case Available => Ascii("available")
    case Partial => Ascii("partial")
    case Unavailable => Ascii("unavailable")
  }

  /** A cursor; `owner` holds the fields that do not move. */
  function CursorJson(owner: Text, c: Cursor): Text {
    owner + Ascii(",\"hunk_index\":") + Decimal(c.hunk) + Ascii(",\"line_index\":") + Decimal(c.line)
    + Ascii(",\"line_byte_offset\":") + Decimal(c.offset) + Ascii("}")
  }

  /** A whole result; `head` holds the fields in front of the availability. */
  function ResultJson(head: Text, owner: Text, a: Availability, complete: bool, truncated: bool, hunks: seq<DiffHunk>, next: Option<Cursor>): Text {
    head + Ascii(",\"availability\":\"") + AvailabilityName(a) + Ascii("\",\"hunks\":[") + Commas(HunkTexts(hunks))
    + Ascii("],\"complete\":") + Flag(complete) + Ascii(",\"truncated\":") + Flag(truncated)
    + (if next.Some? then Ascii(",\"next_cursor\":") + CursorJson(owner, next.value) else []) + Ascii("}")
  }

  /** What the fixed fields contribute. */
  function FrameOf(head: Text, owner: Text): Frame {
    Frame(|head| + |",\"availability\":\"\",\"hunks\":,\"complete\":,\"truncated\":}"|,
          |owner| + |",\"hunk_index\":,\"line_index\":,\"line_byte_offset\":}"|)
  }

  lemma LineSize(l: DiffLine)
    ensures |LineJson(l)| == LineLen(l)
  {
    EscapeReadsBack(l.text);
    hide Escape, EscapedLen, Decimal, Digits, Ascii;
  }

  lemma LineTextsLast(lines: seq<DiffLine>)
    requires lines != []
    ensures LineTexts(lines) == LineTexts(lines[..|lines| - 1]) + [LineJson(lines[|lines| - 1])]
  {
    hide LineJson;
  }

  lemma {:induction false} LinesSize(lines: seq<DiffLine>)
    ensures |Commas(LineTexts(lines))| == LinesLen(lines)
  {
    if lines == [] {
      assert Commas([]) == [];
    } else {
      var init, last := lines[..|lines| - 1], lines[|lines| - 1];
      LinesSize(init);
      LineSize(last);
      hide LineJson, LineLen, Commas;
      LineTextsLast(lines);
      assert LineTexts(init) == [] <==> init == [];
      hide LineTexts;
      CommasSize(LineTexts(init), LineJson(last));
    }
  }

  lemma HunkSize(h: DiffHunk)
    ensures |HunkJson(h)| == HunkLen(h)
  {
    LinesSize(h.lines);
    hide LinesLen, Commas, LineTexts, Decimal, Digits, Ascii;
  }

  lemma HunkTextsLast(hunks: seq<DiffHunk>)
    requires hunks != []
    ensures HunkTexts(hunks) == HunkTexts(hunks[..|hunks| - 1]) + [HunkJson(hunks[|hunks| - 1])]
  {
    hide HunkJson;
  }

  lemma {:induction false} HunksSize(hunks: seq<DiffHunk>)
    ensures |Commas(HunkTexts(hunks))| == HunksLen(hunks)
  {
    if hunks == [] {
      assert Commas([]) == [];
    } else {
      var init, last := hunks[..|hunks| - 1], hunks[|hunks| - 1];
      HunksSize(init);
      HunkSize(last);
      hide HunkJson, HunkLen, Commas;
      HunkTextsLast(hunks);
      assert HunkTexts(init) == [] <==> init == [];
      hide HunkTexts;
      CommasSize(HunkTexts(init), HunkJson(last));
    }
  }

  lemma CursorSize(head: Text, owner: Text, next: Option<Cursor>)
    ensures CursorLen(FrameOf(head, owner), next)
         == if next.Some? then |Ascii(",\"next_cursor\":") + CursorJson(owner, next.value)| else 0
  {
    hide Decimal, Digits, Ascii;
  }

  /** The size a page is budgeted with is the length of the document that is sent. */
  lemma ResultSize(head: Text, owner: Text, a: Availability, complete: bool, truncated: bool, hunks: seq<DiffHunk>, next: Option<Cursor>)
    ensures |ResultJson(head, owner, a, complete, truncated, hunks, next)|
         == ResultLen(FrameOf(head, owner), a, complete, truncated, hunks, next)
  {
    HunksSize(hunks);
    CursorSize(head, owner, next);
    hide HunksLen, Commas, HunkTexts, Ascii, CursorJson, CursorLen;
  }

  /** What a page starts from is the length of the emptiest document with the longest cursor. */
  lemma TemplateSize(head: Text, owner: Text, plan: seq<HunkPlan>, before: Text, after: Text)
    ensures BaseEmpty(FrameOf(head, owner), plan, before, after)
         == |ResultJson(head, owner, Unavailable, false, false, [], Some(WorstCursor(plan, before, after)))|
  {
    hide ResultJson, ResultLen, WorstCursor;
    ResultSize(head, owner, Unavailable, false, false, [], Some(WorstCursor(plan, before, after)));
  }
}
