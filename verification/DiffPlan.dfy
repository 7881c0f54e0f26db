/** Planning a line diff: splitting both sides into lines, trimming equal ends,
    and turning an edit script into hunks of byte-addressed lines. */
module DiffPlan {
  import opened Prelude
  import opened Utf8

  const LF: Byte := 10
  const CR: Byte := 13
  const MAX_MYERS_LINES: nat := 2048

  // ----- lines

  predicate Terminator(b: Byte) { b == LF || b == CR }

  /** Byte length of the first logical line, its terminator included. */
  function FirstLineLen(text: Text): (n: nat)
    ensures n <= |text| && (text != [] ==> n > 0)
  {
    if text == [] then 0
    else if text[0] == LF then 1
    else if text[0] == CR then if |text| > 1 && text[1] == LF then 2 else 1
    else 1 + FirstLineLen(text[1..])
  }

  function Lines(text: Text): seq<Text>
    decreases |text|
  {
    if text == [] then [] else [text[..FirstLineLen(text)]] + Lines(text[FirstLineLen(text)..])
  }

  function Concat(lines: seq<Text>): Text {
    if lines == [] then [] else lines[0] + Concat(lines[1..])
  }

  /** The byte spans of consecutive lines starting at `start`. */
  function Spans(lines: seq<Text>, start: nat): (r: seq<(nat, nat)>)
    ensures |r| == |lines|
  {
    if lines == [] then [] else [(start, |lines[0]|)] + Spans(lines[1..], start + |lines[0]|)
  }

  lemma {:induction false} SpansAppend(a: seq<Text>, b: seq<Text>, start: nat)
    ensures Spans(a + b, start) == Spans(a, start) + Spans(b, start + |Concat(a)|)
  {
    if a == [] {
      assert a + b == b;
    } else {
      var rest, behind := a[1..], start + |a[0]|;
      SuffixOfConcat(a, b, 1);
      assert Spans(a + b, start) == [(start, |a[0]|)] + Spans(rest + b, behind);
      assert Spans(a, start) == [(start, |a[0]|)] + Spans(rest, behind);
      assert Concat(a) == a[0] + Concat(rest);
      hide Spans, Concat;
      SpansAppend(rest, b, behind);
      ConcatAssoc([(start, |a[0]|)], Spans(rest, behind), Spans(b, behind + |Concat(rest)|));
    }
  }

  lemma {:induction false} ConcatAppend(a: seq<Text>, b: seq<Text>)
    ensures Concat(a + b) == Concat(a) + Concat(b)
  {
    if a == [] {
      assert a + b == b;
    } else {
      assert (a + b)[1..] == a[1..] + b;
      ConcatAppend(a[1..], b);
    }
  }

  lemma {:induction false} FirstLineAt(text: Text, k: nat)
    requires k < |text| && Terminator(text[k]) && forall j :: 0 <= j < k ==> !Terminator(text[j])
    ensures FirstLineLen(text) == k + if text[k] == CR && k + 1 < |text| && text[k + 1] == LF then 2 else 1
  {
    if k > 0 {
      FirstLineAt(text[1..], k - 1);
    }
  }

  lemma {:induction false} UnterminatedLine(text: Text)
    requires forall j :: 0 <= j < |text| ==> !Terminator(text[j])
    ensures FirstLineLen(text) == |text|
  {
    if text != [] {
      UnterminatedLine(text[1..]);
    }
  }

  /** The scan's state: `done` lines cover the text up to `start`. */
  ghost predicate Scanned(text: Text, done: seq<Text>, start: nat, spans: seq<(nat, nat)>) {
    && start <= |text|
    && Lines(text) == done + Lines(text[start..])
    && |Concat(done)| == start
    && spans == Spans(done, 0)
  }

  lemma ScanLine(text: Text, done: seq<Text>, start: nat, spans: seq<(nat, nat)>, end: nat)
    requires Scanned(text, done, start, spans) && start < |text| && end == start + FirstLineLen(text[start..])
    ensures end <= |text|
    ensures Scanned(text, done + [text[start..end]], end, spans + [(start, end - start)])
  {
    var rest: Text, line: Text := text[start..], text[start..end];
    assert rest[..end - start] == line && rest[end - start..] == text[end..];
    assert done + ([line] + Lines(text[end..])) == done + [line] + Lines(text[end..]);
    ConcatAppend(done, [line]);
    assert [line][1..] == [];
    assert Concat([line]) == line;
    SpansAppend(done, [line], 0);
    assert Spans([line], start) == [(start, end - start)];
  }

  /** `split_lines`: the spans of the first lines, one more than `limit` at most; the
      count exceeds `limit` exactly when the text has more lines than that. */
  method SplitLines(text: Text, limit: nat) returns (lines: seq<(nat, nat)>, count: nat)
    ensures count == |lines| == Min(|Lines(text)|, limit + 1)
    ensures lines == Spans(Lines(text)[..count], 0)
    ensures count > limit <==> |Lines(text)| > limit
  {
    hide Scanned, Lines, FirstLineLen;
    lines := [];
    var start, index := 0, 0;
    ghost var done: seq<Text> := [];
    ScanStart(text);
    while index < |text|
      invariant start <= index <= |text| && |lines| == |done| <= limit
      invariant Scanned(text, done, start, lines)
      invariant forall j :: start <= j < index ==> !Terminator(text[j])
      decreases |text| - index
    {
      if text[index] == LF || text[index] == CR {
        FirstLineAt(text[start..], index - start);
        var cr := text[index] == CR;
        index := index + 1;
        if cr && index < |text| && text[index] == LF {
          index := index + 1;
        }
        ScanLine(text, done, start, lines, index);
        lines := lines + [(start, index - start)];
        done := done + [text[start..index]];
        start := index;
        if |lines| > limit {
          ScanStop(text, done, start, lines);
          return lines, |lines|;
        }
      } else {
        index := index + 1;
      }
    }
    if start < |text| {
      UnterminatedLine(text[start..]);
      ScanLine(text, done, start, lines, |text|);
      lines := lines + [(start, |text| - start)];
      done := done + [text[start..|text|]];
      start := |text|;
    }
    ScanStop(text, done, start, lines);
    count := |lines|;
  }

  lemma ScanStart(text: Text)
    ensures Scanned(text, [], 0, [])
  {
    assert text[0..] == text;
    assert [] + Lines(text) == Lines(text);
  }

  lemma ScanStop(text: Text, done: seq<Text>, start: nat, spans: seq<(nat, nat)>)
    requires Scanned(text, done, start, spans)
    ensures |done| <= |Lines(text)| && Lines(text)[..|done|] == done && spans == Spans(done, 0) && |spans| == |done|
    ensures start == |text| ==> |Lines(text)| == |done|
  {
    if start == |text| {
      assert Lines(text[start..]) == [];
    }
  }

  /** The lines tile the text. */
  lemma {:induction false} LinesTile(text: Text)
    ensures Concat(Lines(text)) == text
    decreases |text|
  {
    if text != [] {
      LinesTile(text[FirstLineLen(text)..]);
      assert Lines(text)[1..] == Lines(text[FirstLineLen(text)..]);
    }
  }

  /** A terminator sits only at the end of its line: a line feed last, a carriage
      return last or just before the closing line feed. */
  predicate ProperLine(line: Text) { line != [] && forall k :: 0 <= k < |line| - 1 ==> ProperAt(line, k) }

  predicate ProperAt(line: Text, k: nat)
    requires k < |line|
  {
    line[k] != LF && (line[k] == CR ==> k == |line| - 2 && line[k + 1] == LF)
  }

  lemma {:induction false} FirstLineIsProper(text: Text)
    requires text != []
    ensures ProperLine(text[..FirstLineLen(text)])
    ensures var n := FirstLineLen(text);
            n < |text| ==> Terminator(text[n - 1]) && !(text[n - 1] == CR && text[n] == LF)
  {
    if !Terminator(text[0]) && |text| > 1 {
      FirstLineIsProper(text[1..]);
      var n := FirstLineLen(text);
      var line, rest := text[..n], text[1..][..n - 1];
      forall k | 0 <= k < n - 1 ensures ProperAt(line, k) {
        if k > 0 {
          assert ProperAt(rest, k - 1);
          assert line[k] == rest[k - 1] && line[k + 1] == rest[k];
        }
      }
    }
  }

  /** Neighbouring lines: the first is terminated and no line break pair is split. */
  predicate ProperJoint(a: Text, b: Text) {
    && a != [] && b != []
    && Terminator(a[|a| - 1])
    && !(a[|a| - 1] == CR && b[0] == LF)
  }

  /** Every line is proper, every line but the last is terminated, and no line break
      pair is split between two lines. */
  lemma {:induction false} LinesAreProper(text: Text)
    ensures forall k :: 0 <= k < |Lines(text)| ==> ProperLine(Lines(text)[k])
    ensures forall j, k :: 0 <= j && j + 1 == k < |Lines(text)| ==> ProperJoint(Lines(text)[j], Lines(text)[k])
    decreases |text|
  {
    if text != [] {
      hide ProperLine, ProperJoint, FirstLineLen;
      var n := FirstLineLen(text);
      var lines, rest := Lines(text), Lines(text[n..]);
      FirstLineIsProper(text);
      LinesAreProper(text[n..]);
      forall k | 0 <= k < |lines| ensures ProperLine(lines[k]) {
        if k > 0 { assert lines[k] == rest[k - 1]; }
      }
      forall j, k | 0 <= j && j + 1 == k < |lines| ensures ProperJoint(lines[j], lines[k]) {
        if j > 0 {
          assert lines[j] == rest[j - 1] && lines[k] == rest[k - 1];
        } else {
          FirstJoint(text);
        }
      }
    }
  }

  lemma FirstJoint(text: Text)
    requires text != [] && FirstLineLen(text) < |text|
    ensures |Lines(text)| > 1 && ProperJoint(Lines(text)[0], Lines(text)[1])
  {
    var n := FirstLineLen(text);
    FirstLineIsProper(text);
    var rest := text[n..];
    assert Lines(rest) == [rest[..FirstLineLen(rest)]] + Lines(rest[FirstLineLen(rest)..]);
    assert Lines(text) == [text[..n]] + Lines(rest);
    assert Lines(text)[1][0] == text[n];
  }

  /** A line of a well-formed text is well formed. */
  lemma {:induction false} LinesAreValid(text: Text)
    requires Valid(text)
    ensures forall k :: 0 <= k < |Lines(text)| ==> Valid(Lines(text)[k])
    decreases |text|
  {
    if text != [] {
      var n := FirstLineLen(text);
      FirstLineIsProper(text);
      BoundaryAfterAscii(text, n);
      SplitValid(text, n);
      LinesAreValid(text[n..]);
    }
  }

  lemma {:induction false} BoundaryAfterAscii(text: Text, n: nat)
    requires Valid(text) && 0 < n <= |text| && (n == |text| || text[n - 1] < 0x80)
    ensures IsBoundary(text, n)
    decreases |text|
  {
    var c := CharLen(text);
    if n > c {
      BoundaryAfterAscii(text[c..], n - c);
      assert text[c..][n - c - 1] == text[n - 1];
      if n < |text| { assert text[c..][n - c] == text[n]; }
    } else if n == c {
      CharEndIsBoundary(text);
    }
  }

  lemma {:induction false} SpanIsLine(lines: seq<Text>, start: nat, k: nat)
    requires k < |lines|
    ensures var span := Spans(lines, start)[k];
            && span.1 == |lines[k]| && start <= span.0 && span.0 + span.1 <= start + |Concat(lines)|
            && Concat(lines)[span.0 - start..span.0 - start + span.1] == lines[k]
  {
    var first, rest := lines[0], lines[1..];
    var behind := start + |first|;
    assert Concat(lines) == first + Concat(rest);
    assert Spans(lines, start) == [(start, |first|)] + Spans(rest, behind);
    hide Spans, Concat;
    if k > 0 {
      SpanIsLine(rest, behind, k - 1);
      var span := Spans(rest, behind)[k - 1];
      assert Spans(lines, start)[k] == span;
      SliceBehind(first, Concat(rest), span.0 - behind, span.0 - behind + span.1);
    }
  }

  // ----- trimming and the edit script

  /** Length of the longest common prefix. */
  function CommonPrefix<T(==)>(a: seq<T>, b: seq<T>): (n: nat)
    ensures n <= |a| && n <= |b| && a[..n] == b[..n]
    ensures n < |a| && n < |b| ==> a[n] != b[n]
  {
    if a == [] || b == [] || a[0] != b[0] then 0
    else
      var n := CommonPrefix(a[1..], b[1..]);
      assert a[..n + 1] == [a[0]] + a[1..][..n] && b[..n + 1] == [b[0]] + b[1..][..n];
      n + 1
  }

  /** Length of the longest common suffix. */
  function CommonSuffix<T(==)>(a: seq<T>, b: seq<T>): (n: nat)
    ensures n <= |a| && n <= |b|
  {
    if a == [] || b == [] || a[|a| - 1] != b[|b| - 1] then 0
    else 1 + CommonSuffix(a[..|a| - 1], b[..|b| - 1])
  }

  /** The `k`-th element counted from the end. */
  function FromEnd<T>(a: seq<T>, k: nat): T
    requires k < |a|
  {
    a[|a| - 1 - k]
  }

  lemma {:induction false} SuffixIsCommon<T>(a: seq<T>, b: seq<T>)
    ensures var n := CommonSuffix(a, b);
            && (forall k :: 0 <= k < n ==> FromEnd(a, k) == FromEnd(b, k))
            && (n < |a| && n < |b| ==> FromEnd(a, n) != FromEnd(b, n))
  {
    var n := CommonSuffix(a, b);
    if n > 0 {
      var a', b' := a[..|a| - 1], b[..|b| - 1];
      SuffixIsCommon(a', b');
      forall k | 0 <= k < n ensures FromEnd(a, k) == FromEnd(b, k) {
        if k > 0 {
          assert FromEnd(a', k - 1) == FromEnd(b', k - 1);
        }
      }
    }
  }

  /** `take_while(|(a, b)| a == b).count()` over the zipped lines. */
  method CountEqualPrefix<T(==)>(a: seq<T>, b: seq<T>) returns (n: nat)
    ensures n == CommonPrefix(a, b)
  {
    n := 0;
    while n < |a| && n < |b| && a[n] == b[n]
      invariant n <= |a| && n <= |b| && CommonPrefix(a, b) == n + CommonPrefix(a[n..], b[n..])
    {
      assert a[n..][1..] == a[n + 1..] && b[n..][1..] == b[n + 1..];
      n := n + 1;
    }
  }

  method CountEqualSuffix<T(==)>(a: seq<T>, b: seq<T>) returns (n: nat)
    ensures n == CommonSuffix(a, b)
  {
    n := 0;
    assert a[..|a|] == a && b[..|b|] == b;
    while n < |a| && n < |b| && a[|a| - 1 - n] == b[|b| - 1 - n]
      invariant n <= |a| && n <= |b| && CommonSuffix(a, b) == n + CommonSuffix(a[..|a| - n], b[..|b| - n])
    {
      assert a[..|a| - n][..|a| - n - 1] == a[..|a| - n - 1] && b[..|b| - n][..|b| - n - 1] == b[..|b| - n - 1];
      n := n + 1;
    }
  }

  datatype OpTag = Equal | Delete | Insert | Replace

  /** One edit operation: a run of old lines against a run of new ones. */
  datatype DiffOp = DiffOp(tag: OpTag, oldIndex: nat, oldLen: nat, newIndex: nat, newLen: nat) {
    function OldEnd(): nat { oldIndex + oldLen }
    function NewEnd(): nat { newIndex + newLen }
  }

  /** An operation inside both sides whose equal runs are equal. */
  predicate OpOk<T(==)>(op: DiffOp, before: seq<T>, after: seq<T>) {
    && op.OldEnd() <= |before| && op.NewEnd() <= |after|
    && (op.tag.Equal? ==> before[op.oldIndex..op.OldEnd()] == after[op.newIndex..op.NewEnd()])
  }

  predicate Adjacent(a: DiffOp, b: DiffOp) { b.oldIndex == a.OldEnd() && b.newIndex == a.NewEnd() }

  /** The operations step from one pair of positions to another without gap or overlap. */
  ghost predicate Script<T>(ops: seq<DiffOp>, before: seq<T>, after: seq<T>, o: nat, oEnd: nat, n: nat, nEnd: nat) {
    && (forall k :: 0 <= k < |ops| ==> OpOk(ops[k], before, after))
    && (forall j, k :: 0 <= j && j + 1 == k < |ops| ==> Adjacent(ops[j], ops[k]))
    && if ops == [] then o == oEnd && n == nEnd
       else && ops[0].oldIndex == o && ops[0].newIndex == n
            && ops[|ops| - 1].OldEnd() == oEnd && ops[|ops| - 1].NewEnd() == nEnd
  }

  lemma ScriptAppend<T>(a: seq<DiffOp>, b: seq<DiffOp>, before: seq<T>, after: seq<T>,
                        o: nat, oMid: nat, oEnd: nat, n: nat, nMid: nat, nEnd: nat)
    requires Script(a, before, after, o, oMid, n, nMid) && Script(b, before, after, oMid, oEnd, nMid, nEnd)
    ensures Script(a + b, before, after, o, oEnd, n, nEnd)
  {
    hide OpOk;
    var ops := a + b;
    forall j, k | 0 <= j && j + 1 == k < |ops| ensures Adjacent(ops[j], ops[k]) {
      if k < |a| {
        assert Adjacent(a[j], a[k]);
      } else if j >= |a| {
        assert Adjacent(b[j - |a|], b[k - |a|]);
      }
    }
  }

  /** Applying a script to the old lines, taking inserted lines from the new side. */
  function Replay<T(==)>(ops: seq<DiffOp>, before: seq<T>, after: seq<T>): seq<T>
    requires forall k :: 0 <= k < |ops| ==> OpOk(ops[k], before, after)
  {
    if ops == [] then []
    else
      var op := ops[0];
      assert OpOk(op, before, after);
      (if op.tag.Equal? then before[op.oldIndex..op.OldEnd()] else after[op.newIndex..op.NewEnd()])
      + Replay(ops[1..], before, after)
  }

  /** A script is its first operation and a script from there. */
  lemma ScriptTail<T>(ops: seq<DiffOp>, before: seq<T>, after: seq<T>, o: nat, oEnd: nat, n: nat, nEnd: nat)
    requires ops != [] && Script(ops, before, after, o, oEnd, n, nEnd)
    ensures OpOk(ops[0], before, after) && ops[0].oldIndex == o && ops[0].newIndex == n
    ensures Script(ops[1..], before, after, ops[0].OldEnd(), oEnd, ops[0].NewEnd(), nEnd)
  {
    hide OpOk;
    var rest := ops[1..];
    assert rest != [] ==> Adjacent(ops[0], ops[1]);
    forall j, k | 0 <= j && j + 1 == k < |rest| ensures Adjacent(rest[j], rest[k]) {
      assert Adjacent(ops[j + 1], ops[k + 1]);
    }
  }

  /** A script replays the old lines into the new ones over its range. */
  lemma {:induction false} ScriptReplays<T>(ops: seq<DiffOp>, before: seq<T>, after: seq<T>, o: nat, oEnd: nat, n: nat, nEnd: nat)
    requires Script(ops, before, after, o, oEnd, n, nEnd) && n <= |after|
    ensures n <= nEnd <= |after| && o <= oEnd && Replay(ops, before, after) == after[n..nEnd]
  {
    if ops != [] {
      var op, rest := ops[0], ops[1..];
      ScriptTail(ops, before, after, o, oEnd, n, nEnd);
      ScriptReplays(rest, before, after, op.OldEnd(), oEnd, op.NewEnd(), nEnd);
      assert after[n..nEnd] == after[n..op.NewEnd()] + after[op.NewEnd()..nEnd];
    }
  }

  /** An equal run, left out when empty. */
  function EqualRun(o: nat, n: nat, len: nat): seq<DiffOp> { if len > 0 then [DiffOp(Equal, o, len, n, len)] else [] }

  /** Lines of both sides left between the equal ends. */
  function MiddleLines<T(==)>(before: seq<T>, after: seq<T>): nat {
    var prefix := CommonPrefix(before, after);
    var suffix := CommonSuffix(before[prefix..], after[prefix..]);
    |before| - prefix - suffix + (|after| - prefix - suffix)
  }

  /** The external differ's contract: a script for exactly the trimmed middle. */
  ghost predicate MiddleScript<T>(before: seq<T>, after: seq<T>, myers: seq<DiffOp>) {
    var prefix := CommonPrefix(before, after);
    var suffix := CommonSuffix(before[prefix..], after[prefix..]);
    Script(myers, before, after, prefix, |before| - suffix, prefix, |after| - suffix)
  }

  /** The equal start found by trimming is an equal run. */
  lemma PrefixRun<T>(before: seq<T>, after: seq<T>, prefix: nat)
    requires prefix == CommonPrefix(before, after)
    ensures Script(EqualRun(0, 0, prefix), before, after, 0, prefix, 0, prefix)
  {
    hide Script, EqualRun, CommonPrefix;
    assert before[0..prefix] == before[..prefix] && after[0..prefix] == after[..prefix];
    EqualIsScript(before, after, 0, prefix, 0, prefix);
  }

  /** So is the equal end, and the two never overlap. */
  lemma SuffixRun<T>(before: seq<T>, after: seq<T>, prefix: nat, suffix: nat, o: nat, n: nat)
    requires prefix <= |before| && prefix <= |after| && suffix == CommonSuffix(before[prefix..], after[prefix..])
    requires o + suffix == |before| && n + suffix == |after|
    ensures prefix <= o && prefix <= n && Script(EqualRun(o, n, suffix), before, after, o, |before|, n, |after|)
  {
    hide Script, EqualRun, CommonSuffix;
    SuffixEnds(before, after, prefix, suffix);
    EqualIsScript(before, after, o, |before|, n, |after|);
  }

  lemma SuffixEnds<T>(before: seq<T>, after: seq<T>, prefix: nat, suffix: nat)
    requires prefix <= |before| && prefix <= |after| && suffix == CommonSuffix(before[prefix..], after[prefix..])
    ensures prefix + suffix <= |before| && prefix + suffix <= |after|
    ensures before[|before| - suffix..|before|] == after[|after| - suffix..|after|]
  {
    hide CommonSuffix;
    var a, b := before[prefix..], after[prefix..];
    var o, n := |before| - suffix, |after| - suffix;
    SuffixIsCommon(a, b);
    var x, y := before[o..|before|], after[n..|after|];
    forall i | 0 <= i < suffix ensures x[i] == y[i] {
      assert x[i] == FromEnd(a, suffix - 1 - i) && y[i] == FromEnd(b, suffix - 1 - i);
    }
  }

  lemma EqualIsScript<T>(before: seq<T>, after: seq<T>, o: nat, oEnd: nat, n: nat, nEnd: nat)
    requires o <= oEnd <= |before| && n <= nEnd <= |after| && before[o..oEnd] == after[n..nEnd]
    ensures Script(EqualRun(o, n, oEnd - o), before, after, o, oEnd, n, nEnd)
  {
    assert |before[o..oEnd]| == |after[n..nEnd]|;
    assert oEnd > o ==> OpOk(DiffOp(Equal, o, oEnd - o, n, nEnd - n), before, after);
  }

  /** The middle between equal ends, replaced as a whole. */
  function ReplaceMiddle<T(==)>(before: seq<T>, after: seq<T>): seq<DiffOp> {
    var prefix := CommonPrefix(before, after);
    var suffix := CommonSuffix(before[prefix..], after[prefix..]);
    [DiffOp(Replace, prefix, |before| - prefix - suffix, prefix, |after| - prefix - suffix)]
  }

  /** The longest equal start, the middle, and the longest equal end behind it. */
  function Trimmed<T(==)>(before: seq<T>, after: seq<T>, middle: seq<DiffOp>): seq<DiffOp> {
    var prefix := CommonPrefix(before, after);
    var suffix := CommonSuffix(before[prefix..], after[prefix..]);
    EqualRun(0, 0, prefix) + middle + EqualRun(|before| - suffix, |after| - suffix, suffix)
  }

  /** The op list of `plan_diff`. `myers` is what the external line differ returns for
      the trimmed middle; it is only used when the middle is small enough. */
  method PlanOps<T(==)>(before: seq<T>, after: seq<T>, myers: seq<DiffOp>) returns (ops: seq<DiffOp>)
    requires MiddleLines(before, after) <= MAX_MYERS_LINES ==> MiddleScript(before, after, myers)
    ensures Script(ops, before, after, 0, |before|, 0, |after|)
    ensures (forall k :: 0 <= k < |ops| ==> OpOk(ops[k], before, after)) && Replay(ops, before, after) == after
    ensures ops == Trimmed(before, after, if MiddleLines(before, after) > MAX_MYERS_LINES then ReplaceMiddle(before, after) else myers)
  {
    hide CommonPrefix, CommonSuffix, Replay, EqualRun, Script;
    var prefix := CountEqualPrefix(before, after);
    var suffix := CountEqualSuffix(before[prefix..], after[prefix..]);
    var oldEnd, newEnd := |before| - suffix, |after| - suffix;
    PrefixRun(before, after, prefix);
    SuffixRun(before, after, prefix, suffix, oldEnd, newEnd);
    var replace := oldEnd - prefix + newEnd - prefix > MAX_MYERS_LINES;
    var head := EqualRun(0, 0, prefix);
    var middle := if replace then [DiffOp(Replace, prefix, oldEnd - prefix, prefix, newEnd - prefix)] else myers;
    var tail := EqualRun(oldEnd, newEnd, suffix);
    ReplaceIsScript(before, after, prefix, oldEnd, prefix, newEnd);
    ScriptAppend(head, middle, before, after, 0, prefix, oldEnd, 0, prefix, newEnd);
    ScriptAppend(head + middle, tail, before, after, 0, oldEnd, |before|, 0, newEnd, |after|);
    ops := head + middle + tail;
    WholeScript(ops, before, after);
  }

  lemma ReplaceIsScript<T>(before: seq<T>, after: seq<T>, o: nat, oEnd: nat, n: nat, nEnd: nat)
    requires o <= oEnd <= |before| && n <= nEnd <= |after|
    ensures Script([DiffOp(Replace, o, oEnd - o, n, nEnd - n)], before, after, o, oEnd, n, nEnd)
  {}

  lemma WholeScript<T>(ops: seq<DiffOp>, before: seq<T>, after: seq<T>)
    requires Script(ops, before, after, 0, |before|, 0, |after|)
    ensures forall k :: 0 <= k < |ops| ==> OpOk(ops[k], before, after)
    ensures Replay(ops, before, after) == after
  {
    hide Replay;
    ScriptReplays(ops, before, after, 0, |before|, 0, |after|);
    assert after[0..|after|] == after;
  }

  // ----- hunks

  datatype LineKind = Context | Added | Removed
  datatype LineSource = Before | After

  datatype LinePlan = LinePlan(kind: LineKind, oldIndex: Option<nat>, newIndex: Option<nat>, source: LineSource,
                               byteStart: nat, byteLen: nat)

  datatype HunkPlan = HunkPlan(oldStart: nat, oldCount: nat, newStart: nat, newCount: nat, lines: seq<LinePlan>)

  function Side(source: LineSource, before: Text, after: Text): Text { if source.Before? then before else after }

  /** The line addresses a well-formed stretch of its source. */
  predicate LineOk(line: LinePlan, before: Text, after: Text) {
    var side := Side(line.source, before, after);
    line.byteStart + line.byteLen <= |side| && Valid(side[line.byteStart..line.byteStart + line.byteLen])
  }

  function OldIndexes(lines: seq<LinePlan>): seq<nat> {
    if lines == [] then []
    else if lines[0].oldIndex.Some? then [lines[0].oldIndex.value] + OldIndexes(lines[1..])
    else OldIndexes(lines[1..])
  }

  function NewIndexes(lines: seq<LinePlan>): seq<nat> {
    if lines == [] then []
    else if lines[0].newIndex.Some? then [lines[0].newIndex.value] + NewIndexes(lines[1..])
    else NewIndexes(lines[1..])
  }

  function Interval(from: nat, to: nat): seq<nat>
    requires from <= to
  {
    seq(to - from, i requires 0 <= i < to - from => from + i)
  }

  lemma IntervalJoins(a: nat, b: nat, c: nat)
    requires a <= b <= c
    ensures Interval(a, b) + Interval(b, c) == Interval(a, c)
    ensures b < c ==> Interval(a, b + 1) == Interval(a, b) + [b]
  {}

  lemma {:induction false} IndexesAppend(a: seq<LinePlan>, b: seq<LinePlan>)
    ensures OldIndexes(a + b) == OldIndexes(a) + OldIndexes(b)
    ensures NewIndexes(a + b) == NewIndexes(a) + NewIndexes(b)
  {
    if a == [] {
      assert a + b == b;
    } else {
      assert (a + b)[1..] == a[1..] + b;
      IndexesAppend(a[1..], b);
    }
  }

  /** The line tables of both sides. */
  datatype Tables = Tables(before: Text, after: Text, beforeLines: seq<(nat, nat)>, afterLines: seq<(nat, nat)>)

  predicate TableOk(text: Text, table: seq<(nat, nat)>) {
    forall k :: 0 <= k < |table| ==>
      table[k].0 + table[k].1 <= |text| && Valid(text[table[k].0..table[k].0 + table[k].1])
  }

  /** The spans of a completely split, well-formed text address well-formed lines. */
  lemma SplitTableOk(text: Text)
    requires Valid(text)
    ensures TableOk(text, Spans(Lines(text), 0))
  {
    hide Valid, Lines, Spans, Concat;
    LinesTile(text);
    LinesAreValid(text);
    var table := Spans(Lines(text), 0);
    forall k | 0 <= k < |table|
      ensures table[k].0 + table[k].1 <= |text| && Valid(text[table[k].0..table[k].0 + table[k].1])
    {
      SpanIsLine(Lines(text), 0, k);
    }
  }

  /** The line is what its numbers say: removed lines from the old side, added and context
      lines from the new one, addressed by their own table entry. */
  predicate Faithful(line: LinePlan, t: Tables) {
    match line.kind
    case Removed =>
      && line.oldIndex.Some? && line.newIndex.None? && line.source.Before? && line.oldIndex.value < |t.beforeLines|
      && (line.byteStart, line.byteLen) == t.beforeLines[line.oldIndex.value]
    case Added =>
      && line.oldIndex.None? && line.newIndex.Some? && line.source.After? && line.newIndex.value < |t.afterLines|
      && (line.byteStart, line.byteLen) == t.afterLines[line.newIndex.value]
    case Context =>
      && line.oldIndex.Some? && line.newIndex.Some? && line.source.After? && line.newIndex.value < |t.afterLines|
      && (line.byteStart, line.byteLen) == t.afterLines[line.newIndex.value]
  }

  lemma FaithfulIsOk(line: LinePlan, t: Tables)
    requires TableOk(t.before, t.beforeLines) && TableOk(t.after, t.afterLines) && Faithful(line, t)
    ensures LineOk(line, t.before, t.after)
  {
    hide Valid;
  }

  predicate OpFits(op: DiffOp, t: Tables) {
    op.OldEnd() <= |t.beforeLines| && op.NewEnd() <= |t.afterLines| && (op.tag.Equal? ==> op.oldLen == op.newLen)
  }

  /** Consecutive context, removed or added lines. */
  function Contexts(o: nat, n: nat, len: nat, t: Tables): (r: seq<LinePlan>)
    requires n + len <= |t.afterLines|
  {
    seq(len, k requires 0 <= k < len =>
      LinePlan(Context, Some(o + k), Some(n + k), After, t.afterLines[n + k].0, t.afterLines[n + k].1))
  }

  function Removals(from: nat, to: nat, t: Tables): seq<LinePlan>
    requires from <= to <= |t.beforeLines|
  {
    seq(to - from, k requires 0 <= k < to - from =>
      LinePlan(Removed, Some(from + k), None, Before, t.beforeLines[from + k].0, t.beforeLines[from + k].1))
  }

  function Additions(from: nat, to: nat, t: Tables): seq<LinePlan>
    requires from <= to <= |t.afterLines|
  {
    seq(to - from, k requires 0 <= k < to - from =>
      LinePlan(Added, None, Some(from + k), After, t.afterLines[from + k].0, t.afterLines[from + k].1))
  }

  /** The lines of an operation: an equal run as context, anything else as removals before additions. */
  function OpLines(op: DiffOp, t: Tables): seq<LinePlan>
    requires OpFits(op, t)
  {
    if op.tag.Equal? then Contexts(op.oldIndex, op.newIndex, op.oldLen, t)
    else Removals(op.oldIndex, op.OldEnd(), t) + Additions(op.newIndex, op.NewEnd(), t)
  }

  function GroupLines(group: seq<DiffOp>, t: Tables): seq<LinePlan>
    requires forall k :: 0 <= k < |group| ==> OpFits(group[k], t)
  {
    if group == [] then [] else GroupLines(group[..|group| - 1], t) + OpLines(group[|group| - 1], t)
  }

  /** No added line stands before a removed one. */
  predicate RemovedFirst(lines: seq<LinePlan>) {
    forall i, j :: 0 <= i < j < |lines| ==> !(lines[i].kind.Added? && lines[j].kind.Removed?)
  }

  /** The kinds an operation's lines have: all context for an equal run, none otherwise. */
  predicate KindsFor(op: DiffOp, lines: seq<LinePlan>) {
    RemovedFirst(lines) && forall k :: 0 <= k < |lines| ==> (lines[k].kind.Context? <==> op.tag.Equal?)
  }

  /** These lines number the operation's old and new lines in order, removed lines before
      added ones, and are context exactly for an equal run. */
  predicate LinesFor(op: DiffOp, lines: seq<LinePlan>) {
    && KindsFor(op, lines)
    && OldIndexes(lines) == Interval(op.oldIndex, op.OldEnd()) && NewIndexes(lines) == Interval(op.newIndex, op.NewEnd())
  }

  /** The lines are those of the operations, one after another. */
  ghost predicate OpByOp(lines: seq<LinePlan>, group: seq<DiffOp>)
    decreases |group|
  {
    if group == [] then lines == []
    else exists cut :: 0 <= cut <= |lines| && CutAt(lines, group, cut)
  }

  ghost predicate CutAt(lines: seq<LinePlan>, group: seq<DiffOp>, cut: nat)
    requires group != [] && cut <= |lines|
    decreases |group|, 0
  {
    OpByOp(lines[..cut], group[..|group| - 1]) && LinesFor(group[|group| - 1], lines[cut..])
  }

  lemma OpByOpGrows(lines: seq<LinePlan>, group: seq<DiffOp>, k: nat, more: seq<LinePlan>)
    requires k < |group| && OpByOp(lines, group[..k]) && LinesFor(group[k], more)
    ensures OpByOp(lines + more, group[..k + 1])
  {
    hide LinesFor;
    var longer := group[..k + 1];
    assert longer[..k] == group[..k];
    assert (lines + more)[..|lines|] == lines && (lines + more)[|lines|..] == more;
    assert CutAt(lines + more, longer, |lines|);
  }

  lemma OpLinesKinds(op: DiffOp, t: Tables)
    requires OpFits(op, t)
    ensures KindsFor(op, OpLines(op, t))
  {}

  /** `op.iter_changes`: an equal run line by line, otherwise removals before additions. */
  method LinesOfOp(op: DiffOp, t: Tables) returns (lines: seq<LinePlan>)
    requires OpFits(op, t)
    ensures lines == OpLines(op, t) && LinesFor(op, lines)
    ensures forall k :: 0 <= k < |lines| ==> Faithful(lines[k], t)
    ensures OldIndexes(lines) == Interval(op.oldIndex, op.OldEnd())
    ensures NewIndexes(lines) == Interval(op.newIndex, op.NewEnd())
  {
    hide Interval, Valid, OldIndexes, NewIndexes, Contexts, Removals, Additions;
    OpLinesKinds(op, t);
    if op.tag.Equal? {
      lines := ContextLines(op.oldIndex, op.newIndex, op.oldLen, t);
      return;
    }
    var removed := RemovedLines(op.oldIndex, op.OldEnd(), t);
    var added := AddedLines(op.newIndex, op.NewEnd(), t);
    IndexesAppend(removed, added);
    ConcatNothing(OldIndexes(removed));
    ConcatNothing(NewIndexes(added));
    lines := removed + added;
  }

  method ContextLines(o: nat, n: nat, len: nat, t: Tables) returns (lines: seq<LinePlan>)
    requires n + len <= |t.afterLines|
    ensures lines == Contexts(o, n, len, t)
    ensures forall k :: 0 <= k < |lines| ==> Faithful(lines[k], t)
    ensures OldIndexes(lines) == Interval(o, o + len) && NewIndexes(lines) == Interval(n, n + len)
  {
    hide Interval, Valid, OldIndexes, NewIndexes;
    lines := [];
    IndexesOfNothing(o);
    IndexesOfNothing(n);
    for k := 0 to len
      invariant lines == Contexts(o, n, k, t)
      invariant forall j :: 0 <= j < |lines| ==> Faithful(lines[j], t)
      invariant OldIndexes(lines) == Interval(o, o + k) && NewIndexes(lines) == Interval(n, n + k)
    {
      var (start, size) := t.afterLines[n + k];
      var line := LinePlan(Context, Some(o + k), Some(n + k), After, start, size);
      IndexesAppend(lines, [line]);
      SingleIndexes(line);
      IntervalJoins(o, o + k, o + len);
      IntervalJoins(n, n + k, n + len);
      lines := lines + [line];
    }
  }

  lemma IndexesOfNothing(from: nat)
    ensures OldIndexes([]) == [] == NewIndexes([]) && Interval(from, from) == []
  {}

  lemma SingleIndexes(line: LinePlan)
    ensures OldIndexes([line]) == if line.oldIndex.Some? then [line.oldIndex.value] else []
    ensures NewIndexes([line]) == if line.newIndex.Some? then [line.newIndex.value] else []
  {
    assert [line][1..] == [];
    assert OldIndexes([]) == [] && NewIndexes([]) == [];
  }

  method RemovedLines(from: nat, to: nat, t: Tables) returns (lines: seq<LinePlan>)
    requires from <= to <= |t.beforeLines|
    ensures forall k :: 0 <= k < |lines| ==> Faithful(lines[k], t)
    ensures OldIndexes(lines) == Interval(from, to) && NewIndexes(lines) == []
    ensures lines == Removals(from, to, t)
  {
    hide Interval, Valid, OldIndexes, NewIndexes;
    lines := [];
    IndexesOfNothing(from);
    for k := from to to
      invariant forall j :: 0 <= j < |lines| ==> Faithful(lines[j], t)
      invariant OldIndexes(lines) == Interval(from, k) && NewIndexes(lines) == []
      invariant lines == Removals(from, k, t)
    {
      var (start, len) := t.beforeLines[k];
      var line := LinePlan(Removed, Some(k), None, Before, start, len);
      IndexesAppend(lines, [line]);
      SingleIndexes(line);
      IntervalJoins(from, k, to);
      lines := lines + [line];
    }
  }

  method AddedLines(from: nat, to: nat, t: Tables) returns (lines: seq<LinePlan>)
    requires from <= to <= |t.afterLines|
    ensures forall k :: 0 <= k < |lines| ==> Faithful(lines[k], t)
    ensures NewIndexes(lines) == Interval(from, to) && OldIndexes(lines) == []
    ensures lines == Additions(from, to, t)
  {
    hide Interval, Valid, OldIndexes, NewIndexes;
    lines := [];
    IndexesOfNothing(from);
    for k := from to to
      invariant forall j :: 0 <= j < |lines| ==> Faithful(lines[j], t)
      invariant NewIndexes(lines) == Interval(from, k) && OldIndexes(lines) == []
      invariant lines == Additions(from, k, t)
    {
      var (start, len) := t.afterLines[k];
      var line := LinePlan(Added, None, Some(k), After, start, len);
      IndexesAppend(lines, [line]);
      SingleIndexes(line);
      IntervalJoins(from, k, to);
      lines := lines + [line];
    }
  }

  /** The group's operations follow one another and stay inside the tables. */
  predicate Contiguous(group: seq<DiffOp>, t: Tables) {
    && (forall k :: 0 <= k < |group| ==> OpFits(group[k], t))
    && (forall k :: 0 < k < |group| ==>
          group[k].oldIndex == group[k - 1].OldEnd() && group[k].newIndex == group[k - 1].NewEnd())
  }

  /** The hunk of a group: it spans the group on both sides, its lines number both sides
      consecutively, and every line is the one its number says. */
  ghost predicate HunkOf(group: seq<DiffOp>, hunk: HunkPlan, t: Tables)
    requires group != []
  {
    && Contiguous(group, t) && hunk.lines == GroupLines(group, t) && OpByOp(hunk.lines, group)
    && (forall k :: 0 <= k < |hunk.lines| ==> Faithful(hunk.lines[k], t))
    && OldIndexes(hunk.lines) == Interval(hunk.oldStart, hunk.oldStart + hunk.oldCount)
    && NewIndexes(hunk.lines) == Interval(hunk.newStart, hunk.newStart + hunk.newCount)
    && hunk.oldStart == group[0].oldIndex && hunk.oldStart + hunk.oldCount == group[|group| - 1].OldEnd()
    && hunk.newStart == group[0].newIndex && hunk.newStart + hunk.newCount == group[|group| - 1].NewEnd()
  }

  /** The hunk's lines and ends after the first `k` operations of its group. */
  ghost predicate HunkUpTo(group: seq<DiffOp>, k: nat, t: Tables, lines: seq<LinePlan>, oldEnd: nat, newEnd: nat)
    requires group != [] && Contiguous(group, t) && k <= |group|
  {
    && lines == GroupLines(group[..k], t) && OpByOp(lines, group[..k])
    && (forall j :: 0 <= j < |lines| ==> Faithful(lines[j], t))
    && oldEnd == (if k == 0 then group[0].oldIndex else group[k - 1].OldEnd()) && group[0].oldIndex <= oldEnd
    && newEnd == (if k == 0 then group[0].newIndex else group[k - 1].NewEnd()) && group[0].newIndex <= newEnd
    && OldIndexes(lines) == Interval(group[0].oldIndex, oldEnd)
    && NewIndexes(lines) == Interval(group[0].newIndex, newEnd)
  }

  lemma HunkStarts(group: seq<DiffOp>, t: Tables)
    requires group != [] && Contiguous(group, t)
    ensures HunkUpTo(group, 0, t, [], group[0].oldIndex, group[0].newIndex)
  {
    IndexesOfNothing(group[0].oldIndex);
    IndexesOfNothing(group[0].newIndex);
  }

  lemma HunkGrows(group: seq<DiffOp>, k: nat, t: Tables, lines: seq<LinePlan>, oldEnd: nat, newEnd: nat, more: seq<LinePlan>)
    requires group != [] && Contiguous(group, t) && k < |group| && HunkUpTo(group, k, t, lines, oldEnd, newEnd)
    requires more == OpLines(group[k], t) && forall j :: 0 <= j < |more| ==> Faithful(more[j], t)
    requires OldIndexes(more) == Interval(group[k].oldIndex, group[k].OldEnd())
    requires NewIndexes(more) == Interval(group[k].newIndex, group[k].NewEnd()) && LinesFor(group[k], more)
    ensures oldEnd == group[k].oldIndex && newEnd == group[k].newIndex
    ensures HunkUpTo(group, k + 1, t, lines + more, group[k].OldEnd(), group[k].NewEnd())
  {
    hide Faithful, OldIndexes, NewIndexes, Interval, OpLines, OpByOp, LinesFor;
    OpByOpGrows(lines, group, k, more);
    IndexesAppend(lines, more);
    IntervalJoins(group[0].oldIndex, oldEnd, group[k].OldEnd());
    IntervalJoins(group[0].newIndex, newEnd, group[k].NewEnd());
    assert group[..k + 1][..k] == group[..k];
  }

  lemma HunkEnds(group: seq<DiffOp>, t: Tables, lines: seq<LinePlan>, oldEnd: nat, newEnd: nat)
    requires group != [] && Contiguous(group, t) && HunkUpTo(group, |group|, t, lines, oldEnd, newEnd)
    ensures group[0].oldIndex <= oldEnd && group[0].newIndex <= newEnd
    ensures HunkOf(group, HunkPlan(group[0].oldIndex, oldEnd - group[0].oldIndex, group[0].newIndex, newEnd - group[0].newIndex, lines), t)
  {
    hide Faithful, OldIndexes, NewIndexes, Interval, GroupLines, OpByOp;
    assert group[..|group|] == group;
  }

  /** One hunk of `plan_diff`: its header counts are exactly its lines, which number
      both sides consecutively, and every line is the one its number says. */
  method PlanHunk(group: seq<DiffOp>, t: Tables) returns (hunk: HunkPlan)
    requires group != [] && Contiguous(group, t)
    ensures HunkOf(group, hunk, t)
  {
    var oldStart, oldEnd := group[0].oldIndex, group[0].oldIndex;
    var newStart, newEnd := group[0].newIndex, group[0].newIndex;
    var lines := [];
    HunkStarts(group, t);
    hide HunkUpTo, HunkOf, Interval, OldIndexes, NewIndexes, Faithful, OpLines, LinesFor;
    for k := 0 to |group|
      invariant oldStart == group[0].oldIndex <= oldEnd && newStart == group[0].newIndex <= newEnd
      invariant HunkUpTo(group, k, t, lines, oldEnd, newEnd)
    {
      var op := group[k];
      var more := LinesOfOp(op, t);
      HunkGrows(group, k, t, lines, oldEnd, newEnd, more);
      oldStart, oldEnd := Min(oldStart, op.oldIndex), Max(oldEnd, op.OldEnd());
      newStart, newEnd := Min(newStart, op.newIndex), Max(newEnd, op.NewEnd());
      lines := lines + more;
    }
    HunkEnds(group, t, lines, oldEnd, newEnd);
    hunk := HunkPlan(oldStart, oldEnd - oldStart, newStart, newEnd - newStart, lines);
  }
}
