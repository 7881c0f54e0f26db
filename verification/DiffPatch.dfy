/** What a planned diff says: its hunks turn the old lines into the new ones. */
module DiffPatch {
  import opened Prelude
  import opened Utf8
  import opened DiffPlan
  import opened DiffPage

  // ----- grouping

  /** The front part of an equal run, and what is left of the run behind it. */
  predicate Front(op: DiffOp, piece: DiffOp) {
    && op.tag.Equal? && piece.tag.Equal? && piece.oldIndex == op.oldIndex && piece.newIndex == op.newIndex
    && piece.oldLen == piece.newLen && piece.oldLen <= op.oldLen && piece.newLen <= op.newLen
  }

  function Behind(op: DiffOp, piece: DiffOp): DiffOp
    requires Front(op, piece)
  {
    DiffOp(Equal, piece.OldEnd(), op.oldLen - piece.oldLen, piece.NewEnd(), op.newLen - piece.newLen)
  }

  /** The pieces are the operations, with equal runs cut up. */
  predicate CutUp(ops: seq<DiffOp>, pieces: seq<DiffOp>)
    decreases |pieces|
  {
    if pieces == [] then ops == []
    else
      && ops != []
      && (|| (pieces[0] == ops[0] && CutUp(ops[1..], pieces[1..]))
          || (Front(ops[0], pieces[0]) && CutUp([Behind(ops[0], pieces[0])] + ops[1..], pieces[1..])))
  }

  predicate AllEqual(ops: seq<DiffOp>) { forall k :: 0 <= k < |ops| ==> ops[k].tag.Equal? }

  /** The groups are the pieces in order, with nothing but equal runs left out. */
  ghost predicate Gathered(pieces: seq<DiffOp>, groups: seq<seq<DiffOp>>)
    decreases |groups|
  {
    if groups == [] then AllEqual(pieces)
    else groups[0] != [] && exists k :: 0 <= k <= |pieces| && GatheredAt(pieces, groups, k)
  }

  ghost predicate GatheredAt(pieces: seq<DiffOp>, groups: seq<seq<DiffOp>>, k: nat)
    requires groups != [] && k <= |pieces|
    decreases |groups|, 0
  {
    && AllEqual(pieces[..k]) && groups[0] <= pieces[k..]
    && Gathered(pieces[k..][|groups[0]|..], groups[1..])
  }

  /** The contract of the external grouping: every operation that changes anything is in a group. */
  ghost predicate GroupsOf(ops: seq<DiffOp>, groups: seq<seq<DiffOp>>) {
    exists pieces :: CutUp(ops, pieces) && Gathered(pieces, groups)
  }

  lemma ScriptCons<T>(op: DiffOp, rest: seq<DiffOp>, before: seq<T>, after: seq<T>, oEnd: nat, nEnd: nat)
    requires OpOk(op, before, after) && Script(rest, before, after, op.OldEnd(), oEnd, op.NewEnd(), nEnd)
    ensures Script([op] + rest, before, after, op.oldIndex, oEnd, op.newIndex, nEnd)
  {
    hide OpOk;
    assert Script([op], before, after, op.oldIndex, op.OldEnd(), op.newIndex, op.NewEnd());
    ScriptAppend([op], rest, before, after, op.oldIndex, op.OldEnd(), oEnd, op.newIndex, op.NewEnd(), nEnd);
  }

  lemma FrontIsOk<T>(op: DiffOp, piece: DiffOp, before: seq<T>, after: seq<T>)
    requires OpOk(op, before, after) && Front(op, piece)
    ensures OpOk(piece, before, after) && OpOk(Behind(op, piece), before, after)
  {
    var x, y := before[op.oldIndex..op.OldEnd()], after[op.newIndex..op.NewEnd()];
    assert |x| == |y|;
    var n := piece.oldLen;
    assert before[piece.oldIndex..piece.OldEnd()] == x[..n] && after[piece.newIndex..piece.NewEnd()] == y[..n];
    assert before[piece.OldEnd()..op.OldEnd()] == x[n..] && after[piece.NewEnd()..op.NewEnd()] == y[n..];
  }

  /** Cutting up equal runs keeps a script. */
  lemma {:induction false} CutUpIsScript<T>(ops: seq<DiffOp>, pieces: seq<DiffOp>, before: seq<T>, after: seq<T>, o: nat, oEnd: nat, n: nat, nEnd: nat)
    requires CutUp(ops, pieces) && Script(ops, before, after, o, oEnd, n, nEnd)
    ensures Script(pieces, before, after, o, oEnd, n, nEnd)
    decreases |pieces|
  {
    if pieces != [] {
      var op, piece, rest := ops[0], pieces[0], pieces[1..];
      ScriptTail(ops, before, after, o, oEnd, n, nEnd);
      assert pieces == [piece] + rest;
      hide Script, OpOk;
      if piece == op && CutUp(ops[1..], rest) {
        CutUpIsScript(ops[1..], rest, before, after, op.OldEnd(), oEnd, op.NewEnd(), nEnd);
      } else {
        var behind := Behind(op, piece);
        FrontIsOk(op, piece, before, after);
        ScriptCons(behind, ops[1..], before, after, oEnd, nEnd);
        CutUpIsScript([behind] + ops[1..], rest, before, after, piece.OldEnd(), oEnd, piece.NewEnd(), nEnd);
      }
      ScriptCons(piece, rest, before, after, oEnd, nEnd);
    }
  }

  /** A script splits at any of its operations. */
  lemma ScriptSplit<T>(ops: seq<DiffOp>, k: nat, before: seq<T>, after: seq<T>, o: nat, oEnd: nat, n: nat, nEnd: nat) returns (oMid: nat, nMid: nat)
    requires k <= |ops| && Script(ops, before, after, o, oEnd, n, nEnd)
    ensures Script(ops[..k], before, after, o, oMid, n, nMid) && Script(ops[k..], before, after, oMid, oEnd, nMid, nEnd)
  {
    hide OpOk;
    oMid := if k == |ops| then oEnd else ops[k].oldIndex;
    nMid := if k == |ops| then nEnd else ops[k].newIndex;
    var a, b := ops[..k], ops[k..];
    assert 0 < k < |ops| ==> Adjacent(ops[k - 1], ops[k]);
    forall i, j | 0 <= i && i + 1 == j < |b| ensures Adjacent(b[i], b[j]) {
      assert Adjacent(ops[k + i], ops[k + j]);
    }
  }

  /** Equal runs one after another are one equal stretch. */
  lemma {:induction false} EqualStretch<T>(ops: seq<DiffOp>, before: seq<T>, after: seq<T>, o: nat, oEnd: nat, n: nat, nEnd: nat)
    requires AllEqual(ops) && Script(ops, before, after, o, oEnd, n, nEnd) && oEnd <= |before| && nEnd <= |after|
    ensures o <= oEnd && n <= nEnd && before[o..oEnd] == after[n..nEnd]
    decreases |ops|
  {
    if ops == [] {
      assert before[o..oEnd] == [] == after[n..nEnd];
    } else {
      var op := ops[0];
      ScriptTail(ops, before, after, o, oEnd, n, nEnd);
      EqualStretch(ops[1..], before, after, op.OldEnd(), oEnd, op.NewEnd(), nEnd);
      assert before[o..oEnd] == before[o..op.OldEnd()] + before[op.OldEnd()..oEnd];
      assert after[n..nEnd] == after[n..op.NewEnd()] + after[op.NewEnd()..nEnd];
    }
  }

  /** From two positions on, both sides are equal outside the groups. */
  ghost predicate Grouped<T>(groups: seq<seq<DiffOp>>, before: seq<T>, after: seq<T>, o: nat, n: nat)
    decreases |groups|
  {
    && o <= |before| && n <= |after|
    && if groups == [] then before[o..] == after[n..]
       else
         && groups[0] != []
         && var first, last := groups[0][0], groups[0][|groups[0]| - 1];
            && o <= first.oldIndex <= |before| && n <= first.newIndex <= |after|
            && before[o..first.oldIndex] == after[n..first.newIndex]
            && Grouped(groups[1..], before, after, last.OldEnd(), last.NewEnd())
  }

  /** A group's operations, one after another from its first to its last. */
  ghost predicate IsStretch<T>(group: seq<DiffOp>, before: seq<T>, after: seq<T>) {
    group != [] && Script(group, before, after, group[0].oldIndex, group[|group| - 1].OldEnd(), group[0].newIndex, group[|group| - 1].NewEnd())
  }

  ghost predicate AllStretches<T>(groups: seq<seq<DiffOp>>, before: seq<T>, after: seq<T>)
    decreases |groups|
  {
    groups == [] || (IsStretch(groups[0], before, after) && AllStretches(groups[1..], before, after))
  }

  lemma {:induction false} StretchAt<T>(groups: seq<seq<DiffOp>>, before: seq<T>, after: seq<T>, g: nat)
    requires AllStretches(groups, before, after) && g < |groups|
    ensures IsStretch(groups[g], before, after)
    decreases |groups|
  {
    hide IsStretch;
    if g > 0 {
      StretchAt(groups[1..], before, after, g - 1);
    }
  }

  lemma {:induction false} GatheredIsGrouped<T>(pieces: seq<DiffOp>, groups: seq<seq<DiffOp>>, before: seq<T>, after: seq<T>, o: nat, n: nat)
    requires Gathered(pieces, groups) && Script(pieces, before, after, o, |before|, n, |after|) && o <= |before| && n <= |after|
    ensures Grouped(groups, before, after, o, n) && AllStretches(groups, before, after)
    decreases |groups|
  {
    hide OpOk;
    if groups == [] {
      EqualStretch(pieces, before, after, o, |before|, n, |after|);
      assert before[o..] == before[o..|before|] && after[n..] == after[n..|after|];
    } else {
      var k :| 0 <= k <= |pieces| && GatheredAt(pieces, groups, k);
      var group := groups[0];
      hide Script, AllEqual;
      var oMid, nMid := ScriptSplit(pieces, k, before, after, o, |before|, n, |after|);
      var oNext, nNext := ScriptSplit(pieces[k..], |group|, before, after, oMid, |before|, nMid, |after|);
      assert pieces[k..][..|group|] == group;
      StretchBounds(group, before, after, oMid, oNext, nMid, nNext);
      EqualStretch(pieces[..k], before, after, o, oMid, n, nMid);
      GatheredIsGrouped(pieces[k..][|group|..], groups[1..], before, after, oNext, nNext);
    }
  }

  lemma StretchBounds<T>(group: seq<DiffOp>, before: seq<T>, after: seq<T>, o: nat, oEnd: nat, n: nat, nEnd: nat)
    requires group != [] && Script(group, before, after, o, oEnd, n, nEnd)
    ensures o == group[0].oldIndex <= oEnd == group[|group| - 1].OldEnd() <= |before|
    ensures n == group[0].newIndex <= nEnd == group[|group| - 1].NewEnd() <= |after|
  {
    assert OpOk(group[0], before, after) && OpOk(group[|group| - 1], before, after);
    ScriptReplays(group, before, after, o, oEnd, n, nEnd);
  }

  // ----- applying hunks

  /** The lines a hunk leaves in place: its context and its additions. */
  function NewSide(lines: seq<LinePlan>, before: Text, after: Text): seq<Text> {
    if lines == [] then []
    else if lines[0].newIndex.Some? then [LineBytes(lines[0], before, after)] + NewSide(lines[1..], before, after)
    else NewSide(lines[1..], before, after)
  }

  /** Applying hunks to the old lines from `o` on: lines between hunks stay, a hunk's old
      lines are replaced by what it leaves in place. */
  function Patch(was: seq<Text>, hunks: seq<HunkPlan>, before: Text, after: Text, o: nat): seq<Text>
    decreases |hunks|
  {
    if o > |was| then []
    else if hunks == [] then was[o..]
    else
      var h := hunks[0];
      if h.oldStart < o || h.oldStart > |was| then []
      else was[o..h.oldStart] + NewSide(h.lines, before, after) + Patch(was, hunks[1..], before, after, h.oldStart + h.oldCount)
  }

  /** The table addresses exactly these lines. */
  predicate TableFor(text: Text, table: seq<(nat, nat)>, lines: seq<Text>) {
    && |table| == |lines|
    && forall k :: 0 <= k < |table| ==> table[k].0 + table[k].1 <= |text| && text[table[k].0..table[k].0 + table[k].1] == lines[k]
  }

  lemma SplitTableFor(text: Text)
    ensures TableFor(text, Spans(Lines(text), 0), Lines(text))
  {
    hide Lines, Spans, Concat;
    LinesTile(text);
    var table := Spans(Lines(text), 0);
    forall k | 0 <= k < |table|
      ensures table[k].0 + table[k].1 <= |text| && text[table[k].0..table[k].0 + table[k].1] == Lines(text)[k]
    {
      SpanIsLine(Lines(text), 0, k);
    }
  }

  /** What a hunk leaves in place are the new lines with its numbers. */
  lemma {:induction false} NewSideIsNumbered(lines: seq<LinePlan>, t: Tables, now: seq<Text>)
    requires TableFor(t.after, t.afterLines, now) && forall k :: 0 <= k < |lines| ==> Faithful(lines[k], t)
    ensures |NewSide(lines, t.before, t.after)| == |NewIndexes(lines)|
    ensures forall k :: 0 <= k < |NewIndexes(lines)| ==>
              NewIndexes(lines)[k] < |now| && NewSide(lines, t.before, t.after)[k] == now[NewIndexes(lines)[k]]
    decreases |lines|
  {
    if lines != [] {
      var line, rest := lines[0], lines[1..];
      NewSideIsNumbered(rest, t, now);
      if line.newIndex.Some? {
        NumberedLine(line, t, now);
      }
      hide Faithful, TableFor, LineBytes;
    }
  }

  lemma NumberedLine(line: LinePlan, t: Tables, now: seq<Text>)
    requires TableFor(t.after, t.afterLines, now) && Faithful(line, t) && line.newIndex.Some?
    ensures line.newIndex.value < |now| && LineBytes(line, t.before, t.after) == now[line.newIndex.value]
  {}

  lemma HunkLeaves(group: seq<DiffOp>, hunk: HunkPlan, t: Tables, now: seq<Text>)
    requires group != [] && HunkOf(group, hunk, t) && TableFor(t.after, t.afterLines, now)
    requires hunk.newStart + hunk.newCount <= |now|
    ensures NewSide(hunk.lines, t.before, t.after) == now[hunk.newStart..hunk.newStart + hunk.newCount]
    ensures hunk.lines == [] ==> hunk.oldCount == 0 && hunk.newCount == 0
  {
    hide Faithful, TableFor;
    NewSideIsNumbered(hunk.lines, t, now);
    if hunk.lines == [] {
      assert |Interval(hunk.oldStart, hunk.oldStart + hunk.oldCount)| == 0;
      assert |Interval(hunk.newStart, hunk.newStart + hunk.newCount)| == 0;
    }
  }

  /** Two equal stretches in a row are one. */
  lemma GapsJoin<T>(groups: seq<seq<DiffOp>>, before: seq<T>, after: seq<T>, o: nat, oMid: nat, n: nat, nMid: nat)
    requires o <= oMid <= |before| && n <= nMid <= |after| && before[o..oMid] == after[n..nMid]
    requires Grouped(groups, before, after, oMid, nMid)
    ensures Grouped(groups, before, after, o, n)
  {
    if groups == [] {
      assert before[o..] == before[o..oMid] + before[oMid..] && after[n..] == after[n..nMid] + after[nMid..];
    } else {
      var first := groups[0][0];
      assert before[o..first.oldIndex] == before[o..oMid] + before[oMid..first.oldIndex];
      assert after[n..first.newIndex] == after[n..nMid] + after[nMid..first.newIndex];
    }
  }

  lemma {:induction false} WithLinesCons(hunk: HunkPlan, rest: seq<HunkPlan>)
    ensures WithLines([hunk] + rest) == (if hunk.lines == [] then WithLines(rest) else [hunk] + WithLines(rest))
    decreases |rest|
  {
    var all := [hunk] + rest;
    if rest == [] {
      assert all[..0] == [];
    } else {
      var init, last := rest[..|rest| - 1], rest[|rest| - 1];
      assert all[..|all| - 1] == [hunk] + init;
      WithLinesCons(hunk, init);
    }
  }

  ghost predicate AllHunks(groups: seq<seq<DiffOp>>, all: seq<HunkPlan>, t: Tables)
    decreases |groups|
  {
    if groups == [] then all == []
    else all != [] && groups[0] != [] && HunkOf(groups[0], all[0], t) && AllHunks(groups[1..], all[1..], t)
  }

  lemma {:induction false} EachIsHunk(groups: seq<seq<DiffOp>>, all: seq<HunkPlan>, t: Tables)
    requires |all| == |groups| && forall g :: 0 <= g < |groups| ==> groups[g] != [] && HunkOf(groups[g], all[g], t)
    ensures AllHunks(groups, all, t)
    decreases |groups|
  {
    hide HunkOf;
    if groups != [] {
      EachIsHunk(groups[1..], all[1..], t);
    }
  }

  /** The hunks of grouped operations turn the old lines into the new ones. */
  lemma {:induction false} HunksPatch(groups: seq<seq<DiffOp>>, all: seq<HunkPlan>, t: Tables, was: seq<Text>, now: seq<Text>, o: nat, n: nat)
    requires TableFor(t.after, t.afterLines, now) && AllStretches(groups, was, now) && AllHunks(groups, all, t)
    requires Grouped(groups, was, now, o, n)
    ensures Patch(was, WithLines(all), t.before, t.after, o) == now[n..]
    decreases |groups|
  {
    hide HunkOf, IsStretch, TableFor, NewSide, WithLines, Patch, Grouped;
    if groups == [] {
      GroupedEnd(was, now, o, n);
      NothingToPatch(was, t.before, t.after, o);
    } else {
      var hunk, rest := all[0], all[1..];
      var oEnd, nEnd := hunk.oldStart + hunk.oldCount, hunk.newStart + hunk.newCount;
      assert all == [hunk] + rest;
      StretchOf(groups[0], was, now);
      HunkSpans(groups[0], hunk, t);
      GroupedHead(groups, was, now, o, n);
      HunkLeaves(groups[0], hunk, t, now);
      WithLinesCons(hunk, rest);
      if hunk.lines == [] {
        GapsJoin(groups[1..], was, now, o, oEnd, n, nEnd);
        HunksPatch(groups[1..], rest, t, was, now, o, n);
      } else {
        HunksPatch(groups[1..], rest, t, was, now, oEnd, nEnd);
        PatchHunk(was, now, hunk, WithLines(rest), t, o, n);
      }
    }
  }

  /** One hunk in front of a patch. */
  lemma PatchHunk(was: seq<Text>, now: seq<Text>, hunk: HunkPlan, rest: seq<HunkPlan>, t: Tables, o: nat, n: nat)
    requires o <= hunk.oldStart <= |was| && n <= hunk.newStart && hunk.newStart + hunk.newCount <= |now|
    requires was[o..hunk.oldStart] == now[n..hunk.newStart]
    requires NewSide(hunk.lines, t.before, t.after) == now[hunk.newStart..hunk.newStart + hunk.newCount]
    requires Patch(was, rest, t.before, t.after, hunk.oldStart + hunk.oldCount) == now[hunk.newStart + hunk.newCount..]
    ensures Patch(was, [hunk] + rest, t.before, t.after, o) == now[n..]
  {
    hide Patch, NewSide;
    PatchCons(was, hunk, rest, t.before, t.after, o);
    ThreeParts(now, n, hunk.newStart, hunk.newStart + hunk.newCount);
  }

  lemma NothingToPatch(was: seq<Text>, before: Text, after: Text, o: nat)
    requires o <= |was|
    ensures WithLines([]) == [] && Patch(was, [], before, after, o) == was[o..]
  {}

  lemma PatchCons(was: seq<Text>, h: HunkPlan, rest: seq<HunkPlan>, before: Text, after: Text, o: nat)
    requires o <= h.oldStart <= |was|
    ensures Patch(was, [h] + rest, before, after, o)
         == was[o..h.oldStart] + NewSide(h.lines, before, after) + Patch(was, rest, before, after, h.oldStart + h.oldCount)
  {
    hide NewSide;
    assert ([h] + rest)[1..] == rest;
  }

  lemma GroupedEnd<T>(before: seq<T>, after: seq<T>, o: nat, n: nat)
    requires Grouped([], before, after, o, n)
    ensures o <= |before| && n <= |after| && before[o..] == after[n..]
  {}

  lemma GroupedHead<T>(groups: seq<seq<DiffOp>>, before: seq<T>, after: seq<T>, o: nat, n: nat)
    requires groups != [] && Grouped(groups, before, after, o, n)
    ensures groups[0] != []
    ensures var first, last := groups[0][0], groups[0][|groups[0]| - 1];
            && o <= first.oldIndex <= |before| && n <= first.newIndex <= |after|
            && before[o..first.oldIndex] == after[n..first.newIndex]
            && Grouped(groups[1..], before, after, last.OldEnd(), last.NewEnd())
  {}

  lemma ThreeParts<T>(s: seq<T>, a: nat, b: nat, c: nat)
    requires a <= b <= c <= |s|
    ensures s[a..] == s[a..b] + s[b..c] + s[c..]
  {}

  lemma StretchOf<T>(group: seq<DiffOp>, before: seq<T>, after: seq<T>)
    requires IsStretch(group, before, after)
    ensures group != []
    ensures group[0].oldIndex <= group[|group| - 1].OldEnd() <= |before|
    ensures group[0].newIndex <= group[|group| - 1].NewEnd() <= |after|
  {
    StretchBounds(group, before, after, group[0].oldIndex, group[|group| - 1].OldEnd(), group[0].newIndex, group[|group| - 1].NewEnd());
  }

  lemma HunkSpans(group: seq<DiffOp>, hunk: HunkPlan, t: Tables)
    requires group != [] && HunkOf(group, hunk, t)
    ensures hunk.oldStart == group[0].oldIndex && hunk.oldStart + hunk.oldCount == group[|group| - 1].OldEnd()
    ensures hunk.newStart == group[0].newIndex && hunk.newStart + hunk.newCount == group[|group| - 1].NewEnd()
  {}

  lemma StretchIsContiguous(group: seq<DiffOp>, t: Tables, was: seq<Text>, now: seq<Text>)
    requires IsStretch(group, was, now) && |t.beforeLines| == |was| && |t.afterLines| == |now|
    ensures group != [] && Contiguous(group, t)
  {
    forall k | 0 <= k < |group| ensures OpFits(group[k], t) {
      assert OpOk(group[k], was, now);
      assert group[k].tag.Equal? ==> |was[group[k].oldIndex..group[k].OldEnd()]| == |now[group[k].newIndex..group[k].NewEnd()]|;
    }
    forall k | 0 < k < |group|
      ensures group[k].oldIndex == group[k - 1].OldEnd() && group[k].newIndex == group[k - 1].NewEnd()
    {
      assert Adjacent(group[k - 1], group[k]);
    }
  }

  // ----- what the lines say

  /** Lines of both sides before and behind the part that may change. */
  datatype Ends = Ends(prefix: nat, suffix: nat)

  function EndsOf<T(==)>(before: seq<T>, after: seq<T>): Ends {
    var prefix := CommonPrefix(before, after);
    Ends(prefix, CommonSuffix(before[prefix..], after[prefix..]))
  }

  /** An operation that changes anything stays between the equal ends. */
  predicate Inside(op: DiffOp, was: nat, now: nat, ends: Ends) {
    !op.tag.Equal? ==>
      && ends.prefix <= op.oldIndex && op.OldEnd() + ends.suffix <= was
      && ends.prefix <= op.newIndex && op.NewEnd() + ends.suffix <= now
  }

  predicate AllInside(ops: seq<DiffOp>, was: nat, now: nat, ends: Ends) { forall k :: 0 <= k < |ops| ==> Inside(ops[k], was, now, ends) }

  /** Every operation of a script lies between its ends. */
  lemma {:induction false} ScriptWithin<T>(ops: seq<DiffOp>, before: seq<T>, after: seq<T>, o: nat, oEnd: nat, n: nat, nEnd: nat)
    requires Script(ops, before, after, o, oEnd, n, nEnd)
    ensures o <= oEnd && n <= nEnd
    ensures forall k :: 0 <= k < |ops| ==> o <= ops[k].oldIndex && ops[k].OldEnd() <= oEnd && n <= ops[k].newIndex && ops[k].NewEnd() <= nEnd
    decreases |ops|
  {
    hide OpOk;
    if ops != [] {
      ScriptTail(ops, before, after, o, oEnd, n, nEnd);
      ScriptWithin(ops[1..], before, after, ops[0].OldEnd(), oEnd, ops[0].NewEnd(), nEnd);
      assert forall k :: 0 < k < |ops| ==> ops[k] == ops[1..][k - 1];
    }
  }

  lemma PlannedInside<T>(before: seq<T>, after: seq<T>, myers: seq<DiffOp>, ops: seq<DiffOp>)
    requires MiddleLines(before, after) <= MAX_MYERS_LINES ==> MiddleScript(before, after, myers)
    requires ops == Trimmed(before, after, if MiddleLines(before, after) > MAX_MYERS_LINES then ReplaceMiddle(before, after) else myers)
    ensures EndsOf(before, after).prefix + EndsOf(before, after).suffix <= Min(|before|, |after|)
    ensures AllInside(ops, |before|, |after|, EndsOf(before, after))
  {
    hide CommonPrefix, CommonSuffix, Script;
    var ends := EndsOf(before, after);
    SuffixEnds(before, after, ends.prefix, ends.suffix);
    if MiddleLines(before, after) <= MAX_MYERS_LINES {
      ScriptWithin(myers, before, after, ends.prefix, |before| - ends.suffix, ends.prefix, |after| - ends.suffix);
    }
  }

  lemma {:induction false} CutUpInside(ops: seq<DiffOp>, pieces: seq<DiffOp>, was: nat, now: nat, ends: Ends)
    requires CutUp(ops, pieces) && AllInside(ops, was, now, ends)
    ensures AllInside(pieces, was, now, ends)
    decreases |pieces|
  {
    if pieces != [] {
      var op, piece, rest := ops[0], pieces[0], pieces[1..];
      if piece == op && CutUp(ops[1..], rest) {
        CutUpInside(ops[1..], rest, was, now, ends);
      } else {
        CutUpInside([Behind(op, piece)] + ops[1..], rest, was, now, ends);
      }
      assert forall k :: 0 < k < |pieces| ==> pieces[k] == rest[k - 1];
    }
  }

  ghost predicate GroupsInside(groups: seq<seq<DiffOp>>, was: nat, now: nat, ends: Ends)
    decreases |groups|
  {
    groups == [] || (AllInside(groups[0], was, now, ends) && GroupsInside(groups[1..], was, now, ends))
  }

  lemma {:induction false} GatheredInside(pieces: seq<DiffOp>, groups: seq<seq<DiffOp>>, was: nat, now: nat, ends: Ends)
    requires Gathered(pieces, groups) && AllInside(pieces, was, now, ends)
    ensures GroupsInside(groups, was, now, ends)
    decreases |groups|
  {
    hide Inside;
    if groups != [] {
      var k :| 0 <= k <= |pieces| && GatheredAt(pieces, groups, k);
      var group := groups[0];
      assert forall i :: 0 <= i < |group| ==> group[i] == pieces[k..][i] == pieces[k + i];
      GatheredInside(pieces[k..][|group|..], groups[1..], was, now, ends);
    }
  }

  /** A shown line is true of both sides: context is the same line on both, and only lines
      between the equal ends are removed or added. */
  predicate LineTrue(line: LinePlan, was: seq<Text>, now: seq<Text>, ends: Ends) {
    match line.kind
    case Context =>
      && line.oldIndex.Some? && line.newIndex.Some? && line.oldIndex.value < |was| && line.newIndex.value < |now|
      && was[line.oldIndex.value] == now[line.newIndex.value]
    case Removed => line.oldIndex.Some? && ends.prefix <= line.oldIndex.value && line.oldIndex.value + ends.suffix < |was|
    case Added => line.newIndex.Some? && ends.prefix <= line.newIndex.value && line.newIndex.value + ends.suffix < |now|
  }

  predicate LinesTrue(lines: seq<LinePlan>, was: seq<Text>, now: seq<Text>, ends: Ends) {
    forall k :: 0 <= k < |lines| ==> LineTrue(lines[k], was, now, ends)
  }

  lemma OpLinesTrue(op: DiffOp, t: Tables, was: seq<Text>, now: seq<Text>, ends: Ends)
    requires OpFits(op, t) && OpOk(op, was, now) && Inside(op, |was|, |now|, ends)
    ensures LinesTrue(OpLines(op, t), was, now, ends)
  {
    if op.tag.Equal? {
      var lines := OpLines(op, t);
      forall k | 0 <= k < |lines| ensures LineTrue(lines[k], was, now, ends) {
        SameLine(op, was, now, k);
      }
    }
  }

  lemma SameLine(op: DiffOp, was: seq<Text>, now: seq<Text>, k: nat)
    requires OpOk(op, was, now) && op.tag.Equal? && k < op.oldLen
    ensures k < op.newLen && was[op.oldIndex + k] == now[op.newIndex + k]
  {
    var x, y := was[op.oldIndex..op.OldEnd()], now[op.newIndex..op.NewEnd()];
    assert |x| == |y| && x[k] == y[k];
  }

  lemma {:induction false} GroupLinesTrue(group: seq<DiffOp>, t: Tables, was: seq<Text>, now: seq<Text>, ends: Ends)
    requires forall k :: 0 <= k < |group| ==> OpFits(group[k], t) && OpOk(group[k], was, now)
    requires AllInside(group, |was|, |now|, ends)
    ensures LinesTrue(GroupLines(group, t), was, now, ends)
    decreases |group|
  {
    hide OpFits, OpOk, Inside, OpLines, LineTrue;
    if group != [] {
      GroupLinesTrue(group[..|group| - 1], t, was, now, ends);
      OpLinesTrue(group[|group| - 1], t, was, now, ends);
    }
  }

  /** Every hunk of such groups is true, line by line. */
  lemma HunkTrue(group: seq<DiffOp>, hunk: HunkPlan, t: Tables, was: seq<Text>, now: seq<Text>, ends: Ends)
    requires IsStretch(group, was, now) && HunkOf(group, hunk, t) && AllInside(group, |was|, |now|, ends)
    ensures LinesTrue(hunk.lines, was, now, ends)
  {
    hide OpFits, OpOk, Inside, LineTrue, Faithful, OldIndexes, NewIndexes, Interval, GroupLines;
    GroupLinesTrue(group, t, was, now, ends);
  }

  ghost predicate HunksTrue(hunks: seq<HunkPlan>, was: seq<Text>, now: seq<Text>, ends: Ends) {
    forall h :: 0 <= h < |hunks| ==> LinesTrue(hunks[h].lines, was, now, ends)
  }

  lemma {:induction false} AllHunksTrue(groups: seq<seq<DiffOp>>, all: seq<HunkPlan>, t: Tables, was: seq<Text>, now: seq<Text>, ends: Ends)
    requires AllStretches(groups, was, now) && AllHunks(groups, all, t) && GroupsInside(groups, |was|, |now|, ends)
    ensures HunksTrue(all, was, now, ends)
    decreases |groups|
  {
    hide IsStretch, HunkOf, AllInside, LinesTrue;
    if groups != [] {
      HunkTrue(groups[0], all[0], t, was, now, ends);
      AllHunksTrue(groups[1..], all[1..], t, was, now, ends);
      assert forall h :: 0 < h < |all| ==> all[h] == all[1..][h - 1];
    }
  }

  lemma {:induction false} WithLinesTrue(all: seq<HunkPlan>, was: seq<Text>, now: seq<Text>, ends: Ends)
    requires HunksTrue(all, was, now, ends)
    ensures HunksTrue(WithLines(all), was, now, ends)
    decreases |all|
  {
    hide LinesTrue;
    if all != [] {
      WithLinesTrue(all[..|all| - 1], was, now, ends);
    }
  }

  lemma HunkIsOpByOp(group: seq<DiffOp>, hunk: HunkPlan, t: Tables)
    requires group != [] && HunkOf(group, hunk, t)
    ensures OpByOp(hunk.lines, group)
  {
    hide OpByOp;
  }

  const MAX_DIFF_LINES: nat := 100_000

  /** The lines a table addresses. */
  function Tokens(text: Text, table: seq<(nat, nat)>): seq<Text> {
    seq(|table|, k requires 0 <= k < |table| =>
      if table[k].0 + table[k].1 <= |text| then text[table[k].0..table[k].0 + table[k].1] else [])
  }

  lemma TokensAreLines(text: Text, table: seq<(nat, nat)>, lines: seq<Text>)
    requires TableFor(text, table, lines)
    ensures Tokens(text, table) == lines
  {}

  /** A grouping of a script of both sides leaves only equal lines outside its groups. */
  lemma GroupsPatchable<T>(ops: seq<DiffOp>, groups: seq<seq<DiffOp>>, before: seq<T>, after: seq<T>)
    requires GroupsOf(ops, groups) && Script(ops, before, after, 0, |before|, 0, |after|)
    ensures Grouped(groups, before, after, 0, 0) && AllStretches(groups, before, after)
    ensures forall ends :: AllInside(ops, |before|, |after|, ends) ==> GroupsInside(groups, |before|, |after|, ends)
  {
    hide AllInside, GroupsInside, Script, Grouped, AllStretches, CutUp, Gathered;
    var pieces :| CutUp(ops, pieces) && Gathered(pieces, groups);
    CutUpIsScript(ops, pieces, before, after, 0, |before|, 0, |after|);
    GatheredIsGrouped(pieces, groups, before, after, 0, 0);
    forall ends | AllInside(ops, |before|, |after|, ends) ensures GroupsInside(groups, |before|, |after|, ends) {
      CutUpInside(ops, pieces, |before|, |after|, ends);
      GatheredInside(pieces, groups, |before|, |after|, ends);
    }
  }

  /** `plan_diff` on two well-formed texts: splitting, trimming, grouping and hunks. Unless
      there are too many lines, the hunks applied to the old lines give the new ones, so
      nothing outside them differs. `myers` and `group` are the external differ and grouping. */
  method PlanDiff(before: Text, after: Text, myers: seq<DiffOp>, group: seq<DiffOp> -> seq<seq<DiffOp>>)
    returns (plan: seq<HunkPlan>, truncated: bool, ghost ops: seq<DiffOp>, ghost all: seq<HunkPlan>)
    requires Valid(before) && Valid(after)
    requires MiddleLines(Lines(before), Lines(after)) <= MAX_MYERS_LINES ==> MiddleScript(Lines(before), Lines(after), myers)
    requires forall ops :: GroupsOf(ops, group(ops))
    ensures truncated <==> |Lines(before)| + |Lines(after)| > MAX_DIFF_LINES
    ensures truncated ==> plan == []
    ensures !truncated ==> Patch(Lines(before), plan, before, after, 0) == Lines(after)
    ensures !truncated ==> HunksTrue(plan, Lines(before), Lines(after), EndsOf(Lines(before), Lines(after)))
    ensures !truncated ==>
              && ops == Trimmed(Lines(before), Lines(after),
                                if MiddleLines(Lines(before), Lines(after)) > MAX_MYERS_LINES then ReplaceMiddle(Lines(before), Lines(after)) else myers)
              && |all| == |group(ops)| && plan == WithLines(all)
              && forall g :: 0 <= g < |all| ==> OpByOp(all[g].lines, group(ops)[g])
    ensures PlanOk(plan, before, after) && forall h :: 0 <= h < |plan| ==> plan[h].lines != []
  {
    hide Valid, Lines, Spans, Patch, Script, GroupsOf, MiddleScript, MiddleLines, Replay, IsStretch, Grouped, HunkOf, TableFor, TableOk, Contiguous,
         LineOk, Tokens, WithLines, AllStretches, AllHunks,
         HunksTrue, EndsOf, OpByOp, AllInside, GroupsInside, Trimmed, ReplaceMiddle;
    ghost var was, now := Lines(before), Lines(after);
    var beforeLines, beforeCount := SplitLines(before, MAX_DIFF_LINES);
    if beforeCount > MAX_DIFF_LINES {
      return [], true, [], [];
    }
    var afterLines, afterCount := SplitLines(after, MAX_DIFF_LINES - beforeCount);
    if afterCount > MAX_DIFF_LINES - beforeCount {
      return [], true, [], [];
    }
    assert was[..beforeCount] == was && now[..afterCount] == now;
    var t := Tables(before, after, beforeLines, afterLines);
    SplitTableFor(before);
    SplitTableFor(after);
    TokensAreLines(before, beforeLines, was);
    TokensAreLines(after, afterLines, now);
    var planned := PlanOps(Tokens(before, beforeLines), Tokens(after, afterLines), myers);
    ops := planned;
    var groups := group(planned);
    PlannedInside(was, now, myers, ops);
    GroupsPatchable(ops, groups, was, now);
    SplitTableOk(before);
    SplitTableOk(after);
    forall g | 0 <= g < |groups| ensures groups[g] != [] && Contiguous(groups[g], t) {
      StretchAt(groups, was, now, g);
      StretchIsContiguous(groups[g], t, was, now);
    }
    plan, all := PlanHunks(groups, t);
    forall g | 0 <= g < |all| ensures OpByOp(all[g].lines, groups[g]) {
      HunkIsOpByOp(groups[g], all[g], t);
    }
    EachIsHunk(groups, all, t);
    HunksPatch(groups, all, t, was, now, 0, 0);
    AllHunksTrue(groups, all, t, was, now, EndsOf(was, now));
    WithLinesTrue(all, was, now, EndsOf(was, now));
    assert now[0..] == now;
    truncated := false;
  }
}
