/** What folding keeps: well-formed tool exchanges, user constraints, and its own
    result when the history grows. */
module FoldLaws {
  import opened Prelude
  import opened Conversation
  import opened Projection

  function RawShapes(items: seq<Item>): (r: seq<Shape>)
    ensures |r| == |items|
  {
    Shapes(HistoryMessages(items))
  }

  function EntryShape(items: seq<Item>, e: Entry): Shape
    requires e.Kept? ==> e.index < |items|
  {
    ShapeOf(EntryMessage(items, e))
  }

  function FoldShapes(src: Source, folded: map<Key, Text>, covered: set<Key>, i: nat): (r: seq<Shape>)
    ensures |r| == |Fold(src, folded, covered, i)|
  {
    var entries := Fold(src, folded, covered, i);
    seq(|entries|, k requires 0 <= k < |entries| => EntryShape(src.Items(), entries[k]))
  }

  /** The messages of a compressible range form one block of the pairing grammar. */
  lemma RangeIsBlock(src: Source, i: nat)
    requires RangeEnd(src, i).Some?
    ensures Block(RawShapes(src.Items())[i..RangeEnd(src, i).value])
  {
    var items := src.Items();
    var end := RangeEnd(src, i).value;
    var b := RawShapes(items)[i..end];
    assert b[0] == ShapeOf(HistoryMessage(items[i]));
    if Completes(items, i) {
      forall k | 0 <= k < |b| - 1 ensures b[1..][k] == Reply(items[i + 1 + k].callId) {
        assert Answers(items[i], items[i + 1 + k]);
        assert b[1..][k] == RawShapes(items)[i + 1 + k];
      }
    } else {
      assert items[i] == src.base[i];
    }
  }

  /** One step of the fold, seen as shapes. */
  lemma FoldShapesStep(src: Source, folded: map<Key, Text>, covered: set<Key>, i: nat)
    requires i < |src.Items()|
    ensures var step := StepAt(src, folded, covered, i);
            var tail := FoldShapes(src, folded, covered, step.next);
            FoldShapes(src, folded, covered, i)
            == if step.entry.None? then tail else [EntryShape(src.Items(), step.entry.value)] + tail
  {}

  lemma RawShapesSplit(items: seq<Item>, i: nat, j: nat)
    requires i <= j <= |items|
    ensures RawShapes(items)[i..] == RawShapes(items)[i..j] + RawShapes(items)[j..]
  {}

  /** `fold` is clean after `p` whenever `raw` is, and conversely if `exact`. */
  predicate Follows(p: seq<Shape>, raw: seq<Shape>, fold: seq<Shape>, exact: bool) {
    && (Clean(p + raw) ==> Clean(p + fold))
    && (exact && Clean(p + fold) ==> Clean(p + raw))
  }

  lemma FollowsDrop(p: seq<Shape>, b: seq<Shape>, rest: seq<Shape>, tail: seq<Shape>)
    requires Block(b) && Follows(p, rest, tail, false)
    ensures Follows(p, b + rest, tail, false)
  {
    if Clean(p + (b + rest)) { DeleteBlock(p, b, rest); }
  }

  lemma FollowsNote(p: seq<Shape>, b: seq<Shape>, rest: seq<Shape>, tail: seq<Shape>, exact: bool)
    requires Block(b) && Follows(p + [Plain], rest, tail, exact)
    ensures Follows(p, b + rest, [Plain] + tail, exact)
  {
    ReplaceBlock(p, b, [Plain], rest);
    assert p + ([Plain] + rest) == p + [Plain] + rest;
    assert p + ([Plain] + tail) == p + [Plain] + tail;
  }

  lemma FollowsKept(p: seq<Shape>, b: seq<Shape>, rest: seq<Shape>, tail: seq<Shape>, exact: bool)
    requires Follows(p + b, rest, tail, exact)
    ensures Follows(p, b + rest, b + tail, exact)
  {
    assert p + (b + rest) == p + b + rest;
    assert p + (b + tail) == p + b + tail;
  }

  /** A dropped range directly followed by a tool result. */
  predicate Exposed(src: Source, covered: set<Key>, i: nat) {
    && i < |src.Items()| && RangeEnd(src, i).Some?
    && KeyAt(src.Items(), i, RangeEnd(src, i).value) in covered
    && RangeEnd(src, i).value < |src.Items()| && src.Items()[RangeEnd(src, i).value].ToolResult?
  }

  /** No dropped range from `i` on hides the gap between a call and its result. */
  ghost predicate NoneExposed(src: Source, covered: set<Key>, i: nat) {
    forall j: nat :: i <= j ==> !Exposed(src, covered, j)
  }

  /** Putting a block back keeps a clean sequence clean, unless a reply comes right behind it. */
  lemma FollowsDropExactly(p: seq<Shape>, b: seq<Shape>, rest: seq<Shape>, tail: seq<Shape>, exact: bool)
    requires Block(b) && Follows(p, rest, tail, exact) && (exact ==> rest == [] || !rest[0].Reply?)
    ensures Follows(p, b + rest, tail, exact)
  {
    FollowsDrop(p, b, rest, tail);
    if exact {
      BlockThenRest(b, rest);
      CleanContext(p, rest, b + rest);
    }
  }

  lemma BehindRange(src: Source, covered: set<Key>, i: nat)
    requires i < |src.Items()| && StepAt(src, map[], covered, i).entry.None? && !Exposed(src, covered, i)
    ensures var rest := RawShapes(src.Items())[StepAt(src, map[], covered, i).next..];
            rest == [] || !rest[0].Reply?
  {}

  /** The fold from `i` on follows the raw messages from `i` on. */
  ghost predicate FollowsFrom(src: Source, folded: map<Key, Text>, covered: set<Key>, i: nat, p: seq<Shape>)
    requires i <= |src.Items()|
  {
    Follows(p, RawShapes(src.Items())[i..], FoldShapes(src, folded, covered, i), NoneExposed(src, covered, i))
  }

  lemma NoneExposedLater(src: Source, covered: set<Key>, i: nat, j: nat)
    requires i <= j && NoneExposed(src, covered, i)
    ensures NoneExposed(src, covered, j)
  {
    hide Exposed;
  }

  lemma ContextEnds(src: Source, folded: map<Key, Text>, covered: set<Key>, p: seq<Shape>)
    ensures FollowsFrom(src, folded, covered, |src.Items()|, p)
  {
    hide Clean;
    assert RawShapes(src.Items())[|src.Items()|..] == [] == FoldShapes(src, folded, covered, |src.Items()|);
  }

  lemma ContextDrop(src: Source, folded: map<Key, Text>, covered: set<Key>, i: nat, p: seq<Shape>)
    requires i < |src.Items()| && StepAt(src, folded, covered, i).entry.None?
    requires FollowsFrom(src, folded, covered, StepAt(src, folded, covered, i).next, p)
    ensures FollowsFrom(src, folded, covered, i, p)
  {
    var step, exact := StepAt(src, folded, covered, i), NoneExposed(src, covered, i);
    if exact {
      NotExposed(src, covered, i);
      BehindRange(src, covered, i);
      NoneExposedLater(src, covered, i, step.next);
    }
    RangeIsBlock(src, i);
    RawShapesSplit(src.Items(), i, step.next);
    FoldShapesStep(src, folded, covered, i);
    hide NoneExposed, Clean, Exposed, Follows, RangeEnd, Block, FoldShapes, RawShapes;
    var rest, tail := RawShapes(src.Items())[step.next..], FoldShapes(src, folded, covered, step.next);
    FollowsWeakens(p, rest, tail, NoneExposed(src, covered, step.next), exact);
    FollowsDropExactly(p, RawShapes(src.Items())[i..step.next], rest, tail, exact);
  }

  lemma ContextNote(src: Source, folded: map<Key, Text>, covered: set<Key>, i: nat, p: seq<Shape>)
    requires i < |src.Items()| && StepAt(src, folded, covered, i).entry.Some? && StepAt(src, folded, covered, i).entry.value.Note?
    requires FollowsFrom(src, folded, covered, StepAt(src, folded, covered, i).next, p + [Plain])
    ensures FollowsFrom(src, folded, covered, i, p)
  {
    var step, exact := StepAt(src, folded, covered, i), NoneExposed(src, covered, i);
    if exact {
      NoneExposedLater(src, covered, i, step.next);
    }
    RangeIsBlock(src, i);
    RawShapesSplit(src.Items(), i, step.next);
    FoldShapesStep(src, folded, covered, i);
    hide NoneExposed, Clean, Exposed, Follows, RangeEnd, Block, FoldShapes, RawShapes;
    var rest, tail := RawShapes(src.Items())[step.next..], FoldShapes(src, folded, covered, step.next);
    FollowsWeakens(p + [Plain], rest, tail, NoneExposed(src, covered, step.next), exact);
    FollowsNote(p, RawShapes(src.Items())[i..step.next], rest, tail, exact);
  }

  lemma ContextKept(src: Source, folded: map<Key, Text>, covered: set<Key>, i: nat, p: seq<Shape>)
    requires i < |src.Items()| && StepAt(src, folded, covered, i).entry.Some? && StepAt(src, folded, covered, i).entry.value.Kept?
    requires FollowsFrom(src, folded, covered, i + 1, p + RawShapes(src.Items())[i..i + 1])
    ensures FollowsFrom(src, folded, covered, i, p)
  {
    var step, exact := StepAt(src, folded, covered, i), NoneExposed(src, covered, i);
    if exact {
      NoneExposedLater(src, covered, i, i + 1);
    }
    RawShapesSplit(src.Items(), i, i + 1);
    FoldShapesStep(src, folded, covered, i);
    var b := RawShapes(src.Items())[i..i + 1];
    assert b == [EntryShape(src.Items(), step.entry.value)];
    hide NoneExposed, Clean, Exposed, Follows, RangeEnd, FoldShapes, RawShapes, EntryShape;
    var rest, tail := RawShapes(src.Items())[i + 1..], FoldShapes(src, folded, covered, i + 1);
    FollowsWeakens(p + b, rest, tail, NoneExposed(src, covered, i + 1), exact);
    FollowsKept(p, b, rest, tail, exact);
  }

  /** Folding the tail after any context `p`: a clean history stays clean, and when no
      dropped range is exposed the two are clean together. */
  lemma {:induction false} FoldInContext(src: Source, folded: map<Key, Text>, covered: set<Key>, i: nat, p: seq<Shape>)
    requires i <= |src.Items()|
    ensures FollowsFrom(src, folded, covered, i, p)
    decreases |src.Items()| - i
  {
    hide FollowsFrom, StepAt, RawShapes;
    if i == |src.Items()| {
      ContextEnds(src, folded, covered, p);
    } else {
      var step := StepAt(src, folded, covered, i);
      if step.entry.None? {
        FoldInContext(src, folded, covered, step.next, p);
        ContextDrop(src, folded, covered, i, p);
      } else if step.entry.value.Note? {
        FoldInContext(src, folded, covered, step.next, p + [Plain]);
        ContextNote(src, folded, covered, i, p);
      } else {
        FoldInContext(src, folded, covered, i + 1, p + RawShapes(src.Items())[i..i + 1]);
        ContextKept(src, folded, covered, i, p);
      }
    }
  }

  lemma NotExposed(src: Source, covered: set<Key>, i: nat)
    requires NoneExposed(src, covered, i)
    ensures !Exposed(src, covered, i)
  {}

  lemma FollowsWeakens(p: seq<Shape>, raw: seq<Shape>, fold: seq<Shape>, exact: bool, less: bool)
    requires Follows(p, raw, fold, exact) && (less ==> exact)
    ensures Follows(p, raw, fold, less)
  {}

  /** A reply right behind a plain message is never answered for. */
  lemma {:induction false} PlainThenReply(s: seq<Shape>, k: nat)
    requires k + 1 < |s| && s[k].Plain? && s[k + 1].Reply?
    ensures !Clean(s)
    decreases |s|
  {
    if Clean(s) {
      var n := Stride(s);
      assert k >= n || k == 0 by { PlainIsNoReply(s, k); }
      if k >= n {
        PlainThenReply(s[n..], k - n);
      } else {
        assert s[1..][0] == s[k + 1];
      }
    }
  }

  lemma PlainIsNoReply(s: seq<Shape>, k: nat)
    requires s != [] && HeadOk(s) && k < |s| && s[k].Plain?
    ensures k >= Stride(s) || k == 0
  {
    assert forall j :: 0 < j < |s| ==> s[1..][j - 1] == s[j];
  }

  /** A clean history exposes no range at all. */
  lemma CleanExposesNothing(src: Source, covered: set<Key>)
    requires CleanMessages(HistoryMessages(src.Items()))
    ensures NoneExposed(src, covered, 0)
  {
    hide Clean;
    var items, raw := src.Items(), RawShapes(src.Items());
    forall i: nat | 0 <= i && Exposed(src, covered, i) ensures false {
      ExposedIsSettled(src, covered, i);
      PlainThenReply(raw, i);
    }
  }

  lemma ExposedIsSettled(src: Source, covered: set<Key>, i: nat)
    requires Exposed(src, covered, i)
    ensures i + 1 < |src.Items()| && RawShapes(src.Items())[i] == Plain && RawShapes(src.Items())[i + 1].Reply?
  {
    assert !Completes(src.Items(), i);
    assert src.base[i] == src.Items()[i];
  }

  lemma ShapesConcat(a: seq<Message>, b: seq<Message>)
    ensures Shapes(a + b) == Shapes(a) + Shapes(b)
  {}

  /** Without a consolidated summary the folded request is valid exactly when the
      unfolded one is, for every history and every set of folded keys. */
  lemma FoldPreservesCleanness(fixed: seq<Message>, src: Source, folded: map<Key, Text>)
    ensures CleanMessages(FoldMessages(fixed, src, folded, None))
       <==> CleanMessages(fixed + HistoryMessages(src.Items()))
  {
    FoldInContext(src, folded, {}, 0, Shapes(fixed));
    assert NoneExposed(src, {}, 0);
    ShapesConcat(fixed, HistoryMessages(src.Items()));
    ShapesConcat(fixed, Render(src.Items(), Fold(src, folded, {}, 0)));
    assert Shapes(Render(src.Items(), Fold(src, folded, {}, 0))) == FoldShapes(src, folded, {}, 0);
    assert RawShapes(src.Items())[0..] == RawShapes(src.Items());
  }

  predicate AllPlain(ms: seq<Message>) { forall k :: 0 <= k < |ms| ==> ShapeOf(ms[k]) == Plain }

  lemma {:induction false} CleanAfterPlain(p: seq<Shape>, rest: seq<Shape>)
    requires forall k :: 0 <= k < |p| ==> p[k] == Plain
    ensures Clean(p + rest) <==> Clean(rest)
  {
    if p == [] {
      assert p + rest == rest;
    } else {
      assert (p + rest)[1..] == p[1..] + rest;
      CleanAfterPlain(p[1..], rest);
    }
  }

  lemma {:induction false} SystemsArePlain(fixed: seq<Message>)
    ensures AllPlain(Systems(fixed))
  {
    if fixed != [] {
      SystemsArePlain(fixed[1..]);
    }
  }

  /** With a consolidated summary, whatever it covers and whatever else is folded, the
      history is clean if and only if the request is and no dropped range is exposed. */
  lemma ConsolidatedFoldIsClean(fixed: seq<Message>, src: Source, folded: map<Key, Text>, c: Consolidated)
    ensures CleanMessages(HistoryMessages(src.Items()))
       <==> CleanMessages(FoldMessages(fixed, src, folded, Some(c))) && NoneExposed(src, c.covered, 0)
  {
    hide Clean, NoneExposed, Exposed;
    var head, entries := Head(fixed, Some(c)), Fold(src, folded, c.covered, 0);
    SystemsArePlain(fixed);
    assert RawShapes(src.Items())[0..] == RawShapes(src.Items());
    CleanAfterPlain(Shapes(head), RawShapes(src.Items()));
    FoldInContext(src, folded, c.covered, 0, Shapes(head));
    ShapesConcat(head, Render(src.Items(), entries));
    assert Shapes(Render(src.Items(), entries)) == FoldShapes(src, folded, c.covered, 0);
    if CleanMessages(HistoryMessages(src.Items())) {
      CleanExposesNothing(src, c.covered);
    }
  }

  /** The exposed ranges matter: dropping a settled message between a call and its result
      turns an invalid history into a valid request. */
  lemma ConsolidatedFoldCanRepair() returns (src: Source, c: Consolidated)
    ensures !CleanMessages(HistoryMessages(src.Items()))
    ensures c.covered <= Keys(src)
    ensures CleanMessages(FoldMessages([], src, map[], Some(c)))
  {
    src := Source(GapItems(), [], 1);
    assert src.Items() == GapItems();
    var key := KeyAt(src.Items(), 1, 2);
    c := Consolidated(1, None, {key}, []);
    GapRanges(src);
    KeysAreLocal(src, key);
    GapFold(src, key);
    GapShapes();
    GapClean();
    hide RangeEnd, Fold, CallIds, Clean, ShapeOf, HistoryMessage;
    assert RawShapes(GapItems()) == [Calls([7]), Plain, Reply(7)];
    GapMessages(src, c);
  }

  lemma GapMessages(src: Source, c: Consolidated)
    requires src.Items() == GapItems() && Fold(src, map[], c.covered, 0) == [Kept(0), Kept(2)]
    ensures Shapes(FoldMessages([], src, map[], Some(c))) == [Plain, Calls([7]), Reply(7)]
  {
    GapShapes();
    hide Fold, CallIds;
    assert Systems([]) == [];
    var messages := FoldMessages([], src, map[], Some(c));
    assert messages == [SummaryMessage(c.content), HistoryMessage(GapItems()[0]), HistoryMessage(GapItems()[2])];
  }

  lemma GapClean()
    ensures !Clean([Calls([7]), Plain, Reply(7)]) && Clean([Plain, Calls([7]), Reply(7)])
  {
    var raw, fold := [Calls([7]), Plain, Reply(7)], [Plain, Calls([7]), Reply(7)];
    assert raw[1..][0] == Plain;
    assert fold[1..][1..] == [Reply(7)] && fold[1..][2..] == [];
    assert Answered([7], fold[1..][1..]);
  }

  /** A call and its result with a settled summary between them. */
  function GapItems(): seq<Item> {
    [Assistant(1, 0, [Call(7, [], [])], None), Summary([]), ToolResult(1, 0, 7, [])]
  }

  lemma GapShapes()
    ensures ShapeOf(HistoryMessage(GapItems()[0])) == Calls([7])
    ensures ShapeOf(HistoryMessage(GapItems()[1])) == Plain && ShapeOf(HistoryMessage(GapItems()[2])) == Reply(7)
  {
    var parts := [Call(7, [], [])];
    assert CallIds(parts) == [7] + CallIds(parts[1..]) == [7];
  }

  lemma GapRanges(src: Source)
    requires src == Source(GapItems(), [], 1) && src.Items() == GapItems()
    ensures RangeEnd(src, 0) == None && RangeEnd(src, 1) == Some(2) && RangeEnd(src, 2) == None
  {
    GapShapes();
    var items := src.Items();
    assert CallIds(items[0].content) == [7] by { assert items[0].content[1..] == []; }
    assert !items[1].ToolResult? && src.base[1] == items[1];
  }

  lemma GapFold(src: Source, key: Key)
    requires src.Items() == GapItems() && key == KeyAt(src.Items(), 1, 2)
    requires RangeEnd(src, 0) == None && RangeEnd(src, 1) == Some(2) && RangeEnd(src, 2) == None
    ensures Fold(src, map[], {key}, 0) == [Kept(0), Kept(2)]
  {
    hide RangeEnd;
    assert Fold(src, map[], {key}, 3) == [];
    assert Fold(src, map[], {key}, 2) == [Kept(2)];
    assert Fold(src, map[], {key}, 1) == [Kept(2)];
  }

  // ----- system prompts

  /** The system messages among the fixed ones, in order, each once and no other. */
  ghost predicate SystemPart(part: seq<Message>, fixed: seq<Message>) {
    && Subsequence(part, fixed)
    && (forall k :: 0 <= k < |part| ==> part[k].System?)
    && forall m: Message :: m.System? ==> multiset(part)[m] == multiset(fixed)[m]
  }

  lemma {:induction false} SystemsArePart(fixed: seq<Message>)
    ensures SystemPart(Systems(fixed), fixed)
  {
    hide SystemPart;
    if fixed == [] {
      NoSystems();
    } else {
      SystemsArePart(fixed[1..]);
      SystemPartCons(fixed[0], Systems(fixed[1..]), fixed[1..]);
      assert fixed == [fixed[0]] + fixed[1..];
    }
  }

  lemma NoSystems()
    ensures SystemPart([], [])
  {}

  lemma SystemPartCons(first: Message, part: seq<Message>, rest: seq<Message>)
    requires SystemPart(part, rest)
    ensures SystemPart(if first.System? then [first] + part else part, [first] + rest)
  {
    MultisetCons(first, rest);
    MultisetCons(first, part);
    if first.System? {
      SubsequenceCons(first, part, rest);
    } else {
      SubsequenceOfTail(part, first, rest);
    }
    hide Subsequence;
  }

  lemma MultisetCons<T>(head: T, tail: seq<T>)
    ensures forall x :: multiset([head] + tail)[x] == multiset(tail)[x] + if x == head then 1 else 0
  {
    assert multiset([head] + tail) == multiset([head]) + multiset(tail);
  }

  /** A consolidated request opens with every system message and its summary, and no other
      fixed message stands before the history. */
  lemma ConsolidatedKeepsSystems(fixed: seq<Message>, src: Source, folded: map<Key, Text>, c: Consolidated) returns (n: nat)
    ensures var messages := FoldMessages(fixed, src, folded, Some(c));
            && n < |messages| && SystemPart(messages[..n], fixed) && messages[n] == SummaryMessage(c.content)
            && messages[n + 1..] == Render(src.Items(), Fold(src, folded, c.covered, 0))
  {
    hide Fold, Render, Systems, SummaryMessage;
    SystemsArePart(fixed);
    n := |Systems(fixed)|;
    var messages := FoldMessages(fixed, src, folded, Some(c));
    assert messages[..n] == Systems(fixed);
  }

  /** Without one it opens with all fixed messages. */
  lemma FoldKeepsFixed(fixed: seq<Message>, src: Source, folded: map<Key, Text>)
    ensures fixed <= FoldMessages(fixed, src, folded, None)
  {}

  // ----- user constraints

  /** The messages of the items selected by `keep`, from index `i` on, in order. */
  ghost function Select(items: seq<Item>, keep: iset<nat>, i: nat): seq<Message>
    decreases |items| - i
  {
    if i >= |items| then []
    else if i in keep then [HistoryMessage(items[i])] + Select(items, keep, i + 1)
    else Select(items, keep, i + 1)
  }

  lemma SubsequenceOfTail<T>(part: seq<T>, head: T, whole: seq<T>)
    requires Subsequence(part, whole)
    ensures Subsequence(part, [head] + whole)
  {
    assert ([head] + whole)[1..] == whole;
  }

  lemma SubsequenceCons<T>(head: T, part: seq<T>, whole: seq<T>)
    requires Subsequence(part, whole)
    ensures Subsequence([head] + part, [head] + whole)
  {
    assert ([head] + part)[1..] == part;
    assert ([head] + whole)[1..] == whole;
  }

  lemma {:induction false} SelectSkips(items: seq<Item>, keep: iset<nat>, i: nat, end: nat)
    requires i <= end
    requires forall j :: i <= j < end ==> j !in keep
    ensures Select(items, keep, i) == Select(items, keep, end)
    decreases end - i
  {
    if i < end {
      SelectSkips(items, keep, i + 1, end);
      if i >= |items| {
        assert Select(items, keep, end) == [];
      }
    }
  }

  /** No compressible range covers any selected index. */
  ghost predicate Untouchable(src: Source, keep: iset<nat>) {
    forall i: nat, j: nat :: RangeEnd(src, i).Some? && i <= j < RangeEnd(src, i).value ==> j !in keep
  }

  lemma {:induction false} SelectionSurvives(src: Source, folded: map<Key, Text>, covered: set<Key>, keep: iset<nat>, i: nat)
    requires Untouchable(src, keep)
    ensures Subsequence(Select(src.Items(), keep, i), Render(src.Items(), Fold(src, folded, covered, i)))
    decreases |src.Items()| - i
  {
    var items := src.Items();
    if i < |items| {
      var step := StepAt(src, folded, covered, i);
      var part, rest := Select(items, keep, step.next), Fold(src, folded, covered, step.next);
      SelectionSurvives(src, folded, covered, keep, step.next);
      match step.entry {
        case None =>
          SelectSkips(items, keep, i, step.next);
        case Some(e) =>
          RenderCons(_ => true, items, e, rest);
          if i in keep {
            SubsequenceCons(HistoryMessage(items[i]), part, Render(items, rest));
          } else {
            if e.Note? { SelectSkips(items, keep, i, step.next); }
            SubsequenceOfTail(part, EntryMessage(items, e), Render(items, rest));
          }
      }
    }
  }

  lemma {:induction false} SubsequenceBehind<T>(part: seq<T>, head: seq<T>, whole: seq<T>)
    requires Subsequence(part, whole)
    ensures Subsequence(part, head + whole)
  {
    if head == [] {
      assert head + whole == whole;
    } else {
      SubsequenceBehind(part, head[1..], whole);
      SubsequenceOfTail(part, head[0], head[1..] + whole);
      assert head + whole == [head[0]] + (head[1..] + whole);
    }
  }

  predicate InExchange(items: seq<Item>, j: nat) {
    exists s: nat :: s <= j && Completes(items, s) && j < ExchangeEnd(items, s)
  }

  /** What the projection promises never to touch: the current loop's user messages,
      and every item of the live turn outside a complete tool exchange. */
  predicate MustKeep(src: Source, j: nat) {
    && j < |src.Items()|
    && var item := src.Items()[j];
       || (item.User? && item.loopId == src.loopId)
       || (j >= |src.base| && !InExchange(src.Items(), j))
  }

  ghost function Protected(src: Source): iset<nat> { iset j: nat | MustKeep(src, j) }

  lemma MustKeepIsUntouchable(src: Source)
    ensures Untouchable(src, Protected(src))
  {
    var items := src.Items();
    forall i: nat, j: nat | RangeEnd(src, i).Some? && i <= j < RangeEnd(src, i).value
      ensures !MustKeep(src, j)
    {
      if Completes(items, i) {
        assert InExchange(items, j);
        assert j > i ==> Answers(items[i], items[j]);
      } else {
        assert src.base[i] == items[i];
      }
    }
  }

  /** Folding never loses a protected message, for any folded keys and any
      consolidated summary: they all appear unchanged and in order. */
  lemma ProtectedMessagesSurvive(fixed: seq<Message>, src: Source, folded: map<Key, Text>, consolidated: Option<Consolidated>)
    ensures Subsequence(Select(src.Items(), Protected(src), 0),
                        FoldMessages(fixed, src, folded, consolidated))
  {
    var keep := Protected(src);
    var covered := Covered(consolidated);
    MustKeepIsUntouchable(src);
    SelectionSurvives(src, folded, covered, keep, 0);
    SubsequenceBehind(Select(src.Items(), keep, 0), Head(fixed, consolidated),
                      Render(src.Items(), Fold(src, folded, covered, 0)));
  }

  /** `current_user_texts`. */
  function CurrentUserTexts(items: seq<Item>, loopId: LoopId): seq<Text> {
    if items == [] then []
    else (if items[0].User? && items[0].loopId == loopId then [items[0].input] else [])
         + CurrentUserTexts(items[1..], loopId)
  }

  function UserMessages(texts: seq<Text>): seq<Message> {
    seq(|texts|, i requires 0 <= i < |texts| => UserText(texts[i]))
  }

  ghost function CurrentUsers(items: seq<Item>, loopId: LoopId): iset<nat> {
    iset j: nat | j < |items| && items[j].User? && items[j].loopId == loopId
  }

  lemma {:induction false} CurrentUsersAreSelected(items: seq<Item>, loopId: LoopId, i: nat)
    requires i <= |items|
    ensures UserMessages(CurrentUserTexts(items[i..], loopId))
         == Select(items, CurrentUsers(items, loopId), i)
    decreases |items| - i
  {
    if i < |items| {
      CurrentUsersAreSelected(items, loopId, i + 1);
      assert items[i..][1..] == items[i + 1..];
    }
  }

  /** The prompt and every steer of the current loop reach the model verbatim, in order. */
  lemma UserConstraintsSurvive(fixed: seq<Message>, src: Source, folded: map<Key, Text>, consolidated: Option<Consolidated>)
    ensures Subsequence(UserMessages(CurrentUserTexts(src.Items(), src.loopId)),
                        FoldMessages(fixed, src, folded, consolidated))
  {
    var items := src.Items();
    var keep := CurrentUsers(items, src.loopId);
    var covered := Covered(consolidated);
    MustKeepIsUntouchable(src);
    assert forall j :: j in keep ==> MustKeep(src, j);
    CurrentUsersAreSelected(items, src.loopId, 0);
    assert items[0..] == items;
    SelectionSurvives(src, folded, covered, keep, 0);
    SubsequenceBehind(Select(items, keep, 0), Head(fixed, consolidated), Render(items, Fold(src, folded, covered, 0)));
  }

  // ----- growing histories

  function Extended(src: Source, ext: seq<Item>): Source { src.(appended := src.appended + ext) }

  lemma ExtendedItems(src: Source, ext: seq<Item>)
    ensures Extended(src, ext).Items() == src.Items() + ext
  {
    assert src.base + (src.appended + ext) == src.base + src.appended + ext;
  }

  /** A complete exchange touches the end of the history and the extension goes on
      with a further tool result. */
  predicate Seam(src: Source, ext: seq<Item>, i: nat) {
    && Completes(src.Items(), i) && ExchangeEnd(src.Items(), i) == |src.Items()|
    && ext != [] && ext[0].ToolResult?
  }

  /** One range survives the extension exactly when it is not at such a seam. */
  lemma RangeSurvives(src: Source, ext: seq<Item>, i: nat)
    requires i < |src.Items()|
    ensures RangeEnd(src, i).Some? ==> (RangeEnd(Extended(src, ext), i) == RangeEnd(src, i) <==> !Seam(src, ext, i))
    ensures RangeEnd(src, i) == None && RangeEnd(Extended(src, ext), i).Some? ==>
              RangeEnd(Extended(src, ext), i).value > |src.Items()|
  {
    var items, more := src.Items(), Extended(src, ext).Items();
    ExtendedItems(src, ext);
    assert more[i] == items[i];
    if HasCalls(items[i]) {
      var end := ExchangeEnd(items, i);
      if end <= |items| {
        assert forall k :: i < k < end ==> more[k] == items[k];
        assert Results(items, i, end) <==> Results(more, i, end);
        if end < |items| { assert more[end] == items[end]; }
        if end == |items| && ext != [] { assert more[end] == ext[0]; }
      }
    }
    assert i < |src.base| ==> items[i] == src.base[i];
  }

  /** Extending the history keeps every installed key valid exactly when no complete
      exchange at its very end is followed by another tool result. */
  lemma KeysSurviveExtension(src: Source, ext: seq<Item>)
    ensures Keys(src) <= Keys(Extended(src, ext)) <==> forall i: nat :: !Seam(src, ext, i)
  {
    var items, more := src.Items(), Extended(src, ext).Items();
    ExtendedItems(src, ext);
    if forall i: nat :: !Seam(src, ext, i) {
      forall key | key in Keys(src) ensures key in Keys(Extended(src, ext)) {
        KeysAreLocal(src, key);
        KeysAreLocal(Extended(src, ext), key);
        RangeSurvives(src, ext, key.start);
        assert more[key.start..key.end] == items[key.start..key.end];
      }
    } else {
      var i: nat :| Seam(src, ext, i);
      RangeSurvives(src, ext, i);
      var key := KeyAt(items, i, |items|);
      KeysAreLocal(src, key);
      KeysAreLocal(Extended(src, ext), key);
    }
  }

  /** The fold takes the same step in the extended history. */
  lemma StepSurvives(src: Source, ext: seq<Item>, folded: map<Key, Text>, covered: set<Key>, i: nat)
    requires i < |src.Items()| && i < |Extended(src, ext).Items()|
    requires folded.Keys <= Keys(src) && covered <= Keys(src)
    requires !Seam(src, ext, i)
    ensures StepAt(Extended(src, ext), folded, covered, i) == StepAt(src, folded, covered, i)
  {
    var items, more := src.Items(), Extended(src, ext).Items();
    ExtendedItems(src, ext);
    RangeSurvives(src, ext, i);
    var range, grown := RangeEnd(src, i), RangeEnd(Extended(src, ext), i);
    if range.Some? {
      assert more[i..range.value] == items[i..range.value];
    } else if grown.Some? {
      KeysAreLocal(src, KeyAt(more, i, grown.value));
    }
  }

  lemma {:induction false} FoldExtends(src: Source, ext: seq<Item>, folded: map<Key, Text>, covered: set<Key>, i: nat)
    requires i <= |src.Items()|
    requires folded.Keys <= Keys(src) && covered <= Keys(src)
    requires forall k: nat :: !Seam(src, ext, k)
    ensures Fold(Extended(src, ext), folded, covered, i)
         == Fold(src, folded, covered, i) + Fold(Extended(src, ext), folded, covered, |src.Items()|)
    decreases |src.Items()| - i
  {
    var items, longer := src.Items(), Extended(src, ext);
    ExtendedItems(src, ext);
    hide Fold, StepAt, Keys, Seam;
    if i < |items| {
      StepSurvives(src, ext, folded, covered, i);
      FoldUnfolds(src, folded, covered, i);
      FoldUnfolds(longer, folded, covered, i);
      var step := StepAt(src, folded, covered, i);
      FoldExtends(src, ext, folded, covered, step.next);
      if step.entry.Some? {
        ConcatAssoc([step.entry.value], Fold(src, folded, covered, step.next), Fold(longer, folded, covered, |items|));
      }
    } else {
      FoldEnds(src, folded, covered, _ => true);
      ConcatNothing(Fold(longer, folded, covered, |items|));
    }
  }

  /** Reductions valid for a history stay in force when it grows: the earlier request
      is a prefix of the later one, message for message. */
  lemma FoldIsStableUnderExtension(fixed: seq<Message>, src: Source, ext: seq<Item>,
                                   folded: map<Key, Text>, consolidated: Option<Consolidated>)
    requires folded.Keys <= Keys(src) && Covered(consolidated) <= Keys(src)
    requires forall k: nat :: !Seam(src, ext, k)
    ensures FoldMessages(fixed, src, folded, consolidated) <= FoldMessages(fixed, Extended(src, ext), folded, consolidated)
  {
    var covered := Covered(consolidated);
    var short := Fold(src, folded, covered, 0);
    var long := Fold(Extended(src, ext), folded, covered, 0);
    FoldExtends(src, ext, folded, covered, 0);
    ExtendedItems(src, ext);
    forall k | 0 <= k < |short|
      ensures EntryMessage(src.Items(), short[k]) == EntryMessage(Extended(src, ext).Items(), long[k])
    {
      assert long[k] == short[k];
    }
    assert Render(src.Items(), short) <= Render(Extended(src, ext).Items(), long);
  }
}
