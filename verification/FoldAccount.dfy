/** What a folded request says about its history: which items it sends, which it
    summarises, which it drops, and how much of a history can be compressed at all. */
module FoldAccount {
  import opened Prelude
  import opened Conversation
  import opened Projection
  import opened FoldLaws

  // ----- messages and their items

  /** The item a history message was made from, given whose turn and request it belongs to. */
  function ReadItem(m: Message, loopId: LoopId, request: nat): Item {
    match m
    case System(text) => Summary(text)
    case UserText(text) => User(loopId, text)
    case AssistantParts(parts) => Assistant(loopId, request, parts, None)
    case AssistantWithReplay(parts, replayed) => Assistant(loopId, request, parts, Some(replayed))
    case Tool(callId, output) => ToolResult(loopId, request, callId, output)
  }

  function LoopOf(item: Item): LoopId { if item.Summary? then 0 else item.loopId }

  function RequestOf(item: Item): nat { if item.Assistant? || item.ToolResult? then item.request else 0 }

  /** A message tells everything its item said. */
  lemma MessagesTellItems(item: Item)
    ensures ReadItem(HistoryMessage(item), LoopOf(item), RequestOf(item)) == item
  {}

  /** The summary inside a labelled summary message. */
  function ReadSummary(m: Message): Option<Text> {
    var front, back := |SUMMARY_DATA_PREFIX|, |SUMMARY_DATA_SUFFIX|;
    if m.UserText? && |m.text| >= front + back && m.text[..front] == Ascii(SUMMARY_DATA_PREFIX) && m.text[|m.text| - back..] == Ascii(SUMMARY_DATA_SUFFIX)
    then Some(m.text[front..|m.text| - back]) else None
  }

  lemma SummariesReadBack(content: Text)
    ensures ReadSummary(SummaryMessage(content)) == Some(content)
  {
    hide Ascii;
    Labelled(Ascii(SUMMARY_DATA_PREFIX), content, Ascii(SUMMARY_DATA_SUFFIX));
  }

  lemma Labelled(front: Text, content: Text, back: Text)
    ensures var text := front + content + back;
            text[..|front|] == front && text[|text| - |back|..] == back && text[|front|..|text| - |back|] == content
  {}

  /** The ids of a message's calls, in order: those of one part, and of parts put together. */
  lemma OnePartCalls(part: Part)
    ensures CallIds([part]) == if part.Call? then [part.id] else []
  {
    assert [part][1..] == [];
  }

  lemma {:induction false} CallsOfConcat(a: seq<Part>, b: seq<Part>)
    ensures CallIds(a + b) == CallIds(a) + CallIds(b)
  {
    if a == [] {
      assert a + b == b;
    } else {
      assert (a + b)[1..] == a[1..] + b;
      CallsOfConcat(a[1..], b);
    }
  }

  // ----- the account

  /** One stretch of history and what became of it. */
  datatype Piece = Whole(item: Item) | Folded(key: Key) | Dropped(key: Key)

  function SourceOf(p: Piece): seq<Item> { if p.Whole? then [p.item] else p.key.source }

  function SourceOfAll(ps: seq<Piece>): seq<Item> { if ps == [] then [] else SourceOf(ps[0]) + SourceOfAll(ps[1..]) }

  /** An item is sent as its message, a folded range as its summary, a dropped one not at all. */
  function SentAs(p: Piece, folded: map<Key, Text>): seq<Message> {
    if p.Whole? then [HistoryMessage(p.item)]
    else if p.Folded? && p.key in folded then [SummaryMessage(folded[p.key])]
    else []
  }

  function SentAsAll(ps: seq<Piece>, folded: map<Key, Text>): seq<Message> {
    if ps == [] then [] else SentAs(ps[0], folded) + SentAsAll(ps[1..], folded)
  }

  /** Every range stands at the place its key names. */
  predicate InPlace(ps: seq<Piece>, at: nat) {
    if ps == [] then true
    else
      var next := at + |SourceOf(ps[0])|;
      (!ps[0].Whole? ==> ps[0].key.start == at && ps[0].key.end == next) && InPlace(ps[1..], next)
  }

  /** Exactly the covered ranges are dropped and exactly the other folded ones are summarised. */
  ghost predicate Decided(ps: seq<Piece>, at: nat, src: Source, folded: map<Key, Text>, covered: set<Key>) {
    && (forall k: nat :: k < |ps| && ps[k].Dropped? ==> IsKey(src, ps[k].key) && ps[k].key in covered)
    && (forall k: nat :: k < |ps| && ps[k].Folded? ==> IsKey(src, ps[k].key) && ps[k].key in folded && ps[k].key !in covered)
    && (forall key: Key :: IsKey(src, key) && at <= key.start && key in covered ==> Dropped(key) in ps)
    && (forall key: Key :: IsKey(src, key) && at <= key.start && key in folded && key !in covered ==> Folded(key) in ps)
  }

  lemma DecidedCons(p: Piece, ps: seq<Piece>, at: nat, next: nat, src: Source, folded: map<Key, Text>, covered: set<Key>)
    requires Decided(ps, next, src, folded, covered)
    requires p.Dropped? ==> IsKey(src, p.key) && p.key in covered
    requires p.Folded? ==> IsKey(src, p.key) && p.key in folded && p.key !in covered
    requires forall key :: IsKey(src, key) && at <= key.start < next ==>
               (key in covered ==> p == Dropped(key)) && (key in folded && key !in covered ==> p == Folded(key))
    ensures Decided([p] + ps, at, src, folded, covered)
  {
    hide IsKey;
    var all := [p] + ps;
    assert forall q :: q in ps ==> q in all;
    assert p in all;
    assert forall k: nat :: k < |all| ==> all[k] == if k == 0 then p else ps[k - 1];
  }

  /** What the step at `i` decides, and that no other range starts in it. */
  function PieceAt(src: Source, folded: map<Key, Text>, covered: set<Key>, i: nat): Piece
    requires i < |src.Items()|
  {
    var step := StepAt(src, folded, covered, i);
    if step.entry.None? then Dropped(KeyAt(src.Items(), i, step.next))
    else if step.entry.value.Note? then Folded(KeyAt(src.Items(), i, step.next))
    else Whole(src.Items()[i])
  }

  lemma PieceDecides(src: Source, folded: map<Key, Text>, covered: set<Key>, i: nat)
    requires i < |src.Items()|
    ensures var p, next := PieceAt(src, folded, covered, i), StepAt(src, folded, covered, i).next;
            && SourceOf(p) == src.Items()[i..next]
            && (!p.Whole? ==> IsKey(src, p.key) && p.key.start == i && p.key.end == next)
            && (p.Dropped? ==> p.key in covered)
            && (p.Folded? ==> p.key in folded && p.key !in covered)
            && forall key :: IsKey(src, key) && i <= key.start < next ==>
                 (key in covered ==> p == Dropped(key)) && (key in folded && key !in covered ==> p == Folded(key))
  {
    var p, next := PieceAt(src, folded, covered, i), StepAt(src, folded, covered, i).next;
    if RangeEnd(src, i).Some? {
      NoRangeInside(src, i);
    }
    forall key | IsKey(src, key) && i <= key.start < next
      ensures (key in covered ==> p == Dropped(key)) && (key in folded && key !in covered ==> p == Folded(key))
    {
      hide RangeEnd;
      KeyIsInside(src, key);
    }
  }

  lemma PieceIsSent(src: Source, folded: map<Key, Text>, covered: set<Key>, i: nat)
    requires i < |src.Items()|
    ensures var step := StepAt(src, folded, covered, i);
            SentAs(PieceAt(src, folded, covered, i), folded)
            == if step.entry.None? then [] else [EntryMessage(src.Items(), step.entry.value)]
  {
    hide RangeEnd, SummaryMessage;
  }

  lemma AccountCons(p: Piece, rest: seq<Piece>, at: nat, folded: map<Key, Text>)
    ensures SourceOfAll([p] + rest) == SourceOf(p) + SourceOfAll(rest)
    ensures SentAsAll([p] + rest, folded) == SentAs(p, folded) + SentAsAll(rest, folded)
    ensures var next := at + |SourceOf(p)|;
            InPlace([p] + rest, at) <==> (!p.Whole? ==> p.key.start == at && p.key.end == next) && InPlace(rest, next)
  {
    hide SourceOf, SentAs;
    assert ([p] + rest)[1..] == rest;
  }

  lemma RenderFrom(src: Source, folded: map<Key, Text>, covered: set<Key>, i: nat)
    requires i < |src.Items()|
    ensures Render(src.Items(), Fold(src, folded, covered, i))
         == SentAs(PieceAt(src, folded, covered, i), folded)
            + Render(src.Items(), Fold(src, folded, covered, StepAt(src, folded, covered, i).next))
  {
    var step := StepAt(src, folded, covered, i);
    var rest := Fold(src, folded, covered, step.next);
    PieceIsSent(src, folded, covered, i);
    FoldUnfolds(src, folded, covered, i);
    hide StepAt, PieceAt, SentAs, Fold, EntryMessage;
    if step.entry.Some? {
      RenderCons(_ => true, src.Items(), step.entry.value, rest);
    }
    hide Render;
    ConcatNothing(Render(src.Items(), rest));
  }

  /** Everything an account of the history from `at` on says. */
  ghost predicate Accounts(ps: seq<Piece>, at: nat, src: Source, folded: map<Key, Text>, covered: set<Key>) {
    && at <= |src.Items()|
    && SourceOfAll(ps) == src.Items()[at..] && InPlace(ps, at) && Decided(ps, at, src, folded, covered)
    && SentAsAll(ps, folded) == Render(src.Items(), Fold(src, folded, covered, at))
  }

  lemma DecidedGrows(src: Source, folded: map<Key, Text>, covered: set<Key>, i: nat, rest: seq<Piece>)
    requires i < |src.Items()| && Decided(rest, StepAt(src, folded, covered, i).next, src, folded, covered)
    ensures Decided([PieceAt(src, folded, covered, i)] + rest, i, src, folded, covered)
  {
    PieceDecides(src, folded, covered, i);
    hide StepAt, PieceAt, SourceOf, IsKey, Decided;
    DecidedCons(PieceAt(src, folded, covered, i), rest, i, StepAt(src, folded, covered, i).next, src, folded, covered);
  }

  lemma PieceStands(src: Source, folded: map<Key, Text>, covered: set<Key>, i: nat)
    requires i < |src.Items()|
    ensures var p, next := PieceAt(src, folded, covered, i), StepAt(src, folded, covered, i).next;
            && i < next <= |src.Items()|
            && SourceOf(p) == src.Items()[i..next] && |SourceOf(p)| == next - i
            && (!p.Whole? ==> p.key.start == i && p.key.end == next)
  {
    PieceDecides(src, folded, covered, i);
    hide StepAt, PieceAt, SourceOf, IsKey;
  }

  lemma SourceGrows(src: Source, folded: map<Key, Text>, covered: set<Key>, i: nat, rest: seq<Piece>)
    requires i < |src.Items()| && SourceOfAll(rest) == src.Items()[StepAt(src, folded, covered, i).next..]
    ensures SourceOfAll([PieceAt(src, folded, covered, i)] + rest) == src.Items()[i..]
  {
    var next, p := StepAt(src, folded, covered, i).next, PieceAt(src, folded, covered, i);
    hide StepAt, PieceAt, SourceOf, SourceOfAll;
    PieceStands(src, folded, covered, i);
    AccountCons(p, rest, i, folded);
    SplitTail(src.Items(), i, next);
  }

  lemma PlaceGrows(src: Source, folded: map<Key, Text>, covered: set<Key>, i: nat, rest: seq<Piece>)
    requires i < |src.Items()| && InPlace(rest, StepAt(src, folded, covered, i).next)
    ensures InPlace([PieceAt(src, folded, covered, i)] + rest, i)
  {
    hide StepAt, PieceAt, SourceOf, InPlace, SourceOfAll, SentAsAll;
    PieceStands(src, folded, covered, i);
    AccountCons(PieceAt(src, folded, covered, i), rest, i, folded);
  }

  lemma SentGrows(src: Source, folded: map<Key, Text>, covered: set<Key>, i: nat, rest: seq<Piece>)
    requires i < |src.Items()|
    requires SentAsAll(rest, folded) == Render(src.Items(), Fold(src, folded, covered, StepAt(src, folded, covered, i).next))
    ensures SentAsAll([PieceAt(src, folded, covered, i)] + rest, folded) == Render(src.Items(), Fold(src, folded, covered, i))
  {
    hide StepAt, PieceAt, SentAs, Fold, Render, SentAsAll, SourceOfAll, InPlace;
    RenderFrom(src, folded, covered, i);
    AccountCons(PieceAt(src, folded, covered, i), rest, i, folded);
  }

  lemma AccountGrows(src: Source, folded: map<Key, Text>, covered: set<Key>, i: nat, rest: seq<Piece>)
    requires i < |src.Items()| && Accounts(rest, StepAt(src, folded, covered, i).next, src, folded, covered)
    ensures Accounts([PieceAt(src, folded, covered, i)] + rest, i, src, folded, covered)
  {
    hide StepAt, PieceAt, Fold, Decided, Render, InPlace, SourceOfAll, SentAsAll;
    DecidedGrows(src, folded, covered, i, rest);
    SourceGrows(src, folded, covered, i, rest);
    PlaceGrows(src, folded, covered, i, rest);
    SentGrows(src, folded, covered, i, rest);
  }

  /** The history cut into pieces: what each piece was and what is sent for it are read from the same list. */
  lemma {:induction false} FoldIsAccounted(src: Source, folded: map<Key, Text>, covered: set<Key>, i: nat) returns (ps: seq<Piece>)
    requires i <= |src.Items()|
    ensures Accounts(ps, i, src, folded, covered)
    decreases |src.Items()| - i
  {
    if i == |src.Items()| {
      ps := [];
      NoKeyBehind(src, i, folded, covered);
      FoldEnds(src, folded, covered, _ => true);
    } else {
      var rest := FoldIsAccounted(src, folded, covered, StepAt(src, folded, covered, i).next);
      AccountGrows(src, folded, covered, i, rest);
      hide Accounts;
      ps := [PieceAt(src, folded, covered, i)] + rest;
    }
  }

  lemma SplitTail<T>(s: seq<T>, i: nat, j: nat)
    requires i <= j <= |s|
    ensures s[i..] == s[i..j] + s[j..]
  {}

  lemma NoKeyBehind(src: Source, i: nat, folded: map<Key, Text>, covered: set<Key>)
    requires i >= |src.Items()|
    ensures Decided([], i, src, folded, covered)
  {
    forall key | IsKey(src, key) && i <= key.start ensures false {
      hide RangeEnd;
      KeyIsInside(src, key);
    }
  }

  /** Every request is an account of its whole history behind its head. */
  lemma RequestIsAccounted(fixed: seq<Message>, src: Source, folded: map<Key, Text>, consolidated: Option<Consolidated>) returns (ps: seq<Piece>)
    ensures SourceOfAll(ps) == src.Items() && InPlace(ps, 0) && Decided(ps, 0, src, folded, Covered(consolidated))
    ensures FoldMessages(fixed, src, folded, consolidated) == Head(fixed, consolidated) + SentAsAll(ps, folded)
  {
    ps := FoldIsAccounted(src, folded, Covered(consolidated), 0);
    assert src.Items()[0..] == src.Items();
  }

  // ----- how much can be compressed

  /** Results carry the loop and request of the assistant they follow. */
  predicate Attributed(items: seq<Item>) {
    forall i, k :: 0 <= i < k < |items| && items[i].Assistant? && k < ExchangeEnd(items, i) && items[k].ToolResult? ==>
      items[k].loopId == items[i].loopId && items[k].request == items[i].request
  }

  ghost predicate Compressible(src: Source, i: nat) {
    exists start: nat :: start <= i && RangeEnd(src, start).Some? && i < RangeEnd(src, start).value
  }

  /** Tool traffic anywhere, and settled items other than the current loop's user messages. */
  predicate MayFold(src: Source, i: nat)
    requires i < |src.Items()|
  {
    var item := src.Items()[i];
    || item.ToolResult? || HasCalls(item)
    || (i < |src.base| && !(item.User? && item.loopId == src.loopId))
  }

  lemma RawShapeAt(items: seq<Item>, k: nat)
    requires k < |items|
    ensures RawShapes(items)[k] == ShapeOf(HistoryMessage(items[k]))
    ensures RawShapes(items)[k].Reply? ==> items[k].ToolResult? && RawShapes(items)[k].id == items[k].callId
    ensures items[k].ToolResult? ==> RawShapes(items)[k].Reply?
  {}

  /** The shapes after `i` up to `end` are replies to these ids, each once. */
  predicate Replies(s: seq<Shape>, i: nat, end: nat, ids: seq<CallId>) {
    && end <= |s|
    && (forall k :: i < k < end ==> s[k].Reply? && s[k].id in ids)
    && (forall j, k :: i < j < k < end ==> s[j].id != s[k].id)
  }

  lemma AnsweredAt(s: seq<Shape>, i: nat, ids: seq<CallId>)
    requires i < |s| && Answered(ids, s[i + 1..])
    ensures Distinct(ids) && Replies(s, i, i + 1 + |ids|, ids)
  {
    var rest := s[i + 1..];
    assert forall k :: i < k < i + 1 + |ids| ==> s[k] == rest[k - i - 1];
  }

  lemma ReplyAnswers(items: seq<Item>, i: nat, k: nat)
    requires i < k < |items| && items[i].Assistant? && k < ExchangeEnd(items, i) && Attributed(items)
    requires RawShapes(items)[k].Reply? && RawShapes(items)[k].id in CallIds(items[i].content)
    ensures Answers(items[i], items[k]) && items[k].callId == RawShapes(items)[k].id
  {
    RawShapeAt(items, k);
  }

  lemma NoResultAt(items: seq<Item>, end: nat)
    requires end < |items| && Clean(RawShapes(items)[end..])
    ensures !items[end].ToolResult?
  {
    RawShapeAt(items, end);
    CleanAt(RawShapes(items), end);
  }

  lemma RepliesAreResults(items: seq<Item>, i: nat)
    requires i < |items| && items[i].Assistant? && Attributed(items)
    requires Replies(RawShapes(items), i, ExchangeEnd(items, i), CallIds(items[i].content))
    ensures Results(items, i, ExchangeEnd(items, i))
  {
    hide RawShapes, CallIds, Attributed;
    var s, end := RawShapes(items), ExchangeEnd(items, i);
    forall k | i < k < end ensures Answers(items[i], items[k]) && items[k].callId == s[k].id {
      ReplyAnswers(items, i, k);
    }
  }

  lemma CallsAreReplied(s: seq<Shape>, i: nat)
    requires i < |s| && s[i].Calls? && Clean(s[i..])
    ensures var end := i + 1 + |s[i].ids|; Distinct(s[i].ids) && Replies(s, i, end, s[i].ids) && Clean(s[end..])
  {
    hide Clean, Replies, Answered, Distinct;
    CleanAt(s, i);
    AnsweredAt(s, i, s[i].ids);
  }

  lemma CallsShape(items: seq<Item>, i: nat)
    requires i < |items| && HasCalls(items[i])
    ensures RawShapes(items)[i] == Calls(CallIds(items[i].content))
  {
    hide CallIds;
  }

  lemma ExchangeIsAnswered(items: seq<Item>, i: nat)
    requires i < |items| && HasCalls(items[i]) && Clean(RawShapes(items)[i..])
    ensures Distinct(CallIds(items[i].content)) && Replies(RawShapes(items), i, ExchangeEnd(items, i), CallIds(items[i].content))
    ensures Clean(RawShapes(items)[ExchangeEnd(items, i)..])
  {
    hide RawShapes, Clean, Replies, Distinct;
    CallsShape(items, i);
    hide CallIds, HasCalls;
    CallsAreReplied(RawShapes(items), i);
  }

  lemma AnsweredExchange(items: seq<Item>, i: nat)
    requires i < |items| && HasCalls(items[i]) && Attributed(items) && Clean(RawShapes(items)[i..])
    ensures Completes(items, i) && Clean(RawShapes(items)[ExchangeEnd(items, i)..])
  {
    hide RawShapes, CallIds, Clean, Attributed, Results, Distinct, Replies;
    ExchangeIsAnswered(items, i);
    RepliesAreResults(items, i);
    ResultsInside(items, i, ExchangeEnd(items, i));
    if ExchangeEnd(items, i) < |items| { NoResultAt(items, ExchangeEnd(items, i)); }
  }

  lemma ResultsInside(items: seq<Item>, i: nat, end: nat)
    requires i < |items| && items[i].Assistant? && Results(items, i, end)
    ensures end <= |items|
  {}

  lemma PlainItem(src: Source, p: nat)
    requires p < |src.Items()| && !HasCalls(src.Items()[p]) && Clean(RawShapes(src.Items())[p..])
    ensures Clean(RawShapes(src.Items())[p + 1..]) && !src.Items()[p].ToolResult?
    ensures MayFold(src, p) ==> RangeEnd(src, p) == Some(p + 1)
  {
    var s := RawShapes(src.Items());
    assert s[p] == ShapeOf(HistoryMessage(src.Items()[p]));
    CleanAt(s, p);
    if MayFold(src, p) {
      assert src.base[p] == src.Items()[p];
    }
  }

  lemma {:induction false} CompressibleFrom(src: Source, p: nat, i: nat)
    requires Attributed(src.Items()) && p <= i < |src.Items()| && Clean(RawShapes(src.Items())[p..]) && MayFold(src, i)
    ensures Compressible(src, i)
    decreases i - p
  {
    var items := src.Items();
    hide Clean, RawShapes, Attributed;
    if HasCalls(items[p]) {
      AnsweredExchange(items, p);
      var end := ExchangeEnd(items, p);
      assert RangeEnd(src, p) == Some(end);
      if end <= i { CompressibleFrom(src, end, i); }
    } else {
      PlainItem(src, p);
      if p < i { CompressibleFrom(src, p + 1, i); }
    }
  }

  lemma OnlyTheseFold(src: Source, start: nat, i: nat)
    requires RangeEnd(src, start).Some? && start <= i < RangeEnd(src, start).value
    ensures MayFold(src, i)
  {
    if Completes(src.Items(), start) {
      assert i > start ==> Answers(src.Items()[start], src.Items()[i]);
    } else {
      assert src.base[start] == src.Items()[start];
    }
  }

  /** In a valid history the compressible ranges hold exactly the tool traffic and the settled items
      other than the current loop's user messages. */
  lemma ValidHistoryIsCompressible(src: Source, i: nat)
    requires CleanMessages(HistoryMessages(src.Items())) && Attributed(src.Items()) && i < |src.Items()|
    ensures Compressible(src, i) <==> MayFold(src, i)
  {
    hide MayFold, RangeEnd, Attributed, Clean;
    if MayFold(src, i) {
      assert RawShapes(src.Items())[0..] == RawShapes(src.Items());
      CompressibleFrom(src, 0, i);
    }
    if Compressible(src, i) {
      var start: nat :| start <= i && RangeEnd(src, start).Some? && i < RangeEnd(src, start).value;
      OnlyTheseFold(src, start, i);
    }
  }
}
