/** Which stretches of history may be replaced by a summary, and the fold that
    replaces them. */
module Projection {
  import opened Prelude
  import opened Conversation

  /** What one request is prepared from: the settled base, the live turn's items
      and the loop that owns the turn. */
  datatype Source = Source(base: seq<Item>, appended: seq<Item>, loopId: LoopId) {
    function Items(): seq<Item> { base + appended }
  }

  /** Identity of one source group. The content hash is represented by the hashed items. */
  datatype Key = Key(start: nat, end: nat, source: seq<Item>)

  datatype Range = Range(key: Key, bytes: nat)

  datatype UtilityError = Cancelled | Timeout | NoProgress | TooLarge | InvalidResponse | Serialization

  /** What the cancellation and deadline checks report. */
  type Interruption = e: UtilityError | e == Cancelled || e == Timeout witness Cancelled

  datatype Consolidated = Consolidated(loopId: LoopId, original: Option<Text>, covered: set<Key>, content: Text)

  /** A tool result answering one call of `a`. */
  predicate Answers(a: Item, r: Item)
    requires a.Assistant?
  {
    r.ToolResult? && r.loopId == a.loopId && r.request == a.request && r.callId in CallIds(a.content)
  }

  function ExchangeEnd(items: seq<Item>, i: nat): nat
    requires i < |items| && items[i].Assistant?
  {
    i + 1 + |CallIds(items[i].content)|
  }

  /** The items after `i` up to `end` answer the assistant at `i`, each call at most once. */
  predicate Results(items: seq<Item>, i: nat, end: nat)
    requires i < |items| && items[i].Assistant?
  {
    && i < end <= |items|
    && (forall k :: i < k < end ==> Answers(items[i], items[k]))
    && (forall j, k :: i < j < k < end ==> items[j].callId != items[k].callId)
  }

  /** A complete tool exchange starts at `i`: distinct calls, exactly their results,
      and no further tool result behind them. */
  predicate Completes(items: seq<Item>, i: nat) {
    && i < |items|
    && HasCalls(items[i])
    && Distinct(CallIds(items[i].content))
    && var end := ExchangeEnd(items, i);
       && Results(items, i, end)
       && (end < |items| ==> !items[end].ToolResult?)
  }

  /** A settled item that may be summarised alone. */
  predicate Settled(src: Source, i: nat) {
    && i < |src.base|
    && !src.base[i].ToolResult?
    && !HasCalls(src.base[i])
    && !(src.base[i].User? && src.base[i].loopId == src.loopId)
  }

  /** The end of the compressible range starting at `i`, decided by the items there alone. */
  function RangeEnd(src: Source, i: nat): (r: Option<nat>)
    ensures r.Some? ==> i < r.value <= |src.Items()|
  {
    if Completes(src.Items(), i) then Some(ExchangeEnd(src.Items(), i))
    else if Settled(src, i) then Some(i + 1)
    else None
  }

  function KeyAt(items: seq<Item>, start: nat, end: nat): Key
    requires start <= end <= |items|
  {
    Key(start, end, items[start..end])
  }

  function Keys(src: Source): set<Key> {
    set i | 0 <= i < |src.Items()| && RangeEnd(src, i).Some? :: KeyAt(src.Items(), i, RangeEnd(src, i).value)
  }

  predicate IsKey(src: Source, key: Key) {
    RangeEnd(src, key.start) == Some(key.end) && key.source == src.Items()[key.start..key.end]
  }

  lemma KeysAreLocal(src: Source, key: Key)
    ensures key in Keys(src) <==> IsKey(src, key)
  {
    if IsKey(src, key) {
      assert KeyAt(src.Items(), key.start, RangeEnd(src, key.start).value) == key;
    }
  }

  function PartBytes(part: Part): nat {
    match part
    case Prose(text) => |text|
    case Reasoning(thought, gist, _, _) =>
      (if thought.Some? then |thought.value| else 0) + (if gist.Some? then |gist.value| else 0)
    case Call(_, name, arguments) => |name| + |arguments|
  }

  function PartsBytes(parts: seq<Part>): nat {
    if parts == [] then 0 else PartBytes(parts[0]) + PartsBytes(parts[1..])
  }

  function ItemBytes(item: Item): nat {
    match item
    case User(_, input) => |input|
    case Assistant(_, _, content, _) => PartsBytes(content)
    case ToolResult(_, _, _, output) => |output|
    case Summary(note) => |note|
  }

  /** `group_bytes`: the size estimate that orders candidates. */
  function GroupBytes(items: seq<Item>): nat {
    if items == [] then 0 else ItemBytes(items[0]) + GroupBytes(items[1..])
  }

  /** `complete_group_ranges`: the scan finds exactly the complete exchanges, in order. */
  method CompleteGroupRanges(items: seq<Item>) returns (ranges: seq<(nat, nat)>)
    ensures forall s: nat, e: nat :: (s, e) in ranges <==> Completes(items, s) && e == ExchangeEnd(items, s)
    ensures forall j, k :: 0 <= j < k < |ranges| ==> ranges[j].1 <= ranges[k].0
  {
    ranges := [];
    var index := 0;
    while index < |items|
      invariant index <= |items|
      invariant forall s: nat, e: nat :: (s, e) in ranges <==> s < index && Completes(items, s) && e == ExchangeEnd(items, s)
      invariant forall k :: 0 <= k < |ranges| ==> ranges[k].1 <= index
      invariant forall j, k :: 0 <= j < k < |ranges| ==> ranges[j].1 <= ranges[k].0
    {
      if !HasCalls(items[index]) {
        index := index + 1;
        continue;
      }
      var callIds := CallIds(items[index].content);
      if exists position :: 0 <= position < |callIds| && callIds[position] in callIds[..position] {
        index := index + 1;
        continue;
      }
      assert Distinct(callIds) by {
        forall j, k | 0 <= j < k < |callIds| ensures callIds[j] != callIds[k] {
          assert callIds[j] == callIds[..k][j];
        }
      }
      var end, matched := MatchResults(items, index);
      if |matched| == |callIds| && !(end < |items| && items[end].ToolResult?) {
        assert Completes(items, index) && end == ExchangeEnd(items, index);
        assert forall s :: index < s < end ==> items[s].ToolResult?;
        ranges := ranges + [(index, end)];
        index := end;
      } else {
        index := index + 1;
      }
    }
  }

  /** The inner scan: consecutive results answering the assistant at `index`, each call
      once; `matched` holds their call ids. */
  method MatchResults(items: seq<Item>, index: nat) returns (end: nat, matched: seq<CallId>)
    requires index < |items| && HasCalls(items[index]) && Distinct(CallIds(items[index].content))
    ensures Results(items, index, end) && |matched| == end - (index + 1)
    ensures |matched| <= |CallIds(items[index].content)|
    ensures Completes(items, index) ==> |matched| == |CallIds(items[index].content)|
  {
    var callIds := CallIds(items[index].content);
    end, matched := index + 1, [];
    while |matched| < |callIds|
      invariant Results(items, index, end) && |matched| == end - (index + 1) && |matched| <= |callIds|
      invariant forall k :: 0 <= k < |matched| ==> matched[k] == items[index + 1 + k].callId
      decreases |callIds| - |matched|
    {
      if end < |items| && Answers(items[index], items[end]) && items[end].callId !in matched {
        assert forall k :: index < k < end ==> items[k].callId == matched[k - index - 1];
        matched := matched + [items[end].callId];
        end := end + 1;
      } else {
        break;
      }
    }
  }

  /** The range list holds every local range starting before `index`, once and in order. */
  predicate DescribesUpTo(src: Source, ranges: seq<Range>, index: nat) {
    && (forall k :: 0 <= k < |ranges| ==>
          && IsKey(src, ranges[k].key)
          && ranges[k].bytes == GroupBytes(ranges[k].key.source)
          && ranges[k].key.end <= index)
    && (forall i :: 0 <= i < index && RangeEnd(src, i).Some? ==>
          exists k :: 0 <= k < |ranges| && ranges[k].key.start == i)
    && (forall j, k :: 0 <= j < k < |ranges| ==> ranges[j].key.end <= ranges[k].key.start)
  }

  predicate Describes(src: Source, ranges: seq<Range>) {
    DescribesUpTo(src, ranges, |src.Items()|)
  }

  /** The ranges from `index` on, one after another. */
  function Ranges(src: Source, index: nat): seq<Range>
    decreases |src.Items()| - index
  {
    if index >= |src.Items()| then []
    else
      match RangeEnd(src, index)
      case None => Ranges(src, index + 1)
      case Some(end) =>
        var key := KeyAt(src.Items(), index, end);
        [Range(key, GroupBytes(key.source))] + Ranges(src, end)
  }

  /** The list from its `k`-th range on starts at or behind `index`, and the rest ends before it. */
  predicate Splits(ranges: seq<Range>, k: nat, index: nat)
    ensures Splits(ranges, k, index) ==> k <= |ranges|
  {
    && k <= |ranges|
    && (forall j :: 0 <= j < k ==> ranges[j].key.end <= index)
    && (forall j :: k <= j < |ranges| ==> index <= ranges[j].key.start)
  }

  lemma KeyIsInside(src: Source, key: Key)
    requires IsKey(src, key)
    ensures key.start < key.end <= |src.Items()| && RangeEnd(src, key.start) == Some(key.end)
    ensures key == KeyAt(src.Items(), key.start, key.end)
  {}

  lemma NoneBehind(src: Source, ranges: seq<Range>, k: nat, index: nat)
    requires Describes(src, ranges) && Splits(ranges, k, index) && index >= |src.Items()|
    ensures k == |ranges|
  {
    hide IsKey, GroupBytes;
    if k < |ranges| {
      KeyIsInside(src, ranges[k].key);
    }
  }

  lemma NoneHere(src: Source, ranges: seq<Range>, k: nat, index: nat)
    requires Describes(src, ranges) && Splits(ranges, k, index) && RangeEnd(src, index).None?
    ensures Splits(ranges, k, index + 1)
  {
    hide IsKey, GroupBytes, RangeEnd;
    forall j | k <= j < |ranges| ensures ranges[j].key.start != index {
      KeyIsInside(src, ranges[j].key);
    }
  }

  lemma OneHere(src: Source, ranges: seq<Range>, k: nat, index: nat)
    requires Describes(src, ranges) && Splits(ranges, k, index) && index < |src.Items()| && RangeEnd(src, index).Some?
    ensures k < |ranges|
    ensures var key := KeyAt(src.Items(), index, RangeEnd(src, index).value);
            ranges[k] == Range(key, GroupBytes(key.source)) && Splits(ranges, k + 1, key.end)
  {
    hide IsKey, GroupBytes, RangeEnd;
    var j :| 0 <= j < |ranges| && ranges[j].key.start == index;
    KeyIsInside(src, ranges[j].key);
    if j > k {
      KeyIsInside(src, ranges[k].key);
    }
  }

  /** There is only one range list. */
  lemma {:induction false} RangesAreUnique(src: Source, ranges: seq<Range>, k: nat, index: nat)
    requires Describes(src, ranges) && Splits(ranges, k, index)
    ensures ranges[k..] == Ranges(src, index)
    decreases |src.Items()| - index
  {
    hide Describes, Splits, GroupBytes;
    if index >= |src.Items()| {
      NoneBehind(src, ranges, k, index);
    } else if RangeEnd(src, index).None? {
      NoneHere(src, ranges, k, index);
      RangesAreUnique(src, ranges, k, index + 1);
    } else {
      OneHere(src, ranges, k, index);
      hide RangeEnd;
      RangesAreUnique(src, ranges, k + 1, RangeEnd(src, index).value);
      assert ranges[k..] == [ranges[k]] + ranges[k + 1..];
    }
  }

  lemma AppendRange(src: Source, ranges: seq<Range>, index: nat, range: Range)
    requires DescribesUpTo(src, ranges, index)
    requires IsKey(src, range.key) && range.key.start == index && range.bytes == GroupBytes(range.key.source)
    ensures DescribesUpTo(src, ranges + [range], range.key.end)
  {
    hide RangeEnd, GroupBytes;
    var longer := ranges + [range];
    NoRangeInside(src, index);
    forall i | 0 <= i < range.key.end && RangeEnd(src, i).Some?
      ensures exists k :: 0 <= k < |longer| && longer[k].key.start == i
    {
      if i < index {
        var k :| 0 <= k < |ranges| && ranges[k].key.start == i;
        assert longer[k].key.start == i;
      } else {
        assert longer[|ranges|].key.start == i;
      }
    }
  }

  /** Ranges never start inside another range. */
  lemma NoRangeInside(src: Source, i: nat)
    requires RangeEnd(src, i).Some?
    ensures forall j :: i < j < RangeEnd(src, i).value ==> RangeEnd(src, j) == None
  {
    var items := src.Items();
    forall j | i < j < RangeEnd(src, i).value
      ensures RangeEnd(src, j) == None
    {
      assert Answers(items[i], items[j]);
      assert j < |src.base| ==> src.base[j] == items[j];
    }
  }

  lemma SkipIndex(src: Source, ranges: seq<Range>, index: nat)
    requires DescribesUpTo(src, ranges, index) && RangeEnd(src, index) == None
    ensures DescribesUpTo(src, ranges, index + 1)
  {}

  /** `compressible_ranges`: complete exchanges anywhere, and plain settled items of
      the base that are not the current loop's user messages. */
  method CompressibleRanges(src: Source) returns (ranges: seq<Range>)
    ensures Describes(src, ranges)
  {
    var items := src.Items();
    var toolRanges := CompleteGroupRanges(items);
    ranges := [];
    var index := 0;
    while index < |items|
      invariant index <= |items|
      invariant DescribesUpTo(src, ranges, index)
    {
      assert Completes(items, index) ==> (index, ExchangeEnd(items, index)) in toolRanges;
      if t :| 0 <= t < |toolRanges| && toolRanges[t].0 == index {
        var (start, end) := toolRanges[t];
        assert (start, end) in toolRanges;
        var range := Range(KeyAt(items, index, end), GroupBytes(items[index..end]));
        AppendRange(src, ranges, index, range);
        ranges := ranges + [range];
        index := end;
        continue;
      }
      if Settled(src, index) {
        var range := Range(KeyAt(items, index, index + 1), GroupBytes(items[index..index + 1]));
        AppendRange(src, ranges, index, range);
        ranges := ranges + [range];
      } else {
        SkipIndex(src, ranges, index);
      }
      index := index + 1;
    }
  }

  /** `ranges.iter().find(|(key, _)| key.start == index)`. */
  method FindRange(src: Source, ranges: seq<Range>, index: nat) returns (key: Option<Key>)
    requires Describes(src, ranges) && index < |src.Items()|
    ensures key.Some? <==> RangeEnd(src, index).Some?
    ensures key.Some? ==> key.value == KeyAt(src.Items(), index, RangeEnd(src, index).value)
  {
    if k :| 0 <= k < |ranges| && ranges[k].key.start == index {
      return Some(ranges[k].key);
    }
    return None;
  }

  /** One element of a folded history: an item kept as it is, or a summary standing in. */
  datatype Entry = Kept(index: nat) | Note(content: Text)

  /** One step of the fold: what is written at `i`, if anything, and where it goes on. */
  datatype Step = Step(entry: Option<Entry>, next: nat)

  function StepAt(src: Source, folded: map<Key, Text>, covered: set<Key>, i: nat): (r: Step)
    requires i < |src.Items()|
    ensures i < r.next <= |src.Items()|
    ensures r.entry.Some? && r.entry.value.Kept? ==> r.entry.value.index == i && r.next == i + 1
    ensures r.entry.Some? && r.entry.value.Note? ==> RangeEnd(src, i) == Some(r.next)
    ensures r.entry.None? ==> RangeEnd(src, i) == Some(r.next) && covered != {}
  {
    match RangeEnd(src, i)
    case None => Step(Some(Kept(i)), i + 1)
    case Some(end) =>
      var key := KeyAt(src.Items(), i, end);
      if key in covered then Step(None, end)
      else if key in folded then Step(Some(Note(folded[key])), end)
      else Step(Some(Kept(i)), i + 1)
  }

  /** The fold as a walk over the local ranges. */
  function Fold(src: Source, folded: map<Key, Text>, covered: set<Key>, i: nat): (r: seq<Entry>)
    ensures forall k :: 0 <= k < |r| && r[k].Kept? ==> i <= r[k].index < |src.Items()|
    decreases |src.Items()| - i
  {
    if i >= |src.Items()| then []
    else
      var step := StepAt(src, folded, covered, i);
      var tail := Fold(src, folded, covered, step.next);
      if step.entry.None? then tail else [step.entry.value] + tail
  }

  function EntryMessage(items: seq<Item>, e: Entry): Message
    requires e.Kept? ==> e.index < |items|
  {
    match e
    case Kept(index) => HistoryMessage(items[index])
    case Note(content) => SummaryMessage(content)
  }

  function Render(items: seq<Item>, entries: seq<Entry>): (r: seq<Message>)
    requires forall k :: 0 <= k < |entries| && entries[k].Kept? ==> entries[k].index < |items|
    ensures |r| == |entries|
    ensures forall k :: 0 <= k < |entries| ==> r[k] == EntryMessage(items, entries[k])
  {
    seq(|entries|, k requires 0 <= k < |entries| => EntryMessage(items, entries[k]))
  }

  function Systems(fixed: seq<Message>): seq<Message> {
    if fixed == [] then []
    else if fixed[0].System? then [fixed[0]] + Systems(fixed[1..])
    else Systems(fixed[1..])
  }

  function Head(fixed: seq<Message>, consolidated: Option<Consolidated>): seq<Message> {
    if consolidated.Some? then Systems(fixed) + [SummaryMessage(consolidated.value.content)] else fixed
  }

  function Covered(consolidated: Option<Consolidated>): set<Key> {
    if consolidated.Some? then consolidated.value.covered else {}
  }

  /** The request messages of a projection. */
  function FoldMessages(fixed: seq<Message>, src: Source, folded: map<Key, Text>,
                        consolidated: Option<Consolidated>): seq<Message> {
    Head(fixed, consolidated) + Render(src.Items(), Fold(src, folded, Covered(consolidated), 0))
  }

  /** Every summary among the entries is representable as a message. */
  predicate Representable(accepts: Message -> bool, entries: seq<Entry>) {
    forall k :: 0 <= k < |entries| && entries[k].Note? ==> accepts(SummaryMessage(entries[k].content))
  }

  predicate NotesAccepted(accepts: Message -> bool, src: Source, folded: map<Key, Text>,
                          consolidated: Option<Consolidated>) {
    && (consolidated.Some? ==> accepts(SummaryMessage(consolidated.value.content)))
    && Representable(accepts, Fold(src, folded, Covered(consolidated), 0))
  }

  lemma RenderCons(accepts: Message -> bool, items: seq<Item>, e: Entry, rest: seq<Entry>)
    requires e.Kept? ==> e.index < |items|
    requires forall k :: 0 <= k < |rest| && rest[k].Kept? ==> rest[k].index < |items|
    ensures Render(items, [e] + rest) == [EntryMessage(items, e)] + Render(items, rest)
    ensures Representable(accepts, [e] + rest)
        <==> (e.Note? ==> accepts(SummaryMessage(e.content))) && Representable(accepts, rest)
  {
    if Representable(accepts, [e] + rest) {
      assert ([e] + rest)[0] == e;
      forall k | 0 <= k < |rest| && rest[k].Note? ensures accepts(SummaryMessage(rest[k].content)) {
        assert ([e] + rest)[k + 1] == rest[k];
      }
    }
  }

  /** What the fold writes at `index`, looked up in the range list. */
  method FoldStep(src: Source, ranges: seq<Range>, folded: map<Key, Text>, covered: set<Key>, index: nat)
    returns (step: Step)
    requires Describes(src, ranges) && index < |src.Items()|
    ensures step == StepAt(src, folded, covered, index)
  {
    var found := FindRange(src, ranges, index);
    if found.Some? && found.value in covered {
      return Step(None, found.value.end);
    }
    if found.Some? && found.value in folded {
      return Step(Some(Note(folded[found.value])), found.value.end);
    }
    return Step(Some(Kept(index)), index + 1);
  }

  /** `fold_history_with_ranges`. `accepts` is the Runtime's bound on one message value. */
  method FoldHistoryWithRanges(fixed: seq<Message>, src: Source, ranges: seq<Range>,
                               folded: map<Key, Text>, consolidated: Option<Consolidated>,
                               accepts: Message -> bool)
    returns (r: Result<seq<Message>, UtilityError>)
    requires Describes(src, ranges)
    ensures r.Ok? <==> NotesAccepted(accepts, src, folded, consolidated)
    ensures r.Ok? ==> r.value == FoldMessages(fixed, src, folded, consolidated)
    ensures r.Err? ==> r.error == InvalidResponse
  {
    hide StepAt, RangeEnd, Describes, SummaryMessage, Head, Fold, Render, Representable, EntryMessage;
    var items := src.Items();
    var covered := Covered(consolidated);
    if consolidated.Some? && !accepts(SummaryMessage(consolidated.value.content)) {
      return Err(InvalidResponse);
    }
    var result := Head(fixed, consolidated);
    var index := 0;
    ghost var rest := Fold(src, folded, covered, 0);
    ghost var total := FoldMessages(fixed, src, folded, consolidated);
    ghost var representable := Representable(accepts, rest);
    while index < |items|
      invariant index <= |items|
      invariant rest == Fold(src, folded, covered, index)
      invariant total == result + Render(items, rest)
      invariant representable <==> Representable(accepts, rest)
      decreases |items| - index
    {
      var step := FoldStep(src, ranges, folded, covered, index);
      FoldUnfolds(src, folded, covered, index);
      rest := Fold(src, folded, covered, step.next);
      index := step.next;
      if step.entry.Some? {
        var entry := step.entry.value;
        RenderCons(accepts, items, entry, rest);
        if entry.Note? && !accepts(SummaryMessage(entry.content)) {
          return Err(InvalidResponse);
        }
        ConcatAssoc(result, [EntryMessage(items, entry)], Render(items, rest));
        result := result + [EntryMessage(items, entry)];
      }
    }
    FoldEnds(src, folded, covered, accepts);
    ConcatNothing(result);
    r := Ok(result);
  }

  lemma FoldUnfolds(src: Source, folded: map<Key, Text>, covered: set<Key>, i: nat)
    requires i < |src.Items()|
    ensures var step := StepAt(src, folded, covered, i);
            var tail := Fold(src, folded, covered, step.next);
            Fold(src, folded, covered, i) == if step.entry.None? then tail else [step.entry.value] + tail
  {
    hide StepAt;
  }

  lemma FoldEnds(src: Source, folded: map<Key, Text>, covered: set<Key>, accepts: Message -> bool)
    ensures Fold(src, folded, covered, |src.Items()|) == [] && Render(src.Items(), []) == [] && Representable(accepts, [])
  {}

  /** `compose`: the fixed prefix, system text then durable summary. */
  function Fixed(system: Text, summary: Option<Text>): seq<Message> {
    (if system == [] then [] else [System(system)])
    + (if summary.Some? then [SummaryMessage(summary.value)] else [])
  }
}
