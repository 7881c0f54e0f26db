/** Promoting a settled turn: the effective history, sanitized, becomes the next
    durable summary without another model call. */
module Settlement {
  import opened Prelude
  import opened Utf8
  import opened Conversation
  import opened Projection
  import opened FoldLaws
  import opened FoldAccount
  import opened Tickets
  import opened CompactionState

  const MAX_SUMMARY_CONTENT_BYTES: nat := 64 * 1024

  // ----- sanitization

  /** A reasoning part without its opaque provider fields, or nothing if that was all it had. */
  function SanitizePart(part: Part): seq<Part> {
    if !part.Reasoning? then [part]
    else if part.thought.None? && part.gist.None? then []
    else [Reasoning(part.thought, part.gist, None, None)]
  }

  function SanitizeParts(parts: seq<Part>): seq<Part> {
    if parts == [] then [] else SanitizeParts(parts[..|parts| - 1]) + SanitizePart(parts[|parts| - 1])
  }

  /** `sanitize_assistant` for prose: opaque-only assistants disappear. */
  method SanitizeAssistant(assistant: Item) returns (r: Option<Item>)
    requires assistant.Assistant?
    ensures var content := SanitizeParts(assistant.content);
            r == if content == [] then None else Some(assistant.(content := content, replay := None))
  {
    var content := [];
    for k := 0 to |assistant.content|
      invariant content == SanitizeParts(assistant.content[..k])
    {
      var part := assistant.content[k];
      assert assistant.content[..k + 1][..k] == assistant.content[..k];
      if part.Reasoning? {
        if part.thought.None? && part.gist.None? {
          continue;
        }
        content := content + [Reasoning(part.thought, part.gist, None, None)];
      } else {
        content := content + [part];
      }
    }
    assert assistant.content[..|assistant.content|] == assistant.content;
    if content == [] {
      return None;
    }
    return Some(assistant.(content := content, replay := None));
  }

  /** The same cleanup on the message an item is sent as. */
  function SanitizeMessage(m: Message): seq<Message> {
    match m
    case AssistantParts(parts) => if SanitizeParts(parts) == [] then [] else [AssistantParts(SanitizeParts(parts))]
    case AssistantWithReplay(parts, _) => if SanitizeParts(parts) == [] then [] else [AssistantParts(SanitizeParts(parts))]
    case _ => [m]
  }

  function SanitizeMessages(ms: seq<Message>): seq<Message> {
    if ms == [] then [] else SanitizeMessage(ms[0]) + SanitizeMessages(ms[1..])
  }

  lemma {:induction false} SanitizeMessagesConcat(a: seq<Message>, b: seq<Message>)
    ensures SanitizeMessages(a + b) == SanitizeMessages(a) + SanitizeMessages(b)
  {
    if a == [] {
      assert a + b == b;
    } else {
      assert (a + b)[1..] == a[1..] + b;
      SanitizeMessagesConcat(a[1..], b);
    }
  }

  /** Sanitizing never touches a tool call. */
  lemma {:induction false} SanitizeKeepsCalls(parts: seq<Part>)
    ensures CallIds(SanitizeParts(parts)) == CallIds(parts)
  {
    if parts != [] {
      var init, last := parts[..|parts| - 1], parts[|parts| - 1];
      SanitizeKeepsCalls(init);
      assert parts == init + [last];
      LastPartCalls(last);
      hide CallIds, SanitizePart;
      CallsOfConcat(SanitizeParts(init), SanitizePart(last));
      CallsOfConcat(init, [last]);
    }
  }

  lemma LastPartCalls(part: Part)
    ensures CallIds(SanitizePart(part)) == CallIds([part])
  {
    OnePartCalls(part);
    var r := SanitizePart(part);
    if r != [] { OnePartCalls(r[0]); }
  }

  // ----- nothing visible is lost

  /** One thing an assistant message lets a reader see. */
  datatype Shown = Said(text: Text) | Thought(text: Text) | Gist(text: Text) | Called(id: CallId, name: Text, arguments: Text)

  function ShownBy(part: Part): seq<Shown> {
    match part
    case Prose(text) => [Said(text)]
    case Reasoning(thought, gist, _, _) =>
      (if thought.Some? then [Thought(thought.value)] else []) + (if gist.Some? then [Gist(gist.value)] else [])
    case Call(id, name, arguments) => [Called(id, name, arguments)]
  }

  function ShownByAll(parts: seq<Part>): seq<Shown> {
    if parts == [] then [] else ShownByAll(parts[..|parts| - 1]) + ShownBy(parts[|parts| - 1])
  }

  lemma {:induction false} ShownConcat(a: seq<Part>, b: seq<Part>)
    ensures ShownByAll(a + b) == ShownByAll(a) + ShownByAll(b)
  {
    hide ShownBy;
    if b == [] {
      ConcatNothing(a);
      ConcatNothing(ShownByAll(a));
    } else {
      var init, last := b[..|b| - 1], b[|b| - 1];
      ShownConcat(a, init);
      assert (a + b)[..|a + b| - 1] == a + init;
      ConcatAssoc(ShownByAll(a), ShownByAll(init), ShownBy(last));
    }
  }

  lemma PartKeepsShown(part: Part)
    ensures ShownByAll(SanitizePart(part)) == ShownBy(part)
    ensures SanitizePart(part) == [] <==> ShownBy(part) == []
  {
    var r := SanitizePart(part);
    if r != [] {
      assert r[..0] == [];
    }
  }

  /** Prose, thoughts, gists and calls survive sanitizing, in order; nothing remains only if nothing was visible. */
  lemma {:induction false} SanitizeKeepsShown(parts: seq<Part>)
    ensures ShownByAll(SanitizeParts(parts)) == ShownByAll(parts)
    ensures SanitizeParts(parts) == [] <==> ShownByAll(parts) == []
  {
    if parts != [] {
      var init, last := parts[..|parts| - 1], parts[|parts| - 1];
      SanitizeKeepsShown(init);
      PartKeepsShown(last);
      hide SanitizePart, ShownBy;
      ShownConcat(SanitizeParts(init), SanitizePart(last));
    }
  }

  /** What a reader sees of a message; an assistant without anything visible is not seen. */
  datatype Seen = Speech(shown: seq<Shown>) | Entire(message: Message)

  function SeenOf(m: Message): seq<Seen> {
    if m.AssistantParts? || m.AssistantWithReplay? then
      if ShownByAll(m.parts) == [] then [] else [Speech(ShownByAll(m.parts))]
    else [Entire(m)]
  }

  function SeenOfAll(ms: seq<Message>): seq<Seen> { if ms == [] then [] else SeenOf(ms[0]) + SeenOfAll(ms[1..]) }

  lemma MessageKeepsSeen(m: Message, rest: seq<Message>)
    ensures SeenOfAll(SanitizeMessage(m) + rest) == SeenOf(m) + SeenOfAll(rest)
  {
    if m.AssistantParts? || m.AssistantWithReplay? {
      SanitizeKeepsShown(m.parts);
    }
    var r := SanitizeMessage(m);
    if r == [] {
      assert r + rest == rest;
    } else {
      assert r == [r[0]] && (r + rest)[1..] == rest;
    }
  }

  /** A sanitized conversation reads like the original. */
  lemma {:induction false} SanitizedReadsTheSame(ms: seq<Message>)
    ensures SeenOfAll(SanitizeMessages(ms)) == SeenOfAll(ms)
  {
    if ms != [] {
      MessageKeepsSeen(ms[0], SanitizeMessages(ms[1..]));
      hide SanitizeMessage, SeenOf;
      SanitizedReadsTheSame(ms[1..]);
    }
  }

  lemma SanitizedShape(m: Message)
    ensures var r := SanitizeMessage(m);
            (r == [] && ShapeOf(m) == Plain) || (|r| == 1 && ShapeOf(r[0]) == ShapeOf(m))
  {
    if m.AssistantParts? || m.AssistantWithReplay? {
      SanitizeKeepsCalls(m.parts);
    }
  }

  /** Sanitizing the tail of a clean sequence keeps it clean. */
  lemma {:induction false} SanitizeKeepsClean(p: seq<Shape>, ms: seq<Message>)
    requires Clean(p + Shapes(ms))
    ensures Clean(p + Shapes(SanitizeMessages(ms)))
    decreases |ms|
  {
    hide Clean, SanitizeMessage, ShapeOf, Shapes;
    if ms != [] {
      var rest := Shapes(ms[1..]);
      var here := ShapeOf(ms[0]);
      var r, tail := SanitizeMessage(ms[0]), SanitizeMessages(ms[1..]);
      ShapesCons(ms);
      SanitizedShape(ms[0]);
      ShapesConcat(r, tail);
      if r == [] {
        PlainIsBlock();
        DeleteBlock(p, [here], rest);
        SanitizeKeepsClean(p, ms[1..]);
        ConcatNothing(tail);
      } else {
        SingleShape(r);
        ConcatAssoc(p, [here], rest);
        SanitizeKeepsClean(p + [here], ms[1..]);
        ConcatAssoc(p, [here], Shapes(tail));
      }
    }
  }

  lemma PlainIsBlock()
    ensures Block([Plain])
  {}

  lemma SingleShape(ms: seq<Message>)
    requires |ms| == 1
    ensures Shapes(ms) == [ShapeOf(ms[0])]
  {
    hide ShapeOf;
  }

  // ----- no opaque data

  predicate OpaquePart(part: Part) { part.Reasoning? && (part.encrypted.Some? || part.signature.Some?) }

  predicate Opaque(m: Message) {
    m.AssistantWithReplay? || (m.AssistantParts? && exists k :: 0 <= k < |m.parts| && OpaquePart(m.parts[k]))
  }

  predicate NoneOpaque(ms: seq<Message>) { forall k :: 0 <= k < |ms| ==> !Opaque(ms[k]) }

  lemma {:induction false} SanitizedPartsAreOpen(parts: seq<Part>)
    ensures forall k :: 0 <= k < |SanitizeParts(parts)| ==> !OpaquePart(SanitizeParts(parts)[k])
  {
    if parts != [] {
      SanitizedPartsAreOpen(parts[..|parts| - 1]);
    }
  }

  lemma {:induction false} SanitizedMessagesAreOpen(ms: seq<Message>)
    ensures NoneOpaque(SanitizeMessages(ms))
  {
    if ms != [] {
      SanitizedMessagesAreOpen(ms[1..]);
      if ms[0].AssistantParts? || ms[0].AssistantWithReplay? {
        SanitizedPartsAreOpen(ms[0].parts);
      }
      var r := SanitizeMessage(ms[0]);
      assert forall k :: 0 <= k < |r| ==> !Opaque(r[k]);
    }
  }

  /** A part that sanitizing leaves alone: no opaque fields, and a reasoning part that shows something. */
  predicate Open(part: Part) { !OpaquePart(part) && ShownBy(part) != [] }

  lemma PartIsKept(part: Part)
    ensures |SanitizePart(part)| <= 1
    ensures SanitizePart(part) == [part] <==> Open(part)
  {}

  lemma {:induction false} PartsAreKept(parts: seq<Part>)
    ensures |SanitizeParts(parts)| <= |parts|
    ensures SanitizeParts(parts) == parts <==> forall k :: 0 <= k < |parts| ==> Open(parts[k])
  {
    if parts != [] {
      var init, last := parts[..|parts| - 1], parts[|parts| - 1];
      PartsAreKept(init);
      PartIsKept(last);
      hide SanitizePart, Open;
      LastElement(SanitizeParts(init), SanitizePart(last), init, last);
      assert parts == init + [last];
      assert (forall k :: 0 <= k < |parts| ==> Open(parts[k])) <==> (forall k :: 0 <= k < |init| ==> Open(init[k])) && Open(last);
    }
  }

  lemma LastElement<T>(a: seq<T>, b: seq<T>, init: seq<T>, last: T)
    requires |a| <= |init| && |b| <= 1
    ensures a + b == init + [last] <==> a == init && b == [last]
  {
    if a + b == init + [last] {
      assert |b| == 1 && |a| == |init|;
      assert (a + b)[..|a|] == a && (init + [last])[..|init|] == init;
      assert (a + b)[|a|] == b[0] && (init + [last])[|init|] == last;
    }
  }

  /** Opaque messages are exactly those sanitizing changes, besides empty ones and empty reasoning. */
  lemma KeptExactly(m: Message)
    ensures SanitizeMessage(m) == [m]
       <==> !Opaque(m) && (m.AssistantParts? ==> m.parts != [] && forall k :: 0 <= k < |m.parts| ==> ShownBy(m.parts[k]) != [])
  {
    if m.AssistantParts? {
      PartsAreKept(m.parts);
      hide SanitizeParts, OpaquePart, ShownBy;
      assert (forall k :: 0 <= k < |m.parts| ==> Open(m.parts[k]))
        <==> (forall k :: 0 <= k < |m.parts| ==> !OpaquePart(m.parts[k])) && (forall k :: 0 <= k < |m.parts| ==> ShownBy(m.parts[k]) != []);
    }
  }

  // ----- the settled walk

  /** The settled projection is the fold without the system prompt, sanitized. */
  function SettledMessages(s: Slots, src: Source, previous: Option<Text>): seq<Message> {
    SanitizeMessages(ProjectionMessages(s, [], previous, src))
  }

  predicate HasReduction(s: Slots, src: Source, previous: Option<Text>) {
    GroupsFor(s, src) != map[] || ConsolidatedFor(s, src, previous).Some?
  }

  /** `history_message` of the sanitized item, if anything is left of it. */
  method SanitizedItemMessage(item: Item) returns (r: seq<Message>)
    ensures r == SanitizeMessage(HistoryMessage(item))
  {
    if item.Assistant? {
      var kept := SanitizeAssistant(item);
      return if kept.Some? then [HistoryMessage(kept.value)] else [];
    }
    return [HistoryMessage(item)];
  }

  /** The step the settled walk takes at `index`: covered keys are looked up in the
      consolidated summary itself, folded ones through the range list. */
  method SettledStep(src: Source, ranges: seq<Range>, groups: map<Key, Text>, covered: set<Key>, index: nat)
    returns (step: Step)
    requires Describes(src, ranges) && index < |src.Items()| && covered <= Keys(src)
    ensures step == StepAt(src, groups, covered, index)
  {
    if key :| key in covered && key.start == index {
      KeysAreLocal(src, key);
      return Step(None, key.end);
    }
    var found := FindRange(src, ranges, index);
    if found.Some? && found.value in groups {
      return Step(Some(Note(groups[found.value])), found.value.end);
    }
    return Step(Some(Kept(index)), index + 1);
  }

  /** The messages still to come from the walk at `index`. */
  function SettledRest(src: Source, groups: map<Key, Text>, covered: set<Key>, index: nat): seq<Message> {
    SanitizeMessages(Render(src.Items(), Fold(src, groups, covered, index)))
  }

  lemma SettledRestStep(src: Source, groups: map<Key, Text>, covered: set<Key>, index: nat)
    requires index < |src.Items()|
    ensures var step := StepAt(src, groups, covered, index);
            var tail := SettledRest(src, groups, covered, step.next);
            SettledRest(src, groups, covered, index)
            == if step.entry.None? then tail else SanitizeMessage(EntryMessage(src.Items(), step.entry.value)) + tail
  {
    hide StepAt, SanitizeMessage, RangeEnd;
    var items := src.Items();
    var step := StepAt(src, groups, covered, index);
    if step.entry.Some? {
      var rest := Fold(src, groups, covered, step.next);
      RenderCons(_ => true, items, step.entry.value, rest);
      SanitizeMessagesConcat([EntryMessage(items, step.entry.value)], Render(items, rest));
      SanitizeOne(EntryMessage(items, step.entry.value));
    }
  }

  /** The message-building part of `settled_emergency_summary`: the walk over raw
      source offsets yields exactly the sanitized fold. */
  method SettledWalk(src: Source, ranges: seq<Range>, groups: map<Key, Text>, consolidated: Option<Consolidated>,
                     previous: Option<Text>, accepts: Message -> bool)
    returns (r: Result<seq<Message>, ()>)
    requires Describes(src, ranges) && Covered(consolidated) <= Keys(src)
    ensures var total := SanitizeMessages(FoldMessages(Fixed([], previous), src, groups, consolidated));
            r == if AllAccepted(accepts, total) then Ok(total) else Err(())
  {
    hide StepAt, Describes, Keys, SanitizeMessage, SanitizeMessages, Fold, Head, Fixed, SummaryMessage, SettledRest, AllAccepted, FoldMessages, Render;
    var items := src.Items();
    var covered := Covered(consolidated);
    var messages := [];
    if consolidated.Some? {
      messages := [SummaryMessage(consolidated.value.content)];
    } else if previous.Some? {
      messages := [SummaryMessage(previous.value)];
    }
    ghost var total := SanitizeMessages(FoldMessages(Fixed([], previous), src, groups, consolidated));
    SettledTotal(src, groups, consolidated, previous, messages);
    if messages != [] && !accepts(messages[0]) {
      OneRefused(accepts, [], messages, SettledRest(src, groups, covered, 0));
      return Err(());
    }
    AtMostOneAccepted(accepts, messages);
    var index := 0;
    while index < |items|
      invariant index <= |items|
      invariant total == messages + SettledRest(src, groups, covered, index)
      invariant AllAccepted(accepts, messages)
      decreases |items| - index
    {
      var step := SettledStep(src, ranges, groups, covered, index);
      SettledRestStep(src, groups, covered, index);
      index := step.next;
      if step.entry.Some? {
        var pushed := SettledEntry(items, step.entry.value);
        ghost var rest := SettledRest(src, groups, covered, index);
        ConcatAssoc(messages, pushed, rest);
        if pushed != [] && !accepts(pushed[0]) {
          OneRefused(accepts, messages, pushed, rest);
          return Err(());
        }
        AtMostOneAccepted(accepts, pushed);
        AcceptedConcat(accepts, messages, pushed);
        messages := messages + pushed;
      }
    }
    SettledRestEnds(src, groups, covered);
    ConcatNothing(messages);
    return Ok(messages);
  }

  lemma SettledTotal(src: Source, groups: map<Key, Text>, consolidated: Option<Consolidated>, previous: Option<Text>, messages: seq<Message>)
    requires messages == if consolidated.Some? then [SummaryMessage(consolidated.value.content)]
                         else if previous.Some? then [SummaryMessage(previous.value)] else []
    ensures SanitizeMessages(FoldMessages(Fixed([], previous), src, groups, consolidated))
         == messages + SettledRest(src, groups, Covered(consolidated), 0)
    ensures [] + messages + SettledRest(src, groups, Covered(consolidated), 0) == messages + SettledRest(src, groups, Covered(consolidated), 0)
  {
    hide SanitizeMessages, Fold, Head, Fixed, SummaryMessage, Render;
    SettledHead(previous, consolidated);
    SanitizeMessagesConcat(Head(Fixed([], previous), consolidated), Render(src.Items(), Fold(src, groups, Covered(consolidated), 0)));
    ConcatNothing(messages);
  }

  lemma OneRefused(accepts: Message -> bool, before: seq<Message>, one: seq<Message>, rest: seq<Message>)
    requires one != [] && !accepts(one[0])
    ensures !AllAccepted(accepts, before + one + rest)
  {
    assert (before + one + rest)[|before|] == one[0];
  }

  lemma AtMostOneAccepted(accepts: Message -> bool, ms: seq<Message>)
    requires |ms| <= 1 && (ms != [] ==> accepts(ms[0]))
    ensures AllAccepted(accepts, ms)
  {}

  lemma AcceptedConcat(accepts: Message -> bool, a: seq<Message>, b: seq<Message>)
    requires AllAccepted(accepts, a) && AllAccepted(accepts, b)
    ensures AllAccepted(accepts, a + b)
  {}

  lemma SettledRestEnds(src: Source, groups: map<Key, Text>, covered: set<Key>)
    ensures SettledRest(src, groups, covered, |src.Items()|) == []
  {}

  /** What one entry contributes: a summary as it is, a kept item sanitized. */
  method SettledEntry(items: seq<Item>, entry: Entry) returns (pushed: seq<Message>)
    requires entry.Kept? ==> entry.index < |items|
    ensures pushed == SanitizeMessage(EntryMessage(items, entry)) && |pushed| <= 1
  {
    if entry.Kept? {
      pushed := SanitizedItemMessage(items[entry.index]);
    } else {
      pushed := [SummaryMessage(entry.content)];
    }
  }

  lemma SanitizeOne(m: Message)
    ensures SanitizeMessages([m]) == SanitizeMessage(m)
  {
    assert SanitizeMessages([m][1..]) == [];
  }

  lemma SettledHead(previous: Option<Text>, consolidated: Option<Consolidated>)
    ensures var head := Head(Fixed([], previous), consolidated);
            head == SanitizeMessages(head)
            == if consolidated.Some? then [SummaryMessage(consolidated.value.content)]
               else if previous.Some? then [SummaryMessage(previous.value)] else []
  {
    var head := Head(Fixed([], previous), consolidated);
    var fixed := Fixed([], previous);
    if previous.Some? {
      assert fixed == [SummaryMessage(previous.value)];
      assert Systems(fixed) == Systems(fixed[1..]) == [];
    }
    if head != [] {
      SanitizeOne(head[0]);
      assert head == [head[0]];
    }
  }

  // ----- snapshot content

  /** serde_json on message lists. */
  datatype Codec = Codec(encode: seq<Message> -> Text, decode: Text -> Option<seq<Message>>)

  /** Encoding is a JSON array and decoding undoes it. */
  ghost predicate RoundTrips(codec: Codec) {
    forall ms :: codec.decode(codec.encode(ms)) == Some(ms) && codec.encode(ms) != [] && codec.encode(ms)[0] == 0x5B
  }

  /** `char::is_whitespace`: the scalar values with the Unicode property White_Space. */
  predicate WhiteSpace(n: int) {
    || 9 <= n <= 13 || n == 0x20 || n == 0x85 || n == 0xA0 || n == 0x1680 || 0x2000 <= n <= 0x200A
    || n == 0x2028 || n == 0x2029 || n == 0x202F || n == 0x205F || n == 0x3000
  }

  /** Nothing is left after trimming: every character is white space. */
  predicate Blank(value: Text)
    decreases |value|
  {
    value == [] || (CharLen(value) > 0 && WhiteSpace(ScalarOf(value)) && Blank(value[CharLen(value)..]))
  }

  /** `validate_snapshot_content`: small contents as any summary, larger ones only as
      clean message lists without opaque data. `bounded` is the Runtime's text bound. */
  method ValidateSnapshotContent(value: Text, codec: Codec, bounded: Text -> bool, accepts: Message -> bool)
    returns (ok: bool)
    ensures ok <==>
              && bounded(value) && accepts(SummaryMessage(value))
              && if |value| <= MAX_SUMMARY_CONTENT_BYTES then !Blank(value)
                 else var messages := codec.decode(value);
                      messages.Some? && messages.value != [] && CleanMessages(messages.value) && NoneOpaque(messages.value)
  {
    if !bounded(value) || !accepts(SummaryMessage(value)) {
      return false;
    }
    if |value| <= MAX_SUMMARY_CONTENT_BYTES {
      return !Blank(value);
    }
    var messages := codec.decode(value);
    if messages.None? || messages.value == [] {
      return false;
    }
    var clean := ValidateCleanToolExchanges(messages.value);
    return clean && NoneOpaque(messages.value);
  }

  /** From a clean history the settled messages are clean and carry no replay,
      encrypted or signature data. */
  lemma SettledMessagesAreCleanAndOpen(s: Slots, src: Source, previous: Option<Text>)
    ensures NoneOpaque(SettledMessages(s, src, previous))
    ensures CleanMessages(HistoryMessages(src.Items())) ==> CleanMessages(SettledMessages(s, src, previous))
  {
    hide Clean, Fold, Keys, Head, GroupsFor, SanitizeMessages;
    var fold := ProjectionMessages(s, [], previous, src);
    var consolidated := ConsolidatedFor(s, src, previous);
    SanitizedMessagesAreOpen(fold);
    if CleanMessages(HistoryMessages(src.Items())) {
      if consolidated.Some? {
        ConsolidatedFoldIsClean(Fixed([], previous), src, GroupsFor(s, src), consolidated.value);
      } else {
        FoldPreservesCleanness(Fixed([], previous), src, GroupsFor(s, src));
        ShapesConcat(Fixed([], previous), HistoryMessages(src.Items()));
        CleanAfterPlain(Shapes(Fixed([], previous)), Shapes(HistoryMessages(src.Items())));
      }
      assert [] + Shapes(fold) == Shapes(fold);
      SanitizeKeepsClean([], fold);
      assert [] + Shapes(SanitizeMessages(fold)) == Shapes(SanitizeMessages(fold));
    }
  }

  /** The settled projection reads like the request it replaces. */
  lemma SettledReadsLikeProjection(s: Slots, src: Source, previous: Option<Text>)
    ensures SeenOfAll(SettledMessages(s, src, previous)) == SeenOfAll(ProjectionMessages(s, [], previous, src))
  {
    hide ProjectionMessages;
    SanitizedReadsTheSame(ProjectionMessages(s, [], previous, src));
  }

  lemma KeyStep(src: Source, groups: map<Key, Text>, key: Key)
    requires IsKey(src, key) && key in groups
    ensures key.start < |src.Items()| && StepAt(src, groups, {}, key.start) == Step(Some(Note(groups[key])), key.end)
  {
    assert key == KeyAt(src.Items(), key.start, key.end);
  }

  lemma NoteIsSettled(src: Source, groups: map<Key, Text>, i: nat)
    requires i < |src.Items()|
    requires var entry := StepAt(src, groups, {}, i).entry; entry.Some? && entry.value.Note?
    ensures SettledRest(src, groups, {}, i) != []
  {
    hide StepAt, SettledRest;
    SettledRestStep(src, groups, {}, i);
  }

  /** A valid folded key shows up in the walk as a summary, so something is settled. */
  lemma {:induction false} FoldedKeyIsSettled(src: Source, groups: map<Key, Text>, key: Key, i: nat)
    requires IsKey(src, key) && key in groups && i <= key.start
    ensures SettledRest(src, groups, {}, i) != []
    decreases key.start - i
  {
    hide StepAt, SettledRest, IsKey, SanitizeMessage;
    KeyStep(src, groups, key);
    var step := StepAt(src, groups, {}, i);
    if step.entry.value.Note? {
      NoteIsSettled(src, groups, i);
    } else {
      SettledRestStep(src, groups, {}, i);
      FoldedKeyIsSettled(src, groups, key, i + 1);
    }
  }

  lemma ReductionIsNotEmpty(s: Slots, src: Source, previous: Option<Text>)
    requires HasReduction(s, src, previous)
    ensures SettledMessages(s, src, previous) != []
  {
    var groups, consolidated := GroupsFor(s, src), ConsolidatedFor(s, src, previous);
    var covered := Covered(consolidated);
    var head := Head(Fixed([], previous), consolidated);
    SettledHead(previous, consolidated);
    SanitizeMessagesConcat(head, Render(src.Items(), Fold(src, groups, covered, 0)));
    assert SettledMessages(s, src, previous) == head + SettledRest(src, groups, covered, 0);
    if consolidated.None? {
      var key :| key in groups;
      KeysAreLocal(src, key);
      FoldedKeyIsSettled(src, groups, key, 0);
    }
  }

  /** What refuses a promotion: a message or size bound, or, for large contents only, exchanges that do not pair up. */
  predicate Unpromotable(messages: seq<Message>, codec: Codec, bounded: Text -> bool, accepts: Message -> bool) {
    var content := codec.encode(messages);
    || !AllAccepted(accepts, messages) || !bounded(content) || !accepts(SummaryMessage(content))
    || (|content| > MAX_SUMMARY_CONTENT_BYTES && !CleanMessages(messages))
  }

  /** `settled_emergency_summary`: nothing to promote, an error, or the encoded settled
      projection. From a clean history only size and message bounds can refuse it. */
  method SettledEmergencySummary(state: State, src: Source, previous: Option<Text>, codec: Codec,
                                 bounded: Text -> bool, accepts: Message -> bool)
    returns (r: Result<Option<Text>, ()>)
    requires RoundTrips(codec)
    ensures r == Ok(None) <==> !HasReduction(state.View(), src, previous)
    ensures r.Ok? && r.value.Some? ==> r.value.value == codec.encode(SettledMessages(state.View(), src, previous))
    ensures r.Err? <==> HasReduction(state.View(), src, previous) && Unpromotable(SettledMessages(state.View(), src, previous), codec, bounded, accepts)
    ensures r.Err? && CleanMessages(HistoryMessages(src.Items())) ==>
              var messages := SettledMessages(state.View(), src, previous);
              var content := codec.encode(messages);
              !AllAccepted(accepts, messages) || !bounded(content) || !accepts(SummaryMessage(content))
  {
    hide CleanMessages, NoneOpaque, SettledMessages, Keys, Describes, SummaryMessage, SanitizeMessages, FoldMessages;
    var ranges := CompressibleRanges(src);
    var groups := state.EmergencyGroups(src);
    var consolidated := ConsolidatedFor(state.View(), src, previous);
    if groups == map[] && consolidated.None? {
      return Ok(None);
    }
    var walked := SettledWalk(src, ranges, groups, consolidated, previous, accepts);
    SettledIsWalk(state.View(), src, previous);
    if walked.Err? {
      return Err(());
    }
    var content := codec.encode(walked.value);
    ReductionIsNotEmpty(state.View(), src, previous);
    SettledMessagesAreCleanAndOpen(state.View(), src, previous);
    var ok := ValidateSnapshotContent(content, codec, bounded, accepts);
    return if ok then Ok(Some(content)) else Err(());
  }

  lemma SettledIsWalk(s: Slots, src: Source, previous: Option<Text>)
    ensures SettledMessages(s, src, previous)
         == SanitizeMessages(FoldMessages(Fixed([], previous), src, GroupsFor(s, src), ConsolidatedFor(s, src, previous)))
  {}
}
