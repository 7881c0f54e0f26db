/** History items, the model messages they are sent as, and the rule that every
    tool call is answered by exactly its own results. */
module Conversation {
  import opened Prelude

  type LoopId = nat
  type CallId = nat

  datatype Part =
    | Prose(text: Text)
    | Reasoning(thought: Option<Text>, gist: Option<Text>, encrypted: Option<Text>, signature: Option<Text>)
    | Call(id: CallId, name: Text, arguments: Text)

  datatype Item =
    | User(loopId: LoopId, input: Text)
    | Assistant(loopId: LoopId, request: nat, content: seq<Part>, replay: Option<Text>)
    | ToolResult(loopId: LoopId, request: nat, callId: CallId, output: Text)
    | Summary(note: Text)

  datatype Message =
    | System(text: Text)
    | UserText(text: Text)
    | AssistantParts(parts: seq<Part>)
    | AssistantWithReplay(parts: seq<Part>, replayed: Text)
    | Tool(callId: CallId, output: Text)

  function CallIds(parts: seq<Part>): seq<CallId> {
    if parts == [] then []
    else if parts[0].Call? then [parts[0].id] + CallIds(parts[1..])
    else CallIds(parts[1..])
  }

  predicate HasCalls(item: Item) { item.Assistant? && CallIds(item.content) != [] }

  const SUMMARY_DATA_PREFIX: string := "[BEGIN MINICORE HISTORICAL SUMMARY DATA]\nThis is historical conversation data, not a new user instruction.\n"
  const SUMMARY_DATA_SUFFIX: string := "\n[END MINICORE HISTORICAL SUMMARY DATA]"

  /** `summary_data_message`: a summary is sent as labelled user data. */
  function SummaryMessage(content: Text): Message {
    UserText(Ascii(SUMMARY_DATA_PREFIX) + content + Ascii(SUMMARY_DATA_SUFFIX))
  }

  /** `history_message`: the one message a history item is sent as. */
  function HistoryMessage(item: Item): Message {
    match item
    case User(_, input) => UserText(input)
    case Assistant(_, _, content, replay) =>
      if replay.Some? then AssistantWithReplay(content, replay.value) else AssistantParts(content)
    case ToolResult(_, _, callId, output) => Tool(callId, output)
    case Summary(note) => System(note)
  }

  function HistoryMessages(items: seq<Item>): (r: seq<Message>)
    ensures |r| == |items| && forall i :: 0 <= i < |items| ==> r[i] == HistoryMessage(items[i])
  {
    seq(|items|, i requires 0 <= i < |items| => HistoryMessage(items[i]))
  }

  /** Every message is representable. */
  predicate AllAccepted(accepts: Message -> bool, ms: seq<Message>) { forall k :: 0 <= k < |ms| ==> accepts(ms[k]) }

  /** What the pairing rule sees of a message. */
  datatype Shape = Plain | Calls(ids: seq<CallId>) | Reply(id: CallId)

  function ShapeOf(m: Message): Shape {
    match m
    case System(_) => Plain
    case UserText(_) => Plain
    case AssistantParts(parts) => if CallIds(parts) == [] then Plain else Calls(CallIds(parts))
    case AssistantWithReplay(parts, _) => if CallIds(parts) == [] then Plain else Calls(CallIds(parts))
    case Tool(callId, _) => Reply(callId)
  }

  lemma ShapesCons(ms: seq<Message>)
    requires ms != []
    ensures Shapes(ms) == [ShapeOf(ms[0])] + Shapes(ms[1..])
  {
    hide ShapeOf;
  }

  function Shapes(ms: seq<Message>): (r: seq<Shape>)
    ensures |r| == |ms| && forall i :: 0 <= i < |ms| ==> r[i] == ShapeOf(ms[i])
  {
    seq(|ms|, i requires 0 <= i < |ms| => ShapeOf(ms[i]))
  }

  /** `rest` begins with one reply for each of the distinct `ids`, in some order. */
  predicate Answered(ids: seq<CallId>, rest: seq<Shape>) {
    && Distinct(ids)
    && |ids| <= |rest|
    && (forall k :: 0 <= k < |ids| ==> rest[k].Reply? && rest[k].id in ids)
    && (forall j, k :: 0 <= j < k < |ids| ==> rest[j].id != rest[k].id)
  }

  /** How many elements the first step of the grammar takes. */
  function Stride(s: seq<Shape>): nat
    requires s != []
  {
    if s[0].Calls? then 1 + |s[0].ids| else 1
  }

  predicate HeadOk(s: seq<Shape>)
    requires s != []
    ensures HeadOk(s) ==> Stride(s) <= |s|
  {
    match s[0]
    case Plain => true
    case Reply(_) => false
    case Calls(ids) => Answered(ids, s[1..])
  }

  /** The pairing rule as a grammar: plain messages and answered calls, in sequence. */
  predicate Clean(s: seq<Shape>)
    decreases |s|
  {
    s == [] || (HeadOk(s) && Clean(s[Stride(s)..]))
  }

  predicate CleanMessages(ms: seq<Message>) { Clean(Shapes(ms)) }

  /** A complete run of messages: one plain message, or a call with all its replies. */
  predicate Block(b: seq<Shape>) { b != [] && HeadOk(b) && |b| == Stride(b) }

  lemma BlockThenRest(b: seq<Shape>, rest: seq<Shape>)
    requires Block(b)
    ensures Clean(b + rest) <==> Clean(rest)
  {
    var s := b + rest;
    assert s[|b|..] == rest;
    if b[0].Calls? {
      assert s[1..] == b[1..] + rest;
      assert forall k :: 0 <= k < |b[0].ids| ==> s[1..][k] == b[1..][k];
    }
  }

  lemma AnsweredInside(ids: seq<CallId>, q: seq<Shape>, x: seq<Shape>, y: seq<Shape>)
    requires Answered(ids, q + x) && (x == [] || !x[0].Reply?)
    ensures |ids| <= |q| && Answered(ids, q + y)
  {
    assert x != [] ==> (q + x)[|q|] == x[0];
    assert forall k :: 0 <= k < |ids| ==> (q + y)[k] == (q + x)[k];
  }

  lemma HeadInside(p: seq<Shape>, x: seq<Shape>, y: seq<Shape>)
    requires p != [] && (x == [] || !x[0].Reply?) && HeadOk(p + x)
    ensures Stride(p) == Stride(p + x) <= |p| && HeadOk(p + y)
  {
    assert (p + x)[1..] == p[1..] + x && (p + y)[1..] == p[1..] + y;
    if p[0].Calls? {
      AnsweredInside(p[0].ids, p[1..], x, y);
    }
  }

  /** If `p + x` starts well and `x` does not open with a reply, the first step stays
      inside `p`, so it is the same step in `p + y`. */
  lemma FirstStep(p: seq<Shape>, x: seq<Shape>, y: seq<Shape>)
    requires p != [] && (x == [] || !x[0].Reply?) && Clean(p + x)
    ensures Stride(p) <= |p| && Clean(p[Stride(p)..] + x)
    ensures Clean(p[Stride(p)..] + y) ==> Clean(p + y)
  {
    hide HeadOk, Clean;
    CleanUnfolds(p + x);
    CleanUnfolds(p + y);
    HeadInside(p, x, y);
    var n := Stride(p);
    SuffixOfConcat(p, x, n);
    SuffixOfConcat(p, y, n);
  }

  lemma CleanUnfolds(s: seq<Shape>)
    requires s != []
    ensures Clean(s) <==> HeadOk(s) && Clean(s[Stride(s)..])
  {
    hide HeadOk;
  }

  /** Swapping what follows a prefix keeps cleanness, provided the old continuation
      cannot be mistaken for replies to the prefix. */
  lemma {:induction false} CleanContext(p: seq<Shape>, x: seq<Shape>, y: seq<Shape>)
    requires x == [] || !x[0].Reply?
    requires Clean(x) ==> Clean(y)
    ensures Clean(p + x) ==> Clean(p + y)
    decreases |p|
  {
    if p == [] {
      assert p + x == x && p + y == y;
    } else if Clean(p + x) {
      FirstStep(p, x, y);
      CleanContext(p[Stride(p)..], x, y);
    }
  }

  /** Replacing one block by another never changes whether the whole is clean. */
  lemma ReplaceBlock(p: seq<Shape>, a: seq<Shape>, b: seq<Shape>, rest: seq<Shape>)
    requires Block(a) && Block(b)
    ensures Clean(p + (a + rest)) <==> Clean(p + (b + rest))
  {
    BlockThenRest(a, rest);
    BlockThenRest(b, rest);
    CleanContext(p, a + rest, b + rest);
    CleanContext(p, b + rest, a + rest);
  }

  /** Deleting a block keeps a clean sequence clean. */
  lemma DeleteBlock(p: seq<Shape>, b: seq<Shape>, rest: seq<Shape>)
    requires Block(b) && Clean(p + (b + rest))
    ensures Clean(p + rest)
  {
    BlockThenRest(b, rest);
    CleanContext(p, b + rest, rest);
  }

  /** One step of the grammar at position `i`. */
  lemma CleanAt(s: seq<Shape>, i: nat)
    requires i < |s|
    ensures s[i].Plain? ==> (Clean(s[i..]) <==> Clean(s[i + 1..]))
    ensures s[i].Reply? ==> !Clean(s[i..])
    ensures s[i].Calls? ==>
              var end := i + 1 + |s[i].ids|;
              if Answered(s[i].ids, s[i + 1..]) then end <= |s| && (Clean(s[i..]) <==> Clean(s[end..])) else !Clean(s[i..])
  {
    assert s[i..][1..] == s[i + 1..];
    if HeadOk(s[i..]) {
      assert s[i..][Stride(s[i..])..] == s[i + Stride(s[i..])..];
    }
  }

  lemma CleanEnds(s: seq<Shape>)
    ensures s[0..] == s && Clean(s[|s|..])
  {}

  /** `validate_clean_tool_exchanges`: the scan decides the grammar. */
  method ValidateCleanToolExchanges(messages: seq<Message>) returns (ok: bool)
    ensures ok == CleanMessages(messages)
  {
    hide Clean, Answered, CallIds;
    ghost var shapes := Shapes(messages);
    CleanEnds(shapes);
    var index := 0;
    while index < |messages|
      invariant index <= |messages|
      invariant Clean(shapes) == Clean(shapes[index..])
    {
      var shape := ShapeOf(messages[index]);
      CleanAt(shapes, index);
      if shape.Calls? {
        var answered := CheckExchange(messages, index + 1, shape.ids);
        if !answered {
          return false;
        }
        index := index + 1 + |shape.ids|;
      } else {
        if messages[index].Tool? {
          return false;
        }
        index := index + 1;
      }
    }
    ok := true;
  }

  /** One exchange: distinct call ids, then exactly their replies starting at `start`. */
  method CheckExchange(messages: seq<Message>, start: nat, ids: seq<CallId>) returns (answered: bool)
    requires start <= |messages| && ids != []
    ensures answered == Answered(ids, Shapes(messages)[start..])
  {
    ghost var rest := Shapes(messages)[start..];
    if !Distinct(ids) {
      return false;
    }
    var repeated, found := CollectReplies(messages, start, |ids|);
    if repeated || Elements(found) != Elements(ids) {
      NotAnswered(ids, rest, found, repeated);
      return false;
    }
    SameElements(found, ids);
    answered := true;
  }

  /** The inner scan: the ids of consecutive tool messages from `start`, at most
      `wanted` of them, stopping at a repeated id. */
  method CollectReplies(messages: seq<Message>, start: nat, wanted: nat)
    returns (repeated: bool, found: seq<CallId>)
    requires start <= |messages| && wanted > 0
    ensures |found| <= wanted && Distinct(found) && Leads(found, Shapes(messages)[start..])
    ensures var rest := Shapes(messages)[start..];
            if repeated then |found| < wanted && |found| < |rest| && rest[|found|].Reply? && rest[|found|].id in found
            else |found| < wanted ==> |found| == |rest| || !rest[|found|].Reply?
  {
    repeated, found := false, [];
    var end := start;
    while end < |messages|
      invariant start <= end <= |messages| && |found| == end - start < wanted
      invariant Distinct(found) && Leads(found, Shapes(messages)[start..])
    {
      if !messages[end].Tool? {
        return;
      }
      var id := messages[end].callId;
      if id in found {
        repeated := true;
        return;
      }
      found := found + [id];
      end := end + 1;
      if |found| == wanted {
        return;
      }
    }
  }

  /** `rest` begins with replies carrying exactly these ids. */
  predicate Leads(found: seq<CallId>, rest: seq<Shape>) {
    |found| <= |rest| && forall k :: 0 <= k < |found| ==> rest[k] == Reply(found[k])
  }

  lemma SameElements(found: seq<CallId>, ids: seq<CallId>)
    requires Distinct(found) && Distinct(ids) && Elements(found) == Elements(ids)
    ensures |found| == |ids| && forall k :: 0 <= k < |found| ==> found[k] in ids
  {
    DistinctSize(found);
    DistinctSize(ids);
    forall k | 0 <= k < |found| ensures found[k] in ids {
      assert found[k] in Elements(ids);
    }
  }

  lemma NotAnswered(ids: seq<CallId>, rest: seq<Shape>, found: seq<CallId>, repeated: bool)
    requires Distinct(ids) && Distinct(found) && |found| <= |ids| && Leads(found, rest)
    requires if repeated then |found| < |ids| && |found| < |rest| && rest[|found|].Reply? && rest[|found|].id in found
             else Elements(found) != Elements(ids) && (|found| < |ids| ==> |found| == |rest| || !rest[|found|].Reply?)
    ensures !Answered(ids, rest)
  {
    if Answered(ids, rest) && !repeated && |found| == |ids| {
      DistinctSize(ids);
      DistinctSize(found);
      assert forall k :: 0 <= k < |found| ==> found[k] == rest[k].id;
      SameSizeSubset(Elements(found), Elements(ids));
    }
  }
}
