/** Consolidating everything compressible into one summary, either when a turn
    starts above the trigger or to recover from a rejected request. */
module Threshold {
  import opened Prelude
  import opened Conversation
  import opened Projection
  import opened FoldLaws
  import opened Tickets
  import opened CompactionState

  const MAX_COVERED: nat := 4096

  /** What the source calls out to: the Runtime's value bounds, the provider's size
      estimates, the summary utility and the cancellation or deadline checks. */
  datatype Env = Env(
    accepts: Message -> bool,
    admits: ModelRequest -> bool,
    tokens: ModelRequest -> Option<nat>,
    bytes: ModelRequest -> Option<nat>,
    summarize: Key -> Result<Text, UtilityError>,
    interrupted: nat -> Option<Interruption>,
    consolidate: Result<Text, UtilityError>,
    interruptedConsolidation: nat -> Option<Interruption>,
    reported: Option<nat>,
    reserve: Text)

  datatype Input = Input(system: Text, summary: Option<Text>, src: Source, tools: seq<Text>, reasoning: Text,
                         limits: Text, index: nat, descriptor: Descriptor, binding: Binding, rejected: Option<nat>)

  datatype Projected = Projected(request: ModelRequest, compacted: bool)

  /** `CompactionPolicy::budget`. */
  function TriggerTokens(binding: Binding): nat { Min(binding.contextWindow * binding.triggerPercent, U64_MAX) / 100 }

  function CeilTokens(bytes: nat): nat { (bytes + 3) / 4 }

  /** The trigger is the given percentage of the window, rounded down, while the product fits 64 bits. */
  lemma TriggerIsPercentage(binding: Binding)
    requires binding.contextWindow * binding.triggerPercent <= U64_MAX
    ensures 100 * TriggerTokens(binding) <= binding.contextWindow * binding.triggerPercent < 100 * (TriggerTokens(binding) + 1)
  {}

  /** The least number of tokens of four bytes that hold these bytes. */
  lemma CeilTokensIsLeast(bytes: nat)
    ensures 4 * CeilTokens(bytes) >= bytes
    ensures forall tokens: nat :: 4 * tokens >= bytes ==> tokens >= CeilTokens(bytes)
  {}

  function Request(input: Input, messages: seq<Message>): ModelRequest {
    ModelRequest(messages, input.tools, input.limits, input.reasoning)
  }

  /** The request a state projects from these sources. */
  function ProjectedRequest(s: Slots, input: Input): ModelRequest {
    Request(input, ProjectionMessages(s, input.system, input.summary, input.src))
  }

  /** `compose` can represent every message it needs. */
  predicate Composable(accepts: Message -> bool, system: Text, summary: Option<Text>, src: Source) {
    && AllAccepted(accepts, Fixed(system, summary))
    && AllAccepted(accepts, HistoryMessages(src.Items()))
  }

  /** How an item that cannot be represented is reported. */
  function ItemError(item: Item): UtilityError { if item.User? || item.Summary? then TooLarge else InvalidResponse }

  /** The first item that cannot be represented. */
  ghost predicate FirstRefused(accepts: Message -> bool, items: seq<Item>, k: nat) {
    k < |items| && !accepts(HistoryMessage(items[k])) && forall j :: 0 <= j < k ==> accepts(HistoryMessage(items[j]))
  }

  /** What a request that cannot be composed is refused with. */
  ghost predicate ComposeFails(accepts: Message -> bool, system: Text, summary: Option<Text>, src: Source, error: UtilityError) {
    if !AllAccepted(accepts, Fixed(system, summary)) then error == InvalidResponse
    else exists k: nat :: FirstRefused(accepts, src.Items(), k) && error == ItemError(src.Items()[k])
  }

  /** `compose`: the fixed prefix, then one message for each item. */
  method Compose(accepts: Message -> bool, system: Text, summary: Option<Text>, src: Source) returns (r: Result<seq<Message>, UtilityError>)
    ensures r.Ok? <==> Composable(accepts, system, summary, src)
    ensures r.Ok? ==> r.value == Fixed(system, summary) + HistoryMessages(src.Items())
    ensures r.Err? ==> ComposeFails(accepts, system, summary, src, r.error)
    ensures r == Err(TooLarge) ==> exists k: nat :: FirstRefused(accepts, src.Items(), k) && (src.Items()[k].User? || src.Items()[k].Summary?)
    ensures r == Err(InvalidResponse) ==>
              || !AllAccepted(accepts, Fixed(system, summary))
              || exists k: nat :: FirstRefused(accepts, src.Items(), k) && (src.Items()[k].Assistant? || src.Items()[k].ToolResult?)
  {
    hide Fixed;
    var fixed := Fixed(system, summary);
    if !AllAccepted(accepts, fixed) {
      return Err(InvalidResponse);
    }
    var items, history := src.Items(), [];
    for k := 0 to |items|
      invariant history == HistoryMessages(items)[..k] && AllAccepted(accepts, history)
    {
      var message := HistoryMessage(items[k]);
      assert message == HistoryMessages(items)[k];
      if !accepts(message) {
        assert forall j :: 0 <= j < k ==> history[j] == HistoryMessage(items[j]);
        assert FirstRefused(accepts, items, k);
        return Err(ItemError(items[k]));
      }
      history := history + [message];
    }
    assert history == HistoryMessages(items);
    return Ok(fixed + history);
  }

  /** Once the request as a whole was composed, a fold of it is representable exactly if all its messages are. */
  lemma AcceptedThroughout(accepts: Message -> bool, system: Text, summary: Option<Text>, src: Source, folded: map<Key, Text>,
                           consolidated: Option<Consolidated>)
    requires Composable(accepts, system, summary, src)
    ensures NotesAccepted(accepts, src, folded, consolidated)
       <==> AllAccepted(accepts, FoldMessages(Fixed(system, summary), src, folded, consolidated))
  {
    var head, entries := Head(Fixed(system, summary), consolidated), Fold(src, folded, Covered(consolidated), 0);
    var body := Render(src.Items(), entries);
    AcceptedHead(accepts, system, summary, consolidated);
    AcceptedBody(accepts, src.Items(), entries);
    hide Fold, Head, Fixed, SummaryMessage, Render, Representable;
    AcceptedParts(accepts, head, body);
  }

  lemma AcceptedParts(accepts: Message -> bool, a: seq<Message>, b: seq<Message>)
    ensures AllAccepted(accepts, a + b) <==> AllAccepted(accepts, a) && AllAccepted(accepts, b)
  {
    if AllAccepted(accepts, a + b) {
      assert forall k :: 0 <= k < |a| ==> (a + b)[k] == a[k];
      assert forall k :: 0 <= k < |b| ==> (a + b)[|a| + k] == b[k];
    }
  }

  lemma AcceptedHead(accepts: Message -> bool, system: Text, summary: Option<Text>, consolidated: Option<Consolidated>)
    requires AllAccepted(accepts, Fixed(system, summary))
    ensures AllAccepted(accepts, Head(Fixed(system, summary), consolidated))
       <==> (consolidated.Some? ==> accepts(SummaryMessage(consolidated.value.content)))
  {
    if consolidated.Some? {
      HeadOfFixed(system, summary, consolidated.value);
      var note := SummaryMessage(consolidated.value.content);
      hide SummaryMessage, Head;
      assert AllAccepted(accepts, [note]) <==> accepts([note][0]);
      if system == [] {
        ConcatNothing([note]);
      } else {
        assert accepts(Fixed(system, summary)[0]) && Fixed(system, summary)[0] == System(system);
        assert AllAccepted(accepts, [System(system)]);
        AcceptedParts(accepts, [System(system)], [note]);
      }
    }
  }

  lemma AcceptedBody(accepts: Message -> bool, items: seq<Item>, entries: seq<Entry>)
    requires AllAccepted(accepts, HistoryMessages(items))
    requires forall k :: 0 <= k < |entries| && entries[k].Kept? ==> entries[k].index < |items|
    ensures Representable(accepts, entries) <==> AllAccepted(accepts, Render(items, entries))
  {
    hide SummaryMessage, HistoryMessage;
    var body := Render(items, entries);
    forall k | 0 <= k < |entries|
      ensures accepts(body[k]) <==> (entries[k].Note? ==> accepts(SummaryMessage(entries[k].content)))
    {
      assert entries[k].Kept? ==> body[k] == HistoryMessages(items)[entries[k].index];
    }
  }

  /** Every compressible range is folded into `entry`, which belongs to these sources. */
  predicate Consolidates(entry: Consolidated, input: Input) {
    entry.loopId == input.src.loopId && entry.original == input.summary && entry.covered == Keys(input.src)
  }

  /** A consolidated request opens with the system prompt, if there is one, and the summary;
      the durable summary's own message has given way to it. */
  predicate Opens(messages: seq<Message>, system: Text, content: Text) {
    if system == [] then messages != [] && messages[0] == SummaryMessage(content)
    else |messages| >= 2 && messages[0] == System(system) && messages[1] == SummaryMessage(content)
  }

  lemma ConsolidatedOpens(system: Text, summary: Option<Text>, src: Source, folded: map<Key, Text>, entry: Consolidated)
    ensures Opens(FoldMessages(Fixed(system, summary), src, folded, Some(entry)), system, entry.content)
  {
    hide Fold, Render, SummaryMessage;
    HeadOfFixed(system, summary, entry);
  }

  lemma SummaryIsNoSystem(content: Text)
    ensures SummaryMessage(content).UserText?
  {}

  /** The head of a consolidated request, and nothing of the durable summary in it. */
  lemma HeadOfFixed(system: Text, summary: Option<Text>, entry: Consolidated)
    ensures Head(Fixed(system, summary), Some(entry)) == (if system == [] then [] else [System(system)]) + [SummaryMessage(entry.content)]
  {
    hide SummaryMessage;
    if summary.Some? {
      SummaryIsNoSystem(summary.value);
    }
    var tail := if summary.Some? then [SummaryMessage(summary.value)] else [];
    assert Systems([]) == [];
    assert Systems(tail) == [] by { if summary.Some? { assert tail[1..] == []; } }
    if system == [] {
      ConcatNothing(tail);
    } else {
      assert ([System(system)] + tail)[1..] == tail;
    }
  }

  /** What a successful consolidation delivers: a clean request that the new state
      projects again from the same sources, strictly smaller than before and, in
      recovery, within the window and strictly smaller than the rejected body. */
  ghost predicate Consolidation(before: Slots, after: Slots, input: Input, env: Env, recovery: bool, request: ModelRequest) {
    && after.consolidated.Some? && Consolidates(after.consolidated.value, input)
    && after == Next(before.(attempted := after.attempted, source := after.source), InstallConsolidated(after.consolidated.value))
    && request == ProjectedRequest(after, input)
    && Opens(request.messages, input.system, after.consolidated.value.content)
    && CleanMessages(request.messages)
    && var was, now := env.bytes(ProjectedRequest(before, input)), env.bytes(request);
       && was.Some? && now.Some? && now.value < was.value
       && (recovery ==> CeilTokens(now.value) <= input.binding.contextWindow
                        && input.rejected.Some? && now.value < input.rejected.value)
  }

  /** Nothing but the attempt markers moved. */
  predicate OnlyMarkers(before: Slots, after: Slots) {
    after == before.(attempted := after.attempted, source := after.source)
  }

  /** Whether a turn-start check may try at all. */
  predicate MayAttempt(s: Slots, input: Input, env: Env) {
    && input.index == 0 && s.attempted != Some(input.src.loopId)
    && env.reported.Some? && env.reported.value >= TriggerTokens(input.binding)
  }

  function AttemptFor(input: Input): Attempt {
    Attempt(input.summary, Keys(input.src), input.descriptor.modelRef, input.descriptor.contextWindow, input.system, input.tools, input.reasoning,
            TriggerTokens(input.binding))
  }

  predicate InSomeRange(src: Source, j: nat) {
    exists s :: 0 <= s <= j && RangeEnd(src, s).Some? && j < RangeEnd(src, s).value
  }

  function UncoveredBase(src: Source, i: nat): seq<Message>
    decreases |src.base| - i
  {
    if i >= |src.base| then []
    else if InSomeRange(src, i) then UncoveredBase(src, i + 1)
    else [HistoryMessage(src.base[i])] + UncoveredBase(src, i + 1)
  }

  /** What consolidation cannot remove, with room for a summary. */
  function FloorMessages(input: Input, reserve: Text): seq<Message> {
    Fixed(input.system, None) + UncoveredBase(input.src, 0) + [SummaryMessage(reserve)]
  }

  predicate NothingToCover(s: Slots, input: Input) {
    Keys(input.src) == {} && input.summary.None? && ConsolidatedFor(s, input.src, input.summary).None?
  }

  function FloorRequest(input: Input, env: Env): ModelRequest { Request(input, FloorMessages(input, env.reserve)) }

  /** Why a turn-start check leaves the request as it is without trying. */
  predicate Skips(s: Slots, input: Input, env: Env) {
    || input.index > 0
    || env.reported.None? || env.reported.value < TriggerTokens(input.binding)
    || NothingToCover(s, input)
    || s.attempted == Some(input.src.loopId) || s.source == Some(AttemptFor(input))
    || (var floor := env.tokens(FloorRequest(input, env)); floor.Some? && floor.value >= TriggerTokens(input.binding))
  }

  /** The turn goes on unreduced: the summary timed out, but the request still fits. */
  predicate TimedOut(s: Slots, input: Input, env: Env) {
    && env.consolidate == Err(Timeout)
    && var was := env.bytes(ProjectedRequest(s, input));
       was.Some? && CeilTokens(was.value) <= input.binding.contextWindow
  }

  function EntryFor(input: Input, content: Text): Consolidated {
    Consolidated(input.src.loopId, input.summary, Keys(input.src), content)
  }

  /** The request with everything compressible folded into `content`. */
  function ConsolidatedRequest(s: Slots, input: Input, content: Text): ModelRequest {
    Request(input, FoldMessages(Fixed(input.system, input.summary), input.src, GroupsFor(s, input.src), Some(EntryFor(input, content))))
  }

  /** That request is an improvement. */
  predicate Improves(s: Slots, input: Input, env: Env, recovery: bool, content: Text) {
    var request := ConsolidatedRequest(s, input, content);
    && CleanMessages(request.messages)
    && var was, now := env.bytes(ProjectedRequest(s, input)), env.bytes(request);
       && was.Some? && now.Some? && now.value < was.value
       && (recovery ==> CeilTokens(now.value) <= input.binding.contextWindow
                        && input.rejected.Some? && now.value < input.rejected.value)
  }

  /** The request as it is can be built. */
  predicate Buildable(s: Slots, input: Input, env: Env) {
    && Composable(env.accepts, input.system, input.summary, input.src)
    && NotesAccepted(env.accepts, input.src, GroupsFor(s, input.src), ConsolidatedFor(s, input.src, input.summary))
    && env.admits(ProjectedRequest(s, input))
  }

  predicate FloorBuildable(input: Input, env: Env) {
    env.accepts(SummaryMessage(env.reserve)) && env.admits(FloorRequest(input, env))
  }

  /** So can the request with the generated summary. */
  predicate Rebuildable(s: Slots, input: Input, env: Env, content: Text) {
    && NotesAccepted(env.accepts, input.src, GroupsFor(s, input.src), Some(EntryFor(input, content)))
    && env.admits(ConsolidatedRequest(s, input, content))
  }

  predicate HasBaseline(input: Input) { input.rejected.Some? && input.rejected.value > 0 }

  /** Everything that lets an attempt begin. */
  predicate Ready(s: Slots, input: Input, env: Env, recovery: bool) {
    && Buildable(s, input, env) && env.bytes(ProjectedRequest(s, input)).Some?
    && !NothingToCover(s, input) && |Keys(input.src)| <= MAX_COVERED
    && (if recovery then HasBaseline(input)
        else !Skips(s, input, env) && FloorBuildable(input, env) && env.tokens(FloorRequest(input, env)).Some?)
    && env.interruptedConsolidation(0).None?
  }

  /** Everything that lets an attempt end well. */
  predicate Delivers(s: Slots, input: Input, env: Env, recovery: bool) {
    && env.consolidate.Ok?
    && Rebuildable(s, input, env, env.consolidate.value)
    && Improves(s, input, env, recovery, env.consolidate.value)
    && env.interruptedConsolidation(2).None?
    && ConsolidatedInstalls(s, EntryFor(input, env.consolidate.value))
  }

  /** What an error means: which check failed, on which request, or what the summary model reported. */
  ghost predicate Explains(s: Slots, input: Input, env: Env, recovery: bool, error: UtilityError) {
    || env.consolidate == Err(error)
    || match error
       case InvalidResponse =>
         || ComposeFails(env.accepts, input.system, input.summary, input.src, InvalidResponse)
         || (Composable(env.accepts, input.system, input.summary, input.src) && !Buildable(s, input, env))
         || (!recovery && !FloorBuildable(input, env))
         || (env.consolidate.Ok? && !Rebuildable(s, input, env, env.consolidate.value))
       case Serialization =>
         || env.bytes(ProjectedRequest(s, input)).None?
         || (!recovery && env.tokens(FloorRequest(input, env)).None?)
         || (env.consolidate.Ok? && env.bytes(ConsolidatedRequest(s, input, env.consolidate.value)).None?)
       case TooLarge =>
         || ComposeFails(env.accepts, input.system, input.summary, input.src, TooLarge)
         || |Keys(input.src)| > MAX_COVERED
         || (env.consolidate.Ok? && !ConsolidatedInstalls(s, EntryFor(input, env.consolidate.value)))
       case NoProgress =>
         || (recovery && !HasBaseline(input))
         || (env.consolidate.Ok? && !Improves(s, input, env, recovery, env.consolidate.value))
       case _ => exists k :: 0 <= k <= 2 && env.interruptedConsolidation(k) == Some(error)
  }

  /** The requests, their sizes and the slot do not depend on the attempt markers. */
  lemma MarkersDoNotMatter(s: Slots, marked: Slots, input: Input, env: Env, recovery: bool)
    requires OnlyMarkers(s, marked)
    ensures ProjectedRequest(marked, input) == ProjectedRequest(s, input)
    ensures Delivers(marked, input, env, recovery) <==> Delivers(s, input, env, recovery)
    ensures forall error :: Explains(marked, input, env, recovery, error) <==> Explains(s, input, env, recovery, error)
  {
    hide Opens, FoldMessages, Keys, CleanMessages, Fixed, Fold, NotesAccepted, FloorMessages, Composable, ComposeFails;
  }

  lemma ComposeErrors(accepts: Message -> bool, system: Text, summary: Option<Text>, src: Source, error: UtilityError)
    requires ComposeFails(accepts, system, summary, src, error)
    ensures error == InvalidResponse || error == TooLarge
  {}

  /** What the checks before an attempt decide. */
  datatype Gate = Unchanged(request: ModelRequest) | Refused(error: UtilityError) | Attempted(request: ModelRequest, ranges: seq<Range>, bytes: nat)

  /** The checks of `consolidate` before anything is marked or generated. */
  method CheckGates(state: State, input: Input, env: Env, recovery: bool) returns (g: Gate)
    ensures g.Attempted? <==> Ready(state.View(), input, env, recovery)
    ensures g.Unchanged? ==>
              && g.request == ProjectedRequest(state.View(), input)
              && if recovery then NothingToCover(state.View(), input) else Skips(state.View(), input, env)
    ensures g.Refused? ==> Explains(state.View(), input, env, recovery, g.error)
    ensures g.Attempted? ==>
              && g.request == ProjectedRequest(state.View(), input) && env.bytes(g.request) == Some(g.bytes)
              && Describes(input.src, g.ranges)
  {
    hide Describes, CleanMessages, Keys, FloorMessages, Composable, UncoveredBase, Improves, FoldMessages, NotesAccepted, SummaryMessage, ConsolidatedRequest, Fixed, ComposeFails;
    var composed := Compose(env.accepts, input.system, input.summary, input.src);
    if composed.Err? {
      ComposeErrors(env.accepts, input.system, input.summary, input.src, composed.error);
      return Refused(composed.error);
    }
    var ranges := CompressibleRanges(input.src);
    var folded := state.EmergencyGroups(input.src);
    var earlier := ConsolidatedFor(state.View(), input.src, input.summary);
    var messages := FoldHistoryWithRanges(Fixed(input.system, input.summary), input.src, ranges, folded, earlier, env.accepts);
    if messages.Err? {
      return Refused(messages.error);
    }
    var beforeRequest := Request(input, messages.value);
    if !env.admits(beforeRequest) {
      return Refused(InvalidResponse);
    }
    if !recovery && input.index > 0 {
      return Unchanged(beforeRequest);
    }
    if env.bytes(beforeRequest).None? {
      return Refused(Serialization);
    }
    var beforeBytes := env.bytes(beforeRequest).value;
    var trigger := TriggerTokens(input.binding);
    if !recovery && (env.reported.None? || env.reported.value < trigger) {
      return Unchanged(beforeRequest);
    }
    var covered := Keys(input.src);
    if covered == {} && input.summary.None? && earlier.None? {
      return Unchanged(beforeRequest);
    }
    if |covered| > MAX_COVERED {
      return Refused(TooLarge);
    }
    if recovery && (input.rejected.None? || input.rejected.value == 0) {
      return Refused(NoProgress);
    }
    if !recovery {
      if state.attempted == Some(input.src.loopId) || state.source == Some(AttemptFor(input)) {
        return Unchanged(beforeRequest);
      }
      var floor := FloorRequest(input, env);
      if !env.accepts(SummaryMessage(env.reserve)) || !env.admits(floor) {
        return Refused(InvalidResponse);
      }
      if env.tokens(floor).None? {
        return Refused(Serialization);
      }
      if env.tokens(floor).value >= trigger {
        return Unchanged(beforeRequest);
      }
    }
    if env.interruptedConsolidation(0).Some? {
      return Refused(env.interruptedConsolidation(0).value);
    }
    return Attempted(beforeRequest, ranges, beforeBytes);
  }

  /** `consolidate`. */
  method Consolidate(state: State, input: Input, env: Env, recovery: bool) returns (r: Result<Projected, UtilityError>)
    modifies state
    ensures r.Ok? && r.value.compacted <==> Ready(old(state.View()), input, env, recovery) && Delivers(old(state.View()), input, env, recovery)
    ensures r.Ok? && r.value.compacted ==>
              Consolidation(old(state.View()), state.View(), input, env, recovery, r.value.request)
    ensures !(r.Ok? && r.value.compacted) ==> OnlyMarkers(old(state.View()), state.View())
    ensures r.Ok? && !r.value.compacted ==> r.value.request == ProjectedRequest(old(state.View()), input)
    ensures r.Ok? && !r.value.compacted ==>
              if recovery then NothingToCover(old(state.View()), input)
              else Skips(old(state.View()), input, env) || TimedOut(old(state.View()), input, env)
    ensures r.Err? ==> Explains(old(state.View()), input, env, recovery, r.error)
    ensures recovery ==> state.attempted == old(state.attempted) && state.source == old(state.source)
    ensures !recovery && r.Ok? && r.value.compacted ==> MayAttempt(old(state.View()), input, env)
    ensures !recovery ==>
              (state.attempted, state.source)
              == if !Ready(old(state.View()), input, env, recovery) then (old(state.attempted), old(state.source))
                 else if r == Err(Cancelled) then (None, None)
                 else (Some(input.src.loopId), Some(AttemptFor(input)))
  {
    hide Describes, Keys, NothingToCover, Explains, FoldMessages, CleanMessages, Delivers, Buildable, FloorBuildable, FloorRequest;
    var gate := CheckGates(state, input, env, recovery);
    match gate {
      case Unchanged(request) => return Ok(Projected(request, false));
      case Refused(error) => return Err(error);
      case Attempted(request, ranges, bytes) =>
        if !recovery {
          state.Perform(StartAttempt(input.src.loopId, AttemptFor(input)));
        }
        ghost var marked := state.View();
        MarkersDoNotMatter(old(state.View()), marked, input, env, recovery);
        r := GenerateAndInstall(state, input, env, recovery, ranges, bytes, Projected(request, false));
        if r.Err? && r.error == Cancelled && !recovery {
          // A cancelled attempt releases its source for another try.
          state.Perform(CancelAttempt);
        }
    }
  }

  /** The attempt itself: generate, validate against the measured request, install. */
  method GenerateAndInstall(state: State, input: Input, env: Env, recovery: bool, ranges: seq<Range>,
                            beforeBytes: nat, asBefore: Projected)
    returns (r: Result<Projected, UtilityError>)
    requires Describes(input.src, ranges) && !asBefore.compacted
    requires env.bytes(ProjectedRequest(state.View(), input)) == Some(beforeBytes)
    modifies state
    ensures r.Ok? && r.value.compacted <==> Delivers(old(state.View()), input, env, recovery)
    ensures r.Ok? && r.value.compacted ==>
              Consolidation(old(state.View()), state.View(), input, env, recovery, r.value.request)
    ensures !(r.Ok? && r.value.compacted) ==> state.View() == old(state.View()) && (r.Ok? ==> r.value == asBefore)
    ensures r.Ok? && !r.value.compacted ==> !recovery && TimedOut(old(state.View()), input, env)
    ensures r.Err? ==> Explains(old(state.View()), input, env, recovery, r.error)
    ensures state.attempted == old(state.attempted) && state.source == old(state.source)
  {
    hide Describes, CleanMessages, Keys, FoldMessages, NotesAccepted, Buildable, FloorMessages, Fixed;
    var hard := input.binding.contextWindow;
    if env.consolidate.Err? {
      var unreduced := !recovery && env.consolidate.error == Timeout && CeilTokens(beforeBytes) <= hard;
      if unreduced && env.interruptedConsolidation(1).Some? {
        return Err(env.interruptedConsolidation(1).value);
      }
      return if unreduced then Ok(asBefore) else Err(env.consolidate.error);
    }
    var folded := state.EmergencyGroups(input.src);
    var entry := EntryFor(input, env.consolidate.value);
    var messages := FoldHistoryWithRanges(Fixed(input.system, input.summary), input.src, ranges, folded, Some(entry), env.accepts);
    if messages.Err? {
      return Err(messages.error);
    }
    var request := Request(input, messages.value);
    if !env.admits(request) {
      return Err(InvalidResponse);
    }
    if env.bytes(request).None? {
      return Err(Serialization);
    }
    var afterBytes := env.bytes(request).value;
    var clean := ValidateCleanToolExchanges(messages.value);
    if afterBytes >= beforeBytes
       || (recovery && (CeilTokens(afterBytes) > hard || input.rejected.None? || afterBytes >= input.rejected.value))
       || !clean {
      return Err(NoProgress);
    }
    if env.interruptedConsolidation(2).Some? {
      return Err(env.interruptedConsolidation(2).value);
    }
    ghost var before := state.View();
    var installed := state.InstallConsolidatedSummary(entry);
    if !installed {
      return Err(TooLarge);
    }
    InstalledConsolidatedReproducesRequest(before, input.system, input.summary, input.src, entry);
    ConsolidatedOpens(input.system, input.summary, input.src, folded, entry);
    return Ok(Projected(request, true));
  }

  // ----- one attempt

  lemma {:induction false} MarkersStand(s: Slots, es: seq<Event>, n: nat, k: nat)
    requires n < k <= |es| && es[n].StartAttempt?
    requires forall m :: n < m < k ==> !es[m].StartAttempt? && !es[m].CancelAttempt?
    ensures At(s, es, k).source == Some(es[n].attempt)
    ensures (forall m :: n < m < k ==> es[m] != Clear(es[n].loopId)) ==> At(s, es, k).attempted == Some(es[n].loopId)
    decreases k - n
  {
    if k > n + 1 {
      MarkersStand(s, es, n, k - 1);
    }
  }

  /** In every run, after a turn-start attempt that was not cancelled no further one begins for
      the same loop until it ends, and none for the same source at all. */
  lemma AttemptedOnce(s: Slots, es: seq<Event>, n: nat, input: Input, env: Env)
    requires n < |es| && es[n].StartAttempt?
    requires forall m :: n < m < |es| ==> !es[m].StartAttempt? && !es[m].CancelAttempt?
    requires || (es[n].loopId == input.src.loopId && forall m :: n < m < |es| ==> es[m] != Clear(input.src.loopId))
             || es[n].attempt == AttemptFor(input)
    ensures !Ready(Run(s, es), input, env, false)
  {
    MarkersStand(s, es, n, |es|);
    hide Buildable, FloorBuildable, NothingToCover, FloorRequest, ProjectedRequest, AttemptFor;
  }

  // ----- what stays

  lemma {:induction false} UncoveredStep(src: Source, i: nat)
    requires i < |src.base|
    ensures UncoveredBase(src, i) == (if InSomeRange(src, i) then UncoveredBase(src, i + 1) else [HistoryMessage(src.base[i])] + UncoveredBase(src, i + 1))
  {}

  /** Indexes inside a range are all covered. */
  lemma {:induction false} UncoveredSkips(src: Source, start: nat, i: nat, end: nat)
    requires RangeEnd(src, start) == Some(end) && start <= i <= end <= |src.base|
    ensures UncoveredBase(src, i) == UncoveredBase(src, end)
    decreases end - i
  {
    hide RangeEnd;
    if i < end {
      assert InSomeRange(src, i);
      UncoveredStep(src, i);
      hide InSomeRange, UncoveredBase;
      UncoveredSkips(src, start, i + 1, end);
    }
  }

  lemma NotInside(src: Source, i: nat)
    requires i < |src.base| && RangeEnd(src, i).None? && AtBoundary(src, i)
    ensures !InSomeRange(src, i)
  {}

  /** No range reaches across `i`. */
  ghost predicate AtBoundary(src: Source, i: nat) {
    forall s :: 0 <= s < i && RangeEnd(src, s).Some? ==> RangeEnd(src, s).value <= i
  }

  lemma BoundaryMoves(src: Source, i: nat)
    requires i < |src.Items()| && AtBoundary(src, i)
    ensures AtBoundary(src, if RangeEnd(src, i).Some? then RangeEnd(src, i).value else i + 1)
  {
    if RangeEnd(src, i).Some? {
      NoRangeInside(src, i);
    }
    hide RangeEnd;
  }

  /** The floor is exact: of a settled history, a fully consolidated request keeps just the
      messages the floor counts. */
  lemma {:induction false} FloorIsWhatRemains(src: Source, folded: map<Key, Text>, i: nat)
    requires src.appended == [] && i <= |src.base| && AtBoundary(src, i)
    ensures Render(src.Items(), Fold(src, folded, Keys(src), i)) == UncoveredBase(src, i)
    decreases |src.base| - i
  {
    assert src.Items() == src.base;
    if i == |src.base| {
      FoldEnds(src, folded, Keys(src), _ => true);
    } else {
      FoldUnfolds(src, folded, Keys(src), i);
      BoundaryMoves(src, i);
      CoveredStep(src, folded, i);
      hide StepAt, Keys, Fold, Render, UncoveredBase, AtBoundary, InSomeRange;
      if RangeEnd(src, i).Some? {
        var end := RangeEnd(src, i).value;
        hide RangeEnd;
        FloorIsWhatRemains(src, folded, end);
        UncoveredSkips(src, i, i, end);
      } else {
        NotInside(src, i);
        UncoveredStep(src, i);
        hide RangeEnd;
        FloorIsWhatRemains(src, folded, i + 1);
        RenderCons(_ => true, src.Items(), Kept(i), Fold(src, folded, Keys(src), i + 1));
      }
    }
  }

  lemma CoveredStep(src: Source, folded: map<Key, Text>, i: nat)
    requires i < |src.Items()|
    ensures StepAt(src, folded, Keys(src), i)
         == if RangeEnd(src, i).Some? then Step(None, RangeEnd(src, i).value) else Step(Some(Kept(i)), i + 1)
  {
    hide Keys;
    if RangeEnd(src, i).Some? {
      KeysAreLocal(src, KeyAt(src.Items(), i, RangeEnd(src, i).value));
    }
  }
}
