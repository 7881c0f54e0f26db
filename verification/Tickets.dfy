/** The session-local compaction state as a value, its steps, and what holds over
    every run of them. A step is one call on the shared state, so a run is any
    interleaving of concurrent callers. Installing, consolidating and ending a loop
    take several locks in turn in the source; here each is one atomic step. */
module Tickets {
  import opened Prelude
  import opened Conversation
  import opened Projection

  const MAX_EPHEMERAL_GROUPS: nat := 64
  const MAX_EPHEMERAL_BYTES: nat := 512 * 1024

  datatype Descriptor = Descriptor(modelRef: Text, contextWindow: nat, supportsTools: bool, supportedReasoning: Text)

  datatype ModelRequest = ModelRequest(messages: seq<Message>, tools: seq<Text>, limits: Text, reasoning: Text)

  /** Everything a ticket hash covers; the hash is represented by the hashed value. */
  datatype Framing = Framing(loopId: LoopId, index: nat, messages: seq<Message>, tools: seq<Text>,
                             descriptor: Descriptor, reasoning: Text,
                             configGeneration: nat, summaryGeneration: nat)

  datatype Bound = Bound(framing: Framing, limits: Text)

  /** Utility binding captured at preparation: the policy and the utility model's window. */
  datatype Binding = Binding(contextWindow: nat, triggerPercent: nat)

  datatype Ticket = Ticket(loopId: LoopId, index: nat, content: Framing, bound: Option<Bound>, bodyBytes: nat,
                           system: Text, summary: Option<Text>, base: seq<Item>, appended: seq<Item>,
                           tools: seq<Text>, limits: Text, reasoning: Text, binding: Option<Binding>)
  {
    function History(): Source { Source(base, appended, loopId) }
  }

  datatype Retry = Retry(loopId: LoopId, index: nat, original: Bound, request: ModelRequest)

  datatype Ephemeral = Ephemeral(loopId: LoopId, groups: map<Key, Text>)

  /** Identity of one threshold attempt. */
  datatype Attempt = Attempt(original: Option<Text>, covered: set<Key>, modelRef: Text, contextWindow: nat, system: Text,
                             tools: seq<Text>, reasoning: Text, triggerTokens: nat)

  datatype Slots = Slots(
    config: nat, summary: nat,
    ephemeral: Option<Ephemeral>, consolidated: Option<Consolidated>,
    attempted: Option<LoopId>, source: Option<Attempt>,
    ticket: Option<Ticket>, retry: Option<Retry>, highWater: Option<(LoopId, nat)>)

  const FRESH: Slots := Slots(0, 0, None, None, None, None, None, None, None)

  datatype ClaimError = AlreadyConsumed | NoTicket | IndexMismatch | StaleTicket

  datatype Event =
    | Register(loopId: LoopId, index: nat, ticket: Option<Ticket>)
    | Discard(loopId: LoopId, index: nat)
    | Bind(framing: Framing, limits: Text, bodyBytes: nat)
    | Claim(loopId: LoopId, index: nat, request: ModelRequest, descriptor: Descriptor)
    | SettingsInstalled
    | Publish
    | InstallGroups(loopId: LoopId, groups: map<Key, Text>)
    | InstallConsolidated(entry: Consolidated)
    | StartAttempt(loopId: LoopId, attempt: Attempt)
    | CancelAttempt
    | Clear(loopId: LoopId)
    | LookUpRetry(loopId: LoopId, index: nat, original: Bound)
    | Retain(retry: Retry)

  ghost function GroupsBytes(groups: map<Key, Text>): nat
    decreases |groups|
  {
    if groups == map[] then 0
    else
      var key :| key in groups;
      |groups[key]| + GroupsBytes(groups - {key})
  }

  lemma {:induction false} GroupsBytesRemove(groups: map<Key, Text>, key: Key)
    requires key in groups
    ensures GroupsBytes(groups) == |groups[key]| + GroupsBytes(groups - {key})
    decreases |groups|
  {
    var picked :| picked in groups && GroupsBytes(groups) == |groups[picked]| + GroupsBytes(groups - {picked});
    if picked != key {
      GroupsBytesRemove(groups - {picked}, key);
      GroupsBytesRemove(groups - {key}, picked);
      assert groups - {picked} - {key} == groups - {key} - {picked};
    }
  }

  lemma GroupsBytesInsert(groups: map<Key, Text>, key: Key, content: Text)
    requires key !in groups
    ensures GroupsBytes(groups[key := content]) == GroupsBytes(groups) + |content|
    ensures |groups[key := content]| == |groups| + 1
  {
    var larger := groups[key := content];
    GroupsBytesRemove(larger, key);
    assert larger - {key} == groups;
  }

  lemma {:induction false} GroupsBytesSubset(small: map<Key, Text>, large: map<Key, Text>)
    requires small.Keys <= large.Keys && forall key :: key in small ==> small[key] == large[key]
    ensures GroupsBytes(small) <= GroupsBytes(large) && |small| <= |large|
    decreases |small|
  {
    if small != map[] {
      var key :| key in small;
      GroupsBytesSubset(small - {key}, large - {key});
      GroupsBytesRemove(small, key);
      GroupsBytesRemove(large, key);
    }
  }

  ghost predicate GroupsFit(groups: map<Key, Text>) {
    |groups| <= MAX_EPHEMERAL_GROUPS && GroupsBytes(groups) <= MAX_EPHEMERAL_BYTES
  }

  // ----- the atomic steps

  predicate Consumed(s: Slots, loopId: LoopId, index: nat) {
    s.highWater.Some? && s.highWater.value.0 == loopId && index <= s.highWater.value.1
  }

  predicate TicketIsFor(s: Slots, loopId: LoopId, index: nat) {
    s.ticket.Some? && s.ticket.value.loopId == loopId && s.ticket.value.index == index
  }

  function AfterRegister(s: Slots, loopId: LoopId, index: nat, ticket: Option<Ticket>): Slots {
    s.(ticket := if Consumed(s, loopId, index) then None else ticket)
  }

  function AfterDiscard(s: Slots, loopId: LoopId, index: nat): Slots {
    if TicketIsFor(s, loopId, index) then s.(ticket := None) else s
  }

  function AfterBind(s: Slots, framing: Framing, limits: Text, bodyBytes: nat): Slots {
    if !TicketIsFor(s, framing.loopId, framing.index) then s
    else if s.ticket.value.content != framing then s.(ticket := None)
    else s.(ticket := Some(s.ticket.value.(bound := Some(Bound(framing, limits)), limits := limits, bodyBytes := bodyBytes)))
  }

  function FramingNow(s: Slots, loopId: LoopId, index: nat, request: ModelRequest, descriptor: Descriptor): Framing {
    Framing(loopId, index, request.messages, request.tools, descriptor, request.reasoning, s.config, s.summary)
  }

  function ClaimOutcome(s: Slots, loopId: LoopId, index: nat, request: ModelRequest, descriptor: Descriptor)
    : Result<Ticket, ClaimError> {
    if Consumed(s, loopId, index) then Err(AlreadyConsumed)
    else if s.ticket.None? then Err(NoTicket)
    else if !TicketIsFor(s, loopId, index) then Err(IndexMismatch)
    else
      var framing := FramingNow(s, loopId, index, request, descriptor);
      if framing != s.ticket.value.content then Err(StaleTicket)
      else if s.ticket.value.bound != Some(Bound(framing, request.limits)) then Err(StaleTicket)
      else Ok(s.ticket.value)
  }

  function AfterClaim(s: Slots, loopId: LoopId, index: nat, request: ModelRequest, descriptor: Descriptor): Slots {
    if ClaimOutcome(s, loopId, index, request, descriptor).Ok?
    then s.(highWater := Some((loopId, index)), ticket := None)
    else s
  }

  ghost predicate GroupsInstall(s: Slots, loopId: LoopId, groups: map<Key, Text>) {
    GroupsFit(groups) && (s.ephemeral.Some? ==> s.ephemeral.value.loopId == loopId)
  }

  ghost function AfterInstallGroups(s: Slots, loopId: LoopId, groups: map<Key, Text>): Slots {
    if GroupsInstall(s, loopId, groups)
    then s.(ephemeral := Some(Ephemeral(loopId, groups)), summary := s.summary + 1)
    else s
  }

  predicate ConsolidatedInstalls(s: Slots, entry: Consolidated) {
    s.consolidated.Some? ==> s.consolidated.value.loopId == entry.loopId
  }

  function AfterInstallConsolidated(s: Slots, entry: Consolidated): Slots {
    if ConsolidatedInstalls(s, entry) then s.(consolidated := Some(entry), summary := s.summary + 1) else s
  }

  function ProjectionRemoved(s: Slots, loopId: LoopId): bool {
    || (s.consolidated.Some? && s.consolidated.value.loopId == loopId)
    || (s.ephemeral.Some? && s.ephemeral.value.loopId == loopId && s.ephemeral.value.groups != map[])
  }

  function AfterClear(s: Slots, loopId: LoopId): Slots {
    s.(consolidated := if s.consolidated.Some? && s.consolidated.value.loopId == loopId then None else s.consolidated,
       attempted := if s.attempted == Some(loopId) then None else s.attempted,
       ephemeral := if s.ephemeral.Some? && s.ephemeral.value.loopId == loopId then None else s.ephemeral,
       summary := if ProjectionRemoved(s, loopId) then s.summary + 1 else s.summary,
       highWater := if s.highWater.Some? && s.highWater.value.0 == loopId then None else s.highWater,
       ticket := if s.ticket.Some? && s.ticket.value.loopId == loopId then None else s.ticket,
       retry := if s.retry.Some? && s.retry.value.loopId == loopId then None else s.retry)
  }

  function RetryOutcome(s: Slots, loopId: LoopId, index: nat, original: Bound): Result<Option<ModelRequest>, ()> {
    if s.retry.None? || s.retry.value.loopId != loopId || s.retry.value.index != index then Ok(None)
    else if s.retry.value.original != original then Err(())
    else Ok(Some(s.retry.value.request))
  }

  function AfterLookUpRetry(s: Slots, loopId: LoopId, index: nat): Slots {
    if s.retry.Some? && (s.retry.value.loopId != loopId || s.retry.value.index != index)
    then s.(retry := None) else s
  }

  ghost function Next(s: Slots, e: Event): Slots {
    match e
    case Register(loopId, index, ticket) => AfterRegister(s, loopId, index, ticket)
    case Discard(loopId, index) => AfterDiscard(s, loopId, index)
    case Bind(framing, limits, bodyBytes) => AfterBind(s, framing, limits, bodyBytes)
    case Claim(loopId, index, request, descriptor) => AfterClaim(s, loopId, index, request, descriptor)
    case SettingsInstalled => s.(config := s.config + 1)
    case Publish => s.(summary := s.summary + 1)
    case InstallGroups(loopId, groups) => AfterInstallGroups(s, loopId, groups)
    case InstallConsolidated(entry) => AfterInstallConsolidated(s, entry)
    case StartAttempt(loopId, attempt) => s.(attempted := Some(loopId), source := Some(attempt))
    case CancelAttempt => s.(attempted := None, source := None)
    case Clear(loopId) => AfterClear(s, loopId)
    case LookUpRetry(loopId, index, _) => AfterLookUpRetry(s, loopId, index)
    case Retain(retry) => s.(retry := Some(retry))
  }

  /** The state after the first `k` events of a run. */
  ghost function At(s: Slots, es: seq<Event>, k: nat): Slots
    requires k <= |es|
  {
    if k == 0 then s else Next(At(s, es, k - 1), es[k - 1])
  }

  ghost function Run(s: Slots, es: seq<Event>): Slots { At(s, es, |es|) }

  lemma {:induction false} AtPrefix(s: Slots, es: seq<Event>, more: seq<Event>, k: nat)
    requires k <= |es|
    ensures At(s, es + more, k) == At(s, es, k)
  {
    if k > 0 {
      AtPrefix(s, es, more, k - 1);
    }
  }

  lemma RunAppend(s: Slots, es: seq<Event>, e: Event)
    ensures Run(s, es + [e]) == Next(Run(s, es), e)
  {
    AtPrefix(s, es, [e], |es|);
  }

  predicate Claims(s: Slots, e: Event) {
    e.Claim? && ClaimOutcome(s, e.loopId, e.index, e.request, e.descriptor).Ok?
  }

  // ----- one recovery per logical request

  /** What can lower the high-water mark of a loop: ending the loop, or a claim by another one. */
  ghost predicate Resets(s: Slots, e: Event, loopId: LoopId) {
    e == Clear(loopId) || (Claims(s, e) && e.loopId != loopId)
  }

  /** The mark of a loop is at or above an index. */
  predicate Marked(s: Slots, loopId: LoopId, index: nat) {
    s.highWater.Some? && s.highWater.value.0 == loopId && s.highWater.value.1 >= index
  }

  lemma ClaimMarks(s: Slots, e: Event)
    requires Claims(s, e)
    ensures Marked(Next(s, e), e.loopId, e.index)
  {}

  lemma StepKeepsMark(s: Slots, e: Event, loopId: LoopId, index: nat)
    requires Marked(s, loopId, index) && !Resets(s, e, loopId)
    ensures Marked(Next(s, e), loopId, index)
  {}

  lemma {:induction false} MarkHolds(s: Slots, es: seq<Event>, i: nat, j: nat)
    requires i < j <= |es| && Claims(At(s, es, i), es[i])
    requires forall k :: i < k < j ==> !Resets(At(s, es, k), es[k], es[i].loopId)
    ensures Marked(At(s, es, j), es[i].loopId, es[i].index)
    decreases j - i
  {
    if j > i + 1 {
      MarkHolds(s, es, i, j - 1);
      StepKeepsMark(At(s, es, j - 1), es[j - 1], es[i].loopId, es[i].index);
    } else {
      ClaimMarks(At(s, es, i), es[i]);
    }
    hide Next, Resets, Marked, ClaimOutcome;
  }

  /** In every run whatsoever, a loop's claimed index can fail to increase only if the
      mark was reset in between: the loop was cleared or another loop claimed. */
  lemma RepeatedClaimNeedsReset(s: Slots, es: seq<Event>, i: nat, j: nat)
    requires i < j < |es| && Claims(At(s, es, i), es[i]) && Claims(At(s, es, j), es[j])
    requires es[j].loopId == es[i].loopId && es[j].index <= es[i].index
    ensures exists k :: i < k < j && Resets(At(s, es, k), es[k], es[i].loopId)
  {
    if forall k :: i < k < j ==> !Resets(At(s, es, k), es[k], es[i].loopId) {
      MarkHolds(s, es, i, j);
    }
  }

  /** An earlier claim of this loop, not below `index`, with no reset since. */
  ghost predicate ClaimStands(s: Slots, es: seq<Event>, j: nat, loopId: LoopId, index: nat)
    requires j <= |es|
  {
    exists i :: 0 <= i < j && StandsSince(s, es, i, j, loopId, index)
  }

  ghost predicate StandsSince(s: Slots, es: seq<Event>, i: nat, j: nat, loopId: LoopId, index: nat)
    requires i < j <= |es|
  {
    && Claims(At(s, es, i), es[i]) && es[i].loopId == loopId && es[i].index >= index
    && forall k :: i < k < j ==> !Resets(At(s, es, k), es[k], loopId)
  }

  /** The exact condition under which the mark stops a claim: from a state without a mark, a
      request counts as consumed if and only if an earlier claim of its loop, of this or a
      later request, still stands. */
  lemma ConsumedExactly(s: Slots, es: seq<Event>, j: nat, loopId: LoopId, index: nat)
    requires j <= |es| && s.highWater == None
    ensures Consumed(At(s, es, j), loopId, index) <==> ClaimStands(s, es, j, loopId, index)
  {
    hide Next, Claims, Resets, At;
    if ClaimStands(s, es, j, loopId, index) {
      var i :| 0 <= i < j && StandsSince(s, es, i, j, loopId, index);
      MarkHolds(s, es, i, j);
    }
    if Consumed(At(s, es, j), loopId, index) {
      ConsumedByClaim(s, es, j, loopId, index);
    }
  }

  lemma {:induction false} ConsumedByClaim(s: Slots, es: seq<Event>, j: nat, loopId: LoopId, index: nat)
    requires j <= |es| && s.highWater == None && Consumed(At(s, es, j), loopId, index)
    ensures ClaimStands(s, es, j, loopId, index)
    decreases j
  {
    hide Next, Claims, Resets;
    MarkComesFrom(s, es, j, loopId, index);
    if es[j - 1].Claim? && Claims(At(s, es, j - 1), es[j - 1]) && es[j - 1].loopId == loopId && es[j - 1].index >= index {
      assert StandsSince(s, es, j - 1, j, loopId, index);
    } else {
      ConsumedByClaim(s, es, j - 1, loopId, index);
      var i :| 0 <= i < j - 1 && StandsSince(s, es, i, j - 1, loopId, index);
      hide At;
      assert StandsSince(s, es, i, j, loopId, index);
    }
  }

  /** A mark was set by the last step, or was there before and not reset. */
  lemma MarkComesFrom(s: Slots, es: seq<Event>, j: nat, loopId: LoopId, index: nat)
    requires 0 < j <= |es| && Consumed(At(s, es, j), loopId, index)
    ensures var before, e := At(s, es, j - 1), es[j - 1];
            || (e.Claim? && Claims(before, e) && e.loopId == loopId && e.index >= index)
            || (Consumed(before, loopId, index) && !Resets(before, e, loopId))
  {
    hide ClaimOutcome;
  }

  /** The loop an event acts for, if it acts for one. */
  function Owner(e: Event): Option<LoopId> {
    match e
    case Register(loopId, _, _) => Some(loopId)
    case Discard(loopId, _) => Some(loopId)
    case Bind(framing, _, _) => Some(framing.loopId)
    case Claim(loopId, _, _, _) => Some(loopId)
    case InstallGroups(loopId, _) => Some(loopId)
    case InstallConsolidated(entry) => Some(entry.loopId)
    case StartAttempt(loopId, _) => Some(loopId)
    case Clear(loopId) => Some(loopId)
    case LookUpRetry(loopId, _, _) => Some(loopId)
    case Retain(retry) => Some(retry.loopId)
    case _ => None
  }

  /** Loops run one after another, and a cleared loop does not come back. */
  predicate OneAfterAnother(es: seq<Event>) {
    forall i, k, j :: 0 <= i < k < j < |es| && Owner(es[i]).Some? && Owner(es[j]) == Owner(es[i]) ==>
      es[k] != Clear(Owner(es[i]).value) && (Owner(es[k]) == None || Owner(es[k]) == Owner(es[i]))
  }

  lemma SequentialRunsDoNotReset(s: Slots, es: seq<Event>, i: nat, k: nat, j: nat)
    requires OneAfterAnother(es) && i < k < j < |es| && es[i].Claim? && es[j].Claim?
    requires es[j].loopId == es[i].loopId
    ensures !Resets(At(s, es, k), es[k], es[i].loopId)
  {
    assert Owner(es[i]) == Some(es[i].loopId) == Owner(es[j]);
  }

  /** When loops do not interleave, a loop's claimed indexes strictly increase, so no
      logical request is ever recovered twice. */
  lemma ClaimsStrictlyIncrease(s: Slots, es: seq<Event>, i: nat, j: nat)
    requires OneAfterAnother(es)
    requires i < j < |es| && Claims(At(s, es, i), es[i]) && Claims(At(s, es, j), es[j])
    requires es[j].loopId == es[i].loopId
    ensures es[i].index < es[j].index
  {
    forall k | i < k < j ensures !Resets(At(s, es, k), es[k], es[i].loopId) {
      SequentialRunsDoNotReset(s, es, i, k, j);
    }
    MarkHolds(s, es, i, j);
  }

  function SampleRequest(): ModelRequest { ModelRequest([], [], [], []) }

  function SampleDescriptor(): Descriptor { Descriptor([], 0, true, []) }

  function SampleFraming(loopId: LoopId): Framing {
    FramingNow(FRESH, loopId, 0, SampleRequest(), SampleDescriptor())
  }

  function SampleTicket(loopId: LoopId): Ticket {
    Ticket(loopId, 0, SampleFraming(loopId), None, 0, [], None, [], [], [], [], [], None)
  }

  function SampleRecovery(loopId: LoopId): seq<Event> {
    [Register(loopId, 0, Some(SampleTicket(loopId))), Bind(SampleFraming(loopId), [], 1),
     Claim(loopId, 0, SampleRequest(), SampleDescriptor())]
  }

  /** The hypothesis is needed: with two loops interleaved, the single mark is
      overwritten and the first loop recovers its request 0 a second time. */
  lemma InterleavedLoopsCanReclaim()
    ensures var es := SampleRecovery(1) + SampleRecovery(2) + SampleRecovery(1);
            && |es| == 9 && es[2] == es[8]
            && Claims(At(FRESH, es, 2), es[2]) && Claims(At(FRESH, es, 8), es[8])
  {
    var es := SampleRecovery(1) + SampleRecovery(2) + SampleRecovery(1);
    RecoveryClaims(FRESH, es, 0, 1);
    RecoveryClaims(FRESH, es, 3, 2);
    RecoveryClaims(FRESH, es, 6, 1);
  }

  lemma RecoveryClaims(s: Slots, es: seq<Event>, k: nat, loopId: LoopId)
    requires k + 3 <= |es| && es[k..k + 3] == SampleRecovery(loopId)
    requires At(s, es, k).config == 0 && At(s, es, k).summary == 0 && !Consumed(At(s, es, k), loopId, 0)
    ensures Claims(At(s, es, k + 2), es[k + 2])
    ensures var after := At(s, es, k + 3);
            after.config == 0 && after.summary == 0 && after.highWater == Some((loopId, 0))
  {
    var events := es[k..k + 3];
    assert es[k] == events[0] && es[k + 1] == events[1] && es[k + 2] == events[2];
    var s0, s1, s2 := At(s, es, k), At(s, es, k + 1), At(s, es, k + 2);
    assert s1 == s0.(ticket := Some(SampleTicket(loopId)));
    assert s2 == AfterBind(s1, SampleFraming(loopId), [], 1);
  }

  // ----- invariants of every reachable state

  /** Preparation registers tickets for the request it prepares, not yet bound. */
  predicate WellFormed(e: Event) {
    e.Register? && e.ticket.Some? ==>
      e.ticket.value.loopId == e.loopId && e.ticket.value.index == e.index && e.ticket.value.bound == None
  }

  /** A pending ticket of the high-water loop lies above the mark, and installed
      reductions respect their bounds. */
  ghost predicate Invariant(s: Slots) {
    && (s.ticket.Some? ==> !Consumed(s, s.ticket.value.loopId, s.ticket.value.index))
    && (s.ephemeral.Some? ==> GroupsFit(s.ephemeral.value.groups))
  }

  lemma NextKeepsInvariant(s: Slots, e: Event)
    requires Invariant(s) && WellFormed(e)
    ensures Invariant(Next(s, e))
  {}

  lemma {:induction false} ReachableStatesSatisfyInvariant(s: Slots, es: seq<Event>, k: nat)
    requires k <= |es| && Invariant(s) && forall i :: 0 <= i < |es| ==> WellFormed(es[i])
    ensures Invariant(At(s, es, k))
  {
    if k > 0 {
      ReachableStatesSatisfyInvariant(s, es, k - 1);
      NextKeepsInvariant(At(s, es, k - 1), es[k - 1]);
    }
  }

  // ----- what a successful claim proves

  /** Where a pending ticket came from: the registration that filed it and, if it is
      bound, a later binding of exactly its content. */
  lemma {:induction false} TicketHistory(s: Slots, es: seq<Event>, k: nat) returns (i: nat, j: nat)
    requires k <= |es| && s.ticket == None && At(s, es, k).ticket.Some?
    requires forall n :: 0 <= n < |es| ==> WellFormed(es[n])
    ensures var ticket := At(s, es, k).ticket.value;
            && i < k && es[i].Register? && es[i].ticket.Some?
            && es[i].ticket.value == ticket.(bound := None, limits := es[i].ticket.value.limits,
                                             bodyBytes := es[i].ticket.value.bodyBytes)
            && (ticket.bound.Some? ==>
                  && i < j < k && es[j].Bind?
                  && es[j].framing == ticket.content
                  && ticket.bound.value == Bound(es[j].framing, es[j].limits)
                  && ticket.limits == es[j].limits && ticket.bodyBytes == es[j].bodyBytes)
    decreases k
  {
    var before, e := At(s, es, k - 1), es[k - 1];
    if e.Register? {
      i, j := k - 1, 0;
    } else {
      i, j := TicketHistory(s, es, k - 1);
      if e.Bind? && TicketIsFor(before, e.framing.loopId, e.framing.index) {
        j := k - 1;
      }
    }
  }

  lemma {:induction false} GenerationsGrow(s: Slots, es: seq<Event>, i: nat, k: nat)
    requires i <= k <= |es|
    ensures At(s, es, i).config <= At(s, es, k).config && At(s, es, i).summary <= At(s, es, k).summary
    decreases k - i
  {
    if i < k {
      GenerationsGrow(s, es, i, k - 1);
    }
  }

  /** A ticket's generations were read from settings no newer than its registration. */
  ghost predicate ReadInThePast(s: Slots, es: seq<Event>) {
    forall i :: 0 <= i < |es| && es[i].Register? && es[i].ticket.Some? ==>
      && es[i].ticket.value.content.configGeneration <= At(s, es, i).config
      && es[i].ticket.value.content.summaryGeneration <= At(s, es, i).summary
  }

  /** A claim succeeds only for the request that was prepared and bound: the same
      messages, tools, reasoning, descriptor and limits, with no settings or summary
      change anywhere between its preparation and the claim. */
  lemma ClaimProvesNothingChanged(s: Slots, es: seq<Event>, k: nat) returns (i: nat, j: nat)
    requires k < |es| && s.ticket == None && Claims(At(s, es, k), es[k])
    requires (forall n :: 0 <= n < |es| ==> WellFormed(es[n])) && ReadInThePast(s, es)
    ensures i < j < k && es[i].Register? && es[i].ticket.Some? && es[j].Bind?
    ensures es[i].loopId == es[k].loopId && es[i].index == es[k].index
    ensures es[i].ticket.value.content
         == FramingNow(At(s, es, k), es[k].loopId, es[k].index, es[k].request, es[k].descriptor)
    ensures es[j].framing == es[i].ticket.value.content && es[j].limits == es[k].request.limits
    ensures forall n :: i <= n <= k ==>
              At(s, es, n).config == At(s, es, k).config && At(s, es, n).summary == At(s, es, k).summary
  {
    i, j := TicketHistory(s, es, k);
    forall n | i <= n <= k
      ensures At(s, es, n).config == At(s, es, k).config && At(s, es, n).summary == At(s, es, k).summary
    {
      GenerationsGrow(s, es, i, n);
      GenerationsGrow(s, es, n, k);
    }
  }

  /** Steps that change what a prepared request was prepared from: new settings, a published summary,
      an installed reduction, or the end of a loop that had one. */
  ghost predicate Changes(s: Slots, e: Event) {
    match e
    case SettingsInstalled => true
    case Publish => true
    case InstallGroups(l, groups) => GroupsFit(groups) && (s.ephemeral.None? || s.ephemeral.value.loopId == l)
    case InstallConsolidated(entry) => s.consolidated.None? || s.consolidated.value.loopId == entry.loopId
    case Clear(l) =>
      || (s.consolidated.Some? && s.consolidated.value.loopId == l)
      || (s.ephemeral.Some? && s.ephemeral.value.loopId == l && s.ephemeral.value.groups != map[])
    case _ => false
  }

  lemma ChangeMovesGeneration(s: Slots, e: Event)
    requires Changes(s, e)
    ensures Next(s, e).config > s.config || Next(s, e).summary > s.summary
  {}

  /** After such a change no request is recovered until its ticket is registered anew. */
  lemma ChangesStaleTickets(s: Slots, es: seq<Event>, n: nat, k: nat)
    requires n < k < |es| && s.ticket == None
    requires (forall m :: 0 <= m < |es| ==> WellFormed(es[m])) && ReadInThePast(s, es)
    requires Changes(At(s, es, n), es[n])
    requires forall m :: n < m < k ==> !(es[m].Register? && es[m].ticket.Some?)
    ensures !Claims(At(s, es, k), es[k])
  {
    ChangeMovesGeneration(At(s, es, n), es[n]);
    assert !es[n].Register? && At(s, es, n + 1) == Next(At(s, es, n), es[n]);
    hide Next, Changes, Claims, WellFormed, ReadInThePast;
    if Claims(At(s, es, k), es[k]) {
      var i, j := ClaimProvesNothingChanged(s, es, k);
    }
  }

  /** Events that leave the pending ticket of one request, the mark of its loop and the
      settings alone: another request's steps, an ended loop without a projection, and
      installs that are refused. */
  ghost predicate Quiet(s: Slots, e: Event, loopId: LoopId, index: nat) {
    match e
    case Discard(l, n) => l != loopId || n != index
    case Bind(framing, _, _) => framing.loopId != loopId || framing.index != index
    case Claim(l, n, _, _) => l != loopId || n != index
    case StartAttempt(_, _) => true
    case CancelAttempt => true
    case LookUpRetry(_, _, _) => true
    case Retain(_) => true
    case Clear(l) => l != loopId && !ProjectionRemoved(s, l)
    case InstallGroups(l, groups) => !GroupsInstall(s, l, groups)
    case InstallConsolidated(entry) => !ConsolidatedInstalls(s, entry)
    case _ => false
  }

  /** Every event from `from` up to `to` is quiet. */
  ghost predicate AllQuiet(s: Slots, es: seq<Event>, from: nat, to: nat, loopId: LoopId, index: nat)
    requires to <= |es|
  {
    forall k :: from <= k < to ==> Quiet(At(s, es, k), es[k], loopId, index)
  }

  lemma QuietStep(s: Slots, e: Event, loopId: LoopId, index: nat)
    requires TicketIsFor(s, loopId, index) && Quiet(s, e, loopId, index)
    ensures var b := Next(s, e);
            && b.ticket == s.ticket && b.config == s.config && b.summary == s.summary
            && (Consumed(b, loopId, index) ==> Consumed(s, loopId, index))
  {}

  lemma {:induction false} QuietKeeps(s: Slots, es: seq<Event>, i: nat, j: nat, loopId: LoopId, index: nat)
    requires i <= j <= |es| && TicketIsFor(At(s, es, i), loopId, index)
    requires AllQuiet(s, es, i, j, loopId, index)
    ensures var a, b := At(s, es, i), At(s, es, j);
            && b.ticket == a.ticket && b.config == a.config && b.summary == a.summary
            && (Consumed(b, loopId, index) ==> Consumed(a, loopId, index))
    decreases j - i
  {
    if i < j {
      QuietKeeps(s, es, i, j - 1, loopId, index);
      QuietStep(At(s, es, j - 1), es[j - 1], loopId, index);
      hide Next, Quiet, Consumed, TicketIsFor;
    }
  }

  /** Conversely, a request above the mark that is registered, bound unchanged and then
      claimed, with only quiet events in between, always gets its ticket. */
  lemma UnchangedRequestIsClaimed(s: Slots, es: seq<Event>, i: nat, j: nat, k: nat)
    requires i < j < k < |es| && es[i].Register? && es[i].ticket.Some? && es[j].Bind? && es[k].Claim?
    requires WellFormed(es[i]) && es[k].loopId == es[i].loopId && es[k].index == es[i].index
    requires !Consumed(At(s, es, i), es[i].loopId, es[i].index)
    requires es[i].ticket.value.content
          == FramingNow(At(s, es, i), es[k].loopId, es[k].index, es[k].request, es[k].descriptor)
    requires es[j].framing == es[i].ticket.value.content && es[j].limits == es[k].request.limits
    requires AllQuiet(s, es, i + 1, j, es[i].loopId, es[i].index) && AllQuiet(s, es, j + 1, k, es[i].loopId, es[i].index)
    ensures Claims(At(s, es, k), es[k])
  {
    FramingIsOf(At(s, es, i), es[k]);
    hide Next, AllQuiet, FramingNow, At, Consumed, Claims, ClaimOutcome, Claimable, WellFormed;
    ClaimableUntil(s, es, i, j, k);
    FramingStays(At(s, es, i), At(s, es, k), es[k].loopId, es[k].index, es[k].request, es[k].descriptor);
    BoundIsClaimed(At(s, es, k), es[k]);
  }

  lemma ClaimableUntil(s: Slots, es: seq<Event>, i: nat, j: nat, k: nat)
    requires i < j < k < |es| && es[i].Register? && es[i].ticket.Some? && es[j].Bind? && WellFormed(es[i])
    requires !Consumed(At(s, es, i), es[i].loopId, es[i].index) && es[j].framing == es[i].ticket.value.content
    requires es[j].framing.loopId == es[i].loopId && es[j].framing.index == es[i].index
    requires AllQuiet(s, es, i + 1, j, es[i].loopId, es[i].index) && AllQuiet(s, es, j + 1, k, es[i].loopId, es[i].index)
    ensures Claimable(At(s, es, k), es[j].framing, es[j].limits)
    ensures At(s, es, k).config == At(s, es, i).config && At(s, es, k).summary == At(s, es, i).summary
  {
    hide Next, AllQuiet, At, Consumed, Claimable, WellFormed;
    BoundAfter(s, es, i, j);
    StaysClaimable(s, es, j + 1, k, es[j].framing, es[j].limits);
  }

  lemma FramingIsOf(s: Slots, e: Event)
    requires e.Claim?
    ensures var framing := FramingNow(s, e.loopId, e.index, e.request, e.descriptor); framing.loopId == e.loopId && framing.index == e.index
  {}

  /** A ticket bound to this framing is pending and not consumed. */
  predicate Claimable(s: Slots, framing: Framing, limits: Text) {
    && TicketIsFor(s, framing.loopId, framing.index) && !Consumed(s, framing.loopId, framing.index)
    && s.ticket.value.content == framing && s.ticket.value.bound == Some(Bound(framing, limits))
  }

  lemma StaysClaimable(s: Slots, es: seq<Event>, i: nat, k: nat, framing: Framing, limits: Text)
    requires i <= k <= |es| && Claimable(At(s, es, i), framing, limits)
    requires AllQuiet(s, es, i, k, framing.loopId, framing.index)
    ensures Claimable(At(s, es, k), framing, limits)
    ensures At(s, es, k).config == At(s, es, i).config && At(s, es, k).summary == At(s, es, i).summary
  {
    hide AllQuiet, At, Consumed;
    QuietKeeps(s, es, i, k, framing.loopId, framing.index);
  }

  /** The state right after a registered ticket was bound unchanged. */
  lemma BoundAfter(s: Slots, es: seq<Event>, i: nat, j: nat)
    requires i < j < |es| && es[i].Register? && es[i].ticket.Some? && es[j].Bind? && WellFormed(es[i])
    requires !Consumed(At(s, es, i), es[i].loopId, es[i].index) && es[j].framing == es[i].ticket.value.content
    requires es[j].framing.loopId == es[i].loopId && es[j].framing.index == es[i].index
    requires AllQuiet(s, es, i + 1, j, es[i].loopId, es[i].index)
    ensures var before, after := At(s, es, i), At(s, es, j + 1);
            && after.config == before.config && after.summary == before.summary
            && Claimable(after, es[j].framing, es[j].limits)
  {
    hide AllQuiet, Consumed, Next;
    assert At(s, es, i + 1) == Next(At(s, es, i), es[i]) && At(s, es, j + 1) == Next(At(s, es, j), es[j]);
    hide At;
    RegisterFiles(At(s, es, i), es[i]);
    QuietKeeps(s, es, i + 1, j, es[i].loopId, es[i].index);
    BindFixes(At(s, es, j), es[j], es[i].ticket.value);
  }

  lemma BoundIsClaimed(s: Slots, e: Event)
    requires e.Claim? && Claimable(s, FramingNow(s, e.loopId, e.index, e.request, e.descriptor), e.request.limits)
    ensures Claims(s, e)
  {}

  lemma RegisterFiles(s: Slots, e: Event)
    requires e.Register? && !Consumed(s, e.loopId, e.index) && e.ticket.Some?
    ensures Next(s, e) == s.(ticket := e.ticket) && !Consumed(Next(s, e), e.loopId, e.index)
  {}

  lemma BindFixes(s: Slots, e: Event, ticket: Ticket)
    requires e.Bind? && s.ticket == Some(ticket) && ticket.content == e.framing
    requires ticket.loopId == e.framing.loopId && ticket.index == e.framing.index
    ensures Next(s, e) == s.(ticket := Some(ticket.(bound := Some(Bound(e.framing, e.limits)), limits := e.limits, bodyBytes := e.bodyBytes)))
    ensures forall l, n :: Consumed(Next(s, e), l, n) <==> Consumed(s, l, n)
  {}

  lemma FramingStays(a: Slots, b: Slots, loopId: LoopId, index: nat, request: ModelRequest, descriptor: Descriptor)
    requires a.config == b.config && a.summary == b.summary
    ensures FramingNow(a, loopId, index, request, descriptor) == FramingNow(b, loopId, index, request, descriptor)
  {}

  // ----- what ending a loop and discarding do

  /** Some slot belongs to this loop. */
  predicate Names(s: Slots, loopId: LoopId) {
    || (s.ephemeral.Some? && s.ephemeral.value.loopId == loopId)
    || (s.consolidated.Some? && s.consolidated.value.loopId == loopId)
    || s.attempted == Some(loopId)
    || (s.ticket.Some? && s.ticket.value.loopId == loopId)
    || (s.retry.Some? && s.retry.value.loopId == loopId)
    || (s.highWater.Some? && s.highWater.value.0 == loopId)
  }

  /** Ending a loop leaves nothing of it, and everything of every other loop. */
  lemma ClearEndsLoop(s: Slots, loopId: LoopId)
    ensures var after := Next(s, Clear(loopId));
            && !Names(after, loopId)
            && (!Names(s, loopId) ==> after == s)
            && after.config == s.config && after.source == s.source && s.summary <= after.summary <= s.summary + 1
            && (s.ephemeral.Some? && s.ephemeral.value.loopId != loopId ==> after.ephemeral == s.ephemeral)
            && (s.consolidated.Some? && s.consolidated.value.loopId != loopId ==> after.consolidated == s.consolidated)
            && (s.attempted != Some(loopId) ==> after.attempted == s.attempted)
            && (s.ticket.Some? && s.ticket.value.loopId != loopId ==> after.ticket == s.ticket)
            && (s.retry.Some? && s.retry.value.loopId != loopId ==> after.retry == s.retry)
            && (s.highWater.Some? && s.highWater.value.0 != loopId ==> after.highWater == s.highWater)
  {}

  /** The generation moves exactly when a projection goes with the loop. */
  lemma ClearMovesGeneration(s: Slots, loopId: LoopId)
    ensures Next(s, Clear(loopId)).summary != s.summary
       <==> || (s.consolidated.Some? && s.consolidated.value.loopId == loopId)
            || (s.ephemeral.Some? && s.ephemeral.value.loopId == loopId && s.ephemeral.value.groups != map[])
  {}

  /** After a request started, its ticket is gone: no claim succeeds until it is registered again. */
  lemma {:induction false} DiscardedIsNotClaimed(s: Slots, es: seq<Event>, i: nat, k: nat)
    requires i < k < |es| && es[i].Discard? && es[k].Claim? && es[k].loopId == es[i].loopId && es[k].index == es[i].index
    requires forall n :: i < n < k ==> !(es[n].Register? && es[n].ticket.Some?)
    ensures !Claims(At(s, es, k), es[k])
  {
    TicketStaysAway(s, es, i, k, es[i].loopId, es[i].index);
  }

  lemma {:induction false} TicketStaysAway(s: Slots, es: seq<Event>, i: nat, k: nat, loopId: LoopId, index: nat)
    requires i < k <= |es| && es[i] == Discard(loopId, index)
    requires forall n :: i < n < k ==> !(es[n].Register? && es[n].ticket.Some?)
    ensures !TicketIsFor(At(s, es, k), loopId, index)
    decreases k - i
  {
    if k > i + 1 {
      TicketStaysAway(s, es, i, k - 1, loopId, index);
      NoTicketAppears(At(s, es, k - 1), es[k - 1], loopId, index);
    } else {
      DiscardRemoves(At(s, es, i), loopId, index);
    }
    hide Next, TicketIsFor;
  }

  lemma NoTicketAppears(s: Slots, e: Event, loopId: LoopId, index: nat)
    requires !TicketIsFor(s, loopId, index) && !(e.Register? && e.ticket.Some?)
    ensures !TicketIsFor(Next(s, e), loopId, index)
  {}

  lemma DiscardRemoves(s: Slots, loopId: LoopId, index: nat)
    ensures !TicketIsFor(Next(s, Discard(loopId, index)), loopId, index)
  {}

  /** A retry looked past is forgotten: once another request was looked up, nothing is retained
      for this one until somebody retains it again. */
  lemma {:induction false} ForgottenRetry(s: Slots, es: seq<Event>, n: nat, k: nat, loopId: LoopId, index: nat)
    requires n < k <= |es| && es[n].LookUpRetry? && (es[n].loopId != loopId || es[n].index != index)
    requires forall m :: n < m < k ==> !es[m].Retain?
    ensures var retry := At(s, es, k).retry; retry.Some? ==> retry.value.loopId != loopId || retry.value.index != index
    decreases k - n
  {
    if k > n + 1 {
      ForgottenRetry(s, es, n, k - 1, loopId, index);
    }
  }
}
