/** The shared compaction state object: every method is one locked section and
    refines one step of the `Tickets` state machine. */
module CompactionState {
  import opened Prelude
  import opened Conversation
  import opened Projection
  import opened FoldLaws
  import opened Tickets

  /** `emergency_groups`: installed reductions of this loop whose source still matches. */
  function GroupsFor(s: Slots, src: Source): map<Key, Text> {
    if s.ephemeral.Some? && s.ephemeral.value.loopId == src.loopId
    then map key | key in s.ephemeral.value.groups && key in Keys(src) :: s.ephemeral.value.groups[key]
    else map[]
  }

  /** `consolidated`: the consolidated summary, if it belongs to this loop and summary
      and everything it covers is still there. */
  function ConsolidatedFor(s: Slots, src: Source, summary: Option<Text>): Option<Consolidated> {
    if s.consolidated.Some? && s.consolidated.value.loopId == src.loopId
       && s.consolidated.value.original == summary && s.consolidated.value.covered <= Keys(src)
    then s.consolidated else None
  }

  /** `Projection::new(..).messages()`: the request messages in a given state. */
  function ProjectionMessages(s: Slots, system: Text, summary: Option<Text>, src: Source): seq<Message> {
    FoldMessages(Fixed(system, summary), src, GroupsFor(s, src), ConsolidatedFor(s, src, summary))
  }

  class State {
    var config: nat
    var summary: nat
    var ephemeral: Option<Ephemeral>
    var consolidated: Option<Consolidated>
    var attempted: Option<LoopId>
    var source: Option<Attempt>
    var ticket: Option<Ticket>
    var retry: Option<Retry>
    var highWater: Option<(LoopId, nat)>

    function View(): Slots
      reads this
    {
      Slots(config, summary, ephemeral, consolidated, attempted, source, ticket, retry, highWater)
    }

    constructor ()
      ensures View() == FRESH
    {
      config, summary, ephemeral, consolidated, attempted := 0, 0, None, None, None;
      source, ticket, retry, highWater := None, None, None, None;
    }

    /** `publish` / `install`: a durable summary replaces the previous one. */
    method Publish()
      modifies this
      ensures View() == Next(old(View()), Event.Publish)
    {
      summary := summary + 1;
    }

    method NoteSettingsInstalled()
      modifies this
      ensures View() == Next(old(View()), SettingsInstalled)
    {
      config := config + 1;
    }

    method RegisterRecoveryTicket(loopId: LoopId, index: nat, next: Option<Ticket>)
      modifies this
      ensures View() == Next(old(View()), Register(loopId, index, next))
    {
      if highWater.Some? && highWater.value.0 == loopId && index <= highWater.value.1 {
        ticket := None;
        return;
      }
      ticket := next;
    }

    method DiscardRecoveryTicket(loopId: LoopId, index: nat)
      modifies this
      ensures View() == Next(old(View()), Discard(loopId, index))
    {
      if ticket.Some? && ticket.value.loopId == loopId && ticket.value.index == index {
        ticket := None;
      }
    }

    method BindActualRequestTicket(framing: Framing, limits: Text, bodyBytes: nat)
      modifies this
      ensures View() == Next(old(View()), Bind(framing, limits, bodyBytes))
    {
      if ticket.None? {
        return;
      }
      if ticket.value.loopId != framing.loopId || ticket.value.index != framing.index {
        return;
      }
      if ticket.value.content != framing {
        ticket := None;
        return;
      }
      ticket := Some(ticket.value.(bound := Some(Bound(framing, limits)), limits := limits, bodyBytes := bodyBytes));
    }

    method ClaimRecoveryTicket(loopId: LoopId, index: nat, request: ModelRequest, descriptor: Descriptor)
      returns (r: Result<Ticket, ClaimError>)
      modifies this
      ensures View() == Next(old(View()), Claim(loopId, index, request, descriptor))
      ensures r == ClaimOutcome(old(View()), loopId, index, request, descriptor)
    {
      if highWater.Some? && highWater.value.0 == loopId && index <= highWater.value.1 {
        return Err(AlreadyConsumed);
      }
      if ticket.None? {
        return Err(NoTicket);
      }
      var pending := ticket.value;
      if pending.loopId != loopId || pending.index != index {
        return Err(IndexMismatch);
      }
      var framing := FramingNow(View(), loopId, index, request, descriptor);
      if framing != pending.content {
        return Err(StaleTicket);
      }
      if pending.bound.None? || pending.bound.value != Bound(framing, request.limits) {
        return Err(StaleTicket);
      }
      highWater := Some((loopId, index));
      ticket := None;
      return Ok(pending);
    }

    method EmergencyGroups(src: Source) returns (groups: map<Key, Text>)
      ensures groups == GroupsFor(View(), src)
    {
      if ephemeral.None? || ephemeral.value.loopId != src.loopId {
        return map[];
      }
      var valid := Keys(src);
      var installed := ephemeral.value.groups;
      groups := map key | key in installed && key in valid :: installed[key];
    }

    static method SumBytes(groups: map<Key, Text>) returns (bytes: nat)
      ensures bytes == GroupsBytes(groups)
    {
      bytes := 0;
      var rest := groups;
      while rest != map[]
        invariant bytes + GroupsBytes(rest) == GroupsBytes(groups)
        decreases |rest|
      {
        var key :| key in rest;
        GroupsBytesRemove(rest, key);
        bytes := bytes + |rest[key]|;
        rest := rest - {key};
      }
    }

    method InstallEmergencyGroups(loopId: LoopId, groups: map<Key, Text>) returns (installed: bool)
      modifies this
      ensures View() == Next(old(View()), InstallGroups(loopId, groups))
      ensures installed == GroupsInstall(old(View()), loopId, groups)
    {
      var bytes := SumBytes(groups);
      if |groups| > MAX_EPHEMERAL_GROUPS || bytes > MAX_EPHEMERAL_BYTES {
        return false;
      }
      if ephemeral.Some? && ephemeral.value.loopId != loopId {
        return false;
      }
      ephemeral := Some(Ephemeral(loopId, groups));
      summary := summary + 1;
      return true;
    }

    method InstallConsolidatedSummary(entry: Consolidated) returns (installed: bool)
      modifies this
      ensures View() == Next(old(View()), InstallConsolidated(entry))
      ensures installed == ConsolidatedInstalls(old(View()), entry)
    {
      if consolidated.Some? && consolidated.value.loopId != entry.loopId {
        return false;
      }
      consolidated := Some(entry);
      summary := summary + 1;
      return true;
    }

    method ClearThreshold(loopId: LoopId) returns (removed: bool)
      modifies this`consolidated, this`attempted
      ensures removed == (old(consolidated).Some? && old(consolidated).value.loopId == loopId)
      ensures consolidated == if removed then None else old(consolidated)
      ensures attempted == if old(attempted) == Some(loopId) then None else old(attempted)
    {
      removed := consolidated.Some? && consolidated.value.loopId == loopId;
      if removed {
        consolidated := None;
      }
      if attempted == Some(loopId) {
        attempted := None;
      }
    }

    method ClearEphemeral(loopId: LoopId)
      modifies this
      ensures View() == Next(old(View()), Clear(loopId))
    {
      var projectionRemoved := ClearThreshold(loopId);
      if ephemeral.Some? && ephemeral.value.loopId == loopId {
        projectionRemoved := projectionRemoved || ephemeral.value.groups != map[];
        ephemeral := None;
      }
      if projectionRemoved {
        summary := summary + 1;
      }
      ClearRecovery(loopId);
    }

    /** The recovery slots of an ended loop. */
    method ClearRecovery(loopId: LoopId)
      modifies this`highWater, this`ticket, this`retry
      ensures highWater == if old(highWater).Some? && old(highWater).value.0 == loopId then None else old(highWater)
      ensures ticket == if old(ticket).Some? && old(ticket).value.loopId == loopId then None else old(ticket)
      ensures retry == if old(retry).Some? && old(retry).value.loopId == loopId then None else old(retry)
    {
      if highWater.Some? && highWater.value.0 == loopId {
        highWater := None;
      }
      if ticket.Some? && ticket.value.loopId == loopId {
        ticket := None;
      }
      if retry.Some? && retry.value.loopId == loopId {
        retry := None;
      }
    }

    method RecoveredRequest(loopId: LoopId, index: nat, original: Bound) returns (r: Result<Option<ModelRequest>, ()>)
      modifies this
      ensures View() == Next(old(View()), LookUpRetry(loopId, index, original))
      ensures r == RetryOutcome(old(View()), loopId, index, original)
    {
      if retry.None? {
        return Ok(None);
      }
      if retry.value.loopId != loopId || retry.value.index != index {
        retry := None;
        return Ok(None);
      }
      if retry.value.original != original {
        return Err(());
      }
      return Ok(Some(retry.value.request));
    }

    method RetainRecoveredRequest(loopId: LoopId, index: nat, original: Bound, request: ModelRequest)
      modifies this
      ensures View() == Next(old(View()), Retain(Retry(loopId, index, original, request)))
    {
      retry := Some(Retry(loopId, index, original, request));
    }

    /** Another caller's step, whichever it is. */
    method Perform(e: Event)
      modifies this
      ensures View() == Next(old(View()), e)
    {
      match e {
        case Register(loopId, index, next) => RegisterRecoveryTicket(loopId, index, next);
        case Discard(loopId, index) => DiscardRecoveryTicket(loopId, index);
        case Bind(framing, limits, bodyBytes) => BindActualRequestTicket(framing, limits, bodyBytes);
        case Claim(loopId, index, request, descriptor) =>
          var _ := ClaimRecoveryTicket(loopId, index, request, descriptor);
        case SettingsInstalled => NoteSettingsInstalled();
        case Publish => Publish();
        case InstallGroups(loopId, groups) => var _ := InstallEmergencyGroups(loopId, groups);
        case InstallConsolidated(entry) => var _ := InstallConsolidatedSummary(entry);
        case StartAttempt(loopId, attempt) => attempted, source := Some(loopId), Some(attempt);
        case CancelAttempt => attempted, source := None, None;
        case Clear(loopId) => ClearEphemeral(loopId);
        case LookUpRetry(loopId, index, original) => var _ := RecoveredRequest(loopId, index, original);
        case Retain(kept) => RetainRecoveredRequest(kept.loopId, kept.index, kept.original, kept.request);
      }
    }
  }

  // ----- installed reductions reproduce the request

  /** After installing emergency groups, projecting the same sources again gives
      exactly the request that was folded with them. */
  lemma InstalledGroupsReproduceRequest(s: Slots, system: Text, summary: Option<Text>, src: Source, groups: map<Key, Text>)
    requires groups.Keys <= Keys(src) && ConsolidatedFor(s, src, summary) == None
    requires GroupsInstall(s, src.loopId, groups)
    ensures ProjectionMessages(Next(s, InstallGroups(src.loopId, groups)), system, summary, src)
         == FoldMessages(Fixed(system, summary), src, groups, None)
  {
    var after := Next(s, InstallGroups(src.loopId, groups));
    assert GroupsFor(after, src) == groups;
  }

  /** Likewise for a consolidated summary of the sources' own ranges. */
  lemma InstalledConsolidatedReproducesRequest(s: Slots, system: Text, summary: Option<Text>, src: Source, entry: Consolidated)
    requires entry.loopId == src.loopId && entry.original == summary && entry.covered <= Keys(src)
    requires ConsolidatedInstalls(s, entry)
    ensures ProjectionMessages(Next(s, InstallConsolidated(entry)), system, summary, src)
         == FoldMessages(Fixed(system, summary), src, GroupsFor(s, src), Some(entry))
  {
    var after := Next(s, InstallConsolidated(entry));
    assert GroupsFor(after, src) == GroupsFor(s, src);
  }

  /** What is installed for a loop was valid for `src`. */
  predicate InstalledFor(s: Slots, src: Source) {
    && (s.ephemeral.Some? && s.ephemeral.value.loopId == src.loopId ==> s.ephemeral.value.groups.Keys <= Keys(src))
    && (s.consolidated.Some? && s.consolidated.value.loopId == src.loopId ==> s.consolidated.value.covered <= Keys(src))
  }

  /** While the turn goes on, installed reductions stay valid and the request only
      grows at its end, unless a further result joins a finished exchange. */
  lemma ProjectionIsStableUnderExtension(s: Slots, system: Text, summary: Option<Text>, src: Source, ext: seq<Item>)
    requires InstalledFor(s, src) && forall k: nat :: !Seam(src, ext, k)
    ensures InstalledFor(s, Extended(src, ext))
    ensures ProjectionMessages(s, system, summary, src) <= ProjectionMessages(s, system, summary, Extended(src, ext))
  {
    var more := Extended(src, ext);
    KeysSurviveExtension(src, ext);
    assert GroupsFor(s, more) == GroupsFor(s, src);
    assert ConsolidatedFor(s, more, summary) == ConsolidatedFor(s, src, summary);
    FoldIsStableUnderExtension(Fixed(system, summary), src, ext, GroupsFor(s, src), ConsolidatedFor(s, src, summary));
  }

  // ----- reductions that no longer apply

  /** A consolidated summary of another loop, of another durable summary, or covering
      something that is gone has no effect. */
  lemma StaleSummaryIsIgnored(s: Slots, system: Text, summary: Option<Text>, src: Source)
    requires s.consolidated.Some?
    requires var c := s.consolidated.value;
             c.loopId != src.loopId || c.original != summary || exists key :: key in c.covered && key !in Keys(src)
    ensures ProjectionMessages(s, system, summary, src) == ProjectionMessages(s.(consolidated := None), system, summary, src)
  {
    hide FoldMessages, Keys;
  }

  /** Folded groups of another loop, and keys that are gone, have no effect. */
  lemma StaleGroupsAreIgnored(s: Slots, system: Text, summary: Option<Text>, src: Source, groups: map<Key, Text>)
    requires s.ephemeral.Some? && (s.ephemeral.value.loopId == src.loopId ==> forall key :: key in Keys(src) ==>
               (key in s.ephemeral.value.groups <==> key in groups) && (key in groups ==> s.ephemeral.value.groups[key] == groups[key]))
    ensures ProjectionMessages(s, system, summary, src)
         == ProjectionMessages(s.(ephemeral := Some(Ephemeral(s.ephemeral.value.loopId, groups))), system, summary, src)
  {
    hide FoldMessages, Keys;
    assert GroupsFor(s, src) == GroupsFor(s.(ephemeral := Some(Ephemeral(s.ephemeral.value.loopId, groups))), src);
  }
}
