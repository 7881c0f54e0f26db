/** Three bounded event lanes with one consumer: bursts of control frames, lifecycle
    events between them, and body events when nothing else is ready. */
module EventLanes {
  import opened Prelude

  const MAX_CONTROL_BURST: nat := 8
  const LANE_CAPACITY: nat := 64

  datatype PreviewState = Generating | Settled

  datatype Kind =
    | OutputDelta
    | ToolProgress
    | SessionSnapshot
    | ToolArgumentsPreview(revision: nat, state: PreviewState)
    | ToolProcess(chunk: bool)
    | Other

  datatype Event = Event(kind: Kind, payload: nat)

  /** `is_lifecycle`. */
  predicate IsLifecycle(e: Event) {
    match e.kind
    case OutputDelta => false
    case ToolProgress => false
    case SessionSnapshot => true
    case ToolArgumentsPreview(revision, state) => revision <= 2 || state != Generating
    case ToolProcess(chunk) => !chunk
    case Other => true
  }

  datatype Lane = Control | Lifecycle | Body

  datatype Lanes = Lanes(
    capacity: nat, control: seq<Event>, lifecycle: seq<Event>, body: seq<Event>, burst: nat, pending: nat, failed: bool, closed: bool)
  {
    function Queue(lane: Lane): seq<Event> {
      match lane case Control => control case Lifecycle => lifecycle case Body => body
    }

    function Put(lane: Lane, events: seq<Event>): Lanes {
      match lane
      case Control => this.(control := events)
      case Lifecycle => this.(lifecycle := events)
      case Body => this.(body := events)
    }

    function Room(lane: Lane): nat { if lane.Body? then capacity else LANE_CAPACITY }
  }

  /** What can happen to the lanes. A receive that races with a failed control lane may see
      either; a snapshot that finds no room is still waiting. */
  datatype Action =
    | TrySend(event: Event)
    | SendSnapshot(event: Event)
    | RecordCoreDrops(dropped: nat)
    | CloseControl
    | Receive(seeFailure: bool)
    | DropStream

  datatype Outcome =
    | Sent
    | Dropped
    | Closed
    | Waiting
    | Done
    | Delivered(lane: Lane, event: Event, droppedBefore: nat)
    | Ended

  function Saturating(a: nat, b: nat): nat { Min(a + b, U64_MAX) }

  /** The lane the consumer takes from next. */
  function Ready(s: Lanes): Option<Lane> {
    var (first, second) := if s.burst == MAX_CONTROL_BURST then (Lifecycle, Control) else (Control, Lifecycle);
    if s.Queue(first) != [] then Some(first)
    else if s.Queue(second) != [] then Some(second)
    else if s.body != [] then Some(Body)
    else None
  }

  function Offer(s: Lanes, lane: Lane, event: Event): (Lanes, Outcome) {
    if s.closed then (s, Closed)
    else if |s.Queue(lane)| >= s.Room(lane) then
      if lane.Control? then (s, Waiting) else (s.(pending := Saturating(s.pending, 1)), Dropped)
    else (s.Put(lane, s.Queue(lane) + [event]), Sent)
  }

  function Take(s: Lanes, lane: Lane): (Lanes, Outcome)
    requires s.Queue(lane) != []
  {
    var event := s.Queue(lane)[0];
    (s.Put(lane, s.Queue(lane)[1..]).(burst := if lane.Control? then Min(s.burst + 1, MAX_CONTROL_BURST) else 0, pending := 0),
     Delivered(lane, event, s.pending))
  }

  /** One step of the lanes. */
  function Step(s: Lanes, a: Action): (Lanes, Outcome) {
    match a
    case TrySend(event) => Offer(s, if IsLifecycle(event) then Lifecycle else Body, event)
    case SendSnapshot(event) => Offer(s, Control, event)
    case RecordCoreDrops(dropped) => (s.(pending := Saturating(s.pending, dropped)), Done)
    case CloseControl => (s.(failed := true), Done)
    case DropStream => (s.(closed := true), Done)
    case Receive(seeFailure) =>
      if s.closed || (s.failed && seeFailure) then (s, Ended)
      else if Ready(s).Some? then Take(s, Ready(s).value)
      else if s.failed then (s, Ended)
      else (s, Waiting)
  }

  function After(s: Lanes, actions: seq<Action>): Lanes
    decreases |actions|
  {
    if actions == [] then s else After(Step(s, actions[0]).0, actions[1..])
  }

  function Outcomes(s: Lanes, actions: seq<Action>): seq<Outcome>
    decreases |actions|
  {
    if actions == [] then [] else [Step(s, actions[0]).1] + Outcomes(Step(s, actions[0]).0, actions[1..])
  }

  // ----- bounds

  predicate Bounded(s: Lanes) {
    && |s.control| <= LANE_CAPACITY && |s.lifecycle| <= LANE_CAPACITY && |s.body| <= s.capacity
    && s.burst <= MAX_CONTROL_BURST && s.pending <= U64_MAX
  }

  function Initial(capacity: nat): (s: Lanes)
    ensures Bounded(s) && s.capacity == capacity && forall lane :: s.Queue(lane) == []
    ensures !s.closed && !s.failed && s.burst == s.pending == 0
  {
    Lanes(capacity, [], [], [], 0, 0, false, false)
  }

  lemma StepStaysBounded(s: Lanes, a: Action)
    requires Bounded(s)
    ensures Bounded(Step(s, a).0) && Step(s, a).0.capacity == s.capacity
  {}

  lemma {:induction false} RunsStayBounded(s: Lanes, actions: seq<Action>)
    requires Bounded(s)
    ensures Bounded(After(s, actions)) && After(s, actions).capacity == s.capacity
    decreases |actions|
  {
    if actions != [] {
      StepStaysBounded(s, actions[0]);
      hide Step, Bounded;
      RunsStayBounded(Step(s, actions[0]).0, actions[1..]);
    }
  }

  // ----- order

  /** The events a run's outcomes delivered from a lane. */
  function DeliveredFrom(lane: Lane, outcomes: seq<Outcome>): seq<Event> {
    if outcomes == [] then []
    else if outcomes[0].Delivered? && outcomes[0].lane == lane then [outcomes[0].event] + DeliveredFrom(lane, outcomes[1..])
    else DeliveredFrom(lane, outcomes[1..])
  }

  predicate AddressedTo(lane: Lane, a: Action) {
    match a
    case TrySend(event) => lane == if IsLifecycle(event) then Lifecycle else Body
    case SendSnapshot(_) => lane == Control
    case _ => false
  }

  /** The events a run was told had been sent on a lane. */
  function SentOn(lane: Lane, actions: seq<Action>, outcomes: seq<Outcome>): seq<Event>
    requires |actions| == |outcomes|
  {
    if actions == [] then []
    else if AddressedTo(lane, actions[0]) && outcomes[0].Sent? then [actions[0].event] + SentOn(lane, actions[1..], outcomes[1..])
    else SentOn(lane, actions[1..], outcomes[1..])
  }

  lemma {:induction false} OneOutcomeEach(s: Lanes, actions: seq<Action>)
    ensures |Outcomes(s, actions)| == |actions|
    decreases |actions|
  {
    if actions != [] {
      OneOutcomeEach(Step(s, actions[0]).0, actions[1..]);
    }
  }

  /** What one step does to one lane. */
  lemma StepQueue(s: Lanes, a: Action, lane: Lane)
    ensures var (next, outcome) := Step(s, a);
            var sent := if AddressedTo(lane, a) && outcome.Sent? then [a.event] else [];
            var delivered := if outcome.Delivered? && outcome.lane == lane then [outcome.event] else [];
            s.Queue(lane) + sent == delivered + next.Queue(lane)
  {
    match a
    case TrySend(event) => OfferQueue(s, if IsLifecycle(event) then Lifecycle else Body, event, lane);
    case SendSnapshot(event) => OfferQueue(s, Control, event, lane);
    case Receive(_) =>
      if Ready(s).Some? {
        TakeQueue(s, Ready(s).value, lane);
      }
    case _ =>
  }

  lemma OfferQueue(s: Lanes, to: Lane, event: Event, lane: Lane)
    ensures var (next, outcome) := Offer(s, to, event);
            next.Queue(lane) == s.Queue(lane) + if to == lane && outcome.Sent? then [event] else []
  {}

  lemma TakeQueue(s: Lanes, from: Lane, lane: Lane)
    requires s.Queue(from) != []
    ensures var (next, outcome) := Take(s, from);
            s.Queue(lane) == (if from == lane then [outcome.event] else []) + next.Queue(lane)
  {}

  /** Each lane is a queue: what was in it and what was sent on it is what was delivered
      from it and what it still holds, in order. */
  lemma {:induction false} LanesAreFifo(s: Lanes, actions: seq<Action>, lane: Lane)
    ensures |Outcomes(s, actions)| == |actions|
    ensures s.Queue(lane) + SentOn(lane, actions, Outcomes(s, actions))
         == DeliveredFrom(lane, Outcomes(s, actions)) + After(s, actions).Queue(lane)
    decreases |actions|
  {
    OneOutcomeEach(s, actions);
    if actions != [] {
      StepQueue(s, actions[0], lane);
      var (next, outcome) := Step(s, actions[0]);
      hide Step, AddressedTo;
      var rest := Outcomes(next, actions[1..]);
      assert Outcomes(s, actions) == [outcome] + rest;
      assert ([outcome] + rest)[1..] == rest;
      LanesAreFifo(next, actions[1..], lane);
      var sent := if AddressedTo(lane, actions[0]) && outcome.Sent? then [actions[0].event] else [];
      var delivered := if outcome.Delivered? && outcome.lane == lane then [outcome.event] else [];
      SplitSent(lane, actions, outcome, rest);
      SplitDelivered(lane, outcome, rest);
      ConcatAssoc(s.Queue(lane), sent, SentOn(lane, actions[1..], rest));
      ConcatAssoc(delivered, next.Queue(lane), SentOn(lane, actions[1..], rest));
      ConcatAssoc(delivered, DeliveredFrom(lane, rest), After(next, actions[1..]).Queue(lane));
    }
  }

  lemma SplitSent(lane: Lane, actions: seq<Action>, outcome: Outcome, rest: seq<Outcome>)
    requires |actions| == |rest| + 1
    ensures SentOn(lane, actions, [outcome] + rest)
         == (if AddressedTo(lane, actions[0]) && outcome.Sent? then [actions[0].event] else []) + SentOn(lane, actions[1..], rest)
  {
    assert ([outcome] + rest)[1..] == rest;
    ConcatNothing(SentOn(lane, actions[1..], rest));
  }

  lemma SplitDelivered(lane: Lane, outcome: Outcome, rest: seq<Outcome>)
    ensures DeliveredFrom(lane, [outcome] + rest)
         == (if outcome.Delivered? && outcome.lane == lane then [outcome.event] else []) + DeliveredFrom(lane, rest)
  {
    assert ([outcome] + rest)[1..] == rest;
    ConcatNothing(DeliveredFrom(lane, rest));
  }

  // ----- waiting

  /** A ready lifecycle event waits for at most eight control deliveries, and never for a body event. */
  lemma {:induction false} LifecycleWaitIsBounded(s: Lanes, actions: seq<Action>)
    requires Bounded(s) && s.lifecycle != []
    requires DeliveredFrom(Lifecycle, Outcomes(s, actions)) == []
    ensures |DeliveredFrom(Control, Outcomes(s, actions))| <= MAX_CONTROL_BURST - s.burst
    ensures DeliveredFrom(Body, Outcomes(s, actions)) == []
    decreases |actions|
  {
    if actions != [] {
      var (next, outcome) := Step(s, actions[0]);
      var rest := Outcomes(next, actions[1..]);
      SplitDelivered(Lifecycle, outcome, rest);
      SplitDelivered(Control, outcome, rest);
      SplitDelivered(Body, outcome, rest);
      WaitingLifecycle(s, actions[0]);
      hide Step;
      LifecycleWaitIsBounded(next, actions[1..]);
    }
  }

  lemma WaitingLifecycle(s: Lanes, a: Action)
    requires Bounded(s) && s.lifecycle != []
    ensures var (next, outcome) := Step(s, a);
            && Bounded(next)
            && (outcome.Delivered? ==> !outcome.lane.Body?)
            && (outcome.Delivered? && outcome.lane.Lifecycle? ==> outcome.event == s.lifecycle[0])
            && (!(outcome.Delivered? && outcome.lane.Lifecycle?) ==> next.lifecycle != [] && next.lifecycle[0] == s.lifecycle[0])
            && (outcome.Delivered? && outcome.lane.Control? ==> s.burst < MAX_CONTROL_BURST && next.burst == s.burst + 1)
            && (!outcome.Delivered? ==> next.burst == s.burst)
  {}

  /** A ready control frame waits for at most one lifecycle delivery, for none while a burst
      has room, and never for a body event. */
  lemma {:induction false} ControlWaitIsBounded(s: Lanes, actions: seq<Action>)
    requires Bounded(s) && s.control != []
    requires DeliveredFrom(Control, Outcomes(s, actions)) == []
    ensures |DeliveredFrom(Lifecycle, Outcomes(s, actions))| <= if s.burst == MAX_CONTROL_BURST then 1 else 0
    ensures DeliveredFrom(Body, Outcomes(s, actions)) == []
    decreases |actions|
  {
    if actions != [] {
      var (next, outcome) := Step(s, actions[0]);
      var rest := Outcomes(next, actions[1..]);
      SplitDelivered(Lifecycle, outcome, rest);
      SplitDelivered(Control, outcome, rest);
      SplitDelivered(Body, outcome, rest);
      WaitingControl(s, actions[0]);
      hide Step;
      ControlWaitIsBounded(next, actions[1..]);
    }
  }

  lemma WaitingControl(s: Lanes, a: Action)
    requires Bounded(s) && s.control != []
    ensures var (next, outcome) := Step(s, a);
            && Bounded(next)
            && (outcome.Delivered? ==> !outcome.lane.Body?)
            && (!(outcome.Delivered? && outcome.lane.Control?) ==> next.control != [] && next.control[0] == s.control[0])
            && (outcome.Delivered? && outcome.lane.Lifecycle? ==> s.burst == MAX_CONTROL_BURST && next.burst == 0)
            && (!outcome.Delivered? ==> next.burst == s.burst)
  {}

  function Deliveries(outcomes: seq<Outcome>): nat {
    if outcomes == [] then 0 else if outcomes[0].Delivered? then 1 + Deliveries(outcomes[1..]) else Deliveries(outcomes[1..])
  }

  lemma {:induction false} DeliveriesByLane(outcomes: seq<Outcome>)
    ensures Deliveries(outcomes) == |DeliveredFrom(Control, outcomes)| + |DeliveredFrom(Lifecycle, outcomes)| + |DeliveredFrom(Body, outcomes)|
  {
    if outcomes != [] {
      DeliveriesByLane(outcomes[1..]);
    }
  }

  function Receives(actions: seq<Action>): nat {
    if actions == [] then 0 else if actions[0].Receive? then 1 + Receives(actions[1..]) else Receives(actions[1..])
  }

  /** While a lifecycle event waits on a working stream, every receive delivers something. */
  lemma {:induction false} EveryReceiveDelivers(s: Lanes, actions: seq<Action>)
    requires Bounded(s) && s.lifecycle != [] && DeliveredFrom(Lifecycle, Outcomes(s, actions)) == []
    requires !After(s, actions).failed && !After(s, actions).closed
    ensures Deliveries(Outcomes(s, actions)) >= Receives(actions) && !s.failed && !s.closed
    decreases |actions|
  {
    if actions != [] {
      var (next, outcome) := Step(s, actions[0]);
      var rest := Outcomes(next, actions[1..]);
      SplitDelivered(Lifecycle, outcome, rest);
      WaitingLifecycle(s, actions[0]);
      EveryReceiveDelivers(next, actions[1..]);
      WorkingReceive(s, actions[0]);
      assert ([outcome] + rest)[1..] == rest;
    }
  }

  lemma WorkingReceive(s: Lanes, a: Action)
    ensures var (next, outcome) := Step(s, a);
            && (!next.failed && !next.closed ==> !s.failed && !s.closed)
            && (a.Receive? && !s.failed && !s.closed && s.lifecycle != [] ==> outcome.Delivered?)
  {}

  /** Whatever else happens, the ninth delivery at the latest is the event that was waiting. */
  lemma NinthDeliveryIsLifecycle(s: Lanes, actions: seq<Action>)
    requires Bounded(s) && s.lifecycle != [] && Deliveries(Outcomes(s, actions)) > MAX_CONTROL_BURST
    ensures s.lifecycle[0] in DeliveredFrom(Lifecycle, Outcomes(s, actions))
  {
    var outcomes := Outcomes(s, actions);
    DeliveriesByLane(outcomes);
    if DeliveredFrom(Lifecycle, outcomes) == [] {
      LifecycleWaitIsBounded(s, actions);
    } else {
      HeadIsFirst(s, actions);
    }
  }

  lemma HeadIsFirst(s: Lanes, actions: seq<Action>)
    requires s.lifecycle != [] && DeliveredFrom(Lifecycle, Outcomes(s, actions)) != []
    ensures DeliveredFrom(Lifecycle, Outcomes(s, actions))[0] == s.lifecycle[0]
  {
    LanesAreFifo(s, actions, Lifecycle);
    var sent := SentOn(Lifecycle, actions, Outcomes(s, actions));
    assert (s.lifecycle + sent)[0] == s.lifecycle[0];
  }

  /** So nine receives on a working stream are enough. */
  lemma NineReceivesDeliver(s: Lanes, actions: seq<Action>)
    requires Bounded(s) && s.lifecycle != [] && Receives(actions) > MAX_CONTROL_BURST
    requires !After(s, actions).failed && !After(s, actions).closed
    ensures s.lifecycle[0] in DeliveredFrom(Lifecycle, Outcomes(s, actions))
  {
    if DeliveredFrom(Lifecycle, Outcomes(s, actions)) == [] {
      EveryReceiveDelivers(s, actions);
      NinthDeliveryIsLifecycle(s, actions);
    } else {
      HeadIsFirst(s, actions);
    }
  }

  // ----- drop accounting

  /** Drops a step recorded. */
  function RecordedBy(a: Action, outcome: Outcome): nat {
    if a.RecordCoreDrops? then a.dropped else if outcome.Dropped? then 1 else 0
  }

  function Recorded(actions: seq<Action>, outcomes: seq<Outcome>): nat
    requires |actions| == |outcomes|
  {
    if actions == [] then 0 else RecordedBy(actions[0], outcomes[0]) + Recorded(actions[1..], outcomes[1..])
  }

  function Reported(outcomes: seq<Outcome>): nat {
    if outcomes == [] then 0
    else (if outcomes[0].Delivered? then outcomes[0].droppedBefore else 0) + Reported(outcomes[1..])
  }

  /** Drops lost because the counter was at its limit. */
  function LostBy(s: Lanes, a: Action): nat {
    var total := s.pending + RecordedBy(a, Step(s, a).1);
    if total > U64_MAX then total - U64_MAX else 0
  }

  function Lost(s: Lanes, actions: seq<Action>): nat
    decreases |actions|
  {
    if actions == [] then 0 else LostBy(s, actions[0]) + Lost(Step(s, actions[0]).0, actions[1..])
  }

  lemma StepDrops(s: Lanes, a: Action)
    requires s.pending <= U64_MAX
    ensures var (next, outcome) := Step(s, a);
            && next.pending <= U64_MAX
            && s.pending + RecordedBy(a, outcome)
               == (if outcome.Delivered? then outcome.droppedBefore else 0) + next.pending + LostBy(s, a)
  {}

  /** Every drop recorded is reported with a delivery, still pending, or lost to saturation. */
  lemma {:induction false} DropsAreAccounted(s: Lanes, actions: seq<Action>)
    requires s.pending <= U64_MAX
    ensures |Outcomes(s, actions)| == |actions|
    ensures s.pending + Recorded(actions, Outcomes(s, actions))
         == Reported(Outcomes(s, actions)) + After(s, actions).pending + Lost(s, actions)
    decreases |actions|
  {
    OneOutcomeEach(s, actions);
    if actions != [] {
      StepDrops(s, actions[0]);
      var (next, outcome) := Step(s, actions[0]);
      var rest := Outcomes(next, actions[1..]);
      assert Outcomes(s, actions)[1..] == rest;
      hide Step, RecordedBy, LostBy;
      DropsAreAccounted(next, actions[1..]);
    }
  }

  /** Nothing is lost unless the drops of the run could exceed the counter. */
  lemma {:induction false} NothingIsLost(s: Lanes, actions: seq<Action>)
    requires |Outcomes(s, actions)| == |actions|
    requires s.pending + Recorded(actions, Outcomes(s, actions)) <= U64_MAX
    ensures Lost(s, actions) == 0
    decreases |actions|
  {
    if actions != [] {
      StepDrops(s, actions[0]);
      var (next, outcome) := Step(s, actions[0]);
      assert Outcomes(s, actions)[1..] == Outcomes(next, actions[1..]);
      assert LostBy(s, actions[0]) == 0;
      hide Step, RecordedBy, LostBy;
      NothingIsLost(next, actions[1..]);
    }
  }

  // ----- what callers are told

  predicate Streamed(kind: Kind) {
    || kind.OutputDelta? || kind.ToolProgress?
    || (kind.ToolArgumentsPreview? && kind.revision > 2 && kind.state.Generating?)
    || (kind.ToolProcess? && kind.chunk)
  }

  /** Only streamed output, progress, command chunks and later argument previews may be dropped for lack of body room. */
  lemma BodyIsStreamed(e: Event)
    ensures AddressedTo(Body, TrySend(e)) <==> Streamed(e.kind)
    ensures AddressedTo(Lifecycle, TrySend(e)) <==> !Streamed(e.kind)
  {}

  predicate Idle(s: Lanes) { s.control == [] && s.lifecycle == [] && s.body == [] }

  /** What the caller of an action on these lanes is promised. */
  ghost predicate Promised(s: Lanes, a: Action, outcome: Outcome) {
    match a
    case SendSnapshot(_) =>
      && outcome in {Sent, Closed, Waiting}
      && (outcome == Closed <==> s.closed)
      && (outcome == Sent <==> !s.closed && |s.control| < LANE_CAPACITY)
    case TrySend(event) =>
      && outcome in {Sent, Closed, Dropped}
      && (outcome == Closed <==> s.closed)
      && (outcome == Sent <==> !s.closed && if Streamed(event.kind) then |s.body| < s.capacity else |s.lifecycle| < LANE_CAPACITY)
    case Receive(seeFailure) =>
      && (outcome.Delivered? || outcome in {Ended, Waiting})
      && (outcome.Delivered? <==> !s.closed && !Idle(s) && !(s.failed && seeFailure))
      && (outcome == Waiting <==> !s.closed && !s.failed && Idle(s))
      && (outcome.Delivered? ==> outcome.droppedBefore == s.pending)
    case _ => outcome == Done
  }

  lemma StepKeepsPromise(s: Lanes, a: Action)
    ensures Promised(s, a, Step(s, a).1)
    ensures Step(s, a).1 in {Closed, Waiting, Ended} ==> Step(s, a).0 == s
  {
    if a.TrySend? { BodyIsStreamed(a.event); }
  }

  /** In every run, every call is answered as promised of the lanes it met; in particular a
      snapshot is never dropped, and is sent if the stream is open and its lane has room. */
  lemma {:induction false} RunsKeepPromises(s: Lanes, actions: seq<Action>, k: nat)
    requires k < |actions|
    ensures |Outcomes(s, actions)| == |actions|
    ensures Promised(After(s, actions[..k]), actions[k], Outcomes(s, actions)[k])
    decreases k
  {
    OneOutcomeEach(s, actions);
    if k == 0 {
      StepKeepsPromise(s, actions[0]);
    } else {
      var next := Step(s, actions[0]).0;
      hide Step, Promised;
      RunsKeepPromises(next, actions[1..], k - 1);
      assert actions[1..][..k - 1] == actions[..k][1..];
      assert Outcomes(s, actions)[1..] == Outcomes(next, actions[1..]);
    }
  }

  // ----- the shared lanes

  /** The sink and the stream over their shared lanes. */
  class AgentEvents {
    var capacity: nat
    var control: seq<Event>
    var lifecycle: seq<Event>
    var body: seq<Event>
    var controlBurst: nat
    var pending: nat
    var failed: bool
    var closed: bool

    ghost function View(): Lanes
      reads this
    {
      Lanes(capacity, control, lifecycle, body, controlBurst, pending, failed, closed)
    }

    /** `AgentEventSink::channel`. */
    constructor (capacity: nat)
      ensures View() == Initial(capacity)
    {
      this.capacity := capacity;
      control, lifecycle, body, controlBurst, pending, failed, closed := [], [], [], 0, 0, false, false;
    }

    method RecordCoreDrops(dropped: nat)
      requires Bounded(View())
      modifies this
      ensures Bounded(View()) && View() == Step(old(View()), Action.RecordCoreDrops(dropped)).0
    {
      pending := if pending + dropped > U64_MAX then U64_MAX else pending + dropped;
    }

    method TrySend(event: Event) returns (r: Outcome)
      requires Bounded(View())
      modifies this
      ensures Bounded(View()) && (View(), r) == Step(old(View()), Action.TrySend(event))
    {
      if closed {
        return Closed;
      }
      if IsLifecycle(event) {
        if |lifecycle| < LANE_CAPACITY {
          lifecycle := lifecycle + [event];
          return Sent;
        }
      } else if |body| < capacity {
        body := body + [event];
        return Sent;
      }
      RecordCoreDrops(1);
      return Dropped;
    }

    /** One attempt of a snapshot that waits for room. */
    method SendSnapshot(event: Event) returns (r: Outcome)
      requires Bounded(View())
      modifies this
      ensures Bounded(View()) && (View(), r) == Step(old(View()), Action.SendSnapshot(event))
    {
      if closed {
        return Closed;
      }
      if |control| >= LANE_CAPACITY {
        return Waiting;
      }
      control := control + [event];
      return Sent;
    }

    method CloseControl()
      modifies this
      ensures View() == Step(old(View()), Action.CloseControl).0
    {
      failed := true;
    }

    method DropStream()
      modifies this
      ensures View() == Step(old(View()), Action.DropStream).0
    {
      closed := true;
    }

    /** `delivered`: attaches every drop recorded since the previous delivery. */
    method Attach() returns (droppedBefore: nat)
      modifies this`pending
      ensures droppedBefore == old(pending) && pending == 0
    {
      droppedBefore := pending;
      pending := 0;
    }

    method TakeControl() returns (event: Event)
      requires control != []
      modifies this`control
      ensures event == old(control[0]) && control == old(control[1..])
    {
      event := control[0];
      control := control[1..];
    }

    method TakeLifecycle() returns (event: Event)
      requires lifecycle != []
      modifies this`lifecycle
      ensures event == old(lifecycle[0]) && lifecycle == old(lifecycle[1..])
    {
      event := lifecycle[0];
      lifecycle := lifecycle[1..];
    }

    /** `recv_owned`, one poll. */
    method Receive(seeFailure: bool) returns (r: Outcome)
      requires Bounded(View())
      modifies this
      ensures Bounded(View()) && (View(), r) == Step(old(View()), Action.Receive(seeFailure))
    {
      if closed || (failed && seeFailure) {
        return Ended;
      }
      var event: Event, lane: Lane;
      if controlBurst == MAX_CONTROL_BURST && lifecycle != [] {
        event := TakeLifecycle();
        lane := Lifecycle;
      } else if control != [] {
        event := TakeControl();
        lane := Control;
      } else if lifecycle != [] {
        event := TakeLifecycle();
        lane := Lifecycle;
      } else if body != [] {
        event, lane := body[0], Body;
        body := body[1..];
      } else {
        return if failed then Ended else Waiting;
      }
      controlBurst := if lane == Control then Min(Min(controlBurst + 1, 255), MAX_CONTROL_BURST) else 0;
      var dropped := Attach();
      return Delivered(lane, event, dropped);
    }

    /** Any action, as the matching call. */
    method Perform(a: Action) returns (r: Outcome)
      requires Bounded(View())
      modifies this
      ensures Bounded(View()) && (View(), r) == Step(old(View()), a)
    {
      match a {
        case TrySend(event) => r := this.TrySend(event);
        case SendSnapshot(event) => r := this.SendSnapshot(event);
        case RecordCoreDrops(dropped) => this.RecordCoreDrops(dropped); r := Done;
        case CloseControl => this.CloseControl(); r := Done;
        case Receive(seeFailure) => r := this.Receive(seeFailure);
        case DropStream => this.DropStream(); r := Done;
      }
    }
  }
}
