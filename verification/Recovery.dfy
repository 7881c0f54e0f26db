/** One-shot recovery from a context overflow: search for a smaller request,
    install the reduction it rests on, and start again with it. */
module Recovery {
  import opened Prelude
  import opened Conversation
  import opened Projection
  import opened FoldLaws
  import opened Tickets
  import opened CompactionState
  import opened Threshold

  datatype RecoveryError = Interrupted(error: UtilityError) | Uncompressible | InvalidToolExchanges | Other(cause: UtilityError)

  /** How a utility error ends a reconstruction. */
  function Into(error: UtilityError): RecoveryError {
    if error == Cancelled || error == Timeout then Interrupted(error) else Other(error)
  }

  function FoldedRequest(ticket: Ticket, groups: map<Key, Text>): ModelRequest {
    ModelRequest(FoldMessages(Fixed(ticket.system, ticket.summary), ticket.History(), groups, None),
                 ticket.tools, ticket.limits, ticket.reasoning)
  }

  datatype Measured = Measured(request: ModelRequest, tokens: nat, bytes: nat)

  /** The fold is a valid request whose sizes the provider can tell. */
  predicate Sendable(ticket: Ticket, env: Env, groups: map<Key, Text>) {
    var request := FoldedRequest(ticket, groups);
    && NotesAccepted(env.accepts, ticket.History(), groups, None)
    && CleanMessages(request.messages)
    && env.admits(request) && env.tokens(request).Some? && env.bytes(request).Some?
  }

  /** `measure_reconstruction`: the request as the provider will see it, or nothing
      when it cannot be represented as a valid one. */
  method MeasureReconstruction(ticket: Ticket, env: Env, ranges: seq<Range>, folded: map<Key, Text>)
    returns (m: Option<Measured>)
    requires Describes(ticket.History(), ranges)
    ensures m.Some? <==> Sendable(ticket, env, folded)
    ensures m.Some? ==>
              && m.value.request == FoldedRequest(ticket, folded)
              && env.tokens(m.value.request) == Some(m.value.tokens)
              && env.bytes(m.value.request) == Some(m.value.bytes)
  {
    hide FoldMessages, NotesAccepted, Describes, CleanMessages;
    var messages := FoldHistoryWithRanges(Fixed(ticket.system, ticket.summary), ticket.History(), ranges, folded, None, env.accepts);
    if messages.Err? {
      return None;
    }
    var clean := ValidateCleanToolExchanges(messages.value);
    if !clean {
      return None;
    }
    var request := ModelRequest(messages.value, ticket.tools, ticket.limits, ticket.reasoning);
    if !env.admits(request) {
      return None;
    }
    var tokens, bytes := env.tokens(request), env.bytes(request);
    if tokens.None? || bytes.None? {
      return None;
    }
    return Some(Measured(request, tokens.value, bytes.value));
  }

  // ----- candidate order

  predicate Before(a: Range, b: Range) { a.bytes > b.bytes || (a.bytes == b.bytes && a.key.start <= b.key.start) }

  predicate Ordered(ranges: seq<Range>) { forall j, k :: 0 <= j < k < |ranges| ==> Before(ranges[j], ranges[k]) }

  function InsertCandidate(range: Range, sorted: seq<Range>): (r: seq<Range>)
    ensures multiset(r) == multiset([range]) + multiset(sorted)
  {
    if sorted == [] || Before(range, sorted[0]) then [range] + sorted
    else
      assert sorted == [sorted[0]] + sorted[1..];
      [sorted[0]] + InsertCandidate(range, sorted[1..])
  }

  lemma {:induction false} InsertKeepsOrder(range: Range, sorted: seq<Range>)
    requires Ordered(sorted)
    ensures Ordered(InsertCandidate(range, sorted))
  {
    if sorted == [] || Before(range, sorted[0]) {
      assert forall k :: 0 < k < |sorted| ==> Before(sorted[0], sorted[k]);
    } else {
      InsertKeepsOrder(range, sorted[1..]);
      var rest := InsertCandidate(range, sorted[1..]);
      forall k | 0 <= k < |rest| ensures Before(sorted[0], rest[k]) {
        assert rest[k] in multiset(rest);
        assert rest[k] == range || rest[k] in sorted[1..];
      }
    }
  }

  /** Largest group first, source order among equals. */
  function SortCandidates(ranges: seq<Range>): (r: seq<Range>)
    ensures multiset(r) == multiset(ranges)
  {
    if ranges == [] then []
    else
      assert ranges == [ranges[0]] + ranges[1..];
      InsertCandidate(ranges[0], SortCandidates(ranges[1..]))
  }

  lemma {:induction false} SortedIsOrdered(ranges: seq<Range>)
    ensures Ordered(SortCandidates(ranges))
  {
    if ranges != [] {
      SortedIsOrdered(ranges[1..]);
      InsertKeepsOrder(ranges[0], SortCandidates(ranges[1..]));
    }
  }

  /** Larger groups come first, and earlier ones among equals. */
  lemma CandidatesAreOrdered(ranges: seq<Range>, j: nat, k: nat)
    requires j < k < |SortCandidates(ranges)|
    ensures var a, b := SortCandidates(ranges)[j], SortCandidates(ranges)[k];
            a.bytes >= b.bytes && (a.bytes == b.bytes ==> a.key.start <= b.key.start)
  {
    SortedIsOrdered(ranges);
    assert Before(SortCandidates(ranges)[j], SortCandidates(ranges)[k]);
  }

  // ----- the search

  datatype Reduction = Reduction(request: ModelRequest, tokens: nat, bytes: nat, groups: map<Key, Text>)

  /** `small` is contained in `large`. */
  predicate Extends(small: map<Key, Text>, large: map<Key, Text>) {
    forall key :: key in small ==> key in large && large[key] == small[key]
  }

  /** A fold that would do: sendable, inside the hard window, strictly smaller than the
      rejected body, and within the byte bound. */
  ghost predicate Worthy(ticket: Ticket, env: Env, hardTokens: nat, groups: map<Key, Text>) {
    var request := FoldedRequest(ticket, groups);
    && Sendable(ticket, env, groups)
    && env.tokens(request).value <= hardTokens && env.bytes(request).value < ticket.bodyBytes
    && GroupsBytes(groups) <= MAX_EPHEMERAL_BYTES
  }

  ghost function ReductionOf(ticket: Ticket, env: Env, groups: map<Key, Text>): Reduction
    requires Sendable(ticket, env, groups)
  {
    var request := FoldedRequest(ticket, groups);
    Reduction(request, env.tokens(request).value, env.bytes(request).value, groups)
  }

  /** The folds the candidates lead to, one group more each time, as long as the bound and
      the summary model allow. */
  function Folds(env: Env, candidates: seq<Range>, folded: map<Key, Text>): seq<map<Key, Text>> {
    if candidates == [] then []
    else
      var key, rest := candidates[0].key, candidates[1..];
      if key in folded then Folds(env, rest, folded)
      else if |folded| >= MAX_EPHEMERAL_GROUPS then []
      else match env.summarize(key)
        case Ok(content) => [folded[key := content]] + Folds(env, rest, folded[key := content])
        case Err(error) => if error == NoProgress then Folds(env, rest, folded) else []
  }

  /** What a usable reduction must be: a worthy fold of valid keys that keeps what was
      folded before and adds something new, in bounds. */
  ghost predicate Usable(r: Reduction, ticket: Ticket, env: Env, hardTokens: nat, start: map<Key, Text>) {
    && Worthy(ticket, env, hardTokens, r.groups) && r == ReductionOf(ticket, env, r.groups)
    && r.groups.Keys <= Keys(ticket.History())
    && Extends(start, r.groups) && (exists key :: key in r.groups && key !in start)
    && GroupsFit(r.groups)
  }

  /** Folding this far is worthy but stays above the soft trigger. */
  ghost predicate AboveTrigger(ticket: Ticket, env: Env, hardTokens: nat, triggerTokens: nat, groups: map<Key, Text>) {
    Worthy(ticket, env, hardTokens, groups) ==> ReductionOf(ticket, env, groups).tokens > triggerTokens
  }

  /** Of the folds taken, `best` is the first worthy one under the soft trigger, else the
      smallest worthy one; there is none only if none is worthy. */
  ghost predicate BestOf(best: Option<Reduction>, taken: seq<map<Key, Text>>, ticket: Ticket, env: Env,
                         hardTokens: nat, triggerTokens: nat) {
    match best
    case None => forall f :: f in taken ==> !Worthy(ticket, env, hardTokens, f)
    case Some(b) =>
      && b.groups in taken && Worthy(ticket, env, hardTokens, b.groups) && b == ReductionOf(ticket, env, b.groups)
      && if b.tokens > triggerTokens
         then forall f :: f in taken ==>
                && AboveTrigger(ticket, env, hardTokens, triggerTokens, f)
                && (Worthy(ticket, env, hardTokens, f) ==> b.bytes <= ReductionOf(ticket, env, f).bytes)
         else && taken[|taken| - 1] == b.groups
              && forall k :: 0 <= k < |taken| - 1 ==> AboveTrigger(ticket, env, hardTokens, triggerTokens, taken[k])
  }

  /** The search went through the folds in order, and through all of them unless it
      found one under the trigger. */
  ghost predicate Searched(best: Option<Reduction>, taken: seq<map<Key, Text>>, folds: seq<map<Key, Text>>, ticket: Ticket, env: Env,
                           hardTokens: nat, triggerTokens: nat) {
    && BestOf(best, taken, ticket, env, hardTokens, triggerTokens)
    && taken <= folds
    && (best.None? || best.value.tokens > triggerTokens ==> taken == folds)
  }

  /** One more fold that is not worthy. */
  lemma BestOfUnworthy(best: Option<Reduction>, taken: seq<map<Key, Text>>, f: map<Key, Text>, ticket: Ticket, env: Env,
                       hardTokens: nat, triggerTokens: nat)
    requires BestOf(best, taken, ticket, env, hardTokens, triggerTokens)
    requires (best.Some? ==> best.value.tokens > triggerTokens) && !Worthy(ticket, env, hardTokens, f)
    ensures BestOf(best, taken + [f], ticket, env, hardTokens, triggerTokens)
  {
    hide Worthy, Sendable, FoldedRequest;
    assert forall g :: g in taken + [f] <==> g in taken || g == f;
  }

  lemma TakenOneMore(taken: seq<map<Key, Text>>, f: map<Key, Text>)
    ensures (taken + [f])[|taken|] == f
    ensures forall g :: g in taken + [f] <==> g in taken || g == f
    ensures forall k :: 0 <= k < |taken| ==> (taken + [f])[k] == taken[k] && taken[k] in taken
  {}

  /** One more fold, the first under the trigger. */
  lemma BestOfUnder(best: Option<Reduction>, taken: seq<map<Key, Text>>, f: map<Key, Text>, ticket: Ticket, env: Env,
                    hardTokens: nat, triggerTokens: nat)
    requires BestOf(best, taken, ticket, env, hardTokens, triggerTokens)
    requires (best.Some? ==> best.value.tokens > triggerTokens) && Worthy(ticket, env, hardTokens, f)
    requires ReductionOf(ticket, env, f).tokens <= triggerTokens
    ensures BestOf(Some(ReductionOf(ticket, env, f)), taken + [f], ticket, env, hardTokens, triggerTokens)
  {
    hide Worthy, Sendable, FoldedRequest;
    TakenOneMore(taken, f);
    forall k | 0 <= k < |taken| ensures AboveTrigger(ticket, env, hardTokens, triggerTokens, taken[k]) {
      assert taken[k] in taken;
    }
  }

  /** One more fold above the trigger, the smallest so far. */
  lemma BestOfSmaller(best: Option<Reduction>, taken: seq<map<Key, Text>>, f: map<Key, Text>, ticket: Ticket, env: Env,
                      hardTokens: nat, triggerTokens: nat)
    requires BestOf(best, taken, ticket, env, hardTokens, triggerTokens)
    requires (best.Some? ==> best.value.tokens > triggerTokens) && Worthy(ticket, env, hardTokens, f)
    requires ReductionOf(ticket, env, f).tokens > triggerTokens
    requires best.None? || ReductionOf(ticket, env, f).bytes < best.value.bytes
    ensures BestOf(Some(ReductionOf(ticket, env, f)), taken + [f], ticket, env, hardTokens, triggerTokens)
  {
    hide Worthy, Sendable, FoldedRequest;
    TakenOneMore(taken, f);
  }

  /** One more fold above the trigger, no smaller. */
  lemma BestOfLarger(best: Option<Reduction>, taken: seq<map<Key, Text>>, f: map<Key, Text>, ticket: Ticket, env: Env,
                     hardTokens: nat, triggerTokens: nat)
    requires BestOf(best, taken, ticket, env, hardTokens, triggerTokens)
    requires best.Some? && best.value.tokens > triggerTokens && Worthy(ticket, env, hardTokens, f)
    requires ReductionOf(ticket, env, f).tokens > triggerTokens && ReductionOf(ticket, env, f).bytes >= best.value.bytes
    ensures BestOf(best, taken + [f], ticket, env, hardTokens, triggerTokens)
  {
    hide Worthy, Sendable, FoldedRequest;
    TakenOneMore(taken, f);
  }

  /** One more worthy fold. */
  lemma BestOfWorthy(best: Option<Reduction>, taken: seq<map<Key, Text>>, f: map<Key, Text>, ticket: Ticket, env: Env,
                     hardTokens: nat, triggerTokens: nat)
    requires BestOf(best, taken, ticket, env, hardTokens, triggerTokens)
    requires (best.Some? ==> best.value.tokens > triggerTokens) && Worthy(ticket, env, hardTokens, f)
    ensures var next := ReductionOf(ticket, env, f);
            var better := next.tokens <= triggerTokens || best.None? || next.bytes < best.value.bytes;
            BestOf(if better then Some(next) else best, taken + [f], ticket, env, hardTokens, triggerTokens)
  {
    assert Sendable(ticket, env, f);
    hide BestOf, Worthy, Sendable, FoldedRequest;
    var next := ReductionOf(ticket, env, f);
    if next.tokens <= triggerTokens {
      BestOfUnder(best, taken, f, ticket, env, hardTokens, triggerTokens);
    } else if best.None? || next.bytes < best.value.bytes {
      BestOfSmaller(best, taken, f, ticket, env, hardTokens, triggerTokens);
    } else {
      BestOfLarger(best, taken, f, ticket, env, hardTokens, triggerTokens);
    }
  }

  /** Something is found exactly when some fold is worthy. */
  lemma FoundWhenWorthy(best: Option<Reduction>, taken: seq<map<Key, Text>>, folds: seq<map<Key, Text>>, ticket: Ticket, env: Env,
                        hardTokens: nat, triggerTokens: nat)
    requires Searched(best, taken, folds, ticket, env, hardTokens, triggerTokens)
    ensures best.Some? <==> exists f :: f in folds && Worthy(ticket, env, hardTokens, f)
    ensures best.None? ==> taken == folds
  {
    hide Worthy, Sendable, FoldedRequest;
    if best.Some? {
      var k :| 0 <= k < |taken| && taken[k] == best.value.groups;
      assert folds[k] == taken[k];
    }
  }

  /** A worthy fold under the soft trigger ends the search. */
  ghost predicate Under(ticket: Ticket, env: Env, hardTokens: nat, triggerTokens: nat, groups: map<Key, Text>) {
    Worthy(ticket, env, hardTokens, groups) && ReductionOf(ticket, env, groups).tokens <= triggerTokens
  }

  /** What stops the search at or behind the `i`-th candidate, before a fold comes under the trigger. */
  ghost function Obstacle(ticket: Ticket, env: Env, hardTokens: nat, triggerTokens: nat, candidates: seq<Range>, i: nat,
                          folded: map<Key, Text>): Option<RecoveryError>
    decreases |candidates| - i
  {
    if i >= |candidates| then None
    else
      var key := candidates[i].key;
      if key in folded then Obstacle(ticket, env, hardTokens, triggerTokens, candidates, i + 1, folded)
      else if |folded| >= MAX_EPHEMERAL_GROUPS then None
      else if env.interrupted(i + 1).Some? then Some(Interrupted(env.interrupted(i + 1).value))
      else match env.summarize(key)
        case Err(error) =>
          if error == NoProgress then Obstacle(ticket, env, hardTokens, triggerTokens, candidates, i + 1, folded)
          else Some(Into(error))
        case Ok(content) =>
          var longer := folded[key := content];
          if Under(ticket, env, hardTokens, triggerTokens, longer) then None
          else Obstacle(ticket, env, hardTokens, triggerTokens, candidates, i + 1, longer)
  }

  /** An obstacle is an interruption at a candidate or the summary model's error for one. */
  ghost predicate Hinders(env: Env, candidates: seq<Range>, error: RecoveryError) {
    || (exists k :: 1 <= k <= |candidates| && env.interrupted(k).Some? && error == Interrupted(env.interrupted(k).value))
    || (exists k :: 0 <= k < |candidates| && Failing(env, candidates[k].key) && error == Into(env.summarize(candidates[k].key).error))
  }

  /** The summary model fails on this group for another reason than lack of progress. */
  predicate Failing(env: Env, key: Key) { env.summarize(key).Err? && env.summarize(key).error != NoProgress }

  lemma {:induction false} ObstacleHinders(ticket: Ticket, env: Env, hardTokens: nat, triggerTokens: nat, candidates: seq<Range>, i: nat,
                                           folded: map<Key, Text>)
    requires Obstacle(ticket, env, hardTokens, triggerTokens, candidates, i, folded).Some?
    ensures Hinders(env, candidates, Obstacle(ticket, env, hardTokens, triggerTokens, candidates, i, folded).value)
    decreases |candidates| - i
  {
    hide Worthy, ReductionOf, Hinders;
    var key := candidates[i].key;
    if key in folded || env.summarize(key) == Err(NoProgress) {
      if key !in folded && env.interrupted(i + 1).Some? {
        HindersHere(env, candidates, i);
      } else {
        ObstacleHinders(ticket, env, hardTokens, triggerTokens, candidates, i + 1, folded);
      }
    } else if env.interrupted(i + 1).Some? || env.summarize(key).Err? {
      HindersHere(env, candidates, i);
    } else {
      ObstacleHinders(ticket, env, hardTokens, triggerTokens, candidates, i + 1, folded[key := env.summarize(key).value]);
    }
  }

  lemma HindersHere(env: Env, candidates: seq<Range>, i: nat)
    requires i < |candidates|
    ensures env.interrupted(i + 1).Some? ==> Hinders(env, candidates, Interrupted(env.interrupted(i + 1).value))
    ensures Failing(env, candidates[i].key) ==> Hinders(env, candidates, Into(env.summarize(candidates[i].key).error))
  {}

  lemma FoldsStep(env: Env, candidates: seq<Range>, i: nat, folded: map<Key, Text>)
    requires i < |candidates|
    ensures var key := candidates[i].key;
            Folds(env, candidates[i..], folded)
            == if key in folded then Folds(env, candidates[i + 1..], folded)
               else if |folded| >= MAX_EPHEMERAL_GROUPS then []
               else match env.summarize(key)
                 case Ok(content) => [folded[key := content]] + Folds(env, candidates[i + 1..], folded[key := content])
                 case Err(error) => if error == NoProgress then Folds(env, candidates[i + 1..], folded) else []
  {
    assert candidates[i..][1..] == candidates[i + 1..];
  }

  lemma ObstacleStep(ticket: Ticket, env: Env, hardTokens: nat, triggerTokens: nat, candidates: seq<Range>, i: nat, folded: map<Key, Text>)
    requires i < |candidates|
    ensures var key := candidates[i].key;
            Obstacle(ticket, env, hardTokens, triggerTokens, candidates, i, folded)
            == if key in folded then Obstacle(ticket, env, hardTokens, triggerTokens, candidates, i + 1, folded)
               else if |folded| >= MAX_EPHEMERAL_GROUPS then None
               else if env.interrupted(i + 1).Some? then Some(Interrupted(env.interrupted(i + 1).value))
               else match env.summarize(key)
                 case Err(error) =>
                   if error == NoProgress then Obstacle(ticket, env, hardTokens, triggerTokens, candidates, i + 1, folded)
                   else Some(Into(error))
                 case Ok(content) =>
                   var longer := folded[key := content];
                   if Under(ticket, env, hardTokens, triggerTokens, longer) then None
                   else Obstacle(ticket, env, hardTokens, triggerTokens, candidates, i + 1, longer)
  {
    hide Worthy, ReductionOf;
  }

  /** One fold more: the best so far, and whether it ends the search. */
  method TakeFold(ticket: Ticket, env: Env, ranges: seq<Range>, folded: map<Key, Text>, best: Option<Reduction>, hardTokens: nat,
                  triggerTokens: nat, ghost key: Key, ghost start: map<Key, Text>, ghost taken: seq<map<Key, Text>>)
    returns (better: Option<Reduction>, done: bool)
    requires Describes(ticket.History(), ranges)
    requires folded.Keys <= Keys(ticket.History()) && |folded| <= MAX_EPHEMERAL_GROUPS
    requires Extends(start, folded) && key in folded && key !in start
    requires BestOf(best, taken, ticket, env, hardTokens, triggerTokens)
    requires best.Some? ==> best.value.tokens > triggerTokens && Usable(best.value, ticket, env, hardTokens, start)
    ensures BestOf(better, taken + [folded], ticket, env, hardTokens, triggerTokens)
    ensures better.Some? ==> Usable(better.value, ticket, env, hardTokens, start)
    ensures done <==> Under(ticket, env, hardTokens, triggerTokens, folded)
    ensures done <==> better.Some? && better.value.tokens <= triggerTokens
  {
    hide Usable, Keys, Describes, BestOf, Worthy, Sendable, FoldedRequest, Extends;
    better := best;
    var next := Assess(ticket, env, ranges, folded, hardTokens, key, start);
    if next.Some? {
      BestOfWorthy(best, taken, folded, ticket, env, hardTokens, triggerTokens);
      if next.value.tokens <= triggerTokens || best.None? || next.value.bytes < best.value.bytes {
        better := next;
      }
    } else {
      BestOfUnworthy(best, taken, folded, ticket, env, hardTokens, triggerTokens);
    }
    done := better.Some? && better.value.tokens <= triggerTokens;
  }

  /** One search: what it looks for and where it starts. */
  datatype Search = Search(ticket: Ticket, env: Env, hardTokens: nat, triggerTokens: nat, candidates: seq<Range>, start: map<Key, Text>) {
    function All(): seq<map<Key, Text>> { Folds(env, candidates, start) }

    ghost function Stop(i: nat, folded: map<Key, Text>): Option<RecoveryError> {
      Obstacle(ticket, env, hardTokens, triggerTokens, candidates, i, folded)
    }

    /** The key the candidate `i` would add, if there is room for it. */
    predicate Adds(i: nat, folded: map<Key, Text>)
      requires i < |candidates|
    {
      candidates[i].key !in folded && |folded| < MAX_EPHEMERAL_GROUPS
    }
  }

  function Latest(start: map<Key, Text>, taken: seq<map<Key, Text>>): map<Key, Text> {
    if taken == [] then start else taken[|taken| - 1]
  }

  /** The search stands before candidate `i`. */
  ghost predicate Searching(q: Search, i: nat, folded: map<Key, Text>, taken: seq<map<Key, Text>>) {
    && i <= |q.candidates|
    && folded.Keys <= Keys(q.ticket.History()) && |folded| <= MAX_EPHEMERAL_GROUPS && Extends(q.start, folded)
    && folded == Latest(q.start, taken)
    && q.All() == taken + Folds(q.env, q.candidates[i..], folded)
    && q.Stop(0, q.start) == q.Stop(i, folded)
  }

  lemma SearchStarts(q: Search)
    requires q.start.Keys <= Keys(q.ticket.History()) && |q.start| <= MAX_EPHEMERAL_GROUPS
    ensures Searching(q, 0, q.start, [])
  {
    hide Keys, Folds, Obstacle;
    assert q.candidates[0..] == q.candidates;
    ConcatNothing(q.All());
  }

  lemma SearchSkips(q: Search, i: nat, folded: map<Key, Text>, taken: seq<map<Key, Text>>)
    requires Searching(q, i, folded, taken) && i < |q.candidates|
    requires q.candidates[i].key in folded
          || (q.Adds(i, folded) && q.env.interrupted(i + 1).None? && q.env.summarize(q.candidates[i].key) == Err(NoProgress))
    ensures Searching(q, i + 1, folded, taken)
  {
    hide Keys, Folds, Obstacle, Extends;
    FoldsStep(q.env, q.candidates, i, folded);
    ObstacleStep(q.ticket, q.env, q.hardTokens, q.triggerTokens, q.candidates, i, folded);
  }

  lemma SearchEnds(q: Search, i: nat, folded: map<Key, Text>, taken: seq<map<Key, Text>>)
    requires Searching(q, i, folded, taken)
    requires i == |q.candidates| || (q.candidates[i].key !in folded && |folded| >= MAX_EPHEMERAL_GROUPS)
    ensures taken == q.All() && q.Stop(0, q.start).None? && folded == Latest(q.start, taken)
  {
    hide Keys, Folds, Obstacle, Extends;
    if i == |q.candidates| {
      FoldsEnd(q.env, q.candidates, folded);
      ObstacleEnds(q.ticket, q.env, q.hardTokens, q.triggerTokens, q.candidates, folded);
    } else {
      FoldsStep(q.env, q.candidates, i, folded);
      ObstacleStep(q.ticket, q.env, q.hardTokens, q.triggerTokens, q.candidates, i, folded);
    }
    ConcatNothing(taken);
  }

  lemma SearchStops(q: Search, i: nat, folded: map<Key, Text>, taken: seq<map<Key, Text>>)
    requires Searching(q, i, folded, taken) && i < |q.candidates| && q.Adds(i, folded)
    ensures q.env.interrupted(i + 1).Some? ==> q.Stop(0, q.start) == Some(Interrupted(q.env.interrupted(i + 1).value))
    ensures q.env.interrupted(i + 1).None? && Failing(q.env, q.candidates[i].key) ==>
              q.Stop(0, q.start) == Some(Into(q.env.summarize(q.candidates[i].key).error))
  {
    hide Keys, Folds, Obstacle, Extends;
    ObstacleStep(q.ticket, q.env, q.hardTokens, q.triggerTokens, q.candidates, i, folded);
  }

  lemma SearchTakes(q: Search, i: nat, folded: map<Key, Text>, taken: seq<map<Key, Text>>, longer: map<Key, Text>)
    requires Searching(q, i, folded, taken) && i < |q.candidates| && q.Adds(i, folded) && q.env.interrupted(i + 1).None?
    requires var key := q.candidates[i].key;
             key in Keys(q.ticket.History()) && q.env.summarize(key).Ok? && longer == folded[key := q.env.summarize(key).value]
    ensures longer.Keys <= Keys(q.ticket.History()) && |longer| <= MAX_EPHEMERAL_GROUPS
    ensures Extends(q.start, longer) && q.candidates[i].key in longer && q.candidates[i].key !in q.start
    ensures taken + [longer] <= q.All()
    ensures if Under(q.ticket, q.env, q.hardTokens, q.triggerTokens, longer) then q.Stop(0, q.start).None?
            else Searching(q, i + 1, longer, taken + [longer])
  {
    var key := q.candidates[i].key;
    OneMoreExtends(q.start, folded, key, longer[key]);
    GroupsBytesInsert(folded, key, longer[key]);
    hide Keys, Folds, Obstacle, Extends, Under;
    SearchAppends(q, i, folded, taken, longer);
    ObstacleStep(q.ticket, q.env, q.hardTokens, q.triggerTokens, q.candidates, i, folded);
  }

  lemma SearchAppends(q: Search, i: nat, folded: map<Key, Text>, taken: seq<map<Key, Text>>, longer: map<Key, Text>)
    requires i < |q.candidates| && q.Adds(i, folded) && q.All() == taken + Folds(q.env, q.candidates[i..], folded)
    requires var key := q.candidates[i].key; q.env.summarize(key).Ok? && longer == folded[key := q.env.summarize(key).value]
    ensures q.All() == taken + [longer] + Folds(q.env, q.candidates[i + 1..], longer)
    ensures taken + [longer] <= q.All()
  {
    hide Folds;
    FoldsStep(q.env, q.candidates, i, folded);
    ConcatAssoc(taken, [longer], Folds(q.env, q.candidates[i + 1..], longer));
  }

  /** The candidate loop of `reconstruct_inner`. */
  method SearchReduction(ticket: Ticket, env: Env, ranges: seq<Range>, start: map<Key, Text>,
                         hardTokens: nat, triggerTokens: nat)
    returns (r: Result<Option<Reduction>, RecoveryError>, folded: map<Key, Text>, ghost taken: seq<map<Key, Text>>)
    requires Describes(ticket.History(), ranges)
    requires start.Keys <= Keys(ticket.History()) && |start| <= MAX_EPHEMERAL_GROUPS
    ensures r.Ok? ==> Searched(r.value, taken, Folds(env, SortCandidates(ranges), start), ticket, env, hardTokens, triggerTokens)
    ensures r.Ok? && r.value.Some? ==> Usable(r.value.value, ticket, env, hardTokens, start)
    ensures r.Ok? ==> folded == Latest(start, taken)
    ensures var obstacle := Obstacle(ticket, env, hardTokens, triggerTokens, SortCandidates(ranges), 0, start);
            (r.Err? <==> obstacle.Some?) && (r.Err? ==> r.error == obstacle.value)
  {
    hide Usable, Keys, Describes, SortCandidates, Folds, BestOf, Under, Extends, Obstacle, Searching;
    folded, taken := start, [];
    var best: Option<Reduction> := None;
    var candidates := SortCandidates(ranges);
    ghost var q := Search(ticket, env, hardTokens, triggerTokens, candidates, start);
    NothingTaken(ticket, env, hardTokens, triggerTokens);
    SearchStarts(q);
    var i := 0;
    while i < |candidates|
      invariant i <= |candidates| && Searching(q, i, folded, taken)
      invariant best.Some? ==> best.value.tokens > triggerTokens && Usable(best.value, ticket, env, hardTokens, start)
      invariant BestOf(best, taken, ticket, env, hardTokens, triggerTokens)
    {
      var key := candidates[i].key;
      if key in folded {
        SearchSkips(q, i, folded, taken);
        i := i + 1;
        continue;
      }
      if |folded| >= MAX_EPHEMERAL_GROUPS {
        break;
      }
      SearchStops(q, i, folded, taken);
      if env.interrupted(i + 1).Some? {
        return Err(Interrupted(env.interrupted(i + 1).value)), folded, taken;
      }
      var generation := env.summarize(key);
      if generation.Err? {
        if generation.error == NoProgress {
          SearchSkips(q, i, folded, taken);
          i := i + 1;
          continue;
        }
        return Err(Into(generation.error)), folded, taken;
      }
      CandidateIsKey(ticket.History(), ranges, candidates, i);
      SearchTakes(q, i, folded, taken, folded[key := generation.value]);
      folded := folded[key := generation.value];
      var done;
      best, done := TakeFold(ticket, env, ranges, folded, best, hardTokens, triggerTokens, key, start, taken);
      taken := taken + [folded];
      if done {
        return Ok(best), folded, taken;
      }
      i := i + 1;
    }
    SearchEnds(q, i, folded, taken);
    r := Ok(best);
  }

  lemma ObstacleEnds(ticket: Ticket, env: Env, hardTokens: nat, triggerTokens: nat, candidates: seq<Range>, folded: map<Key, Text>)
    ensures Obstacle(ticket, env, hardTokens, triggerTokens, candidates, |candidates|, folded) == None
  {}

  lemma OneMoreExtends(start: map<Key, Text>, folded: map<Key, Text>, key: Key, content: Text)
    requires Extends(start, folded) && key !in folded
    ensures Extends(start, folded[key := content]) && key !in start
  {}

  lemma FoldsEnd(env: Env, candidates: seq<Range>, folded: map<Key, Text>)
    ensures Folds(env, candidates[|candidates|..], folded) == []
  {}

  lemma NothingTaken(ticket: Ticket, env: Env, hardTokens: nat, triggerTokens: nat)
    ensures BestOf(None, [], ticket, env, hardTokens, triggerTokens)
  {}

  /** Whether the projection folded this far would do. */
  method Assess(ticket: Ticket, env: Env, ranges: seq<Range>, folded: map<Key, Text>, hardTokens: nat,
                ghost key: Key, ghost start: map<Key, Text>)
    returns (next: Option<Reduction>)
    requires Describes(ticket.History(), ranges)
    requires folded.Keys <= Keys(ticket.History()) && |folded| <= MAX_EPHEMERAL_GROUPS
    requires Extends(start, folded) && key in folded && key !in start
    ensures next.Some? <==> Worthy(ticket, env, hardTokens, folded)
    ensures next.Some? ==> next.value == ReductionOf(ticket, env, folded) && Usable(next.value, ticket, env, hardTokens, start)
  {
    hide Describes, CleanMessages, FoldedRequest, Keys, Extends, NotesAccepted;
    var measured := MeasureReconstruction(ticket, env, ranges, folded);
    var bytes := State.SumBytes(folded);
    if measured.Some? && measured.value.tokens <= hardTokens && measured.value.bytes < ticket.bodyBytes
       && bytes <= MAX_EPHEMERAL_BYTES {
      return Some(Reduction(measured.value.request, measured.value.tokens, measured.value.bytes, folded));
    }
    return None;
  }

  lemma CandidateIsKey(src: Source, ranges: seq<Range>, candidates: seq<Range>, i: nat)
    requires Describes(src, ranges) && multiset(candidates) == multiset(ranges) && i < |candidates|
    ensures candidates[i].key in Keys(src)
  {
    assert candidates[i] in multiset(ranges);
    KeysAreLocal(src, candidates[i].key);
  }

  /** A usable reduction can be refused only because another loop owns the slot. */
  lemma InstallationFailsOnlyForAnotherLoop(s: Slots, r: Reduction, ticket: Ticket, env: Env, hardTokens: nat, start: map<Key, Text>)
    requires Usable(r, ticket, env, hardTokens, start)
    ensures GroupsInstall(s, ticket.loopId, r.groups)
       <==> !(s.ephemeral.Some? && s.ephemeral.value.loopId != ticket.loopId)
  {}

  // ----- reconstruction

  const DEFAULT_LIMITS: Text := []

  /** `minimal_messages`: the part of a request that compaction can never remove. */
  function MinimalMessages(ticket: Ticket): seq<Message> {
    Fixed(ticket.system, None) + UserMessages(CurrentUserTexts(ticket.History().Items(), ticket.loopId))
  }

  function TicketRequest(ticket: Ticket, messages: seq<Message>): ModelRequest {
    ModelRequest(messages, ticket.tools, ticket.limits, ticket.reasoning)
  }

  /** A request without consolidated summary opens with the system prompt and the durable summary. */
  predicate OpensPlainly(messages: seq<Message>, system: Text, summary: Option<Text>) {
    && (system != [] ==> messages != [] && messages[0] == System(system))
    && (summary.Some? ==>
          var at := if system == [] then 0 else 1;
          at < |messages| && messages[at] == SummaryMessage(summary.value))
  }

  lemma FoldOpensPlainly(system: Text, summary: Option<Text>, src: Source, folded: map<Key, Text>)
    ensures OpensPlainly(FoldMessages(Fixed(system, summary), src, folded, None), system, summary)
  {
    hide Fold, Render, SummaryMessage;
  }

  /** What a successful reconstruction delivers: a clean request strictly smaller than
      the rejected body and inside the hard window, which the new state projects again
      from the same sources, resting on one freshly installed reduction. */
  ghost predicate Reconstruction(before: Slots, after: Slots, ticket: Ticket, binding: Binding, env: Env, request: ModelRequest) {
    && request == TicketRequest(ticket, ProjectionMessages(after, ticket.system, ticket.summary, ticket.History()))
    && CleanMessages(request.messages)
    && env.bytes(request).Some? && env.bytes(request).value < ticket.bodyBytes
    && if ConsolidatedFor(before, ticket.History(), ticket.summary).Some?
       then CeilTokens(env.bytes(request).value) <= binding.contextWindow
            && after.consolidated.Some? && after == Next(before, InstallConsolidated(after.consolidated.value))
            && after.consolidated.value.covered == Keys(ticket.History()) && after.consolidated.value.loopId == ticket.loopId
            && Opens(request.messages, ticket.system, after.consolidated.value.content)
       else env.tokens(request).Some? && env.tokens(request).value <= binding.contextWindow
            && OpensPlainly(request.messages, ticket.system, ticket.summary)
            && after.ephemeral.Some? && after == Next(before, InstallGroups(ticket.loopId, after.ephemeral.value.groups))
            && after.summary == before.summary + 1
            && Extends(GroupsFor(before, ticket.History()), after.ephemeral.value.groups)
            && exists key :: key in after.ephemeral.value.groups && key !in GroupsFor(before, ticket.History())
  }

  /** What compaction can never remove already fills the window, or cannot be measured. */
  predicate FloorTooLarge(ticket: Ticket, binding: Binding, env: Env) {
    var floor := ModelRequest(MinimalMessages(ticket), ticket.tools, DEFAULT_LIMITS, ticket.reasoning);
    !env.admits(floor) || env.tokens(floor).None? || env.tokens(floor).value >= binding.contextWindow
  }

  /** The candidates of a ticket's sources, and the folds they lead to. */
  function Candidates(ticket: Ticket): seq<Range> { SortCandidates(Ranges(ticket.History(), 0)) }

  function AllFolds(s: Slots, ticket: Ticket, env: Env): seq<map<Key, Text>> {
    Folds(env, Candidates(ticket), GroupsFor(s, ticket.History()))
  }

  function LastFold(s: Slots, ticket: Ticket, env: Env): map<Key, Text> {
    var folds := AllFolds(s, ticket, env);
    if folds == [] then GroupsFor(s, ticket.History()) else folds[|folds| - 1]
  }

  /** Some fold the candidates lead to would do. */
  ghost predicate SomethingWorthy(s: Slots, ticket: Ticket, binding: Binding, env: Env) {
    exists f :: f in AllFolds(s, ticket, env) && Worthy(ticket, env, binding.contextWindow, f)
  }

  predicate SlotFree(s: Slots, ticket: Ticket) { s.ephemeral.Some? ==> s.ephemeral.value.loopId == ticket.loopId }

  predicate MinimalAccepted(ticket: Ticket, env: Env) {
    forall k :: 0 <= k < |MinimalMessages(ticket)| ==> env.accepts(MinimalMessages(ticket)[k])
  }

  ghost function SearchObstacle(s: Slots, ticket: Ticket, binding: Binding, env: Env): Option<RecoveryError> {
    Obstacle(ticket, env, binding.contextWindow, TriggerTokens(binding), Candidates(ticket), 0, GroupsFor(s, ticket.History()))
  }

  /** Everything that lets the group-folding path succeed. */
  ghost predicate Foldable(s: Slots, ticket: Ticket, binding: Binding, env: Env) {
    && SearchObstacle(s, ticket, binding, env).None?
    && env.interrupted(|Candidates(ticket)| + 1).None?
    && SomethingWorthy(s, ticket, binding, env) && SlotFree(s, ticket)
  }

  /** Everything that lets a reconstruction succeed. */
  ghost predicate Recoverable(s: Slots, ticket: Ticket, binding: Binding, descriptor: Descriptor, env: Env) {
    && env.interrupted(0).None? && ticket.bodyBytes > 0
    && MinimalAccepted(ticket, env) && !FloorTooLarge(ticket, binding, env)
    && Composable(env.accepts, ticket.system, ticket.summary, ticket.History())
    && if ConsolidatedFor(s, ticket.History(), ticket.summary).Some?
       then var input := RecoveryInput(ticket, binding, descriptor); Ready(s, input, env, true) && Delivers(s, input, env, true)
       else Foldable(s, ticket, binding, env)
  }

  /** While nothing interrupts and no summary fails, folding succeeds exactly when some
      fold would do and no other loop owns the slot. */
  lemma UnhinderedFolding(s: Slots, ticket: Ticket, binding: Binding, env: Env)
    requires forall k :: 0 <= k <= |Candidates(ticket)| + 1 ==> env.interrupted(k).None?
    requires forall key :: key in Keys(ticket.History()) ==> !Failing(env, key)
    ensures Foldable(s, ticket, binding, env) <==> SomethingWorthy(s, ticket, binding, env) && SlotFree(s, ticket)
  {
    hide SomethingWorthy, Obstacle, Failing, Keys, Candidates;
    if SearchObstacle(s, ticket, binding, env).Some? {
      ObstacleHinders(ticket, env, binding.contextWindow, TriggerTokens(binding), Candidates(ticket), 0, GroupsFor(s, ticket.History()));
      forall k | 0 <= k < |Candidates(ticket)| ensures Candidates(ticket)[k].key in Keys(ticket.History()) {
        CandidateOfTicket(ticket, k);
      }
    }
  }

  lemma {:induction false} RangesHaveKeys(src: Source, index: nat)
    ensures forall k :: 0 <= k < |Ranges(src, index)| ==> Ranges(src, index)[k].key in Keys(src)
    decreases |src.Items()| - index
  {
    hide RangeEnd, GroupBytes;
    if index < |src.Items()| {
      var end := RangeEnd(src, index);
      RangesHaveKeys(src, if end.Some? then end.value else index + 1);
    }
  }

  lemma CandidateOfTicket(ticket: Ticket, k: nat)
    requires k < |Candidates(ticket)|
    ensures Candidates(ticket)[k].key in Keys(ticket.History())
  {
    hide Keys, SortCandidates, Ranges;
    var ranges := Ranges(ticket.History(), 0);
    RangesHaveKeys(ticket.History(), 0);
    assert Candidates(ticket)[k] in multiset(ranges);
  }

  /** What a failed group search means. */
  ghost predicate RefusesFolding(s: Slots, ticket: Ticket, binding: Binding, env: Env, error: RecoveryError) {
    || SearchObstacle(s, ticket, binding, env) == Some(error)
    || (var late := env.interrupted(|Candidates(ticket)| + 1); late.Some? && error == Interrupted(late.value))
    || match error
       case Interrupted(_) => false
       case Uncompressible => !SlotFree(s, ticket) || !SomethingWorthy(s, ticket, binding, env)
       case InvalidToolExchanges =>
         && !SomethingWorthy(s, ticket, binding, env)
         && !CleanMessages(Fixed(ticket.system, ticket.summary) + HistoryMessages(ticket.History().Items()))
       case Other(cause) =>
         && cause == InvalidResponse && !SomethingWorthy(s, ticket, binding, env)
         && !NotesAccepted(env.accepts, ticket.History(), LastFold(s, ticket, env), None)
  }

  /** What a failed reconstruction means: the check that refused it, or what the chosen path says. */
  ghost predicate Refuses(s: Slots, ticket: Ticket, binding: Binding, descriptor: Descriptor, env: Env, error: RecoveryError) {
    || (env.interrupted(0).Some? && error == Interrupted(env.interrupted(0).value))
    || (error == Uncompressible && (ticket.bodyBytes == 0 || FloorTooLarge(ticket, binding, env)))
    || (error == Other(InvalidResponse) && !MinimalAccepted(ticket, env))
    || (exists cause :: error == Into(cause) && ComposeFails(env.accepts, ticket.system, ticket.summary, ticket.History(), cause))
    || if ConsolidatedFor(s, ticket.History(), ticket.summary).Some?
       then exists cause :: error == Into(cause) && Explains(s, RecoveryInput(ticket, binding, descriptor), env, true, cause)
       else RefusesFolding(s, ticket, binding, env, error)
  }

  function RecoveryInput(ticket: Ticket, binding: Binding, descriptor: Descriptor): Input {
    Input(ticket.system, ticket.summary, ticket.History(), ticket.tools, ticket.reasoning, ticket.limits,
          ticket.index, descriptor, binding, Some(ticket.bodyBytes))
  }

  lemma ConsolidationReconstructs(before: Slots, after: Slots, ticket: Ticket, binding: Binding, descriptor: Descriptor, env: Env,
                                  request: ModelRequest)
    requires ConsolidatedFor(before, ticket.History(), ticket.summary).Some?
    requires Consolidation(before, after, RecoveryInput(ticket, binding, descriptor), env, true, request)
    requires after.attempted == before.attempted && after.source == before.source
    ensures Reconstruction(before, after, ticket, binding, env, request)
  {
    hide Keys, CleanMessages, FoldMessages, Opens;
  }

  /** `reconstruct_inner`. */
  method ReconstructInner(state: State, ticket: Ticket, binding: Binding, descriptor: Descriptor, env: Env)
    returns (r: Result<ModelRequest, RecoveryError>)
    requires Invariant(state.View())
    modifies state
    ensures r.Ok? ==> Reconstruction(old(state.View()), state.View(), ticket, binding, env, r.value)
    ensures r.Ok? <==> Recoverable(old(state.View()), ticket, binding, descriptor, env)
    ensures r.Err? ==> state.View() == old(state.View()) && Refuses(old(state.View()), ticket, binding, descriptor, env, r.error)
  {
    hide Foldable, RefusesFolding, Reconstruction, Invariant, CleanMessages, Consolidation, Composable, Keys, FoldMessages, MinimalMessages;
    hide Ready, Delivers, Explains, ComposeFails, Fixed;
    if env.interrupted(0).Some? {
      return Err(Interrupted(env.interrupted(0).value));
    }
    if ticket.bodyBytes == 0 {
      return Err(Uncompressible);
    }
    var minimal := MinimalMessages(ticket);
    if exists k :: 0 <= k < |minimal| && !env.accepts(minimal[k]) {
      return Err(Other(InvalidResponse));
    }
    var floor := ModelRequest(minimal, ticket.tools, DEFAULT_LIMITS, ticket.reasoning);
    if !env.admits(floor) || env.tokens(floor).None? || env.tokens(floor).value >= binding.contextWindow {
      return Err(Uncompressible);
    }
    var src := ticket.History();
    var composed := Compose(env.accepts, ticket.system, ticket.summary, src);
    if composed.Err? {
      return Err(Into(composed.error));
    }
    if ConsolidatedFor(state.View(), src, ticket.summary).Some? {
      var input := RecoveryInput(ticket, binding, descriptor);
      var result := Consolidate(state, input, env, true);
      match result {
        case Ok(projected) =>
          if projected.compacted {
            ConsolidationReconstructs(old(state.View()), state.View(), ticket, binding, descriptor, env, projected.request);
          }
          return if projected.compacted then Ok(projected.request) else Err(Uncompressible);
        case Err(error) =>
          return Err(Into(error));
      }
    }
    r := ReconstructByGroups(state, ticket, binding, env);
  }

  /** The group-folding path: search, then install what the best request rests on. */
  method ReconstructByGroups(state: State, ticket: Ticket, binding: Binding, env: Env)
    returns (r: Result<ModelRequest, RecoveryError>)
    requires Invariant(state.View()) && ConsolidatedFor(state.View(), ticket.History(), ticket.summary) == None
    modifies state
    ensures r.Ok? ==> Reconstruction(old(state.View()), state.View(), ticket, binding, env, r.value)
    ensures r.Ok? <==> Foldable(old(state.View()), ticket, binding, env)
    ensures r.Err? ==> state.View() == old(state.View()) && RefusesFolding(old(state.View()), ticket, binding, env, r.error)
  {
    hide Searched, SomethingWorthy, Worthy, Obstacle, Ranges, SortCandidates, Folds, Fixed, Invariant;
    hide Reconstruction, Usable, Keys, GroupsFit, Describes, NotesAccepted, FoldMessages, CleanMessages;
    var src := ticket.History();
    ghost var before := state.View();
    var ranges := CompressibleRanges(src);
    RangesAreUnique(src, ranges, 0, 0);
    assert ranges[0..] == ranges;
    var start := state.EmergencyGroups(src);
    StartIsBounded(before, src);
    var found, folded, taken := SearchReduction(ticket, env, ranges, start, binding.contextWindow, TriggerTokens(binding));
    if found.Err? {
      return Err(found.error);
    }
    WorthyIsFound(before, found.value, taken, ticket, binding, env);
    var last := |ranges| + 1;
    assert |Candidates(ticket)| == |ranges| by { SortKeepsLength(ranges); }
    if env.interrupted(last).Some? {
      return Err(Interrupted(env.interrupted(last).value));
    }
    if found.value.Some? {
      var best := found.value.value;
      InstallationFailsOnlyForAnotherLoop(before, best, ticket, env, binding.contextWindow, start);
      var installed := state.InstallEmergencyGroups(ticket.loopId, best.groups);
      if installed {
        InstalledReductionDelivers(before, best, ticket, binding, env);
        return Ok(best.request);
      }
      return Err(Uncompressible);
    }
    var messages := FoldHistoryWithRanges(Fixed(ticket.system, ticket.summary), src, ranges, folded, None, env.accepts);
    if messages.Err? {
      return Err(Other(messages.error));
    }
    var clean := ValidateCleanToolExchanges(messages.value);
    FoldPreservesCleanness(Fixed(ticket.system, ticket.summary), src, folded);
    return Err(if clean then Uncompressible else InvalidToolExchanges);
  }

  lemma SortKeepsLength(ranges: seq<Range>)
    ensures |SortCandidates(ranges)| == |ranges|
  {
    hide SortCandidates;
    assert |multiset(SortCandidates(ranges))| == |multiset(ranges)|;
  }

  lemma WorthyIsFound(s: Slots, best: Option<Reduction>, taken: seq<map<Key, Text>>, ticket: Ticket, binding: Binding, env: Env)
    requires Searched(best, taken, AllFolds(s, ticket, env), ticket, env, binding.contextWindow, TriggerTokens(binding))
    ensures best.Some? <==> SomethingWorthy(s, ticket, binding, env)
    ensures best.None? ==> taken == AllFolds(s, ticket, env)
  {
    hide Worthy, Searched, Folds, Candidates;
    FoundWhenWorthy(best, taken, AllFolds(s, ticket, env), ticket, env, binding.contextWindow, TriggerTokens(binding));
  }

  lemma InstalledReductionDelivers(s: Slots, best: Reduction, ticket: Ticket, binding: Binding, env: Env)
    requires ConsolidatedFor(s, ticket.History(), ticket.summary) == None
    requires Usable(best, ticket, env, binding.contextWindow, GroupsFor(s, ticket.History()))
    requires GroupsInstall(s, ticket.loopId, best.groups)
    ensures Reconstruction(s, Next(s, InstallGroups(ticket.loopId, best.groups)), ticket, binding, env, best.request)
  {
    hide Keys, FoldMessages, GroupsFit, CleanMessages, OpensPlainly, Fixed;
    InstalledGroupsReproduceRequest(s, ticket.system, ticket.summary, ticket.History(), best.groups);
    FoldOpensPlainly(ticket.system, ticket.summary, ticket.History(), best.groups);
  }

  lemma StartIsBounded(s: Slots, src: Source)
    requires Invariant(s)
    ensures GroupsFor(s, src).Keys <= Keys(src) && |GroupsFor(s, src)| <= MAX_EPHEMERAL_GROUPS
  {
    if s.ephemeral.Some? {
      GroupsBytesSubset(GroupsFor(s, src), s.ephemeral.value.groups);
    }
  }

  // ----- starting a request

  datatype StartResult = Started | Failed(overflow: bool, notStarted: bool)

  /** What the provider and the clock answer during one start. */
  datatype Provider = Provider(first: StartResult, second: StartResult, expired: nat -> Option<Interruption>)

  datatype StartOutcome = Delivered(result: StartResult) | InvalidRequest | NotSent(error: UtilityError)

  function OriginalOf(loopId: LoopId, index: nat, request: ModelRequest, descriptor: Descriptor): Bound {
    Bound(Framing(loopId, index, request.messages, request.tools, descriptor, request.reasoning, 0, 0), request.limits)
  }

  /** A successful claim for this very request is among the events. */
  ghost predicate ClaimedIn(s: Slots, events: seq<Event>, e: Event) {
    exists k :: 0 <= k < |events| && events[k] == e && Claims(At(s, events, k), e)
  }

  /** The second request was reconstructed: clean, strictly smaller, claimed, retained. */
  ghost predicate RecoveredBy(s: Slots, after: Slots, events: seq<Event>, claim: Event, original: Bound,
                              env: Env, sent: seq<ModelRequest>)
    requires claim.Claim?
  {
    && |sent| == 2 && sent[0] == claim.request
    && CleanMessages(sent[1].messages)
    && env.bytes(sent[0]).Some? && env.bytes(sent[1]).Some? && env.bytes(sent[1]).value < env.bytes(sent[0]).value
    && ClaimedIn(s, events, claim)
    && after.retry == Some(Retry(claim.loopId, claim.index, original, sent[1]))
  }

  /** When an overflow is recovered: the claim succeeds, the ticket has its binding, nothing
      expires and the reconstruction succeeds. */
  ghost predicate Recovers(at: Slots, claim: Event, env: Env, provider: Provider)
    requires claim.Claim?
  {
    && Claims(at, claim) && at.ticket.Some? && at.ticket.value.binding.Some?
    && provider.expired(2).None? && provider.expired(3).None?
    && Recoverable(Next(at, claim), at.ticket.value, at.ticket.value.binding.value, claim.descriptor, env)
  }

  /** How an overflow that is not recovered ends: with the overflow itself, or with the interruption. */
  ghost predicate Abandons(at: Slots, claim: Event, env: Env, provider: Provider, outcome: StartOutcome)
    requires claim.Claim?
  {
    if !(Claims(at, claim) && at.ticket.Some? && at.ticket.value.binding.Some?) then outcome == Delivered(provider.first)
    else if provider.expired(2).Some? then outcome == NotSent(provider.expired(2).value)
    else
      var ticket, after := at.ticket.value, Next(at, claim);
      if Recoverable(after, ticket, ticket.binding.value, claim.descriptor, env)
      then provider.expired(3).Some? && outcome == NotSent(provider.expired(3).value)
      else exists error :: Refuses(after, ticket, ticket.binding.value, claim.descriptor, env, error) && outcome == Reported(error, provider)
  }

  /** The steps behind the claim: the install of a reconstruction, and the retained retry
      if the second start is still in time. */
  ghost predicate RecoverySteps(at: Slots, claim: Event, env: Env, provider: Provider, original: Bound, tail: seq<Event>)
    requires claim.Claim?
  {
    if Claims(at, claim) && at.ticket.Some? && at.ticket.value.binding.Some? && provider.expired(2).None?
       && Recoverable(Next(at, claim), at.ticket.value, at.ticket.value.binding.value, claim.descriptor, env)
    then
      && |tail| == (if provider.expired(3).Some? then 1 else 2)
      && InstallsFor(tail[0], claim.loopId)
      && (|tail| == 2 ==> tail[1].Retain? && tail[1].retry.loopId == claim.loopId && tail[1].retry.original == original)
    else tail == []
  }

  predicate InstallsFor(e: Event, loopId: LoopId) {
    (e.InstallGroups? && e.loopId == loopId) || (e.InstallConsolidated? && e.entry.loopId == loopId)
  }

  function Reported(error: RecoveryError, provider: Provider): StartOutcome {
    if error.Interrupted? then NotSent(error.error) else Delivered(provider.first)
  }

  /** A cancelled or late reconstruction is reported as such; after any other failure the overflow stands. */
  lemma FailuresAreReported(error: UtilityError, provider: Provider)
    ensures error in {Cancelled, Timeout} ==> Reported(Into(error), provider) == NotSent(error)
    ensures error !in {Cancelled, Timeout} ==> Reported(Into(error), provider) == Delivered(provider.first)
    ensures Reported(Uncompressible, provider) == Reported(InvalidToolExchanges, provider) == Delivered(provider.first)
  {}

  function BodyBytes(env: Env, request: ModelRequest): nat {
    if env.bytes(request).Some? then env.bytes(request).value else 0
  }

  /** The steps up to the outcome of the first start. */
  function Prologue(s: Slots, loopId: LoopId, index: nat, request: ModelRequest, descriptor: Descriptor, env: Env, during: seq<Event>)
    : seq<Event>
  {
    [LookUpRetry(loopId, index, OriginalOf(loopId, index, request, descriptor)),
     Bind(FramingNow(AfterLookUpRetry(s, loopId, index), loopId, index, request, descriptor), request.limits, BodyBytes(env, request))]
    + during
  }

  /** The pending ticket, if bound to this request, carries its measured size. */
  predicate SizedTicket(s: Slots, loopId: LoopId, index: nat, bodyBytes: nat) {
    TicketIsFor(s, loopId, index) && s.ticket.value.bound.Some? ==> s.ticket.value.bodyBytes == bodyBytes
  }

  /** While one logical request is starting, nobody else binds it. */
  predicate Concurrent(during: seq<Event>, loopId: LoopId, index: nat) {
    forall k :: 0 <= k < |during| ==>
      && WellFormed(during[k])
      && (during[k].Bind? ==> during[k].framing.loopId != loopId || during[k].framing.index != index)
  }

  /** Everything a start does to the shared state, with the concurrent callers' steps in between. */
  ghost predicate StartSteps(s: Slots, loopId: LoopId, index: nat, request: ModelRequest, descriptor: Descriptor, env: Env,
                             provider: Provider, during: seq<Event>, events: seq<Event>)
  {
    var original, claim := OriginalOf(loopId, index, request, descriptor), Claim(loopId, index, request, descriptor);
    var prologue := Prologue(s, loopId, index, request, descriptor, env, during);
    if RetryOutcome(s, loopId, index, original) != Ok(None) then events == [LookUpRetry(loopId, index, original)]
    else if provider.expired(1).Some? then events == Prologue(s, loopId, index, request, descriptor, env, [])
    else if provider.first.Started? then events == prologue + [Discard(loopId, index)]
    else if provider.first != Failed(true, true) then events == prologue
    else exists tail :: events == prologue + [claim] + tail && RecoverySteps(Run(s, prologue), claim, env, provider, original, tail)
  }

  /** One start: what it is asked, what the surroundings do, and what comes of it. */
  datatype Start = Start(loopId: LoopId, index: nat, request: ModelRequest, descriptor: Descriptor, env: Env, provider: Provider,
                         during: seq<Event>, outcome: StartOutcome, sent: seq<ModelRequest>, events: seq<Event>)

  /** What a start sends and reports. */
  ghost predicate Concludes(c: Start, before: Slots, after: Slots) {
    var original, claim := OriginalOf(c.loopId, c.index, c.request, c.descriptor), Claim(c.loopId, c.index, c.request, c.descriptor);
    match RetryOutcome(before, c.loopId, c.index, original)
    case Err(_) => c.sent == [] && c.outcome == InvalidRequest && after == before
    case Ok(Some(reduced)) =>
      && after == before
      && if c.provider.expired(0).Some? then c.sent == [] && c.outcome == NotSent(c.provider.expired(0).value)
         else c.sent == [reduced] && c.outcome == Delivered(c.provider.first)
    case Ok(None) =>
      if c.provider.expired(1).Some? then c.sent == [] && c.outcome == NotSent(c.provider.expired(1).value)
      else if c.provider.first != Failed(true, true) then c.sent == [c.request] && c.outcome == Delivered(c.provider.first)
      else
        var at := Run(before, Prologue(before, c.loopId, c.index, c.request, c.descriptor, c.env, c.during));
        if Recovers(at, claim, c.env, c.provider)
        then RecoveredBy(before, after, c.events, claim, original, c.env, c.sent) && c.outcome == Delivered(c.provider.second)
        else c.sent == [c.request] && Abandons(at, claim, c.env, c.provider, c.outcome)
  }

  /** `CompactingModel::start_inner`. `during` are the steps of concurrent callers while
      the first raw start is in flight; `sent` lists the requests handed to the raw model
      and `events` is the run of atomic steps taken. */
  method StartInner(state: State, loopId: LoopId, index: nat, request: ModelRequest, descriptor: Descriptor,
                    env: Env, provider: Provider, during: seq<Event>)
    returns (outcome: StartOutcome, sent: seq<ModelRequest>, ghost events: seq<Event>)
    requires Invariant(state.View()) && Concurrent(during, loopId, index)
    modifies state
    ensures Invariant(state.View()) && state.View() == Run(old(state.View()), events)
    ensures StartSteps(old(state.View()), loopId, index, request, descriptor, env, provider, during, events)
    ensures Concludes(Start(loopId, index, request, descriptor, env, provider, during, outcome, sent, events), old(state.View()), state.View())
  {
    hide Reconstruction, ClaimedIn, Invariant, RecoveredBy, ClaimOutcome, CleanMessages, Recovers, Abandons, RecoverySteps;
    ghost var s0 := state.View();
    var original := OriginalOf(loopId, index, request, descriptor);
    sent := [];
    var retained := state.RecoveredRequest(loopId, index, original);
    events := [LookUpRetry(loopId, index, original)];
    RunAppend(s0, [], events[0]);
    assert [] + events == events;
    NextKeepsInvariant(s0, events[0]);
    if retained.Err? {
      return InvalidRequest, sent, events;
    }
    if retained.value.Some? {
      if provider.expired(0).Some? {
        return NotSent(provider.expired(0).value), sent, events;
      }
      return Delivered(provider.first), [retained.value.value], events;
    }
    var bodyBytes := BodyBytes(env, request);
    var bind := Bind(FramingNow(state.View(), loopId, index, request, descriptor), request.limits, bodyBytes);
    NextKeepsInvariant(state.View(), bind);
    state.Perform(bind);
    RunAppend(s0, events, bind);
    events := events + [bind];
    if provider.expired(1).Some? {
      return NotSent(provider.expired(1).value), sent, events;
    }
    sent := [request];
    events := Interleave(state, during, loopId, index, bodyBytes, s0, events);
    assert events == Prologue(s0, loopId, index, request, descriptor, env, during);
    if provider.first.Started? {
      NextKeepsInvariant(state.View(), Discard(loopId, index));
      state.DiscardRecoveryTicket(loopId, index);
      RunAppend(s0, events, Discard(loopId, index));
      events := events + [Discard(loopId, index)];
      return Delivered(provider.first), sent, events;
    }
    if !(provider.first.overflow && provider.first.notStarted) {
      return Delivered(provider.first), sent, events;
    }
    ghost var tail;
    outcome, sent, events, tail := Recover(state, loopId, index, request, descriptor, original, bodyBytes, env, provider, s0, events);
  }

  /** The concurrent callers' steps. */
  method Interleave(state: State, during: seq<Event>, loopId: LoopId, index: nat, bodyBytes: nat,
                    ghost s0: Slots, ghost events: seq<Event>)
    returns (ghost longer: seq<Event>)
    requires Invariant(state.View()) && Concurrent(during, loopId, index)
    requires state.View() == Run(s0, events) && SizedTicket(state.View(), loopId, index, bodyBytes)
    modifies state
    ensures Invariant(state.View()) && state.View() == Run(s0, longer) && SizedTicket(state.View(), loopId, index, bodyBytes)
    ensures longer == events + during
  {
    hide Invariant;
    longer := events;
    for k := 0 to |during|
      invariant Invariant(state.View()) && state.View() == Run(s0, longer) && SizedTicket(state.View(), loopId, index, bodyBytes)
      invariant longer == events + during[..k]
    {
      NextKeepsInvariant(state.View(), during[k]);
      StaysSized(state.View(), during[k], loopId, index, bodyBytes);
      state.Perform(during[k]);
      RunAppend(s0, longer, during[k]);
      longer := longer + [during[k]];
    }
  }

  lemma StaysSized(s: Slots, e: Event, loopId: LoopId, index: nat, bodyBytes: nat)
    requires SizedTicket(s, loopId, index, bodyBytes) && WellFormed(e)
    requires e.Bind? ==> e.framing.loopId != loopId || e.framing.index != index
    ensures SizedTicket(Next(s, e), loopId, index, bodyBytes)
  {}

  /** From the overflow on: claim, reconstruct, retain, start once more. */
  method Recover(state: State, loopId: LoopId, index: nat, request: ModelRequest, descriptor: Descriptor, original: Bound,
                 bodyBytes: nat, env: Env, provider: Provider, ghost s0: Slots, ghost past: seq<Event>)
    returns (outcome: StartOutcome, sent: seq<ModelRequest>, ghost events: seq<Event>, ghost tail: seq<Event>)
    requires Invariant(state.View()) && state.View() == Run(s0, past) && SizedTicket(state.View(), loopId, index, bodyBytes)
    requires bodyBytes == BodyBytes(env, request)
    modifies state
    ensures Invariant(state.View()) && state.View() == Run(s0, events)
    ensures events == past + [Claim(loopId, index, request, descriptor)] + tail
    ensures RecoverySteps(old(state.View()), Claim(loopId, index, request, descriptor), env, provider, original, tail)
    ensures var claim := Claim(loopId, index, request, descriptor);
            if Recovers(old(state.View()), claim, env, provider)
            then RecoveredBy(s0, state.View(), events, claim, original, env, sent) && outcome == Delivered(provider.second)
            else sent == [request] && Abandons(old(state.View()), claim, env, provider, outcome)
  {
    hide Invariant, CleanMessages, Reconstruction, Refuses, Recoverable, ClaimedIn, At;
    var claim := Claim(loopId, index, request, descriptor);
    sent, events, tail := [request], past + [claim], [];
    ConcatNothing(past + [claim]);
    outcome := Delivered(provider.first);
    NextKeepsInvariant(state.View(), claim);
    RunAppend(s0, past, claim);
    ghost var atClaim := state.View();
    var claimed := state.ClaimRecoveryTicket(loopId, index, request, descriptor);
    if claimed.Err? || claimed.value.binding.None? {
      return;
    }
    var ticket := claimed.value;
    if provider.expired(2).Some? {
      return NotSent(provider.expired(2).value), sent, events, tail;
    }
    ghost var before := state.View();
    var reduced := ReconstructInner(state, ticket, ticket.binding.value, descriptor, env);
    if reduced.Err? {
      if reduced.error.Interrupted? {
        outcome := NotSent(reduced.error.error);
      }
      return;
    }
    ghost var install := InstallOf(before, state.View(), ticket, ticket.binding.value, env, reduced.value);
    NextKeepsInvariant(before, install);
    RunAppend(s0, events, install);
    events, tail := events + [install], [install];
    if provider.expired(3).Some? {
      return NotSent(provider.expired(3).value), sent, events, tail;
    }
    ghost var retain := Retain(Retry(loopId, index, original, reduced.value));
    NextKeepsInvariant(state.View(), retain);
    state.RetainRecoveredRequest(loopId, index, original, reduced.value);
    RunAppend(s0, events, retain);
    events, tail := events + [retain], [install, retain];
    ThreeSteps(past + [claim], install, retain);
    ClaimIsIn(s0, past, claim, tail);
    return Delivered(provider.second), [request, reduced.value], events, tail;
  }

  lemma ThreeSteps(past: seq<Event>, a: Event, b: Event)
    ensures past + [a] + [b] == past + [a, b]
  {}

  lemma ClaimIsIn(s: Slots, past: seq<Event>, claim: Event, tail: seq<Event>)
    requires Claims(Run(s, past), claim)
    ensures ClaimedIn(s, past + [claim] + tail, claim)
  {
    hide Claims, Next;
    ConcatAssoc(past, [claim], tail);
    AtPrefix(s, past, [claim] + tail, |past|);
    var events := past + [claim] + tail;
    assert events[|past|] == claim;
  }

  /** The install step behind a reconstruction, and what it implies for the request. */
  lemma InstallOf(before: Slots, after: Slots, ticket: Ticket, binding: Binding, env: Env, request: ModelRequest)
    returns (e: Event)
    requires Reconstruction(before, after, ticket, binding, env, request)
    ensures after == Next(before, e) && WellFormed(e) && InstallsFor(e, ticket.loopId)
    ensures CleanMessages(request.messages) && env.bytes(request).Some? && env.bytes(request).value < ticket.bodyBytes
  {
    hide CleanMessages;
    if ConsolidatedFor(before, ticket.History(), ticket.summary).Some? {
      e := InstallConsolidated(after.consolidated.value);
    } else {
      e := InstallGroups(ticket.loopId, after.ephemeral.value.groups);
    }
  }

  // ----- delivery retries

  /** Steps that leave the retained retry of one request alone. */
  predicate KeepsRetry(e: Event, loopId: LoopId, index: nat) {
    !e.Retain? && e != Clear(loopId) && (e.LookUpRetry? ==> e.loopId == loopId && e.index == index)
  }

  lemma RetryKept(s: Slots, e: Event, loopId: LoopId, index: nat)
    requires KeepsRetry(e, loopId, index) && s.retry.Some? && s.retry.value.loopId == loopId && s.retry.value.index == index
    ensures Next(s, e).retry == s.retry
  {}

  lemma {:induction false} RetrySurvives(s: Slots, es: seq<Event>, k: nat, loopId: LoopId, index: nat)
    requires k <= |es| && s.retry.Some? && s.retry.value.loopId == loopId && s.retry.value.index == index
    requires forall n :: 0 <= n < |es| ==> KeepsRetry(es[n], loopId, index)
    ensures At(s, es, k).retry == s.retry
  {
    hide Next, KeepsRetry;
    if k > 0 {
      RetrySurvives(s, es, k - 1, loopId, index);
      RetryKept(At(s, es, k - 1), es[k - 1], loopId, index);
    }
  }

  /** A start that sent two requests retained the second for this very request. */
  lemma RecoveryRetains(c: Start, before: Slots, after: Slots)
    requires Concludes(c, before, after) && |c.sent| == 2
    ensures after.retry.Some? && after.retry.value.loopId == c.loopId && after.retry.value.index == c.index
    ensures after.retry.value.request == c.sent[1] && after.retry.value.original == OriginalOf(c.loopId, c.index, c.request, c.descriptor)
  {
    hide Recovers, Abandons, ClaimedIn, CleanMessages, Prologue;
  }

  /** A delivery retry of a recovered request sends exactly the reduced request, or nothing when
      it is out of time; with any other request or model it is refused. In between nobody may
      retain another retry, end the loop or look up another request. */
  lemma DeliveryRetry(first: Start, s0: Slots, s1: Slots, between: seq<Event>, again: Start, s2: Slots)
    requires Concludes(first, s0, s1) && |first.sent| == 2
    requires forall k :: 0 <= k < |between| ==> KeepsRetry(between[k], first.loopId, first.index)
    requires again.loopId == first.loopId && again.index == first.index && Concludes(again, Run(s1, between), s2)
    ensures again.request == first.request && again.descriptor == first.descriptor ==>
              && s2 == Run(s1, between)
              && if again.provider.expired(0).Some? then again.sent == [] && again.outcome == NotSent(again.provider.expired(0).value)
                 else again.sent == [first.sent[1]] && again.outcome == Delivered(again.provider.first)
    ensures again.request != first.request || again.descriptor != first.descriptor ==>
              again.sent == [] && again.outcome == InvalidRequest && s2 == Run(s1, between)
  {
    RecoveryRetains(first, s0, s1);
    RetrySurvives(s1, between, |between|, first.loopId, first.index);
    hide Recovers, Abandons, RecoveredBy, Prologue, At, KeepsRetry;
  }

  /** A retained retry of another request does not get in the way. */
  lemma OtherRetryIsNotSent(c: Start, before: Slots, after: Slots)
    requires Concludes(c, before, after) && before.retry.Some?
    requires before.retry.value.loopId != c.loopId || before.retry.value.index != c.index
    ensures c.sent != [] ==> c.sent[0] == c.request
    ensures c.outcome != InvalidRequest
  {
    hide Recovers, ClaimedIn, CleanMessages, Prologue, Recoverable;
  }

  // ----- several starts

  /** A stretch of a run: a start of one loop with the concurrent steps from `from` up to `to`
      inside it, or steps of others alone. A reconstruction comes with its claim. */
  datatype Stretch = Stretch(loopId: Option<LoopId>, events: seq<Event>, from: nat, to: nat, claim: Option<Event>)

  /** A step a start takes itself: it works for its own loop and never ends one. */
  predicate OwnStep(e: Event, loopId: LoopId) {
    match e
    case LookUpRetry(l, _, _) => l == loopId
    case Bind(framing, _, _) => framing.loopId == loopId
    case Discard(l, _) => l == loopId
    case Claim(l, _, _, _) => l == loopId
    case InstallGroups(l, _) => l == loopId
    case InstallConsolidated(entry) => entry.loopId == loopId
    case Retain(retry) => retry.loopId == loopId
    case _ => false
  }

  /** Outside its concurrent steps, a start's stretch holds only its own. */
  predicate OwnSteps(stretch: Stretch) {
    forall k :: 0 <= k < |stretch.events| && !(stretch.from <= k < stretch.to) ==>
      stretch.loopId.Some? && OwnStep(stretch.events[k], stretch.loopId.value)
  }

  /** The stretch of one start. */
  function StretchOf(loopId: LoopId, events: seq<Event>, during: seq<Event>, claim: Option<Event>): Stretch {
    Stretch(Some(loopId), events, 2, 2 + |during|, claim)
  }

  /** Every start is such a stretch. */
  lemma StartIsStretch(s: Slots, loopId: LoopId, index: nat, request: ModelRequest, descriptor: Descriptor, env: Env,
                       provider: Provider, during: seq<Event>, events: seq<Event>, claim: Option<Event>)
    requires StartSteps(s, loopId, index, request, descriptor, env, provider, during, events)
    ensures OwnSteps(StretchOf(loopId, events, during, claim))
    ensures |events| > 2 ==> 2 + |during| <= |events| && events[2..2 + |during|] == during
  {
    hide Recoverable, Claims, AfterLookUpRetry, At, RetryOutcome;
  }

  function Flat(log: seq<Stretch>): seq<Event> {
    if log == [] then [] else log[0].events + Flat(log[1..])
  }

  /** The stretches follow each other, starts take only their own steps, and every
      reconstruction claimed its ticket. */
  ghost predicate Logged(s: Slots, log: seq<Stretch>)
    decreases |log|
  {
    log == []
    || (&& OwnSteps(log[0])
        && (log[0].claim.Some? ==>
              log[0].claim.value.Claim? && log[0].loopId == Some(log[0].claim.value.loopId) && ClaimedIn(s, log[0].events, log[0].claim.value))
        && Logged(Run(s, log[0].events), log[1..]))
  }

  lemma {:induction false} AtConcat(s: Slots, a: seq<Event>, b: seq<Event>, k: nat)
    requires k <= |b|
    ensures At(s, a + b, |a| + k) == At(Run(s, a), b, k)
  {
    hide Next;
    if k == 0 {
      AtPrefix(s, a, b, |a|);
    } else {
      AtConcat(s, a, b, k - 1);
      assert (a + b)[|a| + k - 1] == b[k - 1];
    }
  }

  /** Where the claim of the `i`-th stretch stands in the whole run. */
  lemma {:induction false} ClaimPosition(s: Slots, log: seq<Stretch>, i: nat) returns (p: nat)
    requires Logged(s, log) && i < |log| && log[i].claim.Some?
    ensures |Flat(log[..i])| <= p < |Flat(log[..i])| + |log[i].events| <= |Flat(log)|
    ensures Flat(log)[p] == log[i].claim.value && Claims(At(s, Flat(log), p), log[i].claim.value)
    decreases |log|
  {
    hide Claims, Next, OwnSteps;
    var first, rest := log[0].events, log[1..];
    if i == 0 {
      p :| 0 <= p < |first| && first[p] == log[0].claim.value && Claims(At(s, first, p), first[p]);
      AtPrefix(s, first, Flat(rest), p);
    } else {
      var q := ClaimPosition(Run(s, first), rest, i - 1);
      p := |first| + q;
      AtConcat(s, first, Flat(rest), q);
      assert log[..i][1..] == rest[..i - 1];
    }
  }

  lemma {:induction false} FlatGrows(log: seq<Stretch>, i: nat, j: nat)
    requires i < j <= |log|
    ensures |Flat(log[..i])| + |log[i].events| <= |Flat(log[..j])|
    decreases i
  {
    assert log[..j][1..] == log[1..][..j - 1];
    if i > 0 {
      assert log[..i][1..] == log[1..][..i - 1];
      FlatGrows(log[1..], i - 1, j - 1);
    }
  }

  /** Which stretch a step of the whole run belongs to, and where in it. */
  lemma {:induction false} StepPosition(log: seq<Stretch>, p: nat) returns (m: nat, k: nat)
    requires p < |Flat(log)|
    ensures m < |log| && k < |log[m].events| && p == |Flat(log[..m])| + k && Flat(log)[p] == log[m].events[k]
    decreases |log|
  {
    if p < |log[0].events| {
      m, k := 0, p;
    } else {
      m, k := StepPosition(log[1..], p - |log[0].events|);
      m := m + 1;
      assert log[..m][1..] == log[1..][..m - 1];
    }
  }

  lemma {:induction false} LoggedSteps(s: Slots, log: seq<Stretch>, m: nat)
    requires Logged(s, log) && m < |log|
    ensures OwnSteps(log[m])
    ensures log[m].claim.Some? ==> log[m].claim.value.Claim? && log[m].loopId == Some(log[m].claim.value.loopId)
    decreases |log|
  {
    hide OwnSteps;
    if m > 0 {
      LoggedSteps(Run(s, log[0].events), log[1..], m - 1);
    }
  }

  /** A step that cannot lower the mark of a loop. */
  predicate Spares(e: Event, loopId: LoopId) { e != Clear(loopId) && (e.Claim? ==> e.loopId == loopId) }

  /** What the surroundings must do: between two starts of a loop nobody ends it, and no other loop claims. */
  predicate Undisturbed(stretch: Stretch, loopId: LoopId) {
    && (forall k :: stretch.from <= k < stretch.to && k < |stretch.events| ==> Spares(stretch.events[k], loopId))
    && (stretch.loopId == Some(loopId) || forall k :: 0 <= k < |stretch.events| ==> !stretch.events[k].Claim?)
  }

  lemma UndisturbedSpares(stretch: Stretch, loopId: LoopId, k: nat)
    requires OwnSteps(stretch) && Undisturbed(stretch, loopId) && k < |stretch.events|
    ensures Spares(stretch.events[k], loopId)
  {}

  lemma SparesDoNotReset(s: Slots, e: Event, loopId: LoopId)
    requires Spares(e, loopId)
    ensures !Resets(s, e, loopId)
  {}

  /** Over any number of starts, each logical request of a loop is reconstructed at most once,
      and later reconstructions are of later requests, provided only that between the two the
      surroundings do not end the loop and no other loop claims. The starts' own steps
      need no such hypothesis. */
  lemma ReconstructedAtMostOnce(s: Slots, log: seq<Stretch>, i: nat, j: nat, loopId: LoopId)
    requires Logged(s, log) && i < j < |log| && log[i].claim.Some? && log[j].claim.Some?
    requires log[i].loopId == log[j].loopId == Some(loopId)
    requires forall m :: i <= m <= j ==> Undisturbed(log[m], loopId)
    ensures log[i].claim.value.Claim? && log[j].claim.value.Claim? && log[i].claim.value.index < log[j].claim.value.index
  {
    LoggedSteps(s, log, i);
    LoggedSteps(s, log, j);
    hide Logged, OwnSteps, Undisturbed, Resets, ClaimOutcome, At;
    var p := ClaimPosition(s, log, i);
    var q := ClaimPosition(s, log, j);
    FlatGrows(log, i, j);
    var es := Flat(log);
    forall k | p < k < q ensures !Resets(At(s, es, k), es[k], loopId) {
      SparedBetween(s, log, i, j, loopId, k);
      SparesDoNotReset(At(s, es, k), es[k], loopId);
    }
    MarkHolds(s, es, p, q);
    ClaimAboveMark(At(s, es, q), es[q], loopId, es[p].index);
  }

  lemma ClaimAboveMark(s: Slots, e: Event, loopId: LoopId, index: nat)
    requires Marked(s, loopId, index) && Claims(s, e) && e.loopId == loopId
    ensures e.index > index
  {}

  lemma SparedBetween(s: Slots, log: seq<Stretch>, i: nat, j: nat, loopId: LoopId, p: nat)
    requires Logged(s, log) && i < j < |log| && p < |Flat(log)|
    requires |Flat(log[..i])| <= p < |Flat(log[..j])| + |log[j].events|
    requires forall m :: i <= m <= j ==> Undisturbed(log[m], loopId)
    ensures Spares(Flat(log)[p], loopId)
  {
    hide Logged, OwnSteps, Undisturbed, Spares;
    var m, k := StepPosition(log, p);
    if m < i {
      FlatGrows(log, m, i);
    } else if m > j {
      FlatGrows(log, j, m);
    }
    LoggedSteps(s, log, m);
    UndisturbedSpares(log[m], loopId, k);
  }
}
