/** Listing changes in pages: a page is planned, its records are verified, and it is
    planned again before it is answered. */
module ChangePage {
  import opened Prelude
  import opened Utf8
  import opened ChangeMerge

  const MAX_CHANGE_LIMIT: nat := 1_000
  const DEFAULT_CHANGE_MAX_BYTES: nat := 64 * 1024
  const MIN_CHANGE_MAX_BYTES: nat := 1_024
  const MAX_CHANGE_MAX_BYTES: nat := 256 * 1024

  datatype Scope = Workspace | Session | Turn(id: nat)

  datatype Owner = Owner(session: nat, scope: Scope)

  type Entry = (ChangeRef, Coverage)

  /** A fingerprint. That of a tool listing is the value it hashes. */
  datatype Observation =
    | ToolDigest(scan: Text, complete: bool, entries: seq<Entry>)
    | OtherDigest(id: nat)
    | Malformed(text: Text)

  datatype Cursor = Cursor(owner: Owner, offset: nat, observation: Option<Observation>)

  datatype Request = Request(owner: Owner, cursor: Option<Cursor>, limit: nat, maxBytes: Option<nat>) {
    function Offset(): nat { if cursor.Some? then cursor.value.offset else 0 }

    function Budget(): nat { if maxBytes.Some? then maxBytes.value else DEFAULT_CHANGE_MAX_BYTES }

    /** `ChangesListRequest::validate`. */
    predicate Valid() {
      && 1 <= limit <= MAX_CHANGE_LIMIT
      && (maxBytes.Some? ==> MIN_CHANGE_MAX_BYTES <= maxBytes.value <= MAX_CHANGE_MAX_BYTES)
      && (cursor.Some? ==>
            && cursor.value.owner == owner
            && (cursor.value.offset > 0 ==> cursor.value.observation.Some?)
            && (cursor.value.observation.Some? ==> !cursor.value.observation.value.Malformed?))
    }

    predicate Stale(current: Observation) {
      cursor.Some? && cursor.value.observation.Some? && cursor.value.observation.value != current
    }
  }

  datatype Consistency = LiveList | ColdList

  datatype Warning = NoRepository | StatusIncomplete | DetailsUnavailable | RecordsSkipped | StaleCursor

  datatype ListResult = ListResult(
    owner: Owner, records: seq<ChangeRecord>, next: Option<Cursor>, total: nat, complete: bool, stale: bool,
    consistency: Consistency, observedAt: Option<nat>, warnings: seq<Warning>)

  datatype ChangeError = InvalidArguments | QueryLimit | StoreFailed

  // ----- encoded sizes

  /** A session or loop id: a four-character prefix and 32 hexadecimal digits, in quotes. */
  const ID_LEN: nat := 38

  /** A SHA-256 in hexadecimal, in quotes. */
  const HASH_LEN: nat := 66

  function StringLen(text: Text): nat { 2 + EscapedLen(text) }

  function ToolRefLen(ref: ToolRef): nat {
    14 + ID_LEN + 11 + ID_LEN + 17 + Digits(ref.requestIndex) + 16 + StringLen(ref.call) + 1
  }

  /** A workspace entry is given as its encoding. */
  function ChangeRefLen(ref: ChangeRef): nat {
    match ref
    case ToolChange(toolRef, _, _) => 14 + 12 + ToolRefLen(toolRef) + 12 + HASH_LEN + 1
    case WorkspaceChange(_, headOid, entry) => 19 + 14 + ID_LEN + 12 + StringLen(headOid) + 9 + |entry| + 1
  }

  function RevisionLen(revision: Revision): nat {
    match revision
    case Missing => 18
    case Content(sha256, bytes) => 17 + 10 + StringLen(sha256) + 9 + Digits(bytes) + 1
    case Metadata(size, modified) => 18 + 9 + Digits(size) + 20 + (if modified.Some? then Digits(modified.value) else 4) + 1
    case Unknown => 18
  }

  function KindLen(kind: Kind): nat {
    match kind
    case Added => 7
    case Modified => 10
    case Deleted => 9
    case Renamed => 9
    case Conflict => 10
    case UnknownKind => 9
  }

  function OriginLen(origin: Origin): nat { if origin.Tool? then 6 else 19 }

  function CommitStateLen(state: CommitState): nat {
    match state
    case NotCommitted => 15
    case Applied => 9
    case CommitConflict => 10
    case CommitUnknown => 9
  }

  function CoverageLen(coverage: Coverage): nat {
    match coverage
    case Complete => 10
    case Partial => 9
    case Unavailable => 13
  }

  /** A record's fields besides the details flag. */
  function FieldsLen(r: ChangeRecord): nat {
    14 + ChangeRefLen(r.changeRef) + 8 + StringLen(r.path) + 8 + KindLen(r.kind) + 10 + OriginLen(r.origin)
    + (if r.toolRef.Some? then 12 + ToolRefLen(r.toolRef.value) else 0)
    + (if r.originalPath.Some? then 17 + StringLen(r.originalPath.value) else 0)
    + 10 + RevisionLen(r.before) + 9 + RevisionLen(r.after) + 16 + CommitStateLen(r.commitState)
    + 21 + 12 + CoverageLen(r.coverage) + 1
  }

  function RecordLen(r: ChangeRecord): nat { FieldsLen(r) + FlagLen(r.detailsAvailable) }

  /** Records with the commas between them. */
  function RecordsLen(records: seq<ChangeRecord>): nat {
    if records == [] then 0
    else
      var init := records[..|records| - 1];
      RecordsLen(init) + RecordLen(records[|records| - 1]) + if init == [] then 0 else 1
  }

  function ScopeLen(scope: Scope): nat {
    match scope
    case Workspace => 11
    case Session => 9
    case Turn(_) => 21 + ID_LEN
  }

  function CursorLen(cursor: Option<Cursor>): nat {
    if cursor.None? then 4
    else 14 + ID_LEN + 9 + ScopeLen(cursor.value.owner.scope) + 10 + Digits(cursor.value.offset) + 15 + HASH_LEN + 1
  }

  function NameLen(w: Warning): nat {
    match w
    case NoRepository => 13
    case StatusIncomplete => 17
    case DetailsUnavailable => 19
    case RecordsSkipped => 15
    case StaleCursor => 12
  }

  /** Each warning with its quotes and a comma. */
  function Weight(warnings: seq<Warning>): nat {
    if warnings == [] then 0 else Weight(warnings[..|warnings| - 1]) + NameLen(warnings[|warnings| - 1]) + 3
  }

  function WarningsLen(warnings: seq<Warning>): nat {
    var weight := Weight(warnings);
    if weight == 0 then 0 else weight - 1
  }

  /** The result's fields that no plan changes. */
  function HeaderLen(owner: Owner, observedAt: Option<nat>): nat {
    14 + ID_LEN + 9 + ScopeLen(owner.scope) + 13 + 15 + 9 + 12 + 9 + 15 + 6
    + (if observedAt.Some? then 23 + Digits(observedAt.value) else 0) + 14 + 1
  }

  function ResultLen(r: ListResult): nat {
    HeaderLen(r.owner, r.observedAt) + RecordsLen(r.records) + CursorLen(r.next) + Digits(r.total)
    + FlagLen(r.complete) + FlagLen(r.stale) + WarningsLen(r.warnings)
  }

  // ----- warnings

  /** `push_warning`. */
  function Push(warnings: seq<Warning>, w: Warning): seq<Warning> { if w in warnings then warnings else warnings + [w] }

  function Retain(warnings: seq<Warning>): seq<Warning> {
    if warnings == [] then []
    else
      var last := warnings[|warnings| - 1];
      if last == DetailsUnavailable then Retain(warnings[..|warnings| - 1])
      else Retain(warnings[..|warnings| - 1]) + [last]
  }

  /** The warnings a plan makes room for. */
  function Reserved(warnings: seq<Warning>): seq<Warning> { Push(Push(warnings, DetailsUnavailable), RecordsSkipped) }

  lemma WeightLast(warnings: seq<Warning>, w: Warning)
    ensures Weight(warnings + [w]) == Weight(warnings) + NameLen(w) + 3
  {
    assert (warnings + [w])[..|warnings|] == warnings;
  }

  lemma {:induction false} RetainFacts(warnings: seq<Warning>)
    ensures DetailsUnavailable !in Retain(warnings)
    ensures forall w :: w != DetailsUnavailable ==> (w in Retain(warnings) <==> w in warnings)
    ensures Weight(Retain(warnings)) + (if DetailsUnavailable in warnings then NameLen(DetailsUnavailable) + 3 else 0)
         <= Weight(warnings)
  {
    if warnings != [] {
      var init, last := warnings[..|warnings| - 1], warnings[|warnings| - 1];
      assert warnings == init + [last];
      RetainFacts(init);
      assert Retain(warnings) == if last == DetailsUnavailable then Retain(init) else Retain(init) + [last];
      WeightLast(init, last);
      WeightLast(Retain(init), last);
      hide Retain, Weight;
      assert DetailsUnavailable in warnings <==> DetailsUnavailable in init || last == DetailsUnavailable;
    }
  }

  function ReservedWeight(warnings: seq<Warning>): nat {
    Weight(warnings) + (if DetailsUnavailable in warnings then 0 else 22) + (if RecordsSkipped in warnings then 0 else 18)
  }

  lemma ReservedWeighs(warnings: seq<Warning>)
    ensures Weight(Reserved(warnings)) == ReservedWeight(warnings) > 0
    ensures WarningsLen(Reserved(warnings)) == ReservedWeight(warnings) - 1
  {
    hide Weight;
    WeightLast(warnings, DetailsUnavailable);
    var more := Push(warnings, DetailsUnavailable);
    WeightLast(more, RecordsSkipped);
    assert RecordsSkipped in more <==> RecordsSkipped in warnings;
    assert RecordsSkipped in warnings ==> Weight(warnings) > 0 by {
      if RecordsSkipped in warnings { SomeWeight(warnings); }
    }
  }

  lemma SomeWeight(warnings: seq<Warning>)
    requires warnings != []
    ensures Weight(warnings) > 0
  {}

  /** Dropping the details warning and adding the skipped one never needs more room. */
  lemma ReservationShrinks(warnings: seq<Warning>, skipped: bool)
    ensures var later := if skipped then Push(warnings, RecordsSkipped) else warnings;
            WarningsLen(Reserved(Retain(later))) <= WarningsLen(Reserved(warnings))
  {
    hide Weight, Reserved, Retain, WarningsLen;
    var later := if skipped then Push(warnings, RecordsSkipped) else warnings;
    WeightLast(warnings, RecordsSkipped);
    RetainFacts(later);
    ReservedWeighs(Retain(later));
    ReservedWeighs(warnings);
  }

  // ----- the plan

  function NextCursor(request: Request, end: nat, total: nat, observation: Observation): Option<Cursor> {
    if end < total then Some(Cursor(request.owner, end, Some(observation))) else None
  }

  /** Everything a plan depends on besides the records. */
  datatype Terms = Terms(
    request: Request, observation: Observation, consistency: Consistency, observedAt: Option<nat>)

  function Header(t: Terms, total: nat, warnings: seq<Warning>): ListResult {
    ListResult(t.request.owner, [], None, total, false, false, t.consistency, t.observedAt, Reserved(warnings))
  }

  /** The records up to `end` fit with the reserved header and the cursor behind them. */
  predicate Fits(t: Terms, records: seq<ChangeRecord>, warnings: seq<Warning>, end: nat)
    requires t.request.Offset() <= end <= |records|
  {
    ResultLen(Header(t, |records|, warnings)) - 4 + RecordsLen(records[t.request.Offset()..end])
    + CursorLen(NextCursor(t.request, end, |records|, t.observation)) <= t.request.Budget()
  }

  function Bound(t: Terms, total: nat, pageEnd: Option<nat>): nat {
    Max(Min(if pageEnd.Some? then pageEnd.value else total, total), t.request.Offset())
  }

  /** The planned end: everything up to it fits, and the next record is out of bounds or does not. */
  ghost predicate Plans(t: Terms, records: seq<ChangeRecord>, warnings: seq<Warning>, pageEnd: Option<nat>, end: nat) {
    var offset, last := t.request.Offset(), Min(Bound(t, |records|, pageEnd), t.request.Offset() + t.request.limit);
    && offset <= end <= last <= |records|
    && (forall e :: offset < e <= end ==> Fits(t, records, warnings, e))
    && (end < last ==> !Fits(t, records, warnings, end + 1))
    && (end == offset ==> offset == |records|)
  }

  lemma RecordsLenLast(records: seq<ChangeRecord>, r: ChangeRecord)
    ensures RecordsLen(records + [r]) == RecordsLen(records) + RecordLen(r) + if records == [] then 0 else 1
  {
    hide RecordLen;
    assert (records + [r])[..|records|] == records;
  }

  /** Some check between two positions finds the query out of time. */
  ghost predicate ExpiredWithin(from: nat, to: nat, expired: nat -> bool) { exists k :: from <= k <= to && expired(k) }

  /** `plan_page_end`. */
  method PlanPageEnd(t: Terms, records: seq<ChangeRecord>, warnings: seq<Warning>, pageEnd: Option<nat>, expired: nat -> bool)
    returns (r: Result<nat, ChangeError>)
    ensures r.Ok? ==> Plans(t, records, warnings, pageEnd, r.value)
    ensures r == Err(InvalidArguments) ==>
              var offset := t.request.Offset();
              offset > |records|
              || (offset < |records| && (Bound(t, |records|, pageEnd) == offset || t.request.limit == 0
                                         || !Fits(t, records, warnings, offset + 1)))
    ensures r.Err? ==> r.error == InvalidArguments || (r.error == QueryLimit && ExpiredWithin(t.request.Offset(), |records|, expired))
  {
    hide Digits, WarningsLen, Reserved, RecordLen, RecordsLen;
    var total, offset := |records|, t.request.Offset();
    if offset > total {
      return Err(InvalidArguments);
    }
    var bound := Bound(t, total, pageEnd);
    var last := Min(bound, offset + t.request.limit);
    var base := ResultLen(Header(t, total, warnings)) - 4;
    var recordBytes, end := 0, offset;
    assert records[offset..offset] == [];
    assert RecordsLen([]) == 0 by { NoRecords(); }
    while end < last
      invariant offset <= end <= last
      invariant recordBytes == RecordsLen(records[offset..end])
      invariant forall e :: offset < e <= end ==> Fits(t, records, warnings, e)
    {
      if expired(end) {
        return Err(QueryLimit);
      }
      assert records[offset..end + 1] == records[offset..end] + [records[end]];
      RecordsLenLast(records[offset..end], records[end]);
      recordBytes := recordBytes + RecordLen(records[end]) + if end > offset then 1 else 0;
      if base + recordBytes + CursorLen(NextCursor(t.request, end + 1, total, t.observation)) > t.request.Budget() {
        break;
      }
      end := end + 1;
    }
    if end == offset && offset < total {
      return Err(InvalidArguments);
    }
    return Ok(end);
  }

  lemma NoRecords()
    ensures RecordsLen([]) == 0
  {}

  lemma FourDigits(n: nat)
    ensures Digits(n) <= 4 + Digits(n / 10_000)
    ensures n < 10_000 ==> Digits(n) <= 4
  {
    var a := n / 10;
    var b := a / 10;
    var c := b / 10;
    assert Digits(n) <= 1 + Digits(a) && Digits(a) <= 1 + Digits(b) && Digits(b) <= 1 + Digits(c) && Digits(c) <= 1 + Digits(c / 10);
    assert c / 10 == n / 10_000;
    assert n < 10_000 ==> c < 10 && Digits(c) == 1;
  }

  lemma DigitsOfWord(n: nat)
    requires n <= U64_MAX
    ensures Digits(n) <= 20
  {
    hide Digits;
    var a := n / 10_000;
    var b := a / 10_000;
    var c := b / 10_000;
    FourDigits(n);
    FourDigits(a);
    FourDigits(b);
    FourDigits(c);
    FourDigits(c / 10_000);
  }

  /** Every record is longer than the cursor that may replace it. */
  lemma RecordOutweighsCursor(r: ChangeRecord, cursor: Cursor)
    requires cursor.offset <= U64_MAX
    ensures CursorLen(Some(cursor)) < RecordLen(r)
  {
    hide EscapedLen, Digits;
    DigitsOfWord(cursor.offset);
  }

  /** A page with one record less still fits. */
  lemma OneLessFits(t: Terms, records: seq<ChangeRecord>, warnings: seq<Warning>, end: nat)
    requires |records| <= U64_MAX
    requires t.request.Offset() + 1 < end <= |records| && Fits(t, records, warnings, end)
    ensures Fits(t, records, warnings, end - 1)
  {
    hide RecordLen, RecordsLen, Digits, WarningsLen, Reserved, HeaderLen, CursorLen;
    var offset := t.request.Offset();
    assert records[offset..end] == records[offset..end - 1] + [records[end - 1]];
    RecordsLenLast(records[offset..end - 1], records[end - 1]);
    RecordOutweighsCursor(records[end - 1], NextCursor(t.request, end - 1, |records|, t.observation).value);
  }

  lemma {:induction false} FewerFit(t: Terms, records: seq<ChangeRecord>, warnings: seq<Warning>, few: nat, many: nat)
    requires |records| <= U64_MAX
    requires t.request.Offset() < few <= many <= |records| && Fits(t, records, warnings, many)
    ensures Fits(t, records, warnings, few)
    decreases many - few
  {
    hide Fits;
    if few < many {
      OneLessFits(t, records, warnings, many);
      FewerFit(t, records, warnings, few, many - 1);
    }
  }

  /** The greedy plan is the longest fitting prefix: nothing past its end fits. */
  lemma PlanIsLongest(t: Terms, records: seq<ChangeRecord>, warnings: seq<Warning>, pageEnd: Option<nat>, end: nat, longer: nat)
    requires |records| <= U64_MAX && Plans(t, records, warnings, pageEnd, end)
    requires end < longer <= Min(Bound(t, |records|, pageEnd), t.request.Offset() + t.request.limit)
    ensures !Fits(t, records, warnings, longer)
  {
    hide Fits;
    if Fits(t, records, warnings, longer) {
      FewerFit(t, records, warnings, end + 1, longer);
    }
  }

  // ----- the plan survives verification

  /** Verification only turns details flags on. */
  predicate Upgraded(before: seq<ChangeRecord>, after: seq<ChangeRecord>) {
    && |before| == |after|
    && forall k :: 0 <= k < |before| ==> after[k] == before[k] || after[k] == before[k].(detailsAvailable := true)
  }

  lemma {:induction false} UpgradedIsSmaller(before: seq<ChangeRecord>, after: seq<ChangeRecord>)
    requires Upgraded(before, after)
    ensures RecordsLen(after) <= RecordsLen(before)
  {
    if before != [] {
      var last := |before| - 1;
      UpgradedIsSmaller(before[..last], after[..last]);
      assert RecordLen(after[last]) <= RecordLen(before[last]);
    }
  }

  lemma StillFits(t: Terms, before: seq<ChangeRecord>, after: seq<ChangeRecord>, warnings: seq<Warning>, skipped: bool, end: nat)
    requires Upgraded(before, after) && t.request.Offset() <= end <= |before| && Fits(t, before, warnings, end)
    ensures var later := if skipped then Push(warnings, RecordsSkipped) else warnings;
            Fits(t, after, Retain(later), end)
  {
    var offset := t.request.Offset();
    UpgradedIsSmaller(before[offset..end], after[offset..end]);
    hide Upgraded, Reserved, Retain, Push, RecordsLen, WarningsLen;
    ReservationShrinks(warnings, skipped);
    assert RecordsLen([]) == 0 by { NoRecords(); }
  }

  /** Two-phase listing keeps its plan: the second plan, bounded by the first, ends where it did. */
  lemma SecondPlanKeepsFirst(t: Terms, before: seq<ChangeRecord>, after: seq<ChangeRecord>, warnings: seq<Warning>, skipped: bool,
                             first: nat, second: nat)
    requires Upgraded(before, after) && Plans(t, before, warnings, None, first)
    requires var later := if skipped then Push(warnings, RecordsSkipped) else warnings;
             Plans(t, after, Retain(later), Some(first), second)
    ensures second == first
  {
    hide Fits, Upgraded, Retain, Push;
    assert |after| == |before| by { SameLength(before, after); }
    if second < first {
      assert Fits(t, before, warnings, second + 1);
      StillFits(t, before, after, warnings, skipped, second + 1);
    }
  }

  lemma SameLength(before: seq<ChangeRecord>, after: seq<ChangeRecord>)
    requires Upgraded(before, after)
    ensures |before| == |after|
  {}

  // ----- the answer

  predicate SomeUnavailable(records: seq<ChangeRecord>) { exists k :: 0 <= k < |records| && !records[k].detailsAvailable }

  /** The page that ends at `end`. */
  function PageResult(t: Terms, records: seq<ChangeRecord>, warnings: seq<Warning>, complete: bool, end: nat): ListResult
    requires t.request.Offset() <= end <= |records|
  {
    var shown := records[t.request.Offset()..end];
    var kept := Retain(warnings);
    ListResult(t.request.owner, shown, NextCursor(t.request, end, |records|, t.observation), |records|, complete, false,
               t.consistency, t.observedAt, if SomeUnavailable(shown) then Push(kept, DetailsUnavailable) else kept)
  }

  /** A page warns of missing details exactly if it shows a record without them, and otherwise as before. */
  lemma PageWarns(t: Terms, records: seq<ChangeRecord>, warnings: seq<Warning>, complete: bool, end: nat, w: Warning)
    requires t.request.Offset() <= end <= |records|
    ensures var page := PageResult(t, records, warnings, complete, end);
            w in page.warnings <==> if w.DetailsUnavailable? then exists r :: r in page.records && !r.detailsAvailable else w in warnings
  {
    RetainFacts(warnings);
    var page := PageResult(t, records, warnings, complete, end);
    if r :| r in page.records && !r.detailsAvailable {
      var k :| 0 <= k < |page.records| && page.records[k] == r;
      assert SomeUnavailable(page.records);
    }
  }

  /** A page that shows anything fits as it was planned. */
  lemma PlannedPageFits(t: Terms, records: seq<ChangeRecord>, warnings: seq<Warning>, complete: bool, end: nat)
    requires t.request.Offset() < end <= |records| && Fits(t, records, Retain(warnings), end)
    ensures ResultLen(PageResult(t, records, warnings, complete, end)) <= t.request.Budget()
  {
    hide Weight, Reserved, Retain, RecordsLen, Digits, CursorLen;
    var kept := Retain(warnings);
    ReservedWeighs(kept);
    WeightLast(kept, DetailsUnavailable);
    assert RecordsLen([]) == 0 by { NoRecords(); }
    assert CursorLen(None) == 4 by { NoCursor(); }
    assert WarningsLen(PageResult(t, records, warnings, complete, end).warnings) <= ReservedWeight(kept) - 1;
  }

  lemma NoCursor()
    ensures CursorLen(None) == 4
  {}

  function StaleResult(t: Terms, total: nat, warnings: seq<Warning>): ListResult {
    ListResult(t.request.owner, [], None, total, false, true, t.consistency, t.observedAt, Push(Retain(warnings), StaleCursor))
  }

  /** `encoded_result`. */
  method EncodedResult(result: ListResult, maxBytes: nat) returns (r: Result<ListResult, ChangeError>)
    ensures r == if ResultLen(result) <= maxBytes then Ok(result) else Err(InvalidArguments)
  {
    if ResultLen(result) > maxBytes {
      return Err(InvalidArguments);
    }
    return Ok(result);
  }

  /** `page_records`. */
  method PageRecords(t: Terms, records: seq<ChangeRecord>, warnings: seq<Warning>, complete: bool, pageEnd: Option<nat>, expired: nat -> bool)
    returns (r: Result<ListResult, ChangeError>)
    ensures r.Ok? ==> t.request.Valid() && ResultLen(r.value) <= t.request.Budget()
    ensures r.Ok? && t.request.Stale(t.observation) ==> r.value == StaleResult(t, |records|, warnings)
    ensures r.Ok? && !t.request.Stale(t.observation) ==>
              var end := t.request.Offset() + |r.value.records|;
              && Plans(t, records, Retain(warnings), pageEnd, end)
              && r.value == PageResult(t, records, warnings, complete, end)
    ensures r == Err(InvalidArguments) && t.request.Valid() ==>
              var offset := t.request.Offset();
              if t.request.Stale(t.observation) then ResultLen(StaleResult(t, |records|, warnings)) > t.request.Budget()
              else if offset == |records| then ResultLen(PageResult(t, records, warnings, complete, offset)) > t.request.Budget()
              else offset > |records| || Bound(t, |records|, pageEnd) == offset || !Fits(t, records, Retain(warnings), offset + 1)
    ensures r.Err? ==> r.error == InvalidArguments || (r.error == QueryLimit && ExpiredWithin(t.request.Offset(), |records|, expired))
  {
    hide Fits, ResultLen, Retain, Digits;
    if !t.request.Valid() {
      return Err(InvalidArguments);
    }
    var offset := t.request.Offset();
    if t.request.Stale(t.observation) {
      r := EncodedResult(StaleResult(t, |records|, warnings), t.request.Budget());
      return;
    }
    if offset > |records| {
      return Err(InvalidArguments);
    }
    var planned := PlanPageEnd(t, records, Retain(warnings), pageEnd, expired);
    if planned.Err? {
      return Err(planned.error);
    }
    var end := planned.value;
    if expired(|records|) {
      return Err(QueryLimit);
    }
    if offset < end {
      PlannedPageFits(t, records, warnings, complete, end);
    }
    r := EncodedResult(PageResult(t, records, warnings, complete, end), t.request.Budget());
  }

  // ----- listing tool changes

  /** One blob check, as the store answers it. */
  datatype Blob = Checked(available: bool, exhausted: bool) | Broken(error: ChangeError)

  function StoredUnder(stored: seq<(ToolRef, StoredFileChange)>, ref: ToolRef): Option<StoredFileChange> {
    if stored == [] then None
    else
      var (r, change) := stored[|stored| - 1];
      if r == ref then Some(change) else StoredUnder(stored[..|stored| - 1], ref)
  }

  /** A record is checked if it lacks its details and matches what is stored under its reference. */
  predicate Checkable(scan: Scan, record: ChangeRecord) {
    && !record.detailsAvailable && record.toolRef.Some?
    && var change := StoredUnder(scan.records, record.toolRef.value);
       change.Some? && CompatibleChange(record, record.toolRef.value, change.value)
  }

  /** The check of this record, the first to go wrong, fails with an error or spends the budget. */
  ghost predicate GoesWrong(records: seq<ChangeRecord>, scan: Scan, offset: nat, k: nat, blobs: nat -> Blob)
    requires k < |records|
  {
    && Checkable(scan, records[k]) && (blobs(k).Broken? || blobs(k).exhausted)
    && forall j :: offset <= j < k && Checkable(scan, records[j]) ==> blobs(j).Checked? && !blobs(j).exhausted
  }

  /** What the verification of a page leaves, unless a check fails. */
  ghost predicate BlobsChecked(before: seq<ChangeRecord>, after: seq<ChangeRecord>, scan: Scan, offset: nat, end: nat, blobs: nat -> Blob,
                               exhausted: bool)
  {
    && |before| == |after| && offset <= end <= |before|
    && (forall k :: 0 <= k < |before| && after[k] != before[k] ==>
          offset <= k < end && Checkable(scan, before[k]) && blobs(k).Checked? && blobs(k).available)
    && if exhausted then exists k :: offset <= k < end && GoesWrong(before, scan, offset, k, blobs) && blobs(k).Checked?
       else forall k :: offset <= k < end && Checkable(scan, before[k]) ==>
              blobs(k).Checked? && !blobs(k).exhausted && after[k].detailsAvailable == blobs(k).available
  }

  /** The verification loop over the planned records. */
  method VerifyBlobs(records: seq<ChangeRecord>, scan: Scan, offset: nat, end: nat, blobs: nat -> Blob)
    returns (after: seq<ChangeRecord>, exhausted: bool, failed: Option<ChangeError>)
    requires offset <= end <= |records|
    ensures Upgraded(records, after)
    ensures failed.None? ==> BlobsChecked(records, after, scan, offset, end, blobs, exhausted)
    ensures failed.Some? ==> exists k :: offset <= k < end && GoesWrong(records, scan, offset, k, blobs) && blobs(k) == Broken(failed.value)
  {
    hide Checkable;
    after, exhausted, failed := records, false, None;
    for k := offset to end
      invariant Upgraded(records, after) && !exhausted && failed.None?
      invariant forall j :: k <= j < |records| ==> after[j] == records[j]
      invariant forall j :: 0 <= j < |records| && after[j] != records[j] ==>
                  offset <= j < k && Checkable(scan, records[j]) && blobs(j).Checked? && blobs(j).available
      invariant forall j :: offset <= j < k && Checkable(scan, records[j]) ==>
                  blobs(j).Checked? && !blobs(j).exhausted && after[j].detailsAvailable == blobs(j).available
    {
      if Checkable(scan, after[k]) {
        if blobs(k).Broken? {
          assert GoesWrong(records, scan, offset, k, blobs);
          failed := Some(blobs(k).error);
          return;
        }
        NotYetAvailable(scan, records[k]);
        after := after[k := after[k].(detailsAvailable := blobs(k).available)];
        if blobs(k).exhausted {
          assert GoesWrong(records, scan, offset, k, blobs);
          exhausted := true;
          return;
        }
      }
    }
  }

  lemma NotYetAvailable(scan: Scan, record: ChangeRecord)
    requires Checkable(scan, record)
    ensures !record.detailsAvailable && record.(detailsAvailable := false) == record
  {}

  function Entries(records: seq<ChangeRecord>): (e: seq<Entry>)
    ensures |e| == |records|
  {
    seq(|records|, k requires 0 <= k < |records| => (records[k].changeRef, records[k].coverage))
  }

  /** What one listing works on: the merged records, whether they are complete, and their fingerprint. */
  datatype Listing = Listing(records: seq<ChangeRecord>, complete: bool, observation: Observation)

  function ListingOf(warm: seq<ChangeRecord>, scan: Scan): Listing
    requires AllReferenced(warm) && ScanOk(scan)
  {
    var records := Records(warm, DiskOnly(warm, scan, |scan.records|), MergedSlots(warm, scan));
    var complete := !scan.skipped && SharedMatch(warm, scan, |scan.records|);
    Listing(records, complete, ToolDigest(scan.observation, complete, Entries(records)))
  }

  function FirstWarnings(complete: bool): seq<Warning> { if complete then [] else [RecordsSkipped] }

  function TermsOf(request: Request, live: bool, observation: Observation): Terms {
    Terms(request, observation, if live then LiveList else ColdList, None)
  }

  /** What a successful listing answers: the page the first plan chose, with details flags
      only turned on, and the cursor behind it. */
  ghost predicate Answers(t: Terms, listing: Listing, result: ListResult) {
    && ResultLen(result) <= t.request.Budget()
    && result.stale == t.request.Stale(t.observation)
    && result.total == |listing.records| && result.owner == t.request.owner
    && result.consistency == t.consistency && result.observedAt == t.observedAt
    && (result.stale ==> result.records == [] && result.next.None? && !result.complete)
    && (!result.stale ==>
          var offset := t.request.Offset();
          var end := offset + |result.records|;
          && Plans(t, listing.records, FirstWarnings(listing.complete), None, end)
          && Upgraded(listing.records[offset..end], result.records)
          && result.next == NextCursor(t.request, end, |listing.records|, t.observation)
          && (result.complete ==> listing.complete)
          && (DetailsUnavailable in result.warnings <==> SomeUnavailable(result.records))
          && (RecordsSkipped in result.warnings <==> !result.complete))
  }

  /** The final page after verification is the answer to the first plan. */
  lemma FinalPageAnswers(t: Terms, listing: Listing, after: seq<ChangeRecord>, exhausted: bool, first: nat, result: ListResult)
    requires !t.request.Stale(t.observation) && Upgraded(listing.records, after)
    requires Plans(t, listing.records, FirstWarnings(listing.complete), None, first)
    requires var later := if exhausted then Push(FirstWarnings(listing.complete), RecordsSkipped) else FirstWarnings(listing.complete);
             var end := t.request.Offset() + |result.records|;
             && ResultLen(result) <= t.request.Budget()
             && Plans(t, after, Retain(later), Some(first), end)
             && result == PageResult(t, after, later, listing.complete && !exhausted, end)
    ensures Answers(t, listing, result)
  {
    hide Fits, ResultLen, Retain, Upgraded, SomeUnavailable, Weight, Digits;
    var warnings := FirstWarnings(listing.complete);
    var later := if exhausted then Push(warnings, RecordsSkipped) else warnings;
    var end := t.request.Offset() + |result.records|;
    SecondPlanKeepsFirst(t, listing.records, after, warnings, exhausted, first, end);
    UpgradedSlice(listing.records, after, t.request.Offset(), end);
    RetainFacts(later);
  }

  lemma UpgradedSlice(before: seq<ChangeRecord>, after: seq<ChangeRecord>, from: nat, to: nat)
    requires Upgraded(before, after) && from <= to <= |before|
    ensures |after| == |before| && Upgraded(before[from..to], after[from..to])
  {}

  lemma PlansAgree(t: Terms, listing: Listing, result: ListResult, first: nat, after: seq<ChangeRecord>, exhausted: bool)
    requires Upgraded(listing.records, after) && Plans(t, listing.records, FirstWarnings(listing.complete), None, first)
    requires var later := if exhausted then Push(FirstWarnings(listing.complete), RecordsSkipped) else FirstWarnings(listing.complete);
             Plans(t, after, Retain(later), Some(first), t.request.Offset() + |result.records|)
    ensures t.request.Offset() + |result.records| == first
  {
    hide Fits, Retain, Upgraded, Push;
    SecondPlanKeepsFirst(t, listing.records, after, FirstWarnings(listing.complete), exhausted, first, t.request.Offset() + |result.records|);
  }

  /** While no check fails or exhausts its budget, the page tells of every record exactly
      whether its details were there or are now. */
  ghost predicate Verified(t: Terms, listing: Listing, scan: Scan, blobs: nat -> Blob, result: ListResult) {
    var offset, end := t.request.Offset(), t.request.Offset() + |result.records|;
    && end <= |listing.records|
    && ((forall k :: offset <= k < end && Checkable(scan, listing.records[k]) ==> blobs(k).Checked? && !blobs(k).exhausted) ==>
          && result.complete == listing.complete
          && forall k :: offset <= k < end ==>
               (result.records[k - offset].detailsAvailable
                <==> listing.records[k].detailsAvailable || (Checkable(scan, listing.records[k]) && blobs(k).available)))
  }

  lemma FinalPageIsVerified(t: Terms, listing: Listing, scan: Scan, blobs: nat -> Blob, after: seq<ChangeRecord>,
                            exhausted: bool, end: nat, result: ListResult)
    requires t.request.Offset() <= end <= |listing.records| == |after| && |result.records| == end - t.request.Offset()
    requires result.records == after[t.request.Offset()..end] && result.complete == (listing.complete && !exhausted)
    requires BlobsChecked(listing.records, after, scan, t.request.Offset(), end, blobs, exhausted)
    ensures Verified(t, listing, scan, blobs, result)
  {
    var offset := t.request.Offset();
    assert forall k :: 0 <= k < |after| && Checkable(scan, listing.records[k]) ==> !listing.records[k].detailsAvailable;
    hide Checkable;
    forall k | offset <= k < end ensures result.records[k - offset] == after[k] {}
  }

  /** Why a valid request is refused: its cursor lies behind the list, or not even the first record fits. */
  predicate NothingToShow(t: Terms, listing: Listing) {
    && !t.request.Stale(t.observation)
    && var offset := t.request.Offset();
       || offset > |listing.records|
       || (offset < |listing.records| && !Fits(t, listing.records, FirstWarnings(listing.complete), offset + 1))
  }

  /** A page without records fits every budget a request may name. */
  lemma BareResultFits(t: Terms, r: ListResult)
    requires t.request.Valid() && r.records == [] && r.next.None? && r.observedAt.None? && r.total <= U64_MAX
    requires Weight(r.warnings) <= 100
    ensures ResultLen(r) <= t.request.Budget()
  {
    hide Digits, Weight;
    DigitsOfWord(r.total);
  }

  lemma SmallPagesFit(t: Terms, listing: Listing)
    requires t.request.Valid() && t.observedAt.None? && |listing.records| <= U64_MAX
    ensures ResultLen(StaleResult(t, |listing.records|, FirstWarnings(listing.complete))) <= t.request.Budget()
    ensures t.request.Offset() == |listing.records| ==>
              ResultLen(PageResult(t, listing.records, FirstWarnings(listing.complete), listing.complete, t.request.Offset())) <= t.request.Budget()
  {
    hide ResultLen, Weight, Digits, Retain, Push, SomeUnavailable;
    var warnings := FirstWarnings(listing.complete);
    FewWarnings(listing.complete);
    BareResultFits(t, StaleResult(t, |listing.records|, warnings));
    if t.request.Offset() == |listing.records| {
      EmptyPage(t, listing.records, warnings, listing.complete);
      BareResultFits(t, PageResult(t, listing.records, warnings, listing.complete, t.request.Offset()));
    }
  }

  lemma EmptyPage(t: Terms, records: seq<ChangeRecord>, warnings: seq<Warning>, complete: bool)
    requires t.request.Offset() == |records|
    ensures var r := PageResult(t, records, warnings, complete, |records|);
            r.records == [] && r.next.None? && r.warnings == Retain(warnings)
  {
    hide Retain, Push;
  }

  lemma FewWarnings(complete: bool)
    ensures Weight(Push(Retain(FirstWarnings(complete)), StaleCursor)) <= 100 && Weight(Retain(FirstWarnings(complete))) <= 100
  {
    var warnings := FirstWarnings(complete);
    assert warnings[..|warnings| - if complete then 0 else 1] == [];
    assert Retain(warnings) == warnings by { if !complete { assert Retain(warnings[..0]) == []; } }
    assert Weight(warnings) <= 50;
    WeightLast(warnings, StaleCursor);
  }

  lemma NothingVerified(before: seq<ChangeRecord>, after: seq<ChangeRecord>, scan: Scan, offset: nat, blobs: nat -> Blob, exhausted: bool)
    requires |before| == |after| && offset <= |before| && BlobsChecked(before, after, scan, offset, offset, blobs, exhausted)
    ensures before == after && !exhausted
  {
    hide Checkable, GoesWrong;
  }

  /** Where the clock is looked at: before the scan, while planning, while answering. */
  datatype Check = AtStart | Planning(k: nat) | Answering(k: nat)

  /** A record of the planned page whose check fails with this error. */
  ghost predicate BreaksOff(t: Terms, listing: Listing, scan: Scan, blobs: nat -> Blob, error: ChangeError) {
    exists end, k ::
      && Plans(t, listing.records, FirstWarnings(listing.complete), None, end)
      && t.request.Offset() <= k < end
      && GoesWrong(listing.records, scan, t.request.Offset(), k, blobs) && blobs(k) == Broken(error)
  }

  /** What a page that is not listed means. */
  ghost predicate Unlisted(t: Terms, listing: Listing, scan: Scan, blobs: nat -> Blob, expired: Check -> bool, error: ChangeError) {
    || (error == InvalidArguments && (|listing.records| <= U64_MAX ==> NothingToShow(t, listing)))
    || (error == QueryLimit
        && (|| ExpiredWithin(t.request.Offset(), |listing.records|, (k: nat) => expired(Planning(k)))
            || ExpiredWithin(t.request.Offset(), |listing.records|, (k: nat) => expired(Answering(k)))))
    || BreaksOff(t, listing, scan, blobs, error)
  }

  /** The page after the records were merged: plan, verify, plan again. */
  method ListPage(t: Terms, listing: Listing, scan: Scan, blobs: nat -> Blob, expired: Check -> bool)
    returns (r: Result<ListResult, ChangeError>)
    requires t.observation == listing.observation && t.request.Valid() && t.observedAt.None?
    ensures r.Ok? ==> Answers(t, listing, r.value)
    ensures r.Ok? && !r.value.stale ==> Verified(t, listing, scan, blobs, r.value)
    ensures r.Err? ==> Unlisted(t, listing, scan, blobs, expired, r.error)
  {
    hide Fits, ResultLen, Retain, Upgraded, Checkable, SomeUnavailable, Verified, GoesWrong, ExpiredWithin;
    if |listing.records| <= U64_MAX {
      SmallPagesFit(t, listing);
    }
    var complete, warnings, offset := listing.complete, FirstWarnings(listing.complete), t.request.Offset();
    if t.request.Stale(t.observation) {
      r := PageRecords(t, listing.records, warnings, complete, None, (k: nat) => expired(Answering(k)));
      return;
    }
    var planned := PlanPageEnd(t, listing.records, warnings, None, (k: nat) => expired(Planning(k)));
    if planned.Err? {
      return Err(planned.error);
    }
    var pageEnd := planned.value;
    var after, exhausted, failed := VerifyBlobs(listing.records, scan, offset, pageEnd, blobs);
    if failed.Some? {
      assert BreaksOff(t, listing, scan, blobs, failed.value);
      return Err(failed.value);
    }
    r := AnswerPage(t, listing, scan, blobs, expired, after, exhausted, pageEnd);
  }

  /** The second plan and the answer, once the records of the first are verified. */
  method AnswerPage(t: Terms, listing: Listing, ghost scan: Scan, ghost blobs: nat -> Blob, expired: Check -> bool, after: seq<ChangeRecord>,
                    exhausted: bool, pageEnd: nat)
    returns (r: Result<ListResult, ChangeError>)
    requires t.request.Valid() && t.observedAt.None? && !t.request.Stale(t.observation)
    requires Plans(t, listing.records, FirstWarnings(listing.complete), None, pageEnd) && Upgraded(listing.records, after)
    requires BlobsChecked(listing.records, after, scan, t.request.Offset(), pageEnd, blobs, exhausted)
    ensures r.Ok? ==> Answers(t, listing, r.value) && !r.value.stale && Verified(t, listing, scan, blobs, r.value)
    ensures r.Err? ==> Unlisted(t, listing, scan, blobs, expired, r.error)
  {
    hide Fits, ResultLen, Retain, Upgraded, SomeUnavailable, Verified, ExpiredWithin, BreaksOff, BlobsChecked;
    SameLength(listing.records, after);
    var complete, warnings, offset := listing.complete, FirstWarnings(listing.complete), t.request.Offset();
    if exhausted {
      complete := false;
      warnings := Push(warnings, RecordsSkipped);
    }
    r := PageRecords(t, after, warnings, complete, Some(pageEnd), (k: nat) => expired(Answering(k)));
    if r.Ok? {
      FinalPageAnswers(t, listing, after, exhausted, pageEnd, r.value);
      PlansAgree(t, listing, r.value, pageEnd, after, exhausted);
      FinalPageIsVerified(t, listing, scan, blobs, after, exhausted, pageEnd, r.value);
    } else if offset == pageEnd {
      NothingVerified(listing.records, after, scan, offset, blobs, exhausted);
      if |listing.records| <= U64_MAX {
        SmallPagesFit(t, listing);
      }
    } else {
      StillFits(t, listing.records, after, FirstWarnings(listing.complete), exhausted, offset + 1);
    }
  }

  /** The fallback for an unavailable store. */
  function NoScan(unavailable: Text): (scan: Scan)
    ensures ScanOk(scan)
  {
    Scan([], map[], true, unavailable)
  }

  /** The record is a live one or stands for a stored change, perhaps with its details found. */
  ghost predicate FromLiveOrStored(record: ChangeRecord, live: seq<ChangeRecord>, scan: Scan) {
    exists r :: SameButDetails(r, record) && (r in live || exists k :: StandsFor(r, scan, k))
  }

  predicate SameButDetails(r: ChangeRecord, record: ChangeRecord) { record == r || record == r.(detailsAvailable := true) }

  /** Everything an answer shows is live or stored. */
  lemma AnswersShowStored(t: Terms, live: seq<ChangeRecord>, scan: Scan, result: ListResult)
    requires AllReferenced(live) && ScanOk(scan) && Answers(t, ListingOf(live, scan), result)
    ensures forall record :: record in result.records ==> FromLiveOrStored(record, live, scan)
  {
    hide Fits, ResultLen, Records, DiskOnly, MergedSlots, SharedMatch, Entries, FromLiveOrStored, InRange;
    if !result.stale {
      forall record | record in result.records ensures FromLiveOrStored(record, live, scan) {
        var k :| 0 <= k < |result.records| && result.records[k] == record;
        var p := t.request.Offset() + k;
        assert SameButDetails(ListingOf(live, scan).records[p], record);
        ListedIsStored(live, scan, p, record);
      }
    }
  }

  lemma ListedIsStored(live: seq<ChangeRecord>, scan: Scan, p: nat, record: ChangeRecord)
    requires AllReferenced(live) && ScanOk(scan) && p < |ListingOf(live, scan).records|
    requires SameButDetails(ListingOf(live, scan).records[p], record)
    ensures FromLiveOrStored(record, live, scan)
  {
    hide StandsFor, Records, DiskOnly, MergedSlots, SharedMatch, Entries, InRange, SameButDetails;
    MergedIsLiveOrStored(live, scan, p);
  }

  /** A record that stands for a stored change is checked, when references are distinct. */
  lemma StandingIsCheckable(record: ChangeRecord, scan: Scan, k: nat)
    requires StandsFor(record, scan, k) && forall i, j :: 0 <= i < j < |scan.records| ==> scan.records[i].0 != scan.records[j].0
    ensures Checkable(scan, record)
  {
    hide CompatibleChange;
    StoredUnderFinds(scan.records, k);
  }

  lemma {:induction false} StoredUnderFinds(stored: seq<(ToolRef, StoredFileChange)>, k: nat)
    requires k < |stored| && forall i, j :: 0 <= i < j < |stored| ==> stored[i].0 != stored[j].0
    ensures StoredUnder(stored, stored[k].0) == Some(stored[k].1)
  {
    if k < |stored| - 1 {
      StoredUnderFinds(stored[..|stored| - 1], k);
    }
  }

  /** The next cursor is accepted by the next request of the same listing, and not stale under its observation. */
  lemma NextCursorIsAccepted(t: Terms, end: nat, total: nat)
    requires t.request.Valid() && !t.observation.Malformed? && end < total
    ensures var next := NextCursor(t.request, end, total, t.observation);
            var again := t.request.(cursor := next);
            again.Valid() && again.Offset() == end && !again.Stale(t.observation)
  {}

  /** `list_tool_changes` once the store has answered its scan. */
  method ListToolChanges(request: Request, warm: Option<seq<ChangeRecord>>, scanned: Result<Scan, ChangeError>,
                         blobs: nat -> Blob, expired: Check -> bool, unavailable: Text)
    returns (r: Result<ListResult, ChangeError>)
    requires (warm.Some? ==> AllReferenced(warm.value)) && (scanned.Ok? ==> ScanOk(scanned.value))
    ensures var live := if warm.Some? then warm.value else [];
            if !request.Valid() then r == Err(InvalidArguments)
            else if expired(AtStart) then r == Err(QueryLimit)
            else if scanned.Err? && (scanned.error == QueryLimit || live == []) then r == Err(scanned.error)
            else
              var scan := if scanned.Ok? then scanned.value else NoScan(unavailable);
              var listing := ListingOf(live, scan);
              var t := TermsOf(request, warm.Some?, listing.observation);
              && (r.Ok? ==> Answers(t, listing, r.value))
              && (r.Ok? && !r.value.stale ==> Verified(t, listing, scan, blobs, r.value))
              && (r.Err? ==> Unlisted(t, listing, scan, blobs, expired, r.error))
              && (r.Ok? && r.value.complete ==> scanned.Ok? && !scan.skipped && SharedMatch(live, scan, |scan.records|))
              && (r.Ok? ==> r.value.consistency == if warm.Some? then LiveList else ColdList)
              && (r.Ok? ==> (r.value.stale <==> request.cursor.Some? && request.cursor.value.observation.Some?
                                                && request.cursor.value.observation.value != listing.observation))
              && (r.Ok? && r.value.stale ==> r.value.records == [] && r.value.next.None? && !r.value.complete)
              && (r.Ok? ==> forall record :: record in r.value.records ==> FromLiveOrStored(record, live, scan))
  {
    hide ResultLen, Fits, Records, MergedSlots, DiskOnly, SharedMatch, Upgraded, Entries, Plans, SomeUnavailable, Verified, Unlisted, FromLiveOrStored;
    if !request.Valid() {
      return Err(InvalidArguments);
    }
    if expired(AtStart) {
      return Err(QueryLimit);
    }
    var live := if warm.Some? then warm.value else [];
    var scan;
    match scanned {
      case Ok(found) => scan := found;
      case Err(error) =>
        if error == QueryLimit || live == [] {
          return Err(error);
        }
        scan := NoScan(unavailable);
    }
    var records, compatible := MergeToolRecords(live, scan);
    var complete := !scan.skipped && compatible;
    var observation := ToolDigest(scan.observation, complete, Entries(records));
    assert ListingOf(live, scan) == Listing(records, complete, observation);
    r := ListPage(TermsOf(request, warm.Some?, observation), Listing(records, complete, observation), scan, blobs, expired);
    if r.Ok? {
      AnswersShowStored(TermsOf(request, warm.Some?, observation), live, scan, r.value);
    }
  }

  // ----- whole listings

  /** One call and its answer, over whatever was stored and live at the time. */
  datatype Call = Call(t: Terms, listing: Listing, result: ListResult)

  ghost predicate ValidCall(call: Call) {
    && call.listing.observation == call.t.observation
    && call.t.observation.ToolDigest? && call.t.observation.entries == Entries(call.listing.records)
    && call.t.request.limit > 0
    && Answers(call.t, call.listing, call.result) && !call.result.stale
  }

  /** Calls that follow each other's cursors; no answer is stale and only the last has none. */
  ghost predicate Followed(calls: seq<Call>)
    decreases |calls|
  {
    && calls != [] && ValidCall(calls[0])
    && (if |calls| == 1 then calls[0].result.next.None?
        else
          && calls[0].result.next.Some? && calls[1].t.request.cursor == calls[0].result.next
          && Followed(calls[1..]))
  }

  function Shown(calls: seq<Call>): seq<Entry> {
    if calls == [] then [] else Entries(calls[0].result.records) + Shown(calls[1..])
  }

  /** One page shows the listed entries from its offset to its end. */
  lemma PageEntries(call: Call)
    requires ValidCall(call)
    ensures var offset, all := call.t.request.Offset(), call.t.observation.entries;
            var end := offset + |call.result.records|;
            && offset <= end <= |all| && (offset < |all| ==> offset < end)
            && Entries(call.result.records) == all[offset..end]
            && call.result.next == NextCursor(call.t.request, end, |all|, call.t.observation)
  {
    hide Fits, ResultLen;
    var offset := call.t.request.Offset();
    var end := offset + |call.result.records|;
    assert Upgraded(call.listing.records[offset..end], call.result.records);
    assert Entries(call.result.records) == Entries(call.listing.records)[offset..end];
  }

  /** Following cursors lists every entry from the first offset on, once and in order,
      whatever happens between the calls; and there are no more calls than entries. */
  lemma {:induction false} ListingIsExact(calls: seq<Call>)
    requires Followed(calls)
    ensures var offset, all := calls[0].t.request.Offset(), calls[0].t.observation.entries;
            && offset <= |all| && Shown(calls) == all[offset..]
            && |calls| <= Max(1, |all| - offset)
    decreases |calls|
  {
    hide ValidCall, Entries;
    PageEntries(calls[0]);
    if |calls| > 1 {
      ListingIsExact(calls[1..]);
      SameObservation(calls[0], calls[1]);
    } else {
      assert Shown(calls[1..]) == [];
    }
  }

  /** A cursor that is not stale pins the whole list of entries. */
  lemma SameObservation(call: Call, following: Call)
    requires ValidCall(call) && ValidCall(following)
    requires call.result.next.Some? && following.t.request.cursor == call.result.next
    ensures following.t.observation == call.t.observation
    ensures following.t.request.Offset() == call.t.request.Offset() + |call.result.records| < |call.t.observation.entries|
  {
    hide Fits, ResultLen, Entries;
    PageEntries(call);
  }
}
