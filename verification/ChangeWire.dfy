/** The JSON documents of a change listing, and that their sizes are the ones pages are planned by. */
module ChangeWire {
  import opened Prelude
  import opened Utf8
  import opened Json
  import opened ChangeMerge
  import opened ChangePage

  /** How ids and hashes are written. */
  datatype Names = Names(session: nat -> Text, turn: nat -> Text, hash: ChangeRef -> Text, digest: Observation -> Text)

  /** A prefix of four characters and 32 hexadecimal digits for ids, 64 digits for hashes. */
  ghost predicate Proper(names: Names) {
    && (forall id :: |names.session(id)| == 36)
    && (forall id :: |names.turn(id)| == 36)
    && (forall ref :: |names.hash(ref)| == 64)
    && (forall observation :: |names.digest(observation)| == 64)
  }

  function Word(s: string): (t: Text)
    ensures |t| == |s| + 2
  {
    [0x22] + Ascii(s) + [0x22]
  }

  function Raw(s: Text): (t: Text)
    ensures |t| == |s| + 2
  {
    [0x22] + s + [0x22]
  }

  function ToolRefJson(names: Names, ref: ToolRef): Text {
    Ascii("{\"session_id\":") + Raw(names.session(ref.session)) + Ascii(",\"loop_id\":") + Raw(names.turn(ref.loop_))
    + Ascii(",\"request_index\":") + Decimal(ref.requestIndex) + Ascii(",\"tool_call_id\":") + Quoted(ref.call) + Ascii("}")
  }

  function ChangeRefJson(names: Names, ref: ChangeRef): Text {
    match ref
    case ToolChange(toolRef, _, _) =>
      Ascii("{\"kind\":\"tool\",\"tool_ref\":") + ToolRefJson(names, toolRef) + Ascii(",\"revision\":") + Raw(names.hash(ref)) + Ascii("}")
    case WorkspaceChange(session, headOid, entry) =>
      Ascii("{\"kind\":\"workspace\",\"session_id\":") + Raw(names.session(session)) + Ascii(",\"head_oid\":") + Quoted(headOid)
      + Ascii(",\"entry\":") + entry + Ascii("}")
  }

  function RevisionJson(revision: Revision): Text {
    match revision
    case Missing => Ascii("{\"kind\":\"missing\"}")
    case Content(sha256, bytes) =>
      Ascii("{\"kind\":\"content\",\"sha256\":") + Quoted(sha256) + Ascii(",\"bytes\":") + Decimal(bytes) + Ascii("}")
    case Metadata(size, modified) =>
      Ascii("{\"kind\":\"metadata\",\"bytes\":") + Decimal(size) + Ascii(",\"modified_unix_ms\":")
      + (if modified.Some? then Decimal(modified.value) else Ascii("null")) + Ascii("}")
    case Unknown => Ascii("{\"kind\":\"unknown\"}")
  }

  function KindJson(kind: Kind): Text {
    match kind
    case Added => Word("added")
    case Modified => Word("modified")
    case Deleted => Word("deleted")
    case Renamed => Word("renamed")
    case Conflict => Word("conflict")
    case UnknownKind => Word("unknown")
  }

  function OriginJson(origin: Origin): Text { if origin.Tool? then Word("tool") else Word("workspace_unknown") }

  function CommitStateJson(state: CommitState): Text {
    match state
    case NotCommitted => Word("not_committed")
    case Applied => Word("applied")
    case CommitConflict => Word("conflict")
    case CommitUnknown => Word("unknown")
  }

  function CoverageJson(coverage: Coverage): Text {
    match coverage
    case Complete => Word("complete")
    case Partial => Word("partial")
    case Unavailable => Word("unavailable")
  }

  function AddressJson(names: Names, r: ChangeRecord): Text {
    Ascii("{\"change_ref\":") + ChangeRefJson(names, r.changeRef) + Ascii(",\"path\":") + Quoted(r.path)
    + Ascii(",\"kind\":") + KindJson(r.kind) + Ascii(",\"origin\":") + OriginJson(r.origin)
  }

  function OptionalJson(names: Names, r: ChangeRecord): Text {
    (if r.toolRef.Some? then Ascii(",\"tool_ref\":") + ToolRefJson(names, r.toolRef.value) else [])
    + (if r.originalPath.Some? then Ascii(",\"original_path\":") + Quoted(r.originalPath.value) else [])
  }

  function ContentJson(r: ChangeRecord): Text {
    Ascii(",\"before\":") + RevisionJson(r.before) + Ascii(",\"after\":") + RevisionJson(r.after)
    + Ascii(",\"commit_state\":") + CommitStateJson(r.commitState) + Ascii(",\"details_available\":") + Flag(r.detailsAvailable)
    + Ascii(",\"coverage\":") + CoverageJson(r.coverage) + Ascii("}")
  }

  /** One record: its address, the fields it may lack, and what changed. */
  function RecordJson(names: Names, r: ChangeRecord): Text { AddressJson(names, r) + OptionalJson(names, r) + ContentJson(r) }

  function RecordTexts(names: Names, records: seq<ChangeRecord>): seq<Text> {
    seq(|records|, k requires 0 <= k < |records| => RecordJson(names, records[k]))
  }

  function ScopeJson(names: Names, scope: Scope): Text {
    match scope
    case Workspace => Word("workspace")
    case Session => Word("session")
    case Turn(id) => Ascii("{\"turn\":{\"loop_id\":") + Raw(names.turn(id)) + Ascii("}}")
  }

  function CursorJson(names: Names, cursor: Option<Cursor>): Text {
    if cursor.None? then Ascii("null")
    else
      Ascii("{\"session_id\":") + Raw(names.session(cursor.value.owner.session)) + Ascii(",\"scope\":") + ScopeJson(names, cursor.value.owner.scope)
      + Ascii(",\"offset\":") + Decimal(cursor.value.offset) + Ascii(",\"observation\":")
      + (if cursor.value.observation.Some? then Raw(names.digest(cursor.value.observation.value)) else Ascii("null")) + Ascii("}")
  }

  function WarningJson(w: Warning): Text {
    match w
    case NoRepository => Word("no_repository")
    case StatusIncomplete => Word("status_incomplete")
    case DetailsUnavailable => Word("details_unavailable")
    case RecordsSkipped => Word("records_skipped")
    case StaleCursor => Word("stale_cursor")
  }

  function WarningTexts(warnings: seq<Warning>): seq<Text> {
    seq(|warnings|, k requires 0 <= k < |warnings| => WarningJson(warnings[k]))
  }

  function FrontJson(names: Names, r: ListResult): Text {
    Ascii("{\"session_id\":") + Raw(names.session(r.owner.session)) + Ascii(",\"scope\":") + ScopeJson(names, r.owner.scope)
    + Ascii(",\"records\":[") + Commas(RecordTexts(names, r.records)) + Ascii("],\"next_cursor\":") + CursorJson(names, r.next)
  }

  function BackJson(r: ListResult): Text {
    Ascii(",\"total\":") + Decimal(r.total) + Ascii(",\"complete\":") + Flag(r.complete) + Ascii(",\"stale\":") + Flag(r.stale)
    + Ascii(",\"consistency\":") + (if r.consistency.LiveList? then Word("live") else Word("cold"))
    + (if r.observedAt.Some? then Ascii(",\"observed_at_unix_ms\":") + Decimal(r.observedAt.value) else [])
    + Ascii(",\"warnings\":[") + Commas(WarningTexts(r.warnings)) + Ascii("]}")
  }

  /** A whole answer. */
  function ResultJson(names: Names, r: ListResult): Text { FrontJson(names, r) + BackJson(r) }

  // ----- sizes

  lemma ToolRefSize(names: Names, ref: ToolRef)
    requires Proper(names)
    ensures |ToolRefJson(names, ref)| == ToolRefLen(ref)
  {
    EscapeReadsBack(ref.call);
    hide Escape, EscapedLen, Decimal, Digits, Ascii, Raw;
  }

  lemma ChangeRefSize(names: Names, ref: ChangeRef)
    requires Proper(names)
    ensures |ChangeRefJson(names, ref)| == ChangeRefLen(ref)
  {
    if ref.ToolChange? {
      ToolRefSize(names, ref.toolRef);
    } else {
      EscapeReadsBack(ref.headOid);
    }
    hide Escape, EscapedLen, ToolRefJson, ToolRefLen, Ascii, Raw;
  }

  lemma RevisionSize(revision: Revision)
    ensures |RevisionJson(revision)| == RevisionLen(revision)
  {
    if revision.Content? { EscapeReadsBack(revision.sha256); }
    hide Escape, EscapedLen, Decimal, Digits, Ascii;
  }

  lemma WordsSize(r: ChangeRecord)
    ensures |KindJson(r.kind)| == KindLen(r.kind) && |OriginJson(r.origin)| == OriginLen(r.origin)
    ensures |CommitStateJson(r.commitState)| == CommitStateLen(r.commitState) && |CoverageJson(r.coverage)| == CoverageLen(r.coverage)
  {
    hide Word;
  }

  lemma AddressSize(names: Names, r: ChangeRecord)
    requires Proper(names)
    ensures |AddressJson(names, r)| == 40 + ChangeRefLen(r.changeRef) + StringLen(r.path) + KindLen(r.kind) + OriginLen(r.origin)
  {
    ChangeRefSize(names, r.changeRef);
    EscapeReadsBack(r.path);
    WordsSize(r);
    hide Escape, EscapedLen, Ascii, ChangeRefJson, ChangeRefLen, KindJson, KindLen, OriginJson, OriginLen, Proper;
  }

  lemma OptionalSize(names: Names, r: ChangeRecord)
    requires Proper(names)
    ensures |OptionalJson(names, r)| == (if r.toolRef.Some? then 12 + ToolRefLen(r.toolRef.value) else 0)
                                       + (if r.originalPath.Some? then 17 + StringLen(r.originalPath.value) else 0)
  {
    if r.toolRef.Some? { ToolRefSize(names, r.toolRef.value); }
    if r.originalPath.Some? { EscapeReadsBack(r.originalPath.value); }
    hide Escape, EscapedLen, Ascii, ToolRefJson, ToolRefLen, Proper;
  }

  lemma ContentSize(r: ChangeRecord)
    ensures |ContentJson(r)| == 69 + RevisionLen(r.before) + RevisionLen(r.after) + CommitStateLen(r.commitState)
                              + FlagLen(r.detailsAvailable) + CoverageLen(r.coverage)
  {
    RevisionSize(r.before);
    RevisionSize(r.after);
    WordsSize(r);
    hide Ascii, RevisionJson, RevisionLen, CommitStateJson, CommitStateLen, CoverageJson, CoverageLen, Flag, FlagLen;
  }

  lemma RecordSize(names: Names, r: ChangeRecord)
    requires Proper(names)
    ensures |RecordJson(names, r)| == RecordLen(r)
  {
    AddressSize(names, r);
    OptionalSize(names, r);
    ContentSize(r);
    hide AddressJson, OptionalJson, ContentJson, ChangeRefLen, ToolRefLen, StringLen, KindLen, OriginLen, RevisionLen, CommitStateLen, CoverageLen, FlagLen, Proper;
  }

  lemma RecordTextsLast(names: Names, records: seq<ChangeRecord>)
    requires records != []
    ensures RecordTexts(names, records) == RecordTexts(names, records[..|records| - 1]) + [RecordJson(names, records[|records| - 1])]
  {
    hide RecordJson;
  }

  lemma {:induction false} RecordsSize(names: Names, records: seq<ChangeRecord>)
    requires Proper(names)
    ensures |Commas(RecordTexts(names, records))| == RecordsLen(records)
  {
    hide Proper;
    if records == [] {
      assert Commas([]) == [];
    } else {
      var init, last := records[..|records| - 1], records[|records| - 1];
      RecordsSize(names, init);
      RecordSize(names, last);
      hide RecordJson, RecordLen, Commas;
      RecordTextsLast(names, records);
      assert RecordTexts(names, init) == [] <==> init == [];
      hide RecordTexts;
      CommasSize(RecordTexts(names, init), RecordJson(names, last));
    }
  }

  lemma ScopeSize(names: Names, scope: Scope)
    requires Proper(names)
    ensures |ScopeJson(names, scope)| == ScopeLen(scope)
  {
    hide Ascii, Raw, Word;
  }

  lemma CursorSize(names: Names, cursor: Option<Cursor>)
    requires Proper(names) && (cursor.Some? ==> cursor.value.observation.Some?)
    ensures |CursorJson(names, cursor)| == CursorLen(cursor)
  {
    if cursor.Some? { ScopeSize(names, cursor.value.owner.scope); }
    hide ScopeJson, ScopeLen, Decimal, Digits, Ascii, Raw;
  }

  lemma WarningTextsLast(warnings: seq<Warning>)
    requires warnings != []
    ensures WarningTexts(warnings) == WarningTexts(warnings[..|warnings| - 1]) + [WarningJson(warnings[|warnings| - 1])]
  {
    hide WarningJson;
  }

  lemma WarningSize(w: Warning)
    ensures |WarningJson(w)| == NameLen(w) + 2
  {
    hide Word;
  }

  lemma {:induction false} WarningsSize(warnings: seq<Warning>)
    ensures |Commas(WarningTexts(warnings))| == WarningsLen(warnings)
  {
    if warnings == [] {
      assert Commas([]) == [];
    } else {
      var init, last := warnings[..|warnings| - 1], warnings[|warnings| - 1];
      WarningsSize(init);
      WarningSize(last);
      hide WarningJson, NameLen, Commas;
      WarningTextsLast(warnings);
      assert WarningTexts(init) == [] <==> init == [];
      hide WarningTexts;
      CommasSize(WarningTexts(init), WarningJson(last));
    }
  }

  lemma FrontSize(names: Names, r: ListResult)
    requires Proper(names) && (r.next.Some? ==> r.next.value.observation.Some?)
    ensures |FrontJson(names, r)| == 14 + ID_LEN + 9 + ScopeLen(r.owner.scope) + 28 + RecordsLen(r.records) + CursorLen(r.next)
  {
    ScopeSize(names, r.owner.scope);
    RecordsSize(names, r.records);
    CursorSize(names, r.next);
    hide ScopeJson, ScopeLen, RecordTexts, RecordsLen, CursorJson, CursorLen, Commas, Ascii, Raw;
  }

  lemma BackSize(r: ListResult)
    ensures |BackJson(r)| == 66 + (if r.observedAt.Some? then 23 + Digits(r.observedAt.value) else 0) + Digits(r.total)
                             + FlagLen(r.complete) + FlagLen(r.stale) + WarningsLen(r.warnings)
  {
    WarningsSize(r.warnings);
    hide WarningTexts, WarningsLen, Commas, Decimal, Digits, Ascii, Flag, FlagLen, Word;
  }

  /** The size an answer is planned by is the length of the document that is sent. */
  lemma ResultSize(names: Names, r: ListResult)
    requires Proper(names) && (r.next.Some? ==> r.next.value.observation.Some?)
    ensures |ResultJson(names, r)| == ResultLen(r)
  {
    FrontSize(names, r);
    BackSize(r);
    hide FrontJson, BackJson, ScopeLen, RecordsLen, CursorLen, WarningsLen, FlagLen, Digits, Proper;
  }

  /** The plan keeps within the budget exactly the document with these records, the reserved
      warnings and the cursor behind them. */
  lemma PlanBudgetsTheDocument(names: Names, t: Terms, records: seq<ChangeRecord>, warnings: seq<Warning>, end: nat)
    requires Proper(names) && t.request.Offset() <= end <= |records|
    ensures var next := if end < |records| then Some(Cursor(t.request.owner, end, Some(t.observation))) else None;
            var document := ListResult(t.request.owner, records[t.request.Offset()..end], next, |records|, false, false,
                                       t.consistency, t.observedAt, Reserved(warnings));
            Fits(t, records, warnings, end) <==> |ResultJson(names, document)| <= t.request.Budget()
  {
    var next := if end < |records| then Some(Cursor(t.request.owner, end, Some(t.observation))) else None;
    var document := ListResult(t.request.owner, records[t.request.Offset()..end], next, |records|, false, false,
                               t.consistency, t.observedAt, Reserved(warnings));
    hide ResultJson, Reserved, RecordLen, WarningsLen, Digits, FlagLen, Proper;
    ResultSize(names, document);
    assert RecordsLen([]) == 0;
    hide RecordsLen;
    assert ChangePage.CursorLen(None) == 4;
    hide ChangePage.CursorLen;
  }
}
