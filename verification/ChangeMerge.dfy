/** Change records, and the merge of live records with those found on disk. */
module ChangeMerge {
  import opened Prelude

  datatype ToolRef = ToolRef(session: nat, loop_: nat, requestIndex: nat, call: Text)

  datatype Kind = Added | Modified | Deleted | Renamed | Conflict | UnknownKind

  datatype Origin = Tool | WorkspaceUnknown

  datatype Revision =
    | Missing
    | Content(sha256: Text, bytes: nat)
    | Metadata(size: nat, modified: Option<nat>)
    | Unknown

  datatype CommitState = NotCommitted | Applied | CommitConflict | CommitUnknown

  datatype Coverage = Complete | Partial | Unavailable

  datatype StoredFileChange = StoredFileChange(
    path: Text, kind: Kind, before: Revision, after: Revision, commitState: CommitState, coverage: Coverage,
    beforeCaptured: bool, afterCaptured: bool)

  /** A change's address. The revision hash of a tool change is the value it frames. */
  datatype ChangeRef =
    | ToolChange(toolRef: ToolRef, hashedRef: ToolRef, hashed: StoredFileChange)
    | WorkspaceChange(session: nat, headOid: Text, entry: Text)

  datatype ChangeRecord = ChangeRecord(
    changeRef: ChangeRef, path: Text, kind: Kind, origin: Origin, toolRef: Option<ToolRef>, originalPath: Option<Text>,
    before: Revision, after: Revision, commitState: CommitState, detailsAvailable: bool, coverage: Coverage)

  /** Recorded times: canonical timestamps compare like numbers. */
  type Time = nat

  /** What the store found: records in order of their times, each with its time if it has one. */
  datatype Scan = Scan(
    records: seq<(ToolRef, StoredFileChange)>, observedAt: map<ToolRef, Option<Time>>, skipped: bool, observation: Text)

  function StoredToolChangeRef(ref: ToolRef, change: StoredFileChange): ChangeRef { ToolChange(ref, ref, change) }

  function StoredRecord(change: StoredFileChange, ref: ToolRef, details: bool): ChangeRecord {
    ChangeRecord(StoredToolChangeRef(ref, change), change.path, change.kind, Tool, Some(ref), None,
                 change.before, change.after, change.commitState, details, change.coverage)
  }

  /** `compatible_change`. */
  predicate CompatibleChange(record: ChangeRecord, ref: ToolRef, change: StoredFileChange) {
    && record.origin == Tool
    && record.toolRef == Some(ref)
    && record.changeRef == StoredToolChangeRef(ref, change)
    && record.path == change.path
    && record.kind == change.kind
    && record.before == change.before
    && record.after == change.after
    && record.commitState == change.commitState
    && record.coverage == change.coverage
  }

  /** A stored change's record reports the change as it was stored, and is the only kind of
      record compatible with it. */
  lemma StoredRecordIsFaithful(change: StoredFileChange, ref: ToolRef, details: bool)
    ensures var r := StoredRecord(change, ref, details);
            && CompatibleChange(r, ref, change) && r.detailsAvailable == details && r.originalPath.None?
            && (r.path, r.kind) == (change.path, change.kind) && r.origin.Tool? && r.toolRef == Some(ref)
            && (r.before, r.after) == (change.before, change.after)
            && (r.commitState, r.coverage) == (change.commitState, change.coverage)
  {}

  lemma CompatibleIsStored(r: ChangeRecord, ref: ToolRef, change: StoredFileChange)
    requires CompatibleChange(r, ref, change) && r.originalPath.None?
    ensures r == StoredRecord(change, ref, r.detailsAvailable)
  {}

  /** A change's address tells everything that was stored. */
  lemma AddressTellsChange(a: StoredFileChange, b: StoredFileChange, r: ToolRef, q: ToolRef)
    requires StoredToolChangeRef(r, a) == StoredToolChangeRef(q, b)
    ensures r == q && a == b
  {}

  // ----- which stored records are new

  predicate AllReferenced(warm: seq<ChangeRecord>) { forall i :: 0 <= i < |warm| ==> warm[i].toolRef.Some? }

  /** The live record found under each reference: the last one. */
  function ByRef(warm: seq<ChangeRecord>): map<ToolRef, ChangeRecord>
    requires AllReferenced(warm)
  {
    if warm == [] then map[]
    else
      var last := |warm| - 1;
      ByRef(warm[..last])[warm[last].toolRef.value := warm[last]]
  }

  predicate Known(warm: seq<ChangeRecord>, ref: ToolRef) { exists i :: 0 <= i < |warm| && warm[i].toolRef == Some(ref) }

  lemma {:induction false} ByRefFinds(warm: seq<ChangeRecord>, ref: ToolRef)
    requires AllReferenced(warm)
    ensures ref in ByRef(warm) <==> Known(warm, ref)
    ensures ref in ByRef(warm) ==> ByRef(warm)[ref] in warm && ByRef(warm)[ref].toolRef == Some(ref)
  {
    if warm != [] {
      var last := |warm| - 1;
      ByRefFinds(warm[..last], ref);
      if warm[last].toolRef == Some(ref) {
        assert Known(warm, ref);
      } else {
        if Known(warm, ref) {
          var i :| 0 <= i < |warm| && warm[i].toolRef == Some(ref);
          assert warm[..last][i].toolRef == Some(ref);
        }
        if Known(warm[..last], ref) {
          var i :| 0 <= i < last && warm[..last][i].toolRef == Some(ref);
          assert warm[i].toolRef == Some(ref);
        }
      }
    }
  }

  /** Of several live records under one reference, the last is found. */
  lemma {:induction false} ByRefIsLast(warm: seq<ChangeRecord>, i: nat)
    requires AllReferenced(warm) && i < |warm| && forall j :: i < j < |warm| ==> warm[j].toolRef != warm[i].toolRef
    ensures warm[i].toolRef.value in ByRef(warm) && ByRef(warm)[warm[i].toolRef.value] == warm[i]
  {
    var last := |warm| - 1;
    if i < last {
      ByRefIsLast(warm[..last], i);
    }
  }

  /** A stored record no live record stands for, with its time. */
  datatype Cold = Cold(time: Option<Time>, record: ChangeRecord)

  predicate ScanOk(scan: Scan) { forall k :: 0 <= k < |scan.records| ==> scan.records[k].0 in scan.observedAt }

  /** The disk-only records among the first `n`. */
  function DiskOnly(warm: seq<ChangeRecord>, scan: Scan, n: nat): seq<Cold>
    requires AllReferenced(warm) && ScanOk(scan) && n <= |scan.records|
  {
    if n == 0 then []
    else
      var (ref, change) := scan.records[n - 1];
      if Known(warm, ref) then DiskOnly(warm, scan, n - 1)
      else DiskOnly(warm, scan, n - 1) + [Cold(scan.observedAt[ref], StoredRecord(change, ref, false))]
  }

  /** Every stored record matches the live record found under its reference. */
  predicate SharedMatch(warm: seq<ChangeRecord>, scan: Scan, n: nat)
    requires AllReferenced(warm) && n <= |scan.records|
  {
    forall k :: 0 <= k < n && scan.records[k].0 in ByRef(warm) ==>
      CompatibleChange(ByRef(warm)[scan.records[k].0], scan.records[k].0, scan.records[k].1)
  }

  /** Every live record matches every stored record under the same reference. */
  predicate AllShareMatch(warm: seq<ChangeRecord>, scan: Scan) {
    forall i, k :: 0 <= i < |warm| && 0 <= k < |scan.records| && warm[i].toolRef == Some(scan.records[k].0) ==>
      CompatibleChange(warm[i], scan.records[k].0, scan.records[k].1)
  }

  /** With one live record per reference, the lookup loses nothing. */
  lemma SharedMatchIsComplete(warm: seq<ChangeRecord>, scan: Scan)
    requires AllReferenced(warm) && DistinctRefs(warm)
    ensures SharedMatch(warm, scan, |scan.records|) <==> AllShareMatch(warm, scan)
  {
    hide CompatibleChange, ByRef;
    forall k | 0 <= k < |scan.records|
      ensures forall i :: 0 <= i < |warm| && warm[i].toolRef == Some(scan.records[k].0) ==>
                scan.records[k].0 in ByRef(warm) && ByRef(warm)[scan.records[k].0] == warm[i]
      ensures scan.records[k].0 in ByRef(warm) ==>
                exists i :: 0 <= i < |warm| && warm[i].toolRef == Some(scan.records[k].0)
    {
      ByRefFinds(warm, scan.records[k].0);
    }
  }

  /** The store sorts its records by time, undated ones first. */
  predicate ScanInOrder(scan: Scan)
    requires ScanOk(scan)
  {
    forall j, k :: 0 <= j < k < |scan.records| ==> NotLater(scan.observedAt[scan.records[j].0], scan.observedAt[scan.records[k].0])
  }

  /** Dropping the known records keeps the order of times. */
  lemma {:induction false} DiskInOrder(warm: seq<ChangeRecord>, scan: Scan, n: nat)
    requires AllReferenced(warm) && ScanOk(scan) && ScanInOrder(scan) && n <= |scan.records|
    ensures InOrder(DiskTimes(DiskOnly(warm, scan, n)))
    ensures forall j, k :: 0 <= j < |DiskOnly(warm, scan, n)| && n <= k < |scan.records| ==>
              NotLater(DiskOnly(warm, scan, n)[j].time, scan.observedAt[scan.records[k].0])
  {
    hide Known, StoredRecord;
    if n > 0 {
      DiskInOrder(warm, scan, n - 1);
      var fewer, all := DiskOnly(warm, scan, n - 1), DiskOnly(warm, scan, n);
      forall j, k | 0 <= j < k < |all| ensures NotLater(DiskTimes(all)[j], DiskTimes(all)[k]) {
        assert all[j] == fewer[j];
        assert k < |fewer| ==> all[k] == fewer[k] && NotLater(DiskTimes(fewer)[j], DiskTimes(fewer)[k]);
      }
    }
  }

  predicate DistinctRefs(warm: seq<ChangeRecord>) {
    forall i, j :: 0 <= i < j < |warm| ==> warm[i].toolRef != warm[j].toolRef
  }

  // ----- the order of the merged list

  /** A merged record: the i-th live one or the k-th disk-only one. */
  datatype Slot = Live(i: nat) | Disk(k: nat)

  /** A live record goes before a disk-only one only if it is dated and not later. */
  predicate Due(live: Option<Time>, disk: Option<Time>) { live.Some? && disk.Some? && live.value <= disk.value }

  /** The merged order of what is left. */
  function Merge(live: seq<Option<Time>>, disk: seq<Option<Time>>, i: nat, k: nat): seq<Slot>
    requires i <= |live| && k <= |disk|
    decreases |live| - i + |disk| - k
  {
    if k == |disk| then seq(|live| - i, n requires 0 <= n < |live| - i => Live(i + n))
    else if i < |live| && Due(live[i], disk[k]) then [Live(i)] + Merge(live, disk, i + 1, k)
    else [Disk(k)] + Merge(live, disk, i, k + 1)
  }

  lemma MergeHead(live: seq<Option<Time>>, disk: seq<Option<Time>>, i: nat, k: nat)
    requires i <= |live| && k < |disk|
    ensures Merge(live, disk, i, k)
         == if i < |live| && Due(live[i], disk[k]) then [Live(i)] + Merge(live, disk, i + 1, k)
            else [Disk(k)] + Merge(live, disk, i, k + 1)
  {}

  function SlotRecord(warm: seq<ChangeRecord>, cold: seq<Cold>, s: Slot): ChangeRecord
    requires if s.Live? then s.i < |warm| else s.k < |cold|
  {
    if s.Live? then warm[s.i] else cold[s.k].record
  }

  predicate InRange(warm: nat, cold: nat, slots: seq<Slot>) {
    forall p :: 0 <= p < |slots| ==> if slots[p].Live? then slots[p].i < warm else slots[p].k < cold
  }

  function Records(warm: seq<ChangeRecord>, cold: seq<Cold>, slots: seq<Slot>): seq<ChangeRecord>
    requires InRange(|warm|, |cold|, slots)
  {
    seq(|slots|, p requires 0 <= p < |slots| => SlotRecord(warm, cold, slots[p]))
  }

  /** `slots` holds the live records from `i` on and the disk-only ones from `k` on, each
      once and in order. */
  ghost predicate Interleaving(slots: seq<Slot>, i: nat, live: nat, k: nat, disk: nat)
    decreases |slots|
  {
    if slots == [] then i == live && k == disk
    else if slots[0].Live? then slots[0].i == i < live && Interleaving(slots[1..], i + 1, live, k, disk)
    else slots[0].k == k < disk && Interleaving(slots[1..], i, live, k + 1, disk)
  }

  lemma {:induction false} LiveTail(slots: seq<Slot>, i: nat, live: nat, disk: nat)
    requires i <= live && |slots| == live - i && forall n :: 0 <= n < |slots| ==> slots[n] == Live(i + n)
    ensures Interleaving(slots, i, live, disk, disk)
    decreases |slots|
  {
    if slots != [] {
      assert slots[0] == Live(i);
      LiveTail(slots[1..], i + 1, live, disk);
    }
  }

  /** The merged list holds every live and every disk-only record once, both in their own order. */
  lemma {:induction false} MergeInterleaves(live: seq<Option<Time>>, disk: seq<Option<Time>>, i: nat, k: nat)
    requires i <= |live| && k <= |disk|
    ensures Interleaving(Merge(live, disk, i, k), i, |live|, k, |disk|)
    decreases |live| - i + |disk| - k
  {
    var slots := Merge(live, disk, i, k);
    if k == |disk| {
      LiveTail(slots, i, |live|, |disk|);
    } else if i < |live| && Due(live[i], disk[k]) {
      MergeInterleaves(live, disk, i + 1, k);
      assert slots[1..] == Merge(live, disk, i + 1, k);
    } else {
      MergeInterleaves(live, disk, i, k + 1);
      assert slots[1..] == Merge(live, disk, i, k + 1);
    }
  }

  lemma {:induction false} InterleavingInRange(slots: seq<Slot>, i: nat, live: nat, k: nat, disk: nat)
    requires Interleaving(slots, i, live, k, disk) && i <= live && k <= disk
    ensures InRange(live, disk, slots) && |slots| == live - i + disk - k
    ensures forall p :: 0 <= p < |slots| ==> if slots[p].Live? then i <= slots[p].i else k <= slots[p].k
    decreases |slots|
  {
    if slots != [] {
      var (a, b) := if slots[0].Live? then (i + 1, k) else (i, k + 1);
      InterleavingInRange(slots[1..], a, live, b, disk);
      forall p | 0 <= p < |slots|
        ensures if slots[p].Live? then i <= slots[p].i < live else k <= slots[p].k < disk
      {
        assert p > 0 ==> slots[p] == slots[1..][p - 1];
      }
    }
  }

  /** Disk-only records come in order of their times, undated ones first. */
  predicate NotLater(a: Option<Time>, b: Option<Time>) { a.Some? ==> b.Some? && a.value <= b.value }

  predicate InOrder(disk: seq<Option<Time>>) { forall j, k :: 0 <= j < k < |disk| ==> NotLater(disk[j], disk[k]) }

  /** Every live record up to and including the `i`-th is dated and not later than this time. */
  predicate AllDue(live: seq<Option<Time>>, from: nat, i: nat, disk: Option<Time>)
    requires i < |live|
  {
    forall j :: from <= j <= i ==> Due(live[j], disk)
  }

  /** Where a live and a disk-only record stand to each other: the live one comes first
      exactly if it and every live record before it is dated and not later. */
  lemma {:induction false} MergeOrder(live: seq<Option<Time>>, disk: seq<Option<Time>>, i: nat, k: nat, p: nat, q: nat)
    requires InOrder(disk) && i <= |live| && k <= |disk|
    requires var slots := Merge(live, disk, i, k);
             p < |slots| && q < |slots| && slots[p].Live? && slots[q].Disk?
    ensures var slots := Merge(live, disk, i, k);
            && slots[p].i < |live| && slots[q].k < |disk|
            && (p < q <==> AllDue(live, i, slots[p].i, disk[slots[q].k]))
    decreases |live| - i + |disk| - k
  {
    var slots := Merge(live, disk, i, k);
    MergeInterleaves(live, disk, i, k);
    InterleavingInRange(slots, i, |live|, k, |disk|);
    if k < |disk| {
      if i < |live| && Due(live[i], disk[k]) {
        HeadLive(live, disk, i, k, p, q);
      } else {
        HeadDisk(live, disk, i, k, p, q);
      }
    }
  }

  lemma HeadLive(live: seq<Option<Time>>, disk: seq<Option<Time>>, i: nat, k: nat, p: nat, q: nat)
    requires InOrder(disk) && i < |live| && k < |disk| && Due(live[i], disk[k])
    requires var slots := Merge(live, disk, i, k);
             && p < |slots| && q < |slots| && slots[p].Live? && slots[q].Disk?
             && i <= slots[p].i < |live| && k <= slots[q].k < |disk|
    ensures var slots := Merge(live, disk, i, k);
            p < q <==> AllDue(live, i, slots[p].i, disk[slots[q].k])
    decreases |live| - i + |disk| - k, 0
  {
    hide Merge;
    var slots := Merge(live, disk, i, k);
    var rest := Merge(live, disk, i + 1, k);
    MergeHead(live, disk, i, k);
    var li, dk := slots[p].i, slots[q].k;
    DueLater(live[i], disk, k, dk);
    assert AllDue(live, i, i, disk[dk]);
    hide Due, InOrder, AllDue;
    if p > 0 {
      assert slots[p] == rest[p - 1] && slots[q] == rest[q - 1];
      MergeOrder(live, disk, i + 1, k, p - 1, q - 1);
      AllDueStep(live, i, li, disk[dk]);
    }
  }

  lemma DueLater(live: Option<Time>, disk: seq<Option<Time>>, j: nat, k: nat)
    requires InOrder(disk) && j <= k < |disk| && Due(live, disk[j])
    ensures Due(live, disk[k])
  {
    assert j < k ==> NotLater(disk[j], disk[k]);
  }

  lemma NotAllDue(live: seq<Option<Time>>, from: nat, j: nat, i: nat, disk: Option<Time>)
    requires from <= j <= i < |live| && !Due(live[j], disk)
    ensures !AllDue(live, from, i, disk)
  {}

  lemma AllDueStep(live: seq<Option<Time>>, from: nat, i: nat, disk: Option<Time>)
    requires from <= i < |live| && Due(live[from], disk)
    ensures AllDue(live, from, i, disk) <==> AllDue(live, from + 1, i, disk)
  {}

  lemma HeadDisk(live: seq<Option<Time>>, disk: seq<Option<Time>>, i: nat, k: nat, p: nat, q: nat)
    requires InOrder(disk) && i <= |live| && k < |disk| && !(i < |live| && Due(live[i], disk[k]))
    requires var slots := Merge(live, disk, i, k);
             && p < |slots| && q < |slots| && slots[p].Live? && slots[q].Disk?
             && i <= slots[p].i < |live| && k <= slots[q].k < |disk|
    ensures var slots := Merge(live, disk, i, k);
            p < q <==> AllDue(live, i, slots[p].i, disk[slots[q].k])
    decreases |live| - i + |disk| - k, 0
  {
    hide Merge;
    var slots := Merge(live, disk, i, k);
    var rest := Merge(live, disk, i, k + 1);
    MergeHead(live, disk, i, k);
    NotAllDue(live, i, i, slots[p].i, disk[k]);
    hide Due, InOrder, AllDue;
    assert p > 0 && slots[p] == rest[p - 1];
    if q > 0 {
      assert slots[q] == rest[q - 1];
      MergeOrder(live, disk, i, k + 1, p - 1, q - 1);
    }
  }

  /** Live records not yet on disk, and everything live after them, follow every disk-only record. */
  lemma UndatedFollowDisk(live: seq<Option<Time>>, disk: seq<Option<Time>>, u: nat, p: nat, q: nat)
    requires InOrder(disk) && u < |live| && live[u].None?
    requires var slots := Merge(live, disk, 0, 0);
             p < |slots| && q < |slots| && slots[p].Live? && slots[p].i >= u && slots[q].Disk?
    ensures q < p
  {
    MergeOrder(live, disk, 0, 0, p, q);
    var slots := Merge(live, disk, 0, 0);
    NotAllDue(live, 0, u, slots[p].i, disk[slots[q].k]);
  }

  // ----- the merge itself

  function LiveTimes(warm: seq<ChangeRecord>, scan: Scan): seq<Option<Time>>
    requires AllReferenced(warm)
  {
    seq(|warm|, i requires 0 <= i < |warm| =>
      var ref := warm[i].toolRef.value;
      if ref in scan.observedAt then scan.observedAt[ref] else None)
  }

  function DiskTimes(cold: seq<Cold>): seq<Option<Time>> { seq(|cold|, k requires 0 <= k < |cold| => cold[k].time) }

  /** The merged order of live and disk-only records. */
  function MergedSlots(warm: seq<ChangeRecord>, scan: Scan): (slots: seq<Slot>)
    requires AllReferenced(warm) && ScanOk(scan)
    ensures InRange(|warm|, |DiskOnly(warm, scan, |scan.records|)|, slots)
  {
    var live, disk := LiveTimes(warm, scan), DiskTimes(DiskOnly(warm, scan, |scan.records|));
    MergeInterleaves(live, disk, 0, 0);
    InterleavingInRange(Merge(live, disk, 0, 0), 0, |live|, 0, |disk|);
    Merge(live, disk, 0, 0)
  }

  /** Splitting the stored records into those known live and the others. */
  method SplitScan(warm: seq<ChangeRecord>, scan: Scan) returns (cold: seq<Cold>, compatible: bool)
    requires AllReferenced(warm) && ScanOk(scan)
    ensures cold == DiskOnly(warm, scan, |scan.records|)
    ensures compatible <==> SharedMatch(warm, scan, |scan.records|)
  {
    var byRef: map<ToolRef, ChangeRecord> := map[];
    for i := 0 to |warm|
      invariant byRef == ByRef(warm[..i])
    {
      assert warm[..i + 1][..i] == warm[..i];
      byRef := byRef[warm[i].toolRef.value := warm[i]];
    }
    assert warm[..|warm|] == warm;
    cold, compatible := [], true;
    for k := 0 to |scan.records|
      invariant cold == DiskOnly(warm, scan, k)
      invariant compatible <==> SharedMatch(warm, scan, k)
    {
      var (ref, change) := scan.records[k];
      ByRefFinds(warm, ref);
      if ref in byRef {
        compatible := compatible && CompatibleChange(byRef[ref], ref, change);
      } else {
        cold := cold + [Cold(scan.observedAt[ref], StoredRecord(change, ref, false))];
      }
    }
  }

  /** The loop has emitted the records of the slots passed so far. */
  ghost predicate Merging(warm: seq<ChangeRecord>, cold: seq<Cold>, scan: Scan, i: nat, k: nat, records: seq<ChangeRecord>)
    requires AllReferenced(warm) && ScanOk(scan) && cold == DiskOnly(warm, scan, |scan.records|)
  {
    var slots := MergedSlots(warm, scan);
    && i <= |warm| && k <= |cold| && |records| <= |slots|
    && slots[|records|..] == Merge(LiveTimes(warm, scan), DiskTimes(cold), i, k)
    && records == Records(warm, cold, slots)[..|records|]
  }

  lemma EmitSlot(warm: seq<ChangeRecord>, cold: seq<Cold>, slots: seq<Slot>, n: nat, rest: seq<Slot>)
    requires InRange(|warm|, |cold|, slots) && n < |slots| && slots[n..] == [slots[n]] + rest
    ensures slots[n + 1..] == rest
    ensures Records(warm, cold, slots)[..n + 1] == Records(warm, cold, slots)[..n] + [SlotRecord(warm, cold, slots[n])]
  {
    hide SlotRecord, InRange;
    assert slots[n..][1..] == rest;
  }

  lemma EmitLive(warm: seq<ChangeRecord>, cold: seq<Cold>, scan: Scan, i: nat, k: nat, records: seq<ChangeRecord>)
    requires AllReferenced(warm) && ScanOk(scan) && cold == DiskOnly(warm, scan, |scan.records|)
    requires Merging(warm, cold, scan, i, k, records) && i < |warm| && k < |cold|
    requires Due(LiveTimes(warm, scan)[i], cold[k].time)
    ensures Merging(warm, cold, scan, i + 1, k, records + [warm[i]])
  {
    hide InRange, MergedSlots, DiskOnly, ScanOk, Records;
    var slots, rest := MergedSlots(warm, scan), Merge(LiveTimes(warm, scan), DiskTimes(cold), i + 1, k);
    assert slots[|records|..] == [Live(i)] + rest;
    assert slots[|records|] == Live(i);
    EmitSlot(warm, cold, slots, |records|, rest);
  }

  lemma EmitDisk(warm: seq<ChangeRecord>, cold: seq<Cold>, scan: Scan, i: nat, k: nat, records: seq<ChangeRecord>)
    requires AllReferenced(warm) && ScanOk(scan) && cold == DiskOnly(warm, scan, |scan.records|)
    requires Merging(warm, cold, scan, i, k, records) && k < |cold|
    requires i < |warm| ==> !Due(LiveTimes(warm, scan)[i], cold[k].time)
    ensures Merging(warm, cold, scan, i, k + 1, records + [cold[k].record])
  {
    hide InRange, MergedSlots, DiskOnly, ScanOk, Records;
    var slots, rest := MergedSlots(warm, scan), Merge(LiveTimes(warm, scan), DiskTimes(cold), i, k + 1);
    assert slots[|records|..] == [Disk(k)] + rest;
    assert slots[|records|] == Disk(k);
    EmitSlot(warm, cold, slots, |records|, rest);
  }

  lemma EmitRest(warm: seq<ChangeRecord>, cold: seq<Cold>, scan: Scan, i: nat, records: seq<ChangeRecord>)
    requires AllReferenced(warm) && ScanOk(scan) && cold == DiskOnly(warm, scan, |scan.records|)
    requires Merging(warm, cold, scan, i, |cold|, records)
    ensures records + warm[i..] == Records(warm, cold, MergedSlots(warm, scan))
  {
    hide InRange, MergedSlots, DiskOnly, ScanOk;
    var slots := MergedSlots(warm, scan);
    var n, all := |records|, Records(warm, cold, slots);
    assert |slots[n..]| == |warm| - i;
    forall p | n <= p < |slots| ensures all[p] == warm[i + p - n] {
      assert slots[p] == slots[n..][p - n] == Live(i + p - n);
    }
    assert all[n..] == warm[i..];
  }

  /** `merge_tool_records`. */
  method MergeToolRecords(warm: seq<ChangeRecord>, scan: Scan) returns (records: seq<ChangeRecord>, compatible: bool)
    requires AllReferenced(warm) && ScanOk(scan)
    ensures records == Records(warm, DiskOnly(warm, scan, |scan.records|), MergedSlots(warm, scan))
    ensures compatible <==> SharedMatch(warm, scan, |scan.records|)
  {
    var cold;
    cold, compatible := SplitScan(warm, scan);
    records := [];
    var i := 0;
    assert Merging(warm, cold, scan, 0, 0, []);
    hide Merging, SharedMatch, DiskOnly, MergedSlots, Records, InRange;
    for k := 0 to |cold|
      invariant i <= |warm| && Merging(warm, cold, scan, i, k, records)
    {
      while i < |warm| && warm[i].toolRef.value in scan.observedAt && Due(scan.observedAt[warm[i].toolRef.value], cold[k].time)
        invariant i <= |warm| && Merging(warm, cold, scan, i, k, records)
      {
        EmitLive(warm, cold, scan, i, k, records);
        records := records + [warm[i]];
        i := i + 1;
      }
      EmitDisk(warm, cold, scan, i, k, records);
      records := records + [cold[k].record];
    }
    EmitRest(warm, cold, scan, i, records);
    records := records + warm[i..];
  }

  // ----- what the merged list holds

  /** The record stands for the `k`-th stored change, as it was stored and with its details not yet available. */
  predicate StandsFor(record: ChangeRecord, scan: Scan, k: nat) {
    && k < |scan.records| && record.toolRef == Some(scan.records[k].0)
    && CompatibleChange(record, scan.records[k].0, scan.records[k].1)
    && !record.detailsAvailable && record.originalPath.None?
  }

  /** Every disk-only record stands for one of the stored changes, and has its time. */
  lemma {:induction false} DiskOnlyStandsFor(warm: seq<ChangeRecord>, scan: Scan, n: nat)
    requires AllReferenced(warm) && ScanOk(scan) && n <= |scan.records|
    ensures forall c :: c in DiskOnly(warm, scan, n) ==>
              exists k :: 0 <= k < n && StandsFor(c.record, scan, k) && c.time == scan.observedAt[scan.records[k].0] && !Known(warm, scan.records[k].0)
  {
    hide CompatibleChange, Known;
    if n > 0 {
      DiskOnlyStandsFor(warm, scan, n - 1);
      var (ref, change) := scan.records[n - 1];
      StoredRecordIsFaithful(change, ref, false);
      assert StandsFor(StoredRecord(change, ref, false), scan, n - 1);
    }
  }

  /** And every stored change no live record stands for has one. */
  lemma {:induction false} EveryStoredIsListed(warm: seq<ChangeRecord>, scan: Scan, n: nat, k: nat)
    requires AllReferenced(warm) && ScanOk(scan) && k < n <= |scan.records| && !Known(warm, scan.records[k].0)
    ensures exists c :: c in DiskOnly(warm, scan, n) && StandsFor(c.record, scan, k)
  {
    hide CompatibleChange, Known;
    if k < n - 1 {
      EveryStoredIsListed(warm, scan, n - 1, k);
      var c :| c in DiskOnly(warm, scan, n - 1) && StandsFor(c.record, scan, k);
      assert c in DiskOnly(warm, scan, n);
    } else {
      var (ref, change) := scan.records[k];
      StoredRecordIsFaithful(change, ref, false);
      var c := Cold(scan.observedAt[ref], StoredRecord(change, ref, false));
      var all := DiskOnly(warm, scan, n);
      assert all[|all| - 1] == c && StandsFor(c.record, scan, k);
    }
  }

  /** Every merged record is a live one, or stands for a stored change. */
  lemma MergedIsLiveOrStored(warm: seq<ChangeRecord>, scan: Scan, p: nat)
    requires AllReferenced(warm) && ScanOk(scan)
    requires var cold := DiskOnly(warm, scan, |scan.records|); p < |Records(warm, cold, MergedSlots(warm, scan))|
    ensures var r := Records(warm, DiskOnly(warm, scan, |scan.records|), MergedSlots(warm, scan))[p];
            r in warm || exists k :: StandsFor(r, scan, k)
  {
    hide StandsFor, DiskOnly, InRange;
    var cold := DiskOnly(warm, scan, |scan.records|);
    DiskOnlyStandsFor(warm, scan, |scan.records|);
    InSlots(warm, cold, MergedSlots(warm, scan), p);
  }

  lemma InSlots(warm: seq<ChangeRecord>, cold: seq<Cold>, slots: seq<Slot>, p: nat)
    requires InRange(|warm|, |cold|, slots) && p < |slots|
    ensures var r := Records(warm, cold, slots)[p]; r in warm || exists c :: c in cold && c.record == r
  {
    if slots[p].Disk? {
      assert cold[slots[p].k] in cold;
    }
  }

  // ----- lists in order of time

  function SlotTime(live: seq<Option<Time>>, disk: seq<Option<Time>>, s: Slot): Option<Time>
    requires if s.Live? then s.i < |live| else s.k < |disk|
  {
    if s.Live? then live[s.i] else disk[s.k]
  }

  /** No slot is later than one behind it. */
  ghost predicate SlotsInOrder(live: seq<Option<Time>>, disk: seq<Option<Time>>, slots: seq<Slot>)
    requires InRange(|live|, |disk|, slots)
  {
    forall p, q :: 0 <= p < q < |slots| ==> NotLater(SlotTime(live, disk, slots[p]), SlotTime(live, disk, slots[q]))
  }

  predicate AllDated(times: seq<Option<Time>>) { forall j :: 0 <= j < |times| ==> times[j].Some? }

  /** When the live records are dated and in order of time, so is the whole merged list. */
  lemma {:induction false} MergedInOrder(live: seq<Option<Time>>, disk: seq<Option<Time>>, i: nat, k: nat)
    requires InOrder(live) && InOrder(disk) && AllDated(live) && i <= |live| && k <= |disk|
    ensures InRange(|live|, |disk|, Merge(live, disk, i, k))
    ensures SlotsInOrder(live, disk, Merge(live, disk, i, k))
    decreases |live| - i + |disk| - k
  {
    if k == |disk| {
      LiveTailInOrder(live, disk, i);
    } else {
      var takeLive := i < |live| && Due(live[i], disk[k]);
      var (a, b) := if takeLive then (i + 1, k) else (i, k + 1);
      var head, rest := if takeLive then Live(i) else Disk(k), Merge(live, disk, a, b);
      MergeHead(live, disk, i, k);
      MergedInOrder(live, disk, a, b);
      MergeInterleaves(live, disk, a, b);
      InterleavingInRange(rest, a, |live|, b, |disk|);
      hide Merge, Interleaving, SlotTime, NotLater, InOrder, AllDated, SlotsInOrder;
      HeadIsFirst(live, disk, i, k, head, rest);
      PrependInOrder(live, disk, head, rest);
    }
  }

  lemma LiveTailInOrder(live: seq<Option<Time>>, disk: seq<Option<Time>>, i: nat)
    requires InOrder(live) && i <= |live|
    ensures InRange(|live|, |disk|, Merge(live, disk, i, |disk|)) && SlotsInOrder(live, disk, Merge(live, disk, i, |disk|))
  {}

  lemma HeadIsFirst(live: seq<Option<Time>>, disk: seq<Option<Time>>, i: nat, k: nat, head: Slot, rest: seq<Slot>)
    requires InOrder(live) && InOrder(disk) && AllDated(live) && i <= |live| && k < |disk|
    requires head == if i < |live| && Due(live[i], disk[k]) then Live(i) else Disk(k)
    requires forall q :: 0 <= q < |rest| ==> if rest[q].Live? then i <= rest[q].i < |live| else k <= rest[q].k < |disk|
    ensures forall q :: 0 <= q < |rest| ==> NotLater(SlotTime(live, disk, head), SlotTime(live, disk, rest[q]))
  {
    hide NotLater, SlotTime, InOrder, AllDated, Due;
    forall q | 0 <= q < |rest| ensures NotLater(SlotTime(live, disk, head), SlotTime(live, disk, rest[q])) {
      HeadIsEarliest(live, disk, i, k, head, rest[q]);
    }
  }

  lemma PrependInOrder(live: seq<Option<Time>>, disk: seq<Option<Time>>, head: Slot, rest: seq<Slot>)
    requires InRange(|live|, |disk|, [head] + rest) && InRange(|live|, |disk|, rest) && SlotsInOrder(live, disk, rest)
    requires (if head.Live? then head.i < |live| else head.k < |disk|)
          && forall q :: 0 <= q < |rest| ==> NotLater(SlotTime(live, disk, head), SlotTime(live, disk, rest[q]))
    ensures SlotsInOrder(live, disk, [head] + rest)
  {
    hide NotLater, SlotTime;
  }

  lemma HeadIsEarliest(live: seq<Option<Time>>, disk: seq<Option<Time>>, i: nat, k: nat, head: Slot, s: Slot)
    requires InOrder(live) && InOrder(disk) && AllDated(live) && i <= |live| && k < |disk|
    requires head == if i < |live| && Due(live[i], disk[k]) then Live(i) else Disk(k)
    requires if s.Live? then i <= s.i < |live| else k <= s.k < |disk|
    ensures NotLater(SlotTime(live, disk, head), SlotTime(live, disk, s))
  {
    if s.Live? && i < s.i { assert NotLater(live[i], live[s.i]); }
    if s.Disk? && k < s.k { assert NotLater(disk[k], disk[s.k]); }
  }
}
