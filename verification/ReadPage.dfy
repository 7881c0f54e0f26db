/** Packing encoded history items into pages of bounded size. */
module ReadPage {
  import opened Prelude
  import opened Utf8

  datatype Cursor = Cursor(item: nat, offset: nat)

  predicate Precedes(a: Cursor, b: Cursor) { a.item < b.item || (a.item == b.item && a.offset < b.offset) }

  datatype Chunk = Chunk(index: nat, offset: nat, totalBytes: nat, data: Text, complete: bool)

  datatype ReadError = InvalidArguments | QueryLimit

  // ----- encoded sizes

  /** Keys, quotes and the encoding name of one chunk object. */
  const CHUNK_FRAME: nat := 80

  function ChunkLen(c: Chunk): nat {
    CHUNK_FRAME + Digits(c.index) + Digits(c.offset) + Digits(c.totalBytes) + EscapedLen(c.data) + FlagLen(c.complete)
  }

  /** Chunks with the commas between them. */
  function ChunksLen(chunks: seq<Chunk>): nat {
    if chunks == [] then 0
    else
      var init := chunks[..|chunks| - 1];
      ChunksLen(init) + (if init == [] then 0 else 1) + ChunkLen(chunks[|chunks| - 1])
  }

  function CursorLen(c: Option<Cursor>): (n: nat)
    ensures n >= 4
  {
    if c.None? then 4 else 19 + Digits(c.value.item) + Digits(c.value.offset)
  }

  /** A turn record and the items it describes. */
  datatype Turn = Turn(itemStart: nat, itemEnd: nat, bytes: nat)

  /** What the page carries besides its chunks: the base object with a null cursor, and
      the records of the turns it touches. */
  datatype Envelope = Envelope(base: nat, turns: seq<Turn>)

  predicate Touches(turn: Turn, indexes: set<nat>) {
    exists index :: index in indexes && turn.itemStart <= index < turn.itemEnd
  }

  /** Bytes and number of the touched turn records. */
  function RecordsLen(turns: seq<Turn>, indexes: set<nat>): (nat, nat) {
    if turns == [] then (0, 0)
    else
      var (bytes, count) := RecordsLen(turns[1..], indexes);
      if Touches(turns[0], indexes) then (bytes + turns[0].bytes, count + 1) else (bytes, count)
  }

  function Indexes(chunks: seq<Chunk>): set<nat> { set k | 0 <= k < |chunks| :: chunks[k].index }

  /** The page header's size for a set of item indexes and a cursor. */
  function HeaderLen(e: Envelope, indexes: set<nat>, next: Option<Cursor>): nat {
    var (bytes, count) := RecordsLen(e.turns, indexes);
    e.base + bytes + (if count > 0 then count - 1 else 0) + (CursorLen(next) - 4)
  }

  /** Encoded size of a page. */
  function PageLen(e: Envelope, chunks: seq<Chunk>, next: Option<Cursor>): nat {
    ChunksLen(chunks) + HeaderLen(e, Indexes(chunks), next)
  }

  // ----- chunks

  /** `next_position`. */
  function NextPosition(index: nat, total: nat): Option<Cursor> {
    if index + 1 < total then Some(Cursor(index + 1, 0)) else None
  }

  /** `make_chunk`. */
  function MakeChunk(index: nat, offset: nat, json: Text, length: nat): Chunk
    requires offset + length <= |json|
  {
    Chunk(index, offset, |json|, json[offset..offset + length], offset + length == |json|)
  }

  function NextAfter(index: nat, offset: nat, json: Text, length: nat, total: nat): Option<Cursor> {
    if offset + length == |json| then NextPosition(index, total) else Some(Cursor(index, offset + length))
  }

  /** The page with `length` bytes of this item appended fits the budget. */
  predicate PrefixFits(e: Envelope, chunks: seq<Chunk>, index: nat, offset: nat, json: Text, total: nat, maxBytes: nat, length: nat)
    requires offset + length <= |json|
  {
    PageLen(e, chunks + [MakeChunk(index, offset, json, length)], NextAfter(index, offset, json, length, total)) <= maxBytes
  }

  lemma AppendChunk(e: Envelope, chunks: seq<Chunk>, chunk: Chunk, next: Option<Cursor>)
    ensures PageLen(e, chunks + [chunk], next)
         == ChunksLen(chunks) + (if chunks == [] then 0 else 1) + ChunkLen(chunk)
            + HeaderLen(e, Indexes(chunks) + {chunk.index}, next)
  {
    hide ChunkLen, HeaderLen;
    var longer := chunks + [chunk];
    assert longer[..|chunks|] == chunks;
    assert Indexes(longer) == Indexes(chunks) + {chunk.index} by {
      forall x | x in Indexes(chunks) + {chunk.index} ensures x in Indexes(longer) {
        if x == chunk.index {
          assert longer[|chunks|].index == x;
        } else {
          var k :| 0 <= k < |chunks| && chunks[k].index == x;
          assert longer[k].index == x;
        }
      }
    }
  }

  /** Shorter incomplete prefixes are never larger: data, escapes and cursor digits all shrink. */
  lemma ShorterPrefixFits(e: Envelope, chunks: seq<Chunk>, index: nat, offset: nat, json: Text, total: nat, maxBytes: nat, a: nat, b: nat)
    requires a <= b && offset + b < |json|
    requires PrefixFits(e, chunks, index, offset, json, total, maxBytes, b)
    ensures PrefixFits(e, chunks, index, offset, json, total, maxBytes, a)
  {
    hide ChunksLen, RecordsLen, EscapedLen, Digits;
    AppendChunk(e, chunks, MakeChunk(index, offset, json, a), NextAfter(index, offset, json, a, total));
    AppendChunk(e, chunks, MakeChunk(index, offset, json, b), NextAfter(index, offset, json, b, total));
    DigitsMonotone(offset + a, offset + b);
    EscapedLenGrows(json[offset..], a, b);
    assert json[offset..][..a] == json[offset..offset + a] && json[offset..][..b] == json[offset..offset + b];
  }

  /** A chunk longer than the whole budget cannot fit. */
  lemma FittingIsShort(e: Envelope, chunks: seq<Chunk>, index: nat, offset: nat, json: Text, total: nat, maxBytes: nat, length: nat)
    requires offset + length <= |json| && PrefixFits(e, chunks, index, offset, json, total, maxBytes, length)
    ensures length <= maxBytes
  {
    hide ChunksLen, RecordsLen, EscapedLen, Digits;
    AppendChunk(e, chunks, MakeChunk(index, offset, json, length), NextAfter(index, offset, json, length, total));
  }

  /** `next_boundary`: the first character boundary after `offset`. */
  method NextBoundary(value: Text, offset: nat) returns (next: nat)
    requires offset <= |value|
    ensures offset < |value| ==> offset < next <= |value| && IsBoundary(value, next)
    ensures offset == |value| ==> next == |value|
    ensures forall b :: offset < b < next ==> !IsBoundary(value, b)
  {
    if offset >= |value| {
      return |value|;
    }
    next := offset + 1;
    while next < |value| && !IsBoundary(value, next)
      invariant offset < next <= |value|
      invariant forall b :: offset < b < next ==> !IsBoundary(value, b)
    {
      next := next + 1;
    }
  }

  /** Size of the page with a candidate of `middle` bytes, from the escape table. */
  method SizeUp(e: Envelope, chunks: seq<Chunk>, existing: nat, index: nat, offset: nat, json: Text, total: nat,
                maxBytes: nat, lengths: seq<nat>, middle: nat)
    returns (fits: bool)
    requires existing == ChunksLen(chunks) && offset + middle <= |json| && middle < |lengths|
    requires lengths[middle] == EscapedLen(json[offset..offset + middle])
    ensures fits == PrefixFits(e, chunks, index, offset, json, total, maxBytes, middle)
  {
    hide ChunksLen, HeaderLen, EscapedLen, Digits;
    var next := if offset + middle == |json| then NextPosition(index, total) else Some(Cursor(index, offset + middle));
    var candidate := Chunk(index, offset, |json|, [], offset + middle == |json|);
    EscapedLenOfNothing();
    var bytes := ChunkLen(candidate) + lengths[middle] + if chunks != [] then 1 else 0;
    AppendChunk(e, chunks, MakeChunk(index, offset, json, middle), next);
    fits := existing + bytes + HeaderLen(e, Indexes(chunks) + {index}, next) <= maxBytes;
  }

  lemma EscapedLenOfNothing()
    ensures EscapedLen([]) == 0
  {}

  /** The complete item was already rejected, or is longer than the whole budget. */
  predicate FullRejected(e: Envelope, chunks: seq<Chunk>, index: nat, offset: nat, json: Text, total: nat, maxBytes: nat)
    requires offset <= |json|
  {
    |json| - offset > maxBytes || !PrefixFits(e, chunks, index, offset, json, total, maxBytes, |json| - offset)
  }

  /** No boundary from `from` on fits. */
  ghost predicate NoneFits(e: Envelope, chunks: seq<Chunk>, index: nat, offset: nat, json: Text, total: nat, maxBytes: nat, from: nat)
    requires offset <= |json|
  {
    forall b :: from <= b <= |json| - offset && IsBoundary(json[offset..], b) ==>
      !PrefixFits(e, chunks, index, offset, json, total, maxBytes, b)
  }

  lemma SearchStarts(e: Envelope, chunks: seq<Chunk>, index: nat, offset: nat, json: Text, total: nat, maxBytes: nat)
    requires offset <= |json|
    ensures var remaining := json[offset..];
            var high := FloorBoundary(remaining, Min(|remaining|, maxBytes));
            high <= Min(|remaining|, maxBytes) && NoneFits(e, chunks, index, offset, json, total, maxBytes, high + 1)
  {
    hide PrefixFits;
    var remaining := json[offset..];
    var high := FloorBoundary(remaining, Min(|remaining|, maxBytes));
    forall b | high + 1 <= b <= |json| - offset && IsBoundary(remaining, b)
      ensures !PrefixFits(e, chunks, index, offset, json, total, maxBytes, b)
    {
      if PrefixFits(e, chunks, index, offset, json, total, maxBytes, b) {
        FittingIsShort(e, chunks, index, offset, json, total, maxBytes, b);
      }
    }
  }

  lemma LongerDoesNotFit(e: Envelope, chunks: seq<Chunk>, index: nat, offset: nat, json: Text, total: nat, maxBytes: nat, middle: nat)
    requires offset + middle <= |json| && !PrefixFits(e, chunks, index, offset, json, total, maxBytes, middle)
    requires FullRejected(e, chunks, index, offset, json, total, maxBytes)
    ensures NoneFits(e, chunks, index, offset, json, total, maxBytes, middle)
  {
    hide PrefixFits;
    forall b | middle <= b <= |json| - offset && IsBoundary(json[offset..], b)
      ensures !PrefixFits(e, chunks, index, offset, json, total, maxBytes, b)
    {
      if PrefixFits(e, chunks, index, offset, json, total, maxBytes, b) {
        if offset + b < |json| {
          ShorterPrefixFits(e, chunks, index, offset, json, total, maxBytes, middle, b);
        } else {
          FittingIsShort(e, chunks, index, offset, json, total, maxBytes, b);
        }
      }
    }
  }

  /** `largest_fitting_prefix`: a binary search over character boundaries. Provided the
      complete item was already rejected or is longer than the budget, it finds the
      largest fitting prefix, or 0 if none fits. */
  method LargestFittingPrefix(e: Envelope, chunks: seq<Chunk>, existing: nat, index: nat, offset: nat, json: Text,
                              total: nat, maxBytes: nat)
    returns (length: nat)
    requires Valid(json) && offset <= |json| && IsBoundary(json, offset) && existing == ChunksLen(chunks)
    requires FullRejected(e, chunks, index, offset, json, total, maxBytes)
    ensures offset + length <= |json| && IsBoundary(json[offset..], length)
    ensures length > 0 ==> PrefixFits(e, chunks, index, offset, json, total, maxBytes, length)
    ensures NoneFits(e, chunks, index, offset, json, total, maxBytes, length + 1)
  {
    hide PrefixFits, Valid, EscapedLen, ChunksLen, JsonEscapedLen, FullRejected;
    var remaining := json[offset..];
    var low: nat, high: nat := 0, Min(|remaining|, maxBytes);
    var floor := FloorBoundary(remaining, high);
    var lengths := JsonPrefixLengths(remaining[..floor]);
    high := Min(high, |lengths| - 1);
    SearchStarts(e, chunks, index, offset, json, total, maxBytes);
    while low < high
      invariant low <= high <= floor && IsBoundary(remaining, low)
      invariant low > 0 ==> PrefixFits(e, chunks, index, offset, json, total, maxBytes, low)
      invariant NoneFits(e, chunks, index, offset, json, total, maxBytes, high + 1)
      decreases high - low
    {
      var middle := FloorBoundary(remaining, low + (high - low + 1) / 2);
      if middle == low {
        var next := NextBoundary(remaining, low);
        if next > high {
          high := low;
          continue;
        }
        middle := next;
      }
      assert remaining[..floor][..middle] == json[offset..offset + middle];
      var fits := SizeUp(e, chunks, existing, index, offset, json, total, maxBytes, lengths, middle);
      if fits {
        low := middle;
      } else {
        LongerDoesNotFit(e, chunks, index, offset, json, total, maxBytes, middle);
        high := middle - 1;
      }
    }
    length := FloorBoundary(remaining, low);
  }

  // ----- what a page shows

  /** One item byte and the place it belongs to. */
  datatype Shown = Shown(index: nat, at: nat, byte: Byte)

  function Bytes(index: nat, offset: nat, data: Text): seq<Shown> {
    seq(|data|, i requires 0 <= i < |data| => Shown(index, offset + i, data[i]))
  }

  function ChunksBytes(chunks: seq<Chunk>): seq<Shown> {
    if chunks == [] then []
    else
      var last := chunks[|chunks| - 1];
      ChunksBytes(chunks[..|chunks| - 1]) + Bytes(last.index, last.offset, last.data)
  }

  /** Every item byte from a cursor on. */
  function Rest(items: seq<Text>, c: Cursor): seq<Shown>
    decreases |items| - c.item
  {
    if c.item >= |items| then []
    else
      (if c.offset <= |items[c.item]| then Bytes(c.item, c.offset, items[c.item][c.offset..]) else [])
      + Rest(items, Cursor(c.item + 1, 0))
  }

  lemma ChunksBytesLast(chunks: seq<Chunk>, c: Chunk)
    ensures ChunksBytes(chunks + [c]) == ChunksBytes(chunks) + Bytes(c.index, c.offset, c.data)
  {
    hide Bytes;
    assert (chunks + [c])[..|chunks|] == chunks;
  }

  /** Taking `length` bytes of an item leaves exactly what is behind the new position. */
  lemma RestSplits(items: seq<Text>, c: Cursor, length: nat)
    requires c.item < |items| && c.offset + length <= |items[c.item]|
    ensures var json := items[c.item];
            var after := if c.offset + length == |json| then Cursor(c.item + 1, 0) else Cursor(c.item, c.offset + length);
            Rest(items, c) == Bytes(c.item, c.offset, json[c.offset..c.offset + length]) + Rest(items, after)
  {
    hide Bytes;
    var json, end := items[c.item], c.offset + length;
    var taken, left := Bytes(c.item, c.offset, json[c.offset..end]), Bytes(c.item, end, json[end..]);
    var tail := Rest(items, Cursor(c.item + 1, 0));
    BytesSplit(c.item, c.offset, json, end);
    ConcatAssoc(taken, left, tail);
    if end == |json| {
      ConcatNothing(tail);
      assert json[end..] == [];
      EmptyBytes(c.item, end);
    }
  }

  lemma BytesSplit(index: nat, offset: nat, json: Text, end: nat)
    requires offset <= end <= |json|
    ensures Bytes(index, offset, json[offset..]) == Bytes(index, offset, json[offset..end]) + Bytes(index, end, json[end..])
  {}

  lemma EmptyBytes(index: nat, offset: nat)
    ensures Bytes(index, offset, []) == []
  {}

  predicate GoodChunk(items: seq<Text>, c: Chunk) {
    && c.index < |items| && c.data != []
    && c.offset + |c.data| <= |items[c.index]| == c.totalBytes
    && (c.complete <==> c.offset + |c.data| == c.totalBytes)
  }

  predicate GoodChunks(items: seq<Text>, chunks: seq<Chunk>) { forall k :: 0 <= k < |chunks| ==> GoodChunk(items, chunks[k]) }

  /** A cursor inside an item, at a character boundary. */
  predicate Resumable(items: seq<Text>, c: Cursor) {
    c.item < |items| && c.offset < |items[c.item]| && IsBoundary(items[c.item], c.offset)
  }

  predicate Encoded(items: seq<Text>) { forall k :: 0 <= k < |items| ==> items[k] != [] && Valid(items[k]) }

  function NextOf(position: Cursor, total: nat): Option<Cursor> { if position.item < total then Some(position) else None }

  /** The packing loop's state before item `k`. */
  ghost predicate Packing(items: seq<Text>, start: Cursor, k: nat, position: Cursor, chunks: seq<Chunk>) {
    && Rest(items, start) == ChunksBytes(chunks) + Rest(items, position)
    && GoodChunks(items, chunks)
    && position == (if k <= start.item then start else Cursor(k, 0))
    && (k <= start.item ==> chunks == [])
    && (k > Place(items, start).item ==> chunks != [])
  }

  /** Where a page begins: an offset at the very end of its item means the next one. */
  function Place(items: seq<Text>, start: Cursor): Cursor {
    if start.item < |items| && start.offset == |items[start.item]| then Cursor(start.item + 1, 0) else start
  }

  lemma PackingTakes(items: seq<Text>, start: Cursor, k: nat, position: Cursor, chunks: seq<Chunk>, length: nat)
    requires Packing(items, start, k, position, chunks) && k < |items| && position.item == k
    requires 0 < length && position.offset + length <= |items[k]|
    ensures var longer := chunks + [MakeChunk(k, position.offset, items[k], length)];
            var after := if position.offset + length == |items[k]| then Cursor(k + 1, 0) else Cursor(k, position.offset + length);
            && Rest(items, start) == ChunksBytes(longer) + Rest(items, after) && GoodChunks(items, longer)
            && (position.offset + length == |items[k]| ==> Packing(items, start, k + 1, after, longer))
  {
    hide Rest, Bytes, ChunksBytes;
    var chunk := MakeChunk(k, position.offset, items[k], length);
    var after := if position.offset + length == |items[k]| then Cursor(k + 1, 0) else Cursor(k, position.offset + length);
    RestSplits(items, position, length);
    ChunksBytesLast(chunks, chunk);
    ConcatAssoc(ChunksBytes(chunks), Bytes(k, position.offset, chunk.data), Rest(items, after));
  }

  /** How a page ends: nothing of the next item fits any more. */
  ghost predicate Maximal(e: Envelope, items: seq<Text>, chunks: seq<Chunk>, next: Cursor, maxBytes: nat)
    requires next.item < |items| && GoodChunks(items, chunks)
  {
    if next.offset == 0 then NoneFits(e, chunks, next.item, 0, items[next.item], |items|, maxBytes, 1)
    else
      && chunks != []
      && var init, last := chunks[..|chunks| - 1], chunks[|chunks| - 1];
         && last.index == next.item && last.offset + |last.data| == next.offset
         && NoneFits(e, init, last.index, last.offset, items[last.index], |items|, maxBytes, |last.data| + 1)
  }

  datatype Page = Page(chunks: seq<Chunk>, next: Option<Cursor>)

  /** What every page is: a stretch of the items' bytes from `start` on, and the place
      where the next page goes on. */
  ghost predicate Continues(items: seq<Text>, start: Cursor, page: Page) {
    && Rest(items, start) == ChunksBytes(page.chunks) + (if page.next.Some? then Rest(items, page.next.value) else [])
    && GoodChunks(items, page.chunks)
    && (page.next.Some? ==> page.next == Some(start) || (Precedes(start, page.next.value) && Resumable(items, page.next.value)))
  }

  /** The state a page is finished in. */
  ghost predicate Finished(e: Envelope, items: seq<Text>, start: Cursor, hi: nat, position: Cursor, chunks: seq<Chunk>, maxBytes: nat) {
    && Rest(items, start) == ChunksBytes(chunks) + Rest(items, position)
    && GoodChunks(items, chunks)
    && (position == start || (Precedes(start, position) && (position.item < |items| ==> Resumable(items, position))))
    && (start.item < hi ==>
          && position != start && (Resumable(items, start) ==> chunks != [])
          && (position.item < hi && position.item < |items| ==> Maximal(e, items, chunks, position, maxBytes)))
    && (chunks != [] ==> PageLen(e, chunks, NextOf(position, |items|)) <= maxBytes)
  }

  lemma PackingStarts(items: seq<Text>, lo: nat, start: Cursor)
    requires lo <= start.item
    ensures Packing(items, start, lo, start, [])
  {
    ConcatNothing(Rest(items, start));
  }

  /** An offset at the very end of its item moves on without a chunk. */
  lemma PackingPasses(items: seq<Text>, start: Cursor, k: nat, position: Cursor, chunks: seq<Chunk>)
    requires Packing(items, start, k, position, chunks) && Encoded(items)
    requires k < |items| && position.item == k && position.offset == |items[k]|
    ensures k == start.item && chunks == [] && Packing(items, start, k + 1, Cursor(k + 1, 0), chunks)
  {
    hide Rest, ChunksBytes, Valid, Bytes;
    RestSplits(items, position, 0);
    assert items[k][position.offset..position.offset + 0] == [];
    EmptyBytes(k, position.offset);
    ConcatNothing(Rest(items, Cursor(k + 1, 0)));
  }

  lemma WindowEnds(e: Envelope, items: seq<Text>, start: Cursor, hi: nat, position: Cursor, chunks: seq<Chunk>, maxBytes: nat)
    requires Packing(items, start, hi, position, chunks) && Encoded(items) && hi <= |items|
    requires chunks != [] ==> PageLen(e, chunks, NextOf(position, |items|)) <= maxBytes
    ensures Finished(e, items, start, hi, position, chunks, maxBytes)
  {
    hide Rest, ChunksBytes, Valid, Maximal, PageLen;
  }

  lemma StopsBefore(e: Envelope, items: seq<Text>, start: Cursor, hi: nat, k: nat, position: Cursor, chunks: seq<Chunk>, maxBytes: nat)
    requires Packing(items, start, k, position, chunks) && Encoded(items) && k < hi <= |items| && chunks != []
    requires PageLen(e, chunks, NextOf(position, |items|)) <= maxBytes
    requires NoneFits(e, chunks, k, position.offset, items[k], |items|, maxBytes, 1)
    ensures Finished(e, items, start, hi, position, chunks, maxBytes)
  {
    hide Rest, ChunksBytes, Valid, PageLen, NoneFits;
  }

  lemma StopsInside(e: Envelope, items: seq<Text>, start: Cursor, hi: nat, k: nat, position: Cursor, chunks: seq<Chunk>, length: nat, maxBytes: nat)
    requires Packing(items, start, k, position, chunks) && k < hi <= |items| && position.item == k
    requires 0 < length && position.offset + length < |items[k]| && IsBoundary(items[k][position.offset..], length)
    requires PrefixFits(e, chunks, k, position.offset, items[k], |items|, maxBytes, length)
    requires NoneFits(e, chunks, k, position.offset, items[k], |items|, maxBytes, length + 1)
    ensures Finished(e, items, start, hi, Cursor(k, position.offset + length),
                     chunks + [MakeChunk(k, position.offset, items[k], length)], maxBytes)
  {
    hide Rest, ChunksBytes, Valid, PageLen, NoneFits, Maximal, GoodChunks, IsBoundary;
    var chunk := MakeChunk(k, position.offset, items[k], length);
    PackingTakes(items, start, k, position, chunks, length);
    BoundaryInside(items[k], position.offset, length);
    LastIsMaximal(e, items, chunks, chunk, maxBytes);
  }

  lemma BoundaryInside(json: Text, offset: nat, length: nat)
    requires 0 < length && offset + length < |json| && IsBoundary(json[offset..], length)
    ensures IsBoundary(json, offset + length)
  {}

  lemma LastIsMaximal(e: Envelope, items: seq<Text>, chunks: seq<Chunk>, last: Chunk, maxBytes: nat)
    requires GoodChunks(items, chunks + [last]) && last.index < |items| && 0 < |last.data| && last.offset + |last.data| <= |items[last.index]|
    requires NoneFits(e, chunks, last.index, last.offset, items[last.index], |items|, maxBytes, |last.data| + 1)
    ensures Maximal(e, items, chunks + [last], Cursor(last.index, last.offset + |last.data|), maxBytes)
  {
    hide NoneFits, GoodChunks;
    assert (chunks + [last])[..|chunks|] == chunks;
  }

  /** A rejected item is never taken whole. */
  lemma LargestIsPartial(e: Envelope, chunks: seq<Chunk>, index: nat, offset: nat, json: Text, total: nat, maxBytes: nat, length: nat)
    requires offset + length <= |json| && FullRejected(e, chunks, index, offset, json, total, maxBytes)
    requires PrefixFits(e, chunks, index, offset, json, total, maxBytes, length)
    ensures offset + length < |json|
  {
    hide PrefixFits;
    FittingIsShort(e, chunks, index, offset, json, total, maxBytes, length);
  }

  lemma ChunksLenLast(chunks: seq<Chunk>, c: Chunk)
    ensures ChunksLen(chunks + [c]) == ChunksLen(chunks) + (if chunks == [] then 0 else 1) + ChunkLen(c)
  {
    hide ChunkLen;
    assert (chunks + [c])[..|chunks|] == chunks;
  }

  /** `fitting_chunk_bytes`: the candidate's cost if the page with it fits. */
  method FittingChunkBytes(e: Envelope, chunks: seq<Chunk>, existing: nat, candidate: Chunk, next: Option<Cursor>, maxBytes: nat)
    returns (bytes: Option<nat>)
    requires existing == ChunksLen(chunks)
    ensures bytes.Some? <==> PageLen(e, chunks + [candidate], next) <= maxBytes
    ensures bytes.Some? ==> ChunksLen(chunks + [candidate]) == existing + bytes.value
  {
    hide ChunksLen, ChunkLen, HeaderLen;
    AppendChunk(e, chunks, candidate, next);
    ChunksLenLast(chunks, candidate);
    var cost := ChunkLen(candidate) + if chunks != [] then 1 else 0;
    return if existing + cost + HeaderLen(e, Indexes(chunks) + {candidate.index}, next) <= maxBytes then Some(cost) else None;
  }

  /** What became of one item: taken whole, in part, or not at all. */
  datatype Placement = Whole(cost: nat) | Part(length: nat) | Nothing

  ghost predicate Placed(e: Envelope, chunks: seq<Chunk>, existing: nat, k: nat, offset: nat, json: Text, total: nat, maxBytes: nat, p: Placement)
    requires offset <= |json|
  {
    match p
    case Whole(cost) =>
      && PrefixFits(e, chunks, k, offset, json, total, maxBytes, |json| - offset)
      && ChunksLen(chunks + [MakeChunk(k, offset, json, |json| - offset)]) == existing + cost
    case Part(length) =>
      && 0 < length && offset + length < |json| && IsBoundary(json[offset..], length)
      && PrefixFits(e, chunks, k, offset, json, total, maxBytes, length)
      && NoneFits(e, chunks, k, offset, json, total, maxBytes, length + 1)
    case Nothing => NoneFits(e, chunks, k, offset, json, total, maxBytes, 1)
  }

  method PlaceItem(e: Envelope, chunks: seq<Chunk>, existing: nat, k: nat, offset: nat, json: Text, total: nat, maxBytes: nat)
    returns (p: Placement)
    requires Valid(json) && offset < |json| && IsBoundary(json, offset) && existing == ChunksLen(chunks)
    ensures Placed(e, chunks, existing, k, offset, json, total, maxBytes, p)
  {
    hide PageLen, ChunksLen, Valid, NoneFits, HeaderLen;
    var rest := |json| - offset;
    if rest <= maxBytes {
      var full := MakeChunk(k, offset, json, rest);
      var bytes := FittingChunkBytes(e, chunks, existing, full, NextPosition(k, total), maxBytes);
      if bytes.Some? {
        return Whole(bytes.value);
      }
    }
    var length := LargestFittingPrefix(e, chunks, existing, k, offset, json, total, maxBytes);
    if length == 0 {
      return Nothing;
    }
    LargestIsPartial(e, chunks, k, offset, json, total, maxBytes, length);
    return Part(length);
  }

  /** The packing loop's variables before item `k`. */
  ghost predicate Packed(e: Envelope, items: seq<Text>, start: Cursor, k: nat, position: Cursor, chunks: seq<Chunk>, chunkBytes: nat, maxBytes: nat) {
    && Packing(items, start, k, position, chunks) && chunkBytes == ChunksLen(chunks)
    && (chunks != [] ==> PageLen(e, chunks, NextOf(position, |items|)) <= maxBytes)
  }

  /** How one round of the packing loop ends. */
  datatype Round =
    | Onward(position: Cursor, chunks: seq<Chunk>, chunkBytes: nat)
    | Stop(position: Cursor, chunks: seq<Chunk>, chunkBytes: nat)
    | Fail

  /** What a refused page means: the start is no place in its item, nothing of the first item
      fits an empty page, or not even the empty page fits when the window holds nothing more. */
  ghost predicate Refusable(e: Envelope, items: seq<Text>, start: Cursor, hi: nat, maxBytes: nat) {
    var place := Place(items, start);
    || (start.item < Min(hi, |items|) && (start.offset > |items[start.item]| || !IsBoundary(items[start.item], start.offset)))
    || (place.item < Min(hi, |items|) && place.offset <= |items[place.item]|
        && NoneFits(e, [], place.item, place.offset, items[place.item], |items|, maxBytes, 1))
    || (place.item >= hi && PageLen(e, [], NextOf(if start.item >= hi then start else place, |items|)) > maxBytes)
  }

  lemma PackedAtItem(e: Envelope, items: seq<Text>, start: Cursor, k: nat, position: Cursor, chunks: seq<Chunk>, chunkBytes: nat, maxBytes: nat)
    requires Packed(e, items, start, k, position, chunks, chunkBytes, maxBytes) && k >= position.item
    ensures k == position.item && position.offset == (if k == start.item then start.offset else 0)
  {
    hide Rest, ChunksBytes, PageLen, ChunksLen, GoodChunks, IsBoundary;
  }

  lemma PassesItem(e: Envelope, items: seq<Text>, start: Cursor, k: nat, position: Cursor, chunks: seq<Chunk>, chunkBytes: nat, maxBytes: nat)
    requires Packed(e, items, start, k, position, chunks, chunkBytes, maxBytes) && Encoded(items)
    requires k < |items| && position.item == k && position.offset == |items[k]|
    ensures Packed(e, items, start, k + 1, Cursor(k + 1, 0), chunks, chunkBytes, maxBytes)
  {
    hide Rest, ChunksBytes, PageLen, ChunksLen, GoodChunks, Encoded;
    PackingPasses(items, start, k, position, chunks);
  }

  /** What one round leaves behind. */
  ghost predicate RoundOk(e: Envelope, items: seq<Text>, start: Cursor, k: nat, hi: nat, maxBytes: nat, r: Round) {
    match r
    case Onward(position, chunks, chunkBytes) => Packed(e, items, start, k + 1, position, chunks, chunkBytes, maxBytes)
    case Stop(position, chunks, chunkBytes) =>
      Finished(e, items, start, hi, position, chunks, maxBytes) && chunkBytes == ChunksLen(chunks) && chunks != []
    case Fail => Refusable(e, items, start, hi, maxBytes)
  }

  /** The round's outcome for an item placed in part or whole. */
  function Outcome(k: nat, position: Cursor, chunks: seq<Chunk>, chunkBytes: nat, json: Text, p: Placement): Round
    requires position.offset <= |json| && (p.Part? ==> position.offset + p.length <= |json|)
  {
    match p
    case Whole(cost) =>
      Onward(Cursor(k + 1, 0), chunks + [MakeChunk(k, position.offset, json, |json| - position.offset)], chunkBytes + cost)
    case Part(length) =>
      var chunk := MakeChunk(k, position.offset, json, length);
      Stop(Cursor(k, position.offset + length), chunks + [chunk], chunkBytes + ChunkLen(chunk) + if chunks != [] then 1 else 0)
    case Nothing =>
      if chunks == [] then Fail else Stop(position, chunks, chunkBytes)
  }

  lemma TakesWhole(e: Envelope, items: seq<Text>, start: Cursor, k: nat, position: Cursor, chunks: seq<Chunk>, chunkBytes: nat, cost: nat, maxBytes: nat)
    requires Packed(e, items, start, k, position, chunks, chunkBytes, maxBytes)
    requires k < |items| && position.item == k && position.offset < |items[k]|
    requires PrefixFits(e, chunks, k, position.offset, items[k], |items|, maxBytes, |items[k]| - position.offset)
    requires ChunksLen(chunks + [MakeChunk(k, position.offset, items[k], |items[k]| - position.offset)]) == chunkBytes + cost
    ensures Packed(e, items, start, k + 1, Cursor(k + 1, 0),
                   chunks + [MakeChunk(k, position.offset, items[k], |items[k]| - position.offset)], chunkBytes + cost, maxBytes)
  {
    hide PageLen, ChunksLen, PrefixFits, Packing, MakeChunk;
    PackingTakes(items, start, k, position, chunks, |items[k]| - position.offset);
    WholeFits(e, chunks, k, position.offset, items[k], |items|, maxBytes);
  }

  lemma TakesPart(e: Envelope, items: seq<Text>, start: Cursor, k: nat, hi: nat, position: Cursor, chunks: seq<Chunk>, chunkBytes: nat, p: Placement, maxBytes: nat)
    requires Packed(e, items, start, k, position, chunks, chunkBytes, maxBytes) && p.Part?
    requires k < hi <= |items| && position.item == k && position.offset < |items[k]|
    requires Placed(e, chunks, chunkBytes, k, position.offset, items[k], |items|, maxBytes, p)
    ensures RoundOk(e, items, start, k, hi, maxBytes, Outcome(k, position, chunks, chunkBytes, items[k], p))
  {
    hide PageLen, ChunksLen, PrefixFits, Packing, MakeChunk, ChunkLen, NoneFits, Finished, IsBoundary;
    StopsInside(e, items, start, hi, k, position, chunks, p.length, maxBytes);
    ChunksLenLast(chunks, MakeChunk(k, position.offset, items[k], p.length));
  }

  lemma TakesNothing(e: Envelope, items: seq<Text>, start: Cursor, k: nat, hi: nat, position: Cursor, chunks: seq<Chunk>, chunkBytes: nat, p: Placement, maxBytes: nat)
    requires Packed(e, items, start, k, position, chunks, chunkBytes, maxBytes) && p.Nothing? && Encoded(items)
    requires k < hi <= |items| && position.item == k && position.offset < |items[k]|
    requires Placed(e, chunks, chunkBytes, k, position.offset, items[k], |items|, maxBytes, p)
    ensures RoundOk(e, items, start, k, hi, maxBytes, Outcome(k, position, chunks, chunkBytes, items[k], p))
  {
    hide PageLen, ChunksLen, NoneFits, Packing, Finished, Refusable, Encoded;
    if chunks == [] {
      NothingFits(e, items, start, k, hi, position, chunkBytes, maxBytes);
    } else {
      StopsBefore(e, items, start, hi, k, position, chunks, maxBytes);
    }
  }

  lemma OutcomeOk(e: Envelope, items: seq<Text>, start: Cursor, k: nat, hi: nat, position: Cursor, chunks: seq<Chunk>, chunkBytes: nat, p: Placement, maxBytes: nat)
    requires Packed(e, items, start, k, position, chunks, chunkBytes, maxBytes) && Encoded(items)
    requires k < hi <= |items| && position.item == k && position.offset < |items[k]|
    requires Placed(e, chunks, chunkBytes, k, position.offset, items[k], |items|, maxBytes, p)
    ensures RoundOk(e, items, start, k, hi, maxBytes, Outcome(k, position, chunks, chunkBytes, items[k], p))
  {
    hide Packed, Encoded, PrefixFits, NoneFits, IsBoundary, ChunksLen, MakeChunk, Finished;
    match p
    case Whole(cost) => TakesWhole(e, items, start, k, position, chunks, chunkBytes, cost, maxBytes);
    case Part(_) => TakesPart(e, items, start, k, hi, position, chunks, chunkBytes, p, maxBytes);
    case Nothing => TakesNothing(e, items, start, k, hi, position, chunks, chunkBytes, p, maxBytes);
  }

  /** An offset is refused only where the start itself is no place in its item. */
  lemma OffsetRefused(e: Envelope, items: seq<Text>, start: Cursor, k: nat, hi: nat, position: Cursor, chunks: seq<Chunk>, chunkBytes: nat, maxBytes: nat)
    requires Packed(e, items, start, k, position, chunks, chunkBytes, maxBytes) && position.item == k < hi <= |items|
    requires position.offset > |items[k]| || !IsBoundary(items[k], position.offset)
    ensures Refusable(e, items, start, hi, maxBytes)
  {
    hide Rest, ChunksBytes, PageLen, ChunksLen, GoodChunks, NoneFits;
  }

  lemma NothingFits(e: Envelope, items: seq<Text>, start: Cursor, k: nat, hi: nat, position: Cursor, chunkBytes: nat, maxBytes: nat)
    requires Packed(e, items, start, k, position, [], chunkBytes, maxBytes) && position.item == k < hi <= |items|
    requires position.offset < |items[k]| && NoneFits(e, [], k, position.offset, items[k], |items|, maxBytes, 1)
    ensures Refusable(e, items, start, hi, maxBytes)
  {
    hide Rest, ChunksBytes, PageLen, ChunksLen, GoodChunks, NoneFits, IsBoundary;
  }

  lemma WindowEmpty(e: Envelope, items: seq<Text>, start: Cursor, hi: nat, position: Cursor, chunkBytes: nat, maxBytes: nat)
    requires Packed(e, items, start, hi, position, [], chunkBytes, maxBytes) && PageLen(e, [], NextOf(position, |items|)) > maxBytes
    ensures Refusable(e, items, start, hi, maxBytes)
  {
    hide Rest, ChunksBytes, PageLen, ChunksLen, GoodChunks, NoneFits, IsBoundary;
  }

  /** One round of the packing loop, at an item not yet passed. */
  method PackItem(e: Envelope, items: seq<Text>, start: Cursor, k: nat, ghost hi: nat, position: Cursor, chunks: seq<Chunk>, chunkBytes: nat, maxBytes: nat)
    returns (r: Round)
    requires Encoded(items) && k < hi <= |items| && k >= position.item
    requires Packed(e, items, start, k, position, chunks, chunkBytes, maxBytes)
    ensures RoundOk(e, items, start, k, hi, maxBytes, r)
  {
    PackedAtItem(e, items, start, k, position, chunks, chunkBytes, maxBytes);
    assert chunkBytes == ChunksLen(chunks);
    assert Valid(items[k]);
    hide Packed, Valid, ChunksLen, ChunkLen, Finished, Encoded, IsBoundary, MakeChunk, Refusable;
    var json := items[k];
    var offset := if k == start.item then start.offset else 0;
    if offset > |json| || !IsBoundary(json, offset) {
      OffsetRefused(e, items, start, k, hi, position, chunks, chunkBytes, maxBytes);
      return Fail;
    }
    if offset == |json| {
      PassesItem(e, items, start, k, position, chunks, chunkBytes, maxBytes);
      return Onward(Cursor(k + 1, 0), chunks, chunkBytes);
    }
    var placed := PlaceItem(e, chunks, chunkBytes, k, offset, json, |items|, maxBytes);
    OutcomeOk(e, items, start, k, hi, position, chunks, chunkBytes, placed, maxBytes);
    return Outcome(k, position, chunks, chunkBytes, json, placed);
  }

  lemma PackedSkips(e: Envelope, items: seq<Text>, start: Cursor, k: nat, position: Cursor, chunks: seq<Chunk>, chunkBytes: nat, maxBytes: nat)
    requires Packed(e, items, start, k, position, chunks, chunkBytes, maxBytes) && k < position.item
    ensures Packed(e, items, start, k + 1, position, chunks, chunkBytes, maxBytes)
  {
    hide Rest, ChunksBytes, PageLen, ChunksLen, GoodChunks;
  }

  lemma PackedStarts(e: Envelope, items: seq<Text>, lo: nat, start: Cursor, maxBytes: nat)
    requires lo <= start.item
    ensures Packed(e, items, start, lo, start, [], 0, maxBytes)
  {
    PackingStarts(items, lo, start);
    assert ChunksLen([]) == 0;
  }

  lemma PackedEnds(e: Envelope, items: seq<Text>, start: Cursor, hi: nat, position: Cursor, chunks: seq<Chunk>, chunkBytes: nat, maxBytes: nat)
    requires Packed(e, items, start, hi, position, chunks, chunkBytes, maxBytes) && Encoded(items) && hi <= |items|
    ensures Finished(e, items, start, hi, position, chunks, maxBytes) && chunkBytes == ChunksLen(chunks)
  {
    hide PageLen, ChunksLen, Packing, Encoded, Finished;
    WindowEnds(e, items, start, hi, position, chunks, maxBytes);
  }

  /** `pack_items` over the window of items `lo..hi`. */
  method PackItems(e: Envelope, items: seq<Text>, lo: nat, hi: nat, start: Cursor, maxBytes: nat, expired: nat -> bool)
    returns (r: Result<Page, ReadError>)
    requires Encoded(items) && lo <= hi <= |items| && lo <= start.item <= |items|
    requires start.item == |items| ==> start.offset == 0
    ensures r.Ok? ==> Continues(items, start, r.value) && PageLen(e, r.value.chunks, r.value.next) <= maxBytes
    ensures r.Ok? && start.item < hi ==>
              && r.value.next != Some(start)
              && (Resumable(items, start) ==> r.value.chunks != [])
              && (r.value.next.Some? && r.value.next.value.item < hi ==>
                    Maximal(e, items, r.value.chunks, r.value.next.value, maxBytes))
    ensures r == Err(InvalidArguments) ==> Refusable(e, items, start, hi, maxBytes)
    ensures r == Err(QueryLimit) ==> exists k :: lo <= k < hi && expired(k)
  {
    hide Packed, Finished, Encoded, PageLen, ChunksLen, Refusable, Maximal, IsBoundary, Rest, ChunksBytes, GoodChunks;
    var chunks: seq<Chunk>, chunkBytes, position, k := [], 0, start, lo;
    PackedStarts(e, items, lo, start, maxBytes);
    var stopped := false;
    while k < hi && !stopped
      invariant lo <= k <= hi
      invariant !stopped ==> Packed(e, items, start, k, position, chunks, chunkBytes, maxBytes)
      invariant stopped ==> Finished(e, items, start, hi, position, chunks, maxBytes) && chunkBytes == ChunksLen(chunks) && chunks != []
    {
      if expired(k) {
        return Err(QueryLimit);
      }
      if k < position.item {
        PackedSkips(e, items, start, k, position, chunks, chunkBytes, maxBytes);
      } else {
        var round := PackItem(e, items, start, k, hi, position, chunks, chunkBytes, maxBytes);
        if round.Fail? {
          return Err(InvalidArguments);
        }
        position, chunks, chunkBytes, stopped := round.position, round.chunks, round.chunkBytes, round.Stop?;
      }
      k := k + 1;
    }
    if !stopped {
      PackedEnds(e, items, start, hi, position, chunks, chunkBytes, maxBytes);
      if chunks == [] && PageLen(e, [], NextOf(position, |items|)) > maxBytes {
        WindowEmpty(e, items, start, hi, position, chunkBytes, maxBytes);
      }
    }
    r := FinishPage(e, items, start, hi, position, chunks, chunkBytes, maxBytes);
  }

  lemma WholeFits(e: Envelope, chunks: seq<Chunk>, k: nat, offset: nat, json: Text, total: nat, maxBytes: nat)
    requires offset <= |json| && k < total && PrefixFits(e, chunks, k, offset, json, total, maxBytes, |json| - offset)
    ensures PageLen(e, chunks + [MakeChunk(k, offset, json, |json| - offset)], NextOf(Cursor(k + 1, 0), total)) <= maxBytes
  {
    hide PageLen;
  }

  /** The final size check: it never rejects a page holding at least one chunk. */
  method FinishPage(e: Envelope, items: seq<Text>, start: Cursor, ghost hi: nat, position: Cursor, chunks: seq<Chunk>, chunkBytes: nat, maxBytes: nat)
    returns (r: Result<Page, ReadError>)
    requires Finished(e, items, start, hi, position, chunks, maxBytes) && chunkBytes == ChunksLen(chunks)
    requires start.item <= |items|
    ensures chunks != [] ==> r.Ok?
    ensures r == if PageLen(e, chunks, NextOf(position, |items|)) <= maxBytes then Ok(Page(chunks, NextOf(position, |items|))) else Err(InvalidArguments)
    ensures Continues(items, start, Page(chunks, NextOf(position, |items|)))
    ensures start.item < hi ==>
              && position != start && (Resumable(items, start) ==> chunks != [])
              && (position.item < hi && position.item < |items| ==> Maximal(e, items, chunks, position, maxBytes))
  {
    hide ChunksBytes, ChunksLen, HeaderLen, Maximal, GoodChunks;
    var next := NextOf(position, |items|);
    if chunkBytes + HeaderLen(e, Indexes(chunks), next) > maxBytes {
      return Err(InvalidArguments);
    }
    return Ok(Page(chunks, next));
  }

  // ----- whole readings

  /** Pages read one after another from a cursor inside an item, each window holding its cursor. */
  ghost predicate Reading(items: seq<Text>, start: Cursor, pages: seq<Page>)
    decreases |pages|
  {
    pages != [] ==>
      && Continues(items, start, pages[0]) && pages[0].chunks != [] && pages[0].next != Some(start)
      && (|pages| > 1 ==> pages[0].next.Some? && Reading(items, pages[0].next.value, pages[1..]))
  }

  function AllBytes(pages: seq<Page>): seq<Shown> {
    if pages == [] then [] else ChunksBytes(pages[0].chunks) + AllBytes(pages[1..])
  }

  ghost function Remaining(items: seq<Text>, pages: seq<Page>): seq<Shown>
    requires pages != []
  {
    var last := pages[|pages| - 1];
    if last.next.Some? then Rest(items, last.next.value) else []
  }

  /** Following cursors concatenates the chunk data to exactly the items' bytes. */
  lemma {:induction false} PagingIsLossless(items: seq<Text>, start: Cursor, pages: seq<Page>)
    requires pages != [] && Reading(items, start, pages)
    ensures Rest(items, start) == AllBytes(pages) + Remaining(items, pages)
    decreases |pages|
  {
    hide Rest, ChunksBytes, GoodChunks;
    if |pages| == 1 {
      assert AllBytes(pages[1..]) == [];
      ConcatNothing(ChunksBytes(pages[0].chunks));
    } else {
      PagingIsLossless(items, pages[0].next.value, pages[1..]);
      ConcatAssoc(ChunksBytes(pages[0].chunks), AllBytes(pages[1..]), Remaining(items, pages));
    }
  }

  lemma ChunksShowSomething(items: seq<Text>, chunks: seq<Chunk>)
    requires GoodChunks(items, chunks) && chunks != []
    ensures |ChunksBytes(chunks)| > 0
  {
    assert GoodChunk(items, chunks[|chunks| - 1]);
  }

  /** There are never more pages than bytes left to read. */
  lemma {:induction false} PagingTerminates(items: seq<Text>, start: Cursor, pages: seq<Page>)
    requires Reading(items, start, pages)
    ensures |pages| <= |Rest(items, start)|
    decreases |pages|
  {
    hide Rest, ChunksBytes, GoodChunks;
    if pages != [] {
      ChunksShowSomething(items, pages[0].chunks);
      if |pages| > 1 {
        PagingTerminates(items, pages[0].next.value, pages[1..]);
      }
    }
  }
}
