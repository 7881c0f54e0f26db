/** The JSON document of a history page, and that its size is the one pages are packed by. */
module ReadWire {
  import opened Prelude
  import opened Utf8
  import opened Json
  import opened ReadPage

  function ChunkJson(c: Chunk): Text {
    Ascii("{\"index\":") + Decimal(c.index) + Ascii(",\"offset\":") + Decimal(c.offset)
    + Ascii(",\"total_bytes\":") + Decimal(c.totalBytes) + Ascii(",\"encoding\":\"utf8_json\",\"data\":") + Quoted(c.data)
    + Ascii(",\"complete\":") + Flag(c.complete) + Ascii("}")
  }

  function ChunkTexts(chunks: seq<Chunk>): seq<Text> {
    seq(|chunks|, k requires 0 <= k < |chunks| => ChunkJson(chunks[k]))
  }

  function CursorJson(c: Option<Cursor>): Text {
    if c.None? then Ascii("null")
    else Ascii("{\"item\":") + Decimal(c.value.item) + Ascii(",\"offset\":") + Decimal(c.value.offset) + Ascii("}")
  }

  /** The texts of the turn records that describe an item of the page, in order. */
  function TouchedTexts(turns: seq<Turn>, texts: seq<Text>, indexes: set<nat>): seq<Text>
    requires |turns| == |texts|
  {
    if turns == [] then []
    else if Touches(turns[0], indexes) then [texts[0]] + TouchedTexts(turns[1..], texts[1..], indexes)
    else TouchedTexts(turns[1..], texts[1..], indexes)
  }

  /** The page; `head`, `middle` and `tail` hold its fixed fields. */
  function PageJson(head: Text, middle: Text, tail: Text, turns: seq<Turn>, texts: seq<Text>, chunks: seq<Chunk>, next: Option<Cursor>): Text
    requires |turns| == |texts|
  {
    head + Ascii(",\"items\":[") + Commas(ChunkTexts(chunks)) + Ascii("],\"next_cursor\":") + CursorJson(next)
    + middle + Ascii(",\"records\":[") + Commas(TouchedTexts(turns, texts, Indexes(chunks))) + Ascii("]") + tail
  }

  /** What the page costs without chunks, records and a cursor. */
  function EnvelopeOf(head: Text, middle: Text, tail: Text, turns: seq<Turn>): Envelope {
    Envelope(|PageJson(head, middle, tail, [], [], [], None)|, turns)
  }

  lemma ChunkSize(c: Chunk)
    ensures |ChunkJson(c)| == ChunkLen(c)
  {
    EscapeReadsBack(c.data);
    hide Escape, EscapedLen, Decimal, Digits, Ascii;
  }

  lemma ChunkTextsLast(chunks: seq<Chunk>)
    requires chunks != []
    ensures ChunkTexts(chunks) == ChunkTexts(chunks[..|chunks| - 1]) + [ChunkJson(chunks[|chunks| - 1])]
  {
    hide ChunkJson;
  }

  lemma {:induction false} ChunksSize(chunks: seq<Chunk>)
    ensures |Commas(ChunkTexts(chunks))| == ChunksLen(chunks)
  {
    if chunks == [] {
      assert Commas([]) == [];
    } else {
      var init, last := chunks[..|chunks| - 1], chunks[|chunks| - 1];
      ChunksSize(init);
      ChunkSize(last);
      hide ChunkJson, ChunkLen, Commas;
      ChunkTextsLast(chunks);
      assert ChunkTexts(init) == [] <==> init == [];
      hide ChunkTexts;
      CommasSize(ChunkTexts(init), ChunkJson(last));
    }
  }

  function TotalSize(texts: seq<Text>): nat { if texts == [] then 0 else |texts[0]| + TotalSize(texts[1..]) }

  lemma {:induction false} CommasTotal(parts: seq<Text>)
    ensures |Commas(parts)| == TotalSize(parts) + if parts == [] then 0 else |parts| - 1
  {
    if parts != [] {
      var init, last := parts[..|parts| - 1], parts[|parts| - 1];
      CommasTotal(init);
      TotalLast(init, last);
      assert parts == init + [last];
      CommasSize(init, last);
    }
  }

  lemma {:induction false} TotalLast(init: seq<Text>, last: Text)
    ensures TotalSize(init + [last]) == TotalSize(init) + |last|
  {
    if init != [] {
      assert (init + [last])[1..] == init[1..] + [last];
      TotalLast(init[1..], last);
    }
  }

  predicate Sized(turns: seq<Turn>, texts: seq<Text>) {
    |turns| == |texts| && forall k :: 0 <= k < |turns| ==> |texts[k]| == turns[k].bytes
  }

  lemma {:induction false} TouchedSize(turns: seq<Turn>, texts: seq<Text>, indexes: set<nat>)
    requires Sized(turns, texts)
    ensures var touched := TouchedTexts(turns, texts, indexes); RecordsLen(turns, indexes) == (TotalSize(touched), |touched|)
  {
    if turns != [] {
      hide Touches;
      TouchedSize(turns[1..], texts[1..], indexes);
      var rest := TouchedTexts(turns[1..], texts[1..], indexes);
      assert ([texts[0]] + rest)[1..] == rest;
    }
  }

  lemma CursorSize(next: Option<Cursor>)
    ensures |CursorJson(next)| == CursorLen(next)
  {
    hide Decimal, Digits, Ascii;
  }

  /** The size a page is packed by is the length of the document that is sent. */
  lemma PageSize(head: Text, middle: Text, tail: Text, turns: seq<Turn>, texts: seq<Text>, chunks: seq<Chunk>, next: Option<Cursor>)
    requires Sized(turns, texts)
    ensures |PageJson(head, middle, tail, turns, texts, chunks, next)| == PageLen(EnvelopeOf(head, middle, tail, turns), chunks, next)
  {
    ChunksSize(chunks);
    TouchedSize(turns, texts, Indexes(chunks));
    CommasTotal(TouchedTexts(turns, texts, Indexes(chunks)));
    CursorSize(next);
    CursorSize(None);
    assert ChunkTexts([]) == [] && TouchedTexts([], [], Indexes([])) == [];
    hide ChunksLen, ChunkTexts, TouchedTexts, CursorJson, RecordsLen, CursorLen, TotalSize, Ascii, Indexes;
    assert Commas([]) == [];
    hide Commas;
  }
}
