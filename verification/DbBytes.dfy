/** How the linked records lie in the bytes of the index file. */
module DbBytes {
  import opened Options
  import opened AsciiFields
  import opened DbRecords

  // ---- A file cut into chunks -----------------------------------------------------------

  predicate Slice(f: string, a: nat, s: string) { a + |s| <= |f| && f[a..a + |s|] == s }

  function EndOf(chunks: map<nat, string>, a: nat): nat
    requires a in chunks
  {
    a + |chunks[a]|
  }

  /** The chunks, keyed by offset, make up the whole file without gap or overlap. */
  ghost predicate Tiles(f: string, chunks: map<nat, string>) {
    && 0 in chunks
    && (forall a :: a in chunks ==> chunks[a] != [] && Slice(f, a, chunks[a]))
    && (forall a {:trigger EndOf(chunks, a)} :: a in chunks ==> EndOf(chunks, a) == |f| || EndOf(chunks, a) in chunks)
    && (forall a, b :: a in chunks && b in chunks && a < b ==> a + |chunks[a]| <= b)
  }

  lemma TilesCover(f: string, chunks: map<nat, string>, a: nat)
    requires Tiles(f, chunks) && a in chunks
    ensures Slice(f, a, chunks[a]) && a < |f|
    ensures a + |chunks[a]| == |f| || a + |chunks[a]| in chunks
  {
    assert EndOf(chunks, a) == |f| || EndOf(chunks, a) in chunks;
  }

  lemma SliceOverwrite(f: string, a: nat, s: string, b: nat, t: string)
    requires a + |s| <= |f| && Slice(f, b, t) && (b + |t| <= a || a + |s| <= b)
    ensures Slice(Overwrite(f, a, s), b, t)
  {
    assert forall j :: b <= j < b + |t| ==> Overwrite(f, a, s)[j] == f[j];
  }

  lemma SliceWritten(f: string, a: nat, s: string)
    requires a + |s| <= |f|
    ensures Slice(Overwrite(f, a, s), a, s) && |Overwrite(f, a, s)| == |f|
  {}

  lemma TilesReplace(f: string, chunks: map<nat, string>, a: nat, s: string)
    requires Tiles(f, chunks) && a in chunks && |s| == |chunks[a]|
    ensures a + |s| <= |f| && Tiles(Overwrite(f, a, s), chunks[a := s])
  {
    TilesCover(f, chunks, a);
    assert a + |s| <= |f|;
    hide Slice, Overwrite;
    var g := Overwrite(f, a, s);
    SliceWritten(f, a, s);
    forall b | b in chunks && b != a
      ensures Slice(g, b, chunks[b])
    {
      SliceOverwrite(f, a, s, b, chunks[b]);
    }
    forall b | b in chunks
      ensures EndOf(chunks[a := s], b) == |g| || EndOf(chunks[a := s], b) in chunks
    {
      assert EndOf(chunks, b) == EndOf(chunks[a := s], b);
    }
  }

  lemma SliceAppend(f: string, s: string, a: nat, t: string)
    requires Slice(f, a, t)
    ensures Slice(f + s, a, t)
  {}

  lemma TilesAppend(f: string, chunks: map<nat, string>, s: string)
    requires Tiles(f, chunks) && s != []
    ensures |f| !in chunks && Tiles(f + s, chunks[|f| := s])
  {
    forall b | b in chunks
      ensures b < |f| && Slice(f + s, b, chunks[b])
    {
      SliceAppend(f, s, b, chunks[b]);
    }
    forall b | b in chunks
      ensures EndOf(chunks[|f| := s], b) in chunks[|f| := s]
    {
      assert EndOf(chunks, b) == EndOf(chunks[|f| := s], b);
    }
    assert Slice(f + s, |f|, s) by {
      assert (f + s)[|f|..|f| + |s|] == s;
    }
  }

  // ---- The index file ---------------------------------------------------------------------

  /** An index record as it is written: chain pointer, length, text. */
  function Record(p: nat, b: Body): string {
    Field(p, PTR_SZ) + Field(|Text(b)|, IDXLEN_SZ) + Text(b)
  }

  /** The records _db_readidx accepts. */
  predicate Legible(b: Body) {
    SEP !in b.key && 0 < b.datlen <= DATLEN_MAX && IDXLEN_MIN <= |Text(b)| <= IDXLEN_MAX
  }

  /** The head pointers, the newline after them, and the records. */
  ghost function Chunks(ptr: map<nat, nat>, body: map<nat, Body>): map<nat, string> {
    map o | o in ptr :: if o in body then Record(ptr[o], body[o]) else Field(ptr[o], PTR_SZ)
  }

  ghost predicate Image(idx: string, ptr: map<nat, nat>, body: map<nat, Body>) {
    && (forall o :: o in ptr <==> IsSlot(o) || o in body)
    && (forall o :: o in ptr ==> ptr[o] <= PTR_MAX)
    && (forall o :: o in body ==> o >= FIRST_RECORD && Legible(body[o]))
    && Tiles(idx, Chunks(ptr, body)[FIRST_RECORD - 1 := [NEWLINE]])
  }

  lemma RecordLength(p: nat, b: Body)
    requires p <= PTR_MAX && Legible(b)
    ensures |Record(p, b)| == PTR_SZ + IDXLEN_SZ + |Text(b)|
  {
    PtrField(p);
    LenField(|Text(b)|);
  }

  /** Rewriting a head pointer. */
  lemma WriteSlotImage(idx: string, ptr: map<nat, nat>, body: map<nat, Body>, o: nat, v: nat)
    requires Image(idx, ptr, body) && IsSlot(o) && v <= PTR_MAX
    ensures o + |Field(v, PTR_SZ)| <= |idx| && Image(Overwrite(idx, o, Field(v, PTR_SZ)), ptr[o := v], body)
  {
    hide Slice, Tiles, Field, Record, Text, Legible;
    PtrField(v);
    PtrField(ptr[o]);
    var all := Chunks(ptr, body)[FIRST_RECORD - 1 := [NEWLINE]];
    TilesReplace(idx, all, o, Field(v, PTR_SZ));
    assert Chunks(ptr[o := v], body)[FIRST_RECORD - 1 := [NEWLINE]] == all[o := Field(v, PTR_SZ)];
  }

  /** Rewriting a record in place by one of the same size. */
  lemma RewriteImage(idx: string, ptr: map<nat, nat>, body: map<nat, Body>, o: nat, v: nat, b: Body)
    requires Image(idx, ptr, body) && o in body && v <= PTR_MAX && Legible(b) && |Text(b)| == |Text(body[o])|
    ensures o + |Record(v, b)| <= |idx|
    ensures Image(Overwrite(idx, o, Record(v, b)), ptr[o := v], body[o := b])
  {
    hide Slice, Tiles, Field, Record, Text, Legible;
    RecordLength(v, b);
    RecordLength(ptr[o], body[o]);
    var all := Chunks(ptr, body)[FIRST_RECORD - 1 := [NEWLINE]];
    TilesReplace(idx, all, o, Record(v, b));
    assert Chunks(ptr[o := v], body[o := b])[FIRST_RECORD - 1 := [NEWLINE]] == all[o := Record(v, b)];
  }

  lemma PrefixOverwrite(f: string, a: nat, s: string, t: string, rest: string)
    requires |s| == |t| && Slice(f, a, s + rest)
    ensures Overwrite(f, a, t) == Overwrite(f, a, t + rest)
  {
    assert f[a..a + |s + rest|][|s|..] == rest;
    assert f[a + |s|..] == rest + f[a + |s + rest|..];
  }

  lemma RecordOverwrite(f: string, a: nat, p: nat, v: nat, b: Body)
    requires p <= PTR_MAX && v <= PTR_MAX && Legible(b) && Slice(f, a, Record(p, b))
    ensures a + |Record(v, b)| <= |f| && a + |Field(v, PTR_SZ)| <= |f|
    ensures Overwrite(f, a, Field(v, PTR_SZ)) == Overwrite(f, a, Record(v, b))
  {
    PtrField(v);
    PtrField(p);
    var rest := Field(|Text(b)|, IDXLEN_SZ) + Text(b);
    assert Record(v, b) == Field(v, PTR_SZ) + rest;
    assert Record(p, b) == Field(p, PTR_SZ) + rest;
    PrefixOverwrite(f, a, Field(p, PTR_SZ), Field(v, PTR_SZ), rest);
  }

  lemma ChunkAt(idx: string, ptr: map<nat, nat>, body: map<nat, Body>, o: nat)
    requires Image(idx, ptr, body) && o in ptr
    ensures Slice(idx, o, if o in body then Record(ptr[o], body[o]) else Field(ptr[o], PTR_SZ))
    ensures o in body ==> var e := o + |Record(ptr[o], body[o])|; e == |idx| || e in body
  {
    hide Slice, Field, Record, Text, Legible, Tiles;
    TilesCover(idx, Chunks(ptr, body)[FIRST_RECORD - 1 := [NEWLINE]], o);
  }

  /** Rewriting only the chain pointer of a record. */
  lemma WriteLinkImage(idx: string, ptr: map<nat, nat>, body: map<nat, Body>, o: nat, v: nat)
    requires Image(idx, ptr, body) && o in body && v <= PTR_MAX
    ensures o + |Field(v, PTR_SZ)| <= |idx| && Image(Overwrite(idx, o, Field(v, PTR_SZ)), ptr[o := v], body)
  {
    hide Slice, Tiles, Field, Record, Text, Legible;
    RewriteImage(idx, ptr, body, o, v, body[o]);
    ChunkAt(idx, ptr, body, o);
    RecordOverwrite(idx, o, ptr[o], v, body[o]);
    assert body[o := body[o]] == body;
  }

  /** Appending a record. */
  lemma AppendImage(idx: string, ptr: map<nat, nat>, body: map<nat, Body>, v: nat, b: Body)
    requires Image(idx, ptr, body) && v <= PTR_MAX && Legible(b)
    ensures |idx| !in body && |idx| >= FIRST_RECORD
    ensures Image(idx + Record(v, b), ptr[|idx| := v], body[|idx| := b])
  {
    hide Tiles, Slice, Field, Record, Text, Legible;
    var all := Chunks(ptr, body)[FIRST_RECORD - 1 := [NEWLINE]];
    TilesCover(idx, all, FIRST_RECORD - 1);
    RecordLength(v, b);
    TilesAppend(idx, all, Record(v, b));
    assert Chunks(ptr[|idx| := v], body[|idx| := b])[FIRST_RECORD - 1 := [NEWLINE]] == all[|idx| := Record(v, b)];
  }

  lemma SubSlice(f: string, a: nat, b: nat, i: nat, j: nat)
    requires a <= b <= |f| && i <= j <= b - a
    ensures f[a..b][i..j] == f[a + i..a + j]
  {
    assert forall x :: i <= x < j ==> f[a..b][x] == f[a + x];
  }

  lemma SliceParts(f: string, a: nat, s: string, t: string, u: string)
    requires Slice(f, a, s + t + u)
    ensures f[a..a + |s|] == s && f[a + |s|..a + |s| + |t|] == t
    ensures f[a + |s| + |t|..a + |s| + |t| + |u|] == u
  {
    var c := s + t + u;
    var g := f[a..a + |c|];
    assert g == c;
    SubSlice(f, a, a + |c|, 0, |s|);
    SubSlice(f, a, a + |c|, |s|, |s| + |t|);
    SubSlice(f, a, a + |c|, |s| + |t|, |c|);
  }

  lemma RecordParts(f: string, o: nat, p: nat, b: Body)
    requires p <= PTR_MAX && Legible(b) && Slice(f, o, Record(p, b))
    ensures var t := o + PTR_SZ + IDXLEN_SZ;
            && t + |Text(b)| <= |f|
            && f[o..o + PTR_SZ] == Field(p, PTR_SZ) && f[o + PTR_SZ..t] == Field(|Text(b)|, IDXLEN_SZ)
            && f[t..t + |Text(b)|] == Text(b)
  {
    hide Field, Text;
    PtrField(p);
    LenField(|Text(b)|);
    SliceParts(f, o, Field(p, PTR_SZ), Field(|Text(b)|, IDXLEN_SZ), Text(b));
  }

  /** What the bytes at a pointer say. */
  lemma ReadPtrImage(idx: string, ptr: map<nat, nat>, body: map<nat, Body>, o: nat)
    requires Image(idx, ptr, body) && o in ptr
    ensures o + PTR_SZ <= |idx| && Atol(idx[o..o + PTR_SZ]) == ptr[o]
  {
    hide Field, Text, Record, Legible, Tiles, Atol;
    ChunkAt(idx, ptr, body, o);
    PtrField(ptr[o]);
    if o in body {
      RecordParts(idx, o, ptr[o], body[o]);
    }
  }

  datatype Entry = Entry(ptr: int, body: Body, end: nat)

  /** What the two read calls of _db_readidx and its checks make of the bytes at o; None where it
      gives up with err_dump. */
  function Decode(f: string, o: nat): Option<Entry> {
    var textoff := o + PTR_SZ + IDXLEN_SZ;
    if textoff > |f| then None else
    var len := Atol(f[o + PTR_SZ..textoff]);
    if len < IDXLEN_MIN || len > IDXLEN_MAX || |f| - textoff < len then None else
    var text := f[textoff..textoff + len];
    if text[len - 1] != NEWLINE then None else
    match ParseText(text[..len - 1])
    case None => None
    case Some(b) => Some(Entry(Atol(f[o..o + PTR_SZ]), b, textoff + len))
  }

  /** Every check of _db_readidx passes on a legible record, and it reads that record. */
  lemma DecodeRecord(f: string, o: nat, p: nat, b: Body)
    requires p <= PTR_MAX && Legible(b) && Slice(f, o, Record(p, b))
    ensures Decode(f, o) == Some(Entry(p, b, o + |Record(p, b)|)) && |Record(p, b)| > PTR_SZ + IDXLEN_SZ
  {
    hide Field, Text, Atol, ParseText, Record;
    PtrField(p);
    LenField(|Text(b)|);
    RecordLength(p, b);
    RecordParts(f, o, p, b);
    ParseRoundTrip(b);
    TextEnds(b);
  }

  lemma TextEnds(b: Body)
    ensures |Text(b)| > 0 && Text(b)[|Text(b)| - 1] == NEWLINE
  {}

  lemma DecodeImage(idx: string, ptr: map<nat, nat>, body: map<nat, Body>, o: nat)
    requires Image(idx, ptr, body) && o in body
    ensures exists e :: o + PTR_SZ + IDXLEN_SZ < e <= |idx| && IsNext(idx, body, o, e)
                     && Decode(idx, o) == Some(Entry(ptr[o], body[o], e))
  {
    hide Field, Record, Text, Legible, Decode, Tiles;
    ChunkAt(idx, ptr, body, o);
    DecodeRecord(idx, o, ptr[o], body[o]);
    var e := o + |Record(ptr[o], body[o])|;
    assert Decode(idx, o) == Some(Entry(ptr[o], body[o], e));
    forall p | p in body && p > o
      ensures p >= e
    {
      TilesApart(idx, Chunks(ptr, body)[FIRST_RECORD - 1 := [NEWLINE]], o, p);
    }
  }

  /** The record after the one at o starts at e, or e is the end of the file. */
  ghost predicate IsNext(idx: string, body: map<nat, Body>, o: nat, e: nat) {
    o < e && (e == |idx| || e in body) && forall p :: p in body && p > o ==> p >= e
  }

  lemma TilesApart(f: string, chunks: map<nat, string>, a: nat, b: nat)
    requires Tiles(f, chunks) && a in chunks && b in chunks && a < b
    ensures a + |chunks[a]| <= b
  {}

  /** Where the first record is, and that no record starts at or after the end. */
  lemma FirstRecord(idx: string, ptr: map<nat, nat>, body: map<nat, Body>)
    requires Image(idx, ptr, body)
    ensures FIRST_RECORD == |idx| || FIRST_RECORD in body
    ensures forall o :: o in body ==> o < |idx|
  {
    hide Slice, Record, Field, Text, Legible, Tiles;
    var all := Chunks(ptr, body)[FIRST_RECORD - 1 := [NEWLINE]];
    TilesCover(idx, all, FIRST_RECORD - 1);
    forall o | o in body
      ensures o < |idx|
    {
      TilesCover(idx, all, o);
    }
  }

  lemma LegibleRecord(idx: string, ptr: map<nat, nat>, body: map<nat, Body>, o: nat)
    requires Image(idx, ptr, body) && o in body
    ensures SEP !in body[o].key && IDXLEN_MIN <= |Text(body[o])| <= IDXLEN_MAX && o in ptr && o >= FIRST_RECORD
  {}

  /** Blanking a key keeps the size of its record. */
  lemma BlankedText(b: Body)
    ensures |Text(Blanked(b))| == |Text(b)| && SEP !in Blanked(b).key
  {}

  lemma SameSizeText(b: Body, b': Body)
    requires |b.key| == |b'.key| && b.datoff == b'.datoff && b.datlen == b'.datlen
    ensures |Text(b)| == |Text(b')|
  {}

  /** What an appended index record must satisfy to be written and pointed at. */
  predicate NewRecordFits(b: Body, offset: nat) {
    IDXLEN_MIN <= |Text(b)| <= IDXLEN_MAX && offset <= PTR_MAX
  }

  lemma NewRecordPlace(idx: string, ptr: map<nat, nat>, body: map<nat, Body>)
    requires Image(idx, ptr, body)
    ensures |idx| !in body && |idx| >= FIRST_RECORD && forall o :: o in ptr ==> ptr[o] <= PTR_MAX
  {
    var all := Chunks(ptr, body)[FIRST_RECORD - 1 := [NEWLINE]];
    hide Slice, Record, Field, Text, Legible;
    TilesCover(idx, all, FIRST_RECORD - 1);
    assert |all[FIRST_RECORD - 1]| == 1;
    SliceBound(idx, FIRST_RECORD - 1, all[FIRST_RECORD - 1]);
    if |idx| in body {
      TilesCover(idx, all, |idx|);
    }
  }

  lemma SliceBound(f: string, a: nat, s: string)
    requires Slice(f, a, s)
    ensures a + |s| <= |f|
  {}

  // ---- The empty index file -------------------------------------------------------------------

  /** n head pointers with value 0. */
  function Zeros(n: nat): string { if n == 0 then "" else Zeros(n - 1) + Field(0, PTR_SZ) }

  lemma {:induction false} ZerosSlices(n: nat, i: nat)
    requires i < n
    ensures |Zeros(n)| == n * PTR_SZ && Slice(Zeros(n), i * PTR_SZ, Field(0, PTR_SZ))
  {
    PtrField(0);
    if n > 1 {
      ZerosSlices(n - 1, if i < n - 1 then i else 0);
      if i < n - 1 {
        SliceAppend(Zeros(n - 1), Field(0, PTR_SZ), i * PTR_SZ, Field(0, PTR_SZ));
      }
    }
  }

  lemma ZeroChunks(o: nat)
    requires IsSlot(o)
    ensures Slice(Zeros(NHASH + 1) + [NEWLINE], o, Field(0, PTR_SZ))
    ensures IsSlot(o + PTR_SZ) || o + PTR_SZ == FIRST_RECORD - 1
  {
    hide Field, Slice, Zeros;
    ZerosSlices(NHASH + 1, o / PTR_SZ);
    SliceAppend(Zeros(NHASH + 1), [NEWLINE], o, Field(0, PTR_SZ));
  }

  /** The freshly initialised index file: all lists are empty. */
  lemma EmptyImage()
    ensures Image(Zeros(NHASH + 1) + [NEWLINE], ZeroPtrs(), map[])
  {
    hide Field, Slice;
    PtrField(0);
    var f := Zeros(NHASH + 1) + [NEWLINE];
    ZerosSlices(NHASH + 1, 0);
    var all := Chunks(ZeroPtrs(), map[])[FIRST_RECORD - 1 := [NEWLINE]];
    forall o | o in all && o != FIRST_RECORD - 1
      ensures all[o] == Field(0, PTR_SZ) && Slice(f, o, all[o]) && EndOf(all, o) in all && IsSlot(o)
    {
      ZeroChunks(o);
    }
    LastSlice(Zeros(NHASH + 1), [NEWLINE]);
    assert Tiles(f, all);
  }

  lemma LastSlice(f: string, s: string)
    ensures Slice(f + s, |f|, s)
  {
    assert (f + s)[|f|..|f| + |s|] == s;
  }
}
