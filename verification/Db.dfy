/** The database library on its two files, one process: every operation of db.c down to the bytes
    it writes. Locks are the subject of DbProtocol. */
module Db {
  import opened Options
  import opened AsciiFields
  import opened DbRecords
  import opened DbBytes
  import opened DbMap

  /** Dead: the process ended in err_dump or err_quit, with the index buffer overrun before or not. */
  datatype Status = Alive | Dead(overrun: bool) {
    predicate IsFailure() { Dead? }

    function PropagateFailure(): Status
      requires Dead?
    {
      this
    }
  }

  /** The characters allocated for the index buffer. */
  const IDXBUF_SIZE: nat := IDXLEN_MAX + 2

  /** The index buffer has room for the text of the record and the null character after it. */
  predicate BufferHolds(b: Body) { |Text(b)| + 1 <= IDXBUF_SIZE }

  /** The longest key for which the record is printed within the buffer. */
  lemma BufferHoldsKeys(b: Body)
    ensures BufferHolds(b) <==> |b.key| + |Decimal(b.datoff)| + |Decimal(b.datlen)| <= IDXLEN_MAX - 2
    ensures |b.key| > IDXLEN_MAX - 4 ==> !BufferHolds(b)
  {
    assert |Decimal(b.datoff)| >= 1 && |Decimal(b.datlen)| >= 1;
  }

  datatype ReadResult = Eof | Dump | Read(next: int)

  /** The bytes of the index file are the pointers and records of k, and these are in order. */
  ghost predicate ValidFiles(idx: string, dat: string, k: Links) {
    Image(idx, k.ptr, k.body) && Consistent(k, dat)
  }

  /** The record at position i of list c is b at offset o, with next pointer p, reached through the
      pointer at offset from. */
  predicate Current(k: Links, c: nat, i: nat, b: Body, o: nat, p: int, from: nat) {
    && c <= NHASH && Placed(k, c, i) && o == k.lists[c][i] && b == k.body[o]
    && p == k.ptr[o] == Next(k.lists[c], i + 1) && from == Cell(Slot(c), k.lists[c], i)
  }

  /** The cases in which db_store appends a new record. */
  ghost predicate MustAppend(k: Links, dat: string, key: string, data: string, flag: int) {
    if key in View(k, dat) then flag != DB_INSERT && |View(k, dat)[key]| != |data|
    else flag != DB_REPLACE && !HasFree(k, |key|, |data| + 1)
  }

  /** The cases in which db_store ends the process: the data is too short or too long, or a new
      record is needed whose index text has a forbidden length or whose offset has no place in a
      pointer field. */
  ghost predicate StoreDies(k: Links, end: nat, dat: string, key: string, data: string, flag: int) {
    || !(DATLEN_MIN <= |data| + 1 <= DATLEN_MAX)
    || (MustAppend(k, dat, key, data, flag) && !NewRecordFits(Body(key, |dat|, |data| + 1), end))
  }

  class Database {
    // the files
    var idx: string
    var dat: string
    // the fields of the DB structure
    var pos: nat
    var idxbuf: string
    var datbuf: string
    var idxoff: nat
    var datoff: nat
    var datlen: nat
    var ptrval: int
    var ptroff: nat
    var chainoff: nat
    // the records the index file is made of
    ghost var k: Links

    /** db_open, creating or truncating the two files. */
    constructor Create()
      ensures ValidFiles(idx, dat, k) && AllListed(k)
      ensures View(k, dat) == map[]
      ensures pos == FIRST_RECORD
    {
      hide Image, Consistent, View, EmptyLinks, AllListed, Field;
      EmptyImage();
      EmptyConsistent();
      var hash := "";
      var i := 0;
      while i < NHASH + 1
        invariant 0 <= i <= NHASH + 1 && hash == Zeros(i)
      {
        hash := hash + Field(0, PTR_SZ);
        i := i + 1;
      }
      idx, dat := hash + [NEWLINE], "";
      pos, idxoff := FIRST_RECORD, FIRST_RECORD;
      idxbuf, datbuf, datoff, datlen, ptrval, ptroff, chainoff := "", "", 0, 0, 0, 0, 0;
      k := EmptyLinks();
    }

    method ReadPtr(offset: nat) returns (p: int)
      requires Image(idx, k.ptr, k.body) && offset in k.ptr
      modifies `pos
      ensures p == k.ptr[offset]
    {
      ReadPtrImage(idx, k.ptr, k.body, offset);
      var asciiptr := idx[offset..offset + PTR_SZ];
      pos := offset + PTR_SZ;
      p := Atol(asciiptr);
    }

    method WritePtr(offset: nat, v: nat) returns (st: Status)
      requires Image(idx, k.ptr, k.body) && offset in k.ptr
      modifies `pos, `idx, `k
      ensures Image(idx, k.ptr, k.body)
      ensures st == if v > PTR_MAX then Dead(false) else Alive
      ensures st.Dead? ==> idx == old(idx) && k == old(k)
      ensures st.Alive? ==> k == old(k).(ptr := old(k).ptr[offset := v]) && |idx| == old(|idx|)
    {
      if v > PTR_MAX {
        return Dead(false);
      }
      var asciiptr := Field(v, PTR_SZ);
      if offset in k.body {
        WriteLinkImage(idx, k.ptr, k.body, offset, v);
      } else {
        WriteSlotImage(idx, k.ptr, k.body, offset, v);
      }
      idx := Overwrite(idx, offset, asciiptr);
      pos := offset + |asciiptr|;
      k := k.(ptr := k.ptr[offset := v]);
      return Alive;
    }

    method ReadIdx(offset: nat) returns (r: ReadResult)
      requires Image(idx, k.ptr, k.body)
      requires if offset == 0 then pos == |idx| || pos in k.body else offset in k.body
      modifies `pos, `idxbuf, `idxoff, `datoff, `datlen, `ptrval
      ensures idxoff == if offset == 0 then old(pos) else offset
      ensures idxoff !in k.body ==> r == Eof && pos == |idx|
      ensures idxoff in k.body ==>
                && r == Read(k.ptr[idxoff]) && ptrval == k.ptr[idxoff]
                && Body(idxbuf, datoff, datlen) == k.body[idxoff]
                && IsNext(idx, k.body, idxoff, pos)
    {
      hide Decode, Image;
      idxoff := if offset == 0 then pos else offset;
      var got := if idxoff >= |idx| then 0 else |idx| - idxoff;
      if idxoff in k.body {
        DecodeImage(idx, k.ptr, k.body, idxoff);
      }
      if got < PTR_SZ + IDXLEN_SZ {
        if got == 0 && offset == 0 {
          return Eof;
        }
        return Dump;
      }
      match Decode(idx, idxoff)
      case None =>
        return Dump;
      case Some(e) =>
        ptrval, idxbuf, datoff, datlen, pos := e.ptr, e.body.key, e.body.datoff, e.body.datlen, e.end;
        return Read(ptrval);
    }

    /** Writes the index record for key at the given offset, or at the end of the file. */
    method WriteIdx(key: string, offset: nat, append: bool, p: nat) returns (st: Status)
      requires Image(idx, k.ptr, k.body) && SEP !in key && 0 < datlen <= DATLEN_MAX
      requires !append ==> offset in k.body && |Text(Body(key, datoff, datlen))| == |Text(k.body[offset])|
      modifies `pos, `idx, `idxbuf, `idxoff, `ptrval, `k
      ensures Image(idx, k.ptr, k.body)
      ensures st.Dead? <==> p > PTR_MAX || !(IDXLEN_MIN <= |Text(Body(key, datoff, datlen))| <= IDXLEN_MAX)
      ensures st.Dead? ==> (st.overrun <==> p <= PTR_MAX && !BufferHolds(Body(key, datoff, datlen)))
      ensures st.Dead? ==> idx == old(idx) && k == old(k)
      ensures st.Alive? ==> idxoff == if append then old(|idx|) else offset
      ensures st.Alive? ==> k == Written(old(k), idxoff, p, Body(key, datoff, datlen))
      ensures st.Alive? && !append ==> |idx| == old(|idx|)
      ensures st.Alive? && append ==> old(|idx|) >= FIRST_RECORD && old(|idx|) !in old(k.body)
    {
      hide Image, Text, Field, Overwrite;
      var b := Body(key, datoff, datlen);
      ptrval := p;
      if p > PTR_MAX {
        return Dead(false);
      }
      idxbuf := Text(b);
      var len := |idxbuf|;
      if len < IDXLEN_MIN || len > IDXLEN_MAX {
        return Dead(len + 1 > IDXBUF_SIZE);
      }
      var record := Field(p, PTR_SZ) + Field(len, IDXLEN_SZ) + idxbuf;
      idxoff := if append then |idx| else offset;
      if append {
        AppendImage(idx, k.ptr, k.body, p, b);
        idx := idx + record;
      } else {
        RewriteImage(idx, k.ptr, k.body, offset, p, b);
        OverwriteLength(idx, offset, record);
        idx := Overwrite(idx, offset, record);
      }
      pos := idxoff + |record|;
      k := Written(k, idxoff, p, b);
      return Alive;
    }

    /** Reads the current data record. */
    method ReadDat() returns (r: Option<string>)
      requires datlen > 0
      modifies `datbuf
      ensures r == if datoff + datlen <= |dat| && dat[datoff + datlen - 1] == NEWLINE
                   then Some(dat[datoff..datoff + datlen - 1]) else None
    {
      if |dat| - datoff < datlen {
        return None;
      }
      datbuf := dat[datoff..datoff + datlen];
      if datbuf[datlen - 1] != NEWLINE {
        return None;
      }
      SubSlice(dat, datoff, datoff + datlen, 0, datlen - 1);
      datbuf := datbuf[..datlen - 1];
      return Some(datbuf);
    }

    /** Writes a data record at the given offset, or at the end of the file. */
    method WriteDat(data: string, offset: nat, append: bool)
      requires !append ==> offset + |data| + 1 <= |dat|
      modifies `dat, `datoff, `datlen
      ensures datoff == (if append then old(|dat|) else offset) && datlen == |data| + 1
      ensures dat == if append then old(dat) + (data + [NEWLINE]) else Overwrite(old(dat), offset, data + [NEWLINE])
    {
      datoff := if append then |dat| else offset;
      datlen := |data| + 1;
      dat := if append then dat + (data + [NEWLINE]) else Overwrite(dat, offset, data + [NEWLINE]);
    }

    /** The sum of the characters of key, each times its place, as _db_hash forms it. */
    method HashKey(key: string) returns (h: nat)
      ensures h == Hash(key)
    {
      var hval := 0;
      var i := 0;
      while i < |key|
        invariant i <= |key| && 0 <= hval && hval == HashSum(key, i) % ULONG
      {
        i := i + 1;
        AddModulo(HashSum(key, i - 1), CharCode(key[i - 1]) * i);
        hval := (hval + CharCode(key[i - 1]) * i) % ULONG;
      }
      h := hval % NHASH;
    }

    /** Looks for key on its chain. On success the record fields are those of its index record and
        ptroff is the offset of the chain pointer that leads to it. */
    method FindAndLock(key: string) returns (found: bool, ghost i: nat)
      requires ValidFiles(idx, dat, k)
      modifies `pos, `idxbuf, `idxoff, `datoff, `datlen, `ptrval, `ptroff, `chainoff
      ensures chainoff == Slot(Hash(key) + 1)
      ensures found <==> key in k.at
      ensures found ==> Current(k, Hash(key) + 1, i, Body(idxbuf, datoff, datlen), idxoff, ptrval, ptroff)
      ensures found ==> idxoff == k.at[key] && idxbuf == key && idxoff in k.body && datlen == k.body[idxoff].datlen
    {
      hide Image, Consistent, Hash;
      var h := HashKey(key);
      chainoff := h * PTR_SZ + HASH_OFF;
      ptroff := chainoff;
      ghost var c := Hash(key) + 1;
      ListFacts(k, dat, c);
      ghost var l := k.lists[c];
      assert Cell(Slot(c), l, 0) == chainoff;
      var offset := ReadPtr(ptroff);
      i := 0;
      while offset != 0
        invariant chainoff == Slot(c) && i <= |l| && offset == Next(l, i) && ptroff == Cell(Slot(c), l, i)
        invariant forall a :: 0 <= a < i ==> k.body[l[a]].key != key
        decreases |l| - i
      {
        var r := ReadIdx(offset);
        if idxbuf == key {
          break;
        }
        ptroff := offset;
        offset := r.next;
        i := i + 1;
        assert Cell(Slot(c), l, i) == ptroff;
      }
      found := offset != 0;
      if found {
        assert Cell(Slot(c), l, i + 1) == offset;
        FoundOnChain(k, dat, c, i);
      }
      if key in k.at {
        LiveOnChain(k, dat, key);
      }
    }

    /** A string overwritten with blanks, character by character. */
    method BlankOut(n: nat) returns (s: string)
      ensures s == Blanks(n)
    {
      s := "";
      while |s| < n
        invariant s == Blanks(|s|) && |s| <= n
      {
        s := s + [SPACE];
      }
    }

    /** Deletes the current record, which is at position i of chain c. */
    method DoDelete(ghost c: nat, ghost i: nat)
      requires ValidFiles(idx, dat, k) && 0 < c
               && Current(k, c, i, Body(idxbuf, datoff, datlen), idxoff, ptrval, ptroff)
      modifies `pos, `idx, `dat, `idxbuf, `datbuf, `idxoff, `datoff, `datlen, `ptrval, `k
      ensures ValidFiles(idx, dat, k)
      ensures View(k, dat) == old(View(k, dat)) - {old(idxbuf)}
      ensures k.at == old(k.at) - {old(idxbuf)}
      ensures k == Freed(old(k), c, i)
      ensures k.home.Keys == old(k).home.Keys && k.body.Keys == old(k).body.Keys
      ensures |idx| == old(|idx|) && |dat| == old(|dat|)
    {
      hide Current, Placed, Consistent, Image, Freed, Blanked, Text, View, WipedData, Overwrite, Blanks;
      DeletePlan(idx, dat, k, c, i, Body(idxbuf, datoff, datlen), idxoff, ptrval, ptroff);
      ghost var k0, dat0, b := k, dat, Body(idxbuf, datoff, datlen);
      datbuf := BlankOut(datlen - 1);
      var blankkey := BlankOut(|idxbuf|);
      WriteDat(datbuf, datoff, false);
      assert dat == WipedData(b, dat0);
      var freeptr := ReadPtr(FREE_OFF);
      var saveptr := ptrval;
      var st := WriteIdx(blankkey, idxoff, false, freeptr);
      assert k == Written(k0, idxoff, k0.ptr[0], Blanked(b));
      st := WritePtr(FREE_OFF, idxoff);
      st := WritePtr(ptroff, saveptr);
      k := Freed(k0, c, i);
    }

    method Fetch(key: string) returns (r: Option<string>)
      requires ValidFiles(idx, dat, k)
      modifies `pos, `idxbuf, `datbuf, `idxoff, `datoff, `datlen, `ptrval, `ptroff, `chainoff
      ensures r == if key in View(k, dat) then Some(View(k, dat)[key]) else None
    {
      hide Image, Consistent, View;
      AtIsView(k, dat, key);
      var found, i := FindAndLock(key);
      if !found {
        return None;
      }
      r := ReadDat();
    }

    method Delete(key: string) returns (rc: int)
      requires ValidFiles(idx, dat, k)
      modifies this
      ensures ValidFiles(idx, dat, k)
      ensures rc == if key in old(View(k, dat)) then 0 else -1
      ensures View(k, dat) == old(View(k, dat)) - {key}
      ensures old(AllListed(k)) ==> AllListed(k)
    {
      hide Image, Consistent, View, Freed, Placed, Cell;
      AtIsView(k, dat, key);
      var found, i := FindAndLock(key);
      if found {
        DoDelete(Hash(key) + 1, i);
        rc := 0;
      } else {
        rc := -1;
      }
    }

    /** Takes a record of exactly these sizes off the free list and makes it the current one. */
    method FindFree(keylen: nat, want: nat) returns (found: bool, ghost i: nat)
      requires ValidFiles(idx, dat, k)
      modifies `pos, `idx, `idxbuf, `idxoff, `datoff, `datlen, `ptrval, `k
      ensures ValidFiles(idx, dat, k) && |idx| == old(|idx|)
      ensures found <==> HasFree(old(k), keylen, want)
      ensures !found ==> k == old(k)
      ensures found ==> Placed(old(k), 0, i) && k == Detached(old(k), 0, i) && idxoff == old(k).lists[0][i]
      ensures found ==>
                idxoff in k.body && Body(idxbuf, datoff, datlen) == k.body[idxoff] && Fits(k.body[idxoff], keylen, want)
    {
      hide Image, Consistent, View, Shape, Detached;
      ListFacts(k, dat, 0);
      ghost var l := k.lists[0];
      assert Cell(Slot(0), l, 0) == FREE_OFF;
      var saveoffset := FREE_OFF;
      var offset := ReadPtr(saveoffset);
      i := 0;
      while offset != 0
        invariant k == old(k) && idx == old(idx) && Image(idx, k.ptr, k.body)
        invariant i <= |l| && offset == Next(l, i) && saveoffset == Cell(Slot(0), l, i)
        invariant forall a :: 0 <= a < i ==> !Fits(k.body[l[a]], keylen, want)
        decreases |l| - i
      {
        var r := ReadIdx(offset);
        if |idxbuf| == keylen && datlen == want {
          break;
        }
        saveoffset := offset;
        offset := r.next;
        i := i + 1;
        assert Cell(Slot(0), l, i) == saveoffset;
      }
      found := offset != 0;
      if found {
        assert Cell(Slot(0), l, i + 1) == offset;
        assert Placed(k, 0, i);
        ConsistentParts(k, dat, offset);
        DetachedMap(k, dat, 0, i, offset);
        DetachedPointers(k, 0, i);
        ghost var k0 := k;
        var st := WritePtr(saveoffset, ptrval);
        k := Detached(k0, 0, i);
      }
    }

    /** Appends data and index record at the ends of the two files and puts the record in front of
        its chain: the steps db_store takes in two places. */
    method AppendRecord(key: string, data: string, p: nat) returns (st: Status)
      requires ValidFiles(idx, dat, k) && SEP !in key && key !in k.at && DATLEN_MIN <= |data| + 1 <= DATLEN_MAX
      requires chainoff == Slot(Hash(key) + 1) && chainoff in k.ptr && p == k.ptr[chainoff] && p <= PTR_MAX
      modifies `pos, `idx, `dat, `idxbuf, `idxoff, `datoff, `datlen, `ptrval, `k
      ensures ValidFiles(idx, dat, k)
      ensures st.Dead? <==> !NewRecordFits(Body(key, old(|dat|), |data| + 1), old(|idx|))
      ensures st.Dead? ==> (st.overrun <==> !BufferHolds(Body(key, old(|dat|), |data| + 1)))
      ensures View(k, dat) == if st.Dead? then old(View(k, dat)) else old(View(k, dat))[key := data]
      ensures st.Alive? && old(AllListed(k)) ==> AllListed(k)
    {
      hide Image, Consistent, Text, View, Hash, Stored;
      ghost var k0, dat0, b := k, dat, Body(key, |dat|, |data| + 1);
      ghost var c, o := Hash(key) + 1, |idx|;
      NewRecordPlace(idx, k.ptr, k.body);
      ListFacts(k, dat, c);
      HomesAreRecords(k, dat);
      StoredParts(k, c, o, b);
      AppendedExtent(k, dat, o, key, data);
      WriteDat(data, 0, true);
      :- WriteIdx(key, 0, true, p);
      WrittenMap(k0, dat0, dat, o, p, b);
      :- WritePtr(chainoff, idxoff);
      StoredMap(k0, dat0, dat, c, o, b);
      k := Stored(k0, c, o, b);
      return Alive;
    }

    /** Fills the record that FindFree took off the free list and puts it in front of its chain. */
    method Reuse(key: string, data: string, p: nat)
      requires ValidFiles(idx, dat, k) && SEP !in key && key !in k.at
      requires idxoff in k.body && idxoff !in k.home && idxoff <= PTR_MAX
               && Body(idxbuf, datoff, datlen) == k.body[idxoff]
      requires Fits(k.body[idxoff], |key|, |data| + 1)
      requires chainoff == Slot(Hash(key) + 1) && chainoff in k.ptr && p == k.ptr[chainoff] && p <= PTR_MAX
      modifies `pos, `idx, `dat, `idxbuf, `idxoff, `datoff, `datlen, `ptrval, `k
      ensures ValidFiles(idx, dat, k)
      ensures View(k, dat) == old(View(k, dat))[key := data]
      ensures k.body.Keys == old(k.body).Keys && k.home.Keys == old(k.home).Keys + {old(idxoff)}
    {
      hide Image, Consistent, Text, View, Hash, WithData, SameExcept, Stored, ExtentOk, Apart;
      ghost var k0, dat0, o, b := k, dat, idxoff, Body(key, datoff, datlen);
      ghost var c := Hash(key) + 1;
      ListFacts(k, dat, c);
      ConsistentParts(k, dat, o);
      LegibleRecord(idx, k.ptr, k.body, o);
      ReplaceFits(k, dat, o, data);
      StoredParts(k, c, o, b);
      ReuseExtent(k, dat, o, b, data);
      SameSizeText(k.body[o], b);
      StoredMap(k, dat, WithData(dat, k.body[o], data), c, o, b);
      WriteDat(data, datoff, false);
      var st := WriteIdx(key, idxoff, false, p);
      st := WritePtr(chainoff, idxoff);
      k := Stored(k0, c, o, b);
    }

    /** db_store when the key is not there: a record of the right sizes is reused, or a new one
        appended. */
    method StoreMissing(key: string, data: string) returns (st: Status)
      requires ValidFiles(idx, dat, k) && SEP !in key && key !in k.at && DATLEN_MIN <= |data| + 1 <= DATLEN_MAX
      requires chainoff == Slot(Hash(key) + 1)
      modifies `pos, `idx, `dat, `idxbuf, `idxoff, `datoff, `datlen, `ptrval, `k
      ensures ValidFiles(idx, dat, k)
      ensures st.Dead? <==>
                !HasFree(old(k), |key|, |data| + 1) && !NewRecordFits(Body(key, old(|dat|), |data| + 1), old(|idx|))
      ensures st.Dead? ==> (st.overrun <==> !BufferHolds(Body(key, old(|dat|), |data| + 1)))
      ensures View(k, dat) == if st.Dead? then old(View(k, dat)) else old(View(k, dat))[key := data]
      ensures st.Alive? && old(AllListed(k)) ==> AllListed(k)
    {
      hide Image, Consistent, View, Hash, Text, HasFree, NewRecordFits, Fits, BufferHolds;
      ListFacts(k, dat, Hash(key) + 1);
      ListHead(k, dat, Hash(key) + 1);
      var p := ReadPtr(chainoff);
      ghost var k0 := k;
      var free, j := FindFree(|key|, |data| + 1);
      if !free {
        st := AppendRecord(key, data, p);
      } else {
        DetachedMap(k0, dat, 0, j, idxoff);
        TakenFacts(k0, dat, j, Hash(key) + 1);
        Reuse(key, data, p);
        st := Alive;
      }
    }

    /** db_store when the key is there and is the current record: data of the same length is
        overwritten, otherwise the record is deleted and a new one appended. */
    method StoreExisting(key: string, data: string, ghost i: nat) returns (st: Status)
      requires ValidFiles(idx, dat, k) && SEP !in key && key in k.at && DATLEN_MIN <= |data| + 1 <= DATLEN_MAX
      requires Current(k, Hash(key) + 1, i, Body(idxbuf, datoff, datlen), idxoff, ptrval, ptroff) && idxbuf == key
               && idxoff == k.at[key] && chainoff == Slot(Hash(key) + 1)
      modifies `pos, `idx, `dat, `idxbuf, `datbuf, `idxoff, `datoff, `datlen, `ptrval, `k
      ensures ValidFiles(idx, dat, k)
      ensures st.Dead? <==> old(datlen) != |data| + 1 && !NewRecordFits(Body(key, old(|dat|), |data| + 1), old(|idx|))
      ensures st.Dead? ==> (st.overrun <==> !BufferHolds(Body(key, old(|dat|), |data| + 1)))
      ensures View(k, dat) == if st.Dead? then old(View(k, dat)) - {key} else old(View(k, dat))[key := data]
      ensures st.Alive? && old(AllListed(k)) ==> AllListed(k)
    {
      hide Image, Consistent, View, Hash, Text, NewRecordFits, Freed, Placed, Cell, Slot, IsList, Live, WithData,
        BufferHolds;
      AtIsView(k, dat, key);
      ReplaceFits(k, dat, idxoff, data);
      if |data| + 1 != datlen {
        DoDelete(Hash(key) + 1, i);
        ListFacts(k, dat, Hash(key) + 1);
        ListHead(k, dat, Hash(key) + 1);
        var p := ReadPtr(chainoff);
        st := AppendRecord(key, data, p);
      } else {
        ReplacedMap(k, dat, idxoff, data);
        WriteDat(data, datoff, false);
        st := Alive;
      }
    }

    method Store(key: string, data: string, flag: int) returns (st: Status, rc: int)
      requires ValidFiles(idx, dat, k) && SEP !in key
      modifies this
      ensures ValidFiles(idx, dat, k)
      ensures flag !in {DB_INSERT, DB_REPLACE, DB_STORE} ==> st.Alive?
      ensures flag in {DB_INSERT, DB_REPLACE, DB_STORE} ==>
                (st.Dead? <==> StoreDies(old(k), old(|idx|), old(dat), key, data, flag))
      ensures st.Dead? ==> (st.overrun <==>
                DATLEN_MIN <= |data| + 1 <= DATLEN_MAX && !BufferHolds(Body(key, old(|dat|), |data| + 1)))
      ensures st.Alive? ==> rc == StoreCode(old(View(k, dat)), key, flag)
      ensures st.Alive? ==> View(k, dat) == if rc == 0 then old(View(k, dat))[key := data] else old(View(k, dat))
      ensures st.Alive? && old(AllListed(k)) ==> AllListed(k)
      ensures st.Dead? ==> View(k, dat) == if DATLEN_MIN <= |data| + 1 <= DATLEN_MAX then old(View(k, dat)) - {key}
              else old(View(k, dat))
    {
      hide ValidFiles, View, MustAppend, HasFree, NewRecordFits, Current, Hash, AllListed, Text, BufferHolds;
      if flag != DB_INSERT && flag != DB_REPLACE && flag != DB_STORE {
        return Alive, -1;
      }
      rc := -1;
      if |data| + 1 < DATLEN_MIN || |data| + 1 > DATLEN_MAX {
        return Dead(false), rc;
      }
      StoreCases(idx, dat, k, key, data, flag);
      RemoveAbsent(View(k, dat), key);
      var found, i := FindAndLock(key);
      if !found {
        if flag == DB_REPLACE {
          return Alive, -1;
        }
        st := StoreMissing(key, data);
      } else {
        if flag == DB_INSERT {
          return Alive, 1;
        }
        CurrentData(idx, dat, k, key);
        st := StoreExisting(key, data, i);
      }
      rc := 0;
    }

    method Rewind()
      requires ValidFiles(idx, dat, k)
      modifies `pos, `idxoff
      ensures pos == |idx| || pos in k.body
      ensures Pending(k.body, pos) == Pending(k.body, FIRST_RECORD)
    {
      FirstRecord(idx, k.ptr, k.body);
      pos := (NHASH + 1) * PTR_SZ + 1;
      idxoff := pos;
    }

    /** Returns the next record whose key is not all blanks. */
    method NextRec() returns (r: Option<(string, string)>)
      requires ValidFiles(idx, dat, k) && (pos == |idx| || pos in k.body)
      modifies `pos, `idxbuf, `datbuf, `idxoff, `datoff, `datlen, `ptrval
      ensures pos == |idx| || pos in k.body
      ensures r.None? <==> Pending(k.body, old(pos)) == {}
      ensures r.Some? ==>
                idxoff in Pending(k.body, old(pos)) && Pending(k.body, pos) == Pending(k.body, old(pos)) - {idxoff}
      ensures r.Some? ==> forall o :: o in Pending(k.body, old(pos)) ==> idxoff <= o
      ensures r.Some? ==> r.value == (k.body[idxoff].key, Value(k.body[idxoff], dat))
    {
      hide Image, Shape, Keyed;
      FirstRecord(idx, k.ptr, k.body);
      var blank := true;
      while blank
        invariant pos == |idx| || pos in k.body
        invariant blank ==> Pending(k.body, pos) == Pending(k.body, old(pos))
        invariant !blank ==>
                    idxoff in k.body && Body(idxbuf, datoff, datlen) == k.body[idxoff]
                    && IsNext(idx, k.body, idxoff, pos)
        invariant !blank ==> !AllBlank(idxbuf) && Pending(k.body, idxoff) == Pending(k.body, old(pos))
        decreases blank, |idx| - pos
      {
        var at := ReadIdx(0);
        if at == Eof {
          assert Pending(k.body, |idx|) == {};
          return None;
        }
        var i := 0;
        while i < |idxbuf| && idxbuf[i] == SPACE
          invariant i <= |idxbuf| && forall j :: 0 <= j < i ==> idxbuf[j] == SPACE
        {
          i := i + 1;
        }
        blank := i == |idxbuf|;
        assert Pending(k.body, pos) == Pending(k.body, idxoff) - {idxoff};
        if blank {
          assert idxoff !in Pending(k.body, idxoff);
        }
      }
      assert idxoff in Pending(k.body, idxoff) && Pending(k.body, pos) == Pending(k.body, idxoff) - {idxoff};
      var data := ReadDat();
      r := Some((idxbuf, data.value));
    }
  }

  /** What deleting the current record needs and does. */
  lemma DeletePlan(idx: string, dat: string, k: Links, c: nat, i: nat, b: Body, o: nat, p: int, from: nat)
    requires ValidFiles(idx, dat, k) && 0 < c && Current(k, c, i, b, o, p, from)
    ensures Placed(k, c, i) && o in k.body && b == k.body[o] && 0 in k.ptr && from in k.ptr
    ensures k.ptr[0] <= PTR_MAX && o <= PTR_MAX && 0 <= p <= PTR_MAX
    ensures Freed(k, c, i).ptr == k.ptr[o := k.ptr[0]][0 := o][from := p]
    ensures Freed(k, c, i).body == k.body[o := Blanked(b)] && Freed(k, c, i).at == k.at - {b.key}
    ensures Freed(k, c, i).home.Keys == k.home.Keys
    ensures Blanked(b) == Body(Blanks(|b.key|), b.datoff, b.datlen) && SEP !in Blanks(|b.key|)
    ensures IDXLEN_MIN <= |Text(Blanked(b))| == |Text(b)| <= IDXLEN_MAX
    ensures 0 < b.datlen <= DATLEN_MAX && |Blanks(b.datlen - 1)| == b.datlen - 1 && b.datoff + b.datlen <= |dat|
    ensures WipedData(b, dat) == Overwrite(dat, b.datoff, Blanks(b.datlen - 1) + [NEWLINE])
            && |WipedData(b, dat)| == |dat|
    ensures Consistent(Freed(k, c, i), WipedData(b, dat))
    ensures View(Freed(k, c, i), WipedData(b, dat)) == View(k, dat) - {b.key}
  {
    hide Consistent, Image, Shape, Freed, Text, View, WipedData, Overwrite, Blanks;
    ConsistentParts(k, dat, o);
    FreedPointers(k, c, i);
    BlankedText(b);
    LegibleRecord(idx, k.ptr, k.body, o);
    WipedDataIs(b, dat);
    FreedMap(k, dat, c, i, o);
  }

  /** When a store of acceptable data dies, case by case. */
  lemma StoreCases(idx: string, dat: string, k: Links, key: string, data: string, flag: int)
    requires ValidFiles(idx, dat, k) && DATLEN_MIN <= |data| + 1 <= DATLEN_MAX
    ensures key in View(k, dat) <==> key in k.at
    ensures key !in k.at && flag == DB_REPLACE ==> !StoreDies(k, |idx|, dat, key, data, flag)
    ensures key !in k.at && flag != DB_REPLACE ==>
              (StoreDies(k, |idx|, dat, key, data, flag)
               <==> !HasFree(k, |key|, |data| + 1) && !NewRecordFits(Body(key, |dat|, |data| + 1), |idx|))
    ensures key in k.at && flag == DB_INSERT ==> !StoreDies(k, |idx|, dat, key, data, flag)
    ensures key in View(k, dat) && flag != DB_INSERT ==>
              (StoreDies(k, |idx|, dat, key, data, flag)
               <==> |View(k, dat)[key]| != |data| && !NewRecordFits(Body(key, |dat|, |data| + 1), |idx|))
  {
    hide Image, View, NewRecordFits, HasFree;
    AtIsView(k, dat, key);
  }

  lemma CurrentData(idx: string, dat: string, k: Links, key: string)
    requires ValidFiles(idx, dat, k) && key in k.at
    ensures k.at[key] in k.body && key in View(k, dat) && |View(k, dat)[key]| == k.body[k.at[key]].datlen - 1
  {
    hide Image, View;
    AtIsView(k, dat, key);
  }

  lemma RemoveAbsent(m: map<string, string>, key: string)
    ensures key !in m ==> m - {key} == m
  {}

  lemma AddModulo(a: int, b: int)
    ensures (a % ULONG + b) % ULONG == (a + b) % ULONG
  {}

  // ---- Runs -------------------------------------------------------------------------------------

  method Step(db: Database, op: Op) returns (answer: Answer, st: Status)
    requires ValidFiles(db.idx, db.dat, db.k)
    requires op.StoreOp? ==> SEP !in op.key
    modifies db
    ensures ValidFiles(db.idx, db.dat, db.k)
    ensures st.Dead? ==> op.StoreOp?
    ensures st.Alive? ==> answer == MapAnswer(old(View(db.k, db.dat)), op)
    ensures st.Alive? ==> View(db.k, db.dat) == MapStep(old(View(db.k, db.dat)), op)
    ensures st.Alive? && old(AllListed(db.k)) ==> AllListed(db.k)
  {
    hide ValidFiles, View, AllListed, StoreDies, StoreCode;
    match op
    case FetchOp(key) =>
      var r := db.Fetch(key);
      return Data(r), Alive;
    case DeleteOp(key) =>
      var rc := db.Delete(key);
      return Code(rc), Alive;
    case StoreOp(key, data, flag) =>
      var alive, rc := db.Store(key, data, flag);
      return Code(rc), alive;
  }

  /** Every run of operations on the two files answers as the map does, up to the point where a
      store ends the process. */
  method Run(db: Database, ops: seq<Op>) returns (answers: seq<Answer>, st: Status)
    requires ValidFiles(db.idx, db.dat, db.k)
    requires forall op :: op in ops && op.StoreOp? ==> SEP !in op.key
    modifies db
    ensures ValidFiles(db.idx, db.dat, db.k) && |answers| <= |ops|
    ensures forall i :: 0 <= i < |answers| ==>
              answers[i] == MapAnswer(MapRun(old(View(db.k, db.dat)), ops[..i]), ops[i])
    ensures st.Alive? ==> |answers| == |ops| && View(db.k, db.dat) == MapRun(old(View(db.k, db.dat)), ops)
    ensures st.Alive? && old(AllListed(db.k)) ==> AllListed(db.k)
    ensures st.Dead? ==> |answers| < |ops| && ops[|answers|].StoreOp?
  {
    hide ValidFiles, View, AllListed, MapStep, MapAnswer;
    ghost var m := View(db.k, db.dat);
    answers := [];
    while |answers| < |ops|
      invariant ValidFiles(db.idx, db.dat, db.k) && |answers| <= |ops|
      invariant View(db.k, db.dat) == MapRun(m, ops[..|answers|])
      invariant forall i :: 0 <= i < |answers| ==> answers[i] == MapAnswer(MapRun(m, ops[..i]), ops[i])
      invariant old(AllListed(db.k)) ==> AllListed(db.k)
    {
      var i := |answers|;
      assert ops[..i + 1][..i] == ops[..i] && ops[i] in ops;
      var answer, alive := Step(db, ops[i]);
      if alive.Dead? {
        return answers, alive;
      }
      answers := answers + [answer];
    }
    assert ops[..|ops|] == ops;
    return answers, Alive;
  }
}
