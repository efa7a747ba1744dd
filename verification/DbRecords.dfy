/** The linked records of the index file, above their bytes: chain pointers addressed by file
    offset, one list per hash chain and the free list. */
module DbRecords {
  import opened Options
  import opened AsciiFields

  const NHASH: nat := 137
  const FREE_OFF: nat := 0
  const HASH_OFF: nat := PTR_SZ
  const FIRST_RECORD: nat := (NHASH + 1) * PTR_SZ + 1
  const ULONG: nat := 0x1_0000_0000_0000_0000

  /** The offset of the head pointer of list i: list 0 is the free list, list h + 1 chain h. */
  function Slot(i: nat): nat { i * PTR_SZ }

  predicate IsSlot(o: nat) { o % PTR_SZ == 0 && o <= NHASH * PTR_SZ }

  /** A character as the int it is promoted to (char is signed). */
  function CharCode(c: char): int { if c as int < 128 then c as int else c as int - 256 }

  function HashSum(key: string, n: nat): int
    requires n <= |key|
  {
    if n == 0 then 0 else HashSum(key, n - 1) + CharCode(key[n - 1]) * n
  }

  /** The hash of a key, computed modulo the width of unsigned long. */
  function Hash(key: string): (h: nat)
    ensures h < NHASH
  {
    HashSum(key, |key|) % ULONG % NHASH
  }

  /** The pointers are those of the head slots and of the records; lists holds, for each list, the
      offsets of its records in order; home says which list a record is on, and a record on no
      list has no home; at says where the record of each stored key is. */
  datatype Links = Links(ptr: map<nat, nat>, body: map<nat, Body>, lists: seq<seq<nat>>, home: map<nat, nat>,
                         at: map<string, nat>)

  /** The i-th pointer field met when list l is walked from slot s. */
  function Cell(s: nat, l: seq<nat>, i: nat): nat
    requires i <= |l|
  {
    if i == 0 then s else l[i - 1]
  }

  function Next(l: seq<nat>, i: nat): nat { if i < |l| then l[i] else 0 }

  /** Walking from slot s meets exactly the records l and ends in 0. */
  ghost predicate IsList(ptr: map<nat, nat>, s: nat, l: seq<nat>) {
    forall i :: 0 <= i <= |l| ==> Cell(s, l, i) in ptr && ptr[Cell(s, l, i)] == Next(l, i)
  }

  ghost predicate Addresses(k: Links) {
    && (forall o :: o in k.ptr <==> IsSlot(o) || o in k.body)
    && (forall o :: o in k.ptr ==> k.ptr[o] <= PTR_MAX)
    && (forall o :: o in k.body ==> o >= FIRST_RECORD)
  }

  ghost predicate NoDup(l: seq<nat>) { forall a, b :: 0 <= a < b < |l| ==> l[a] != l[b] }

  /** List i holds, once each, the records whose home it is. */
  ghost predicate Houses(l: seq<nat>, i: nat, home: map<nat, nat>) {
    NoDup(l) && forall o: nat :: o in l <==> o in home && home[o] == i
  }

  /** Each record is on at most one list, and there once. */
  ghost predicate Listed(k: Links) {
    && |k.lists| == NHASH + 1
    && (forall i :: 0 <= i <= NHASH ==> Houses(k.lists[i], i, k.home))
    && (forall o :: o in k.home ==> k.home[o] <= NHASH && o in k.body && o <= PTR_MAX)
  }

  ghost predicate Threaded(k: Links) {
    |k.lists| == NHASH + 1 && forall i :: 0 <= i <= NHASH ==> IsList(k.ptr, Slot(i), k.lists[i])
  }

  ghost predicate Shape(k: Links) { Addresses(k) && Listed(k) && Threaded(k) }

  predicate Live(home: map<nat, nat>, o: nat) { o in home && home[o] > 0 }

  /** Live records have distinct keys that can be read back, and are on the chain their key hashes
      to; the keys of free records are blank. */
  ghost predicate Keyed(body: map<nat, Body>, home: map<nat, nat>, at: map<string, nat>) {
    && (forall o :: o in home ==> o in body && (home[o] == 0 ==> body[o].key == Blanks(|body[o].key|)))
    && (forall o :: Live(home, o) ==>
          var key := body[o].key; SEP !in key && home[o] == Hash(key) + 1 && key in at && at[key] == o)
    && (forall key :: key in at ==> Live(home, at[key]) && body[at[key]].key == key)
  }

  ghost predicate Extents(body: map<nat, Body>, dat: string) {
    && (forall o :: o in body ==> ExtentOk(body[o], dat))
    && (forall o, p :: o in body && p in body && o != p ==> Apart(body[o], body[p]))
  }

  predicate ExtentOk(b: Body, dat: string) {
    && DATLEN_MIN <= b.datlen <= DATLEN_MAX
    && b.datoff + b.datlen <= |dat|
    && dat[b.datoff + b.datlen - 1] == NEWLINE
  }

  predicate Apart(b: Body, c: Body) { b.datoff + b.datlen <= c.datoff || c.datoff + c.datlen <= b.datoff }

  function Value(b: Body, dat: string): string {
    if 0 < b.datlen && b.datoff + b.datlen <= |dat| then dat[b.datoff..b.datoff + b.datlen - 1] else ""
  }

  ghost predicate Consistent(k: Links, dat: string) { Shape(k) && Keyed(k.body, k.home, k.at) && Extents(k.body, dat) }

  /** The data of a stored key. */
  function Lookup(body: map<nat, Body>, at: map<string, nat>, dat: string, key: string): string {
    if key in at && at[key] in body then Value(body[at[key]], dat) else ""
  }

  ghost function ViewOf(body: map<nat, Body>, at: map<string, nat>, dat: string): map<string, string> {
    map key | key in at && at[key] in body :: Lookup(body, at, dat, key)
  }

  /** Two sets of records whose keys and data differ at most in one key. */
  lemma ViewOfChange(body: map<nat, Body>, at: map<string, nat>, dat: string,
                     body': map<nat, Body>, at': map<string, nat>, dat': string, key: string)
    requires forall k :: k in at ==> at[k] in body
    requires forall k :: k in at' ==> at'[k] in body'
    requires forall k :: k != key ==> (k in at <==> k in at')
    requires forall k :: k in at && k != key ==> Lookup(body', at', dat', k) == Lookup(body, at, dat, k)
    ensures key in at' ==> ViewOf(body', at', dat') == ViewOf(body, at, dat)[key := Lookup(body', at', dat', key)]
    ensures key !in at' ==> ViewOf(body', at', dat') == ViewOf(body, at, dat) - {key}
  {
    hide Lookup;
    var v, v' := ViewOf(body, at, dat), ViewOf(body', at', dat');
    if key in at' {
      var w := v[key := Lookup(body', at', dat', key)];
      assert forall k :: k in v' <==> k in w;
      assert v' == w;
    } else {
      var w := v - {key};
      assert forall k :: k in v' <==> k in w;
      assert v' == w;
    }
  }

  /** The map from keys to data that the files stand for. */
  ghost function View(k: Links, dat: string): map<string, string> {
    ViewOf(k.body, k.at, dat)
  }

  /** The pointers and records alone determine the map: nothing else in Links adds information. */
  lemma ViewIsDetermined(k: Links, m: Links, dat: string)
    requires Consistent(k, dat) && Consistent(m, dat) && k.ptr == m.ptr && k.body == m.body
    ensures View(k, dat) == View(m, dat)
  {
    hide Extents, Value, Hash;
    forall i | 0 <= i <= NHASH
      ensures k.lists[i] == m.lists[i]
    {
      assert IsList(k.ptr, Slot(i), k.lists[i]) && IsList(m.ptr, Slot(i), m.lists[i]);
      MembersAreRecords(k, i);
      MembersAreRecords(m, i);
      ListIsDetermined(k.ptr, Slot(i), k.lists[i], m.lists[i]);
    }
    forall o | true
      ensures o in k.home <==> o in m.home
      ensures o in k.home ==> k.home[o] == m.home[o]
    {
      if o in k.home {
        assert Houses(k.lists[k.home[o]], k.home[o], k.home) && Houses(m.lists[k.home[o]], k.home[o], m.home);
      }
      if o in m.home {
        assert Houses(k.lists[m.home[o]], m.home[o], k.home) && Houses(m.lists[m.home[o]], m.home[o], m.home);
      }
    }
    forall key | true
      ensures key in k.at <==> key in m.at
      ensures key in k.at ==> k.at[key] == m.at[key]
    {
      if key in k.at {
        assert Live(m.home, k.at[key]);
      }
      if key in m.at {
        assert Live(k.home, m.at[key]);
      }
    }
  }

  lemma {:induction false} ListIsDetermined(ptr: map<nat, nat>, s: nat, l: seq<nat>, m: seq<nat>)
    requires IsList(ptr, s, l) && IsList(ptr, s, m) && 0 !in l && 0 !in m
    decreases |l|
    ensures l == m
  {
    assert Cell(s, l, 0) == Cell(s, m, 0) == s;
    if l != [] && m != [] {
      forall i | 0 <= i <= |l| - 1
        ensures Cell(l[0], l[1..], i) == Cell(s, l, i + 1) && Next(l[1..], i) == Next(l, i + 1)
      {}
      forall i | 0 <= i <= |m| - 1
        ensures Cell(m[0], m[1..], i) == Cell(s, m, i + 1) && Next(m[1..], i) == Next(m, i + 1)
      {}
      ListIsDetermined(ptr, l[0], l[1..], m[1..]);
    }
  }

  /** In a state where no record is detached, every record is on exactly one list. */
  ghost predicate AllListed(k: Links) { k.body.Keys == k.home.Keys }

  // ---- Moving records between lists ------------------------------------------------------

  function Without(l: seq<nat>, i: nat): seq<nat>
    requires i < |l|
  {
    l[..i] + l[i + 1..]
  }

  /** The record at position i of list c is taken off it and is then on no list. */
  function Detached(k: Links, c: nat, i: nat): Links
    requires Placed(k, c, i)
  {
    var l := k.lists[c];
    k.(ptr := k.ptr[Cell(Slot(c), l, i) := Next(l, i + 1)], lists := k.lists[c := Without(l, i)], home :=
      k.home - {l[i]},
       at := if c == 0 then k.at else k.at - {k.body[l[i]].key})
  }

  /** A record with the given pointer and text is written at o; it is on no list. */
  function Written(k: Links, o: nat, p: nat, b: Body): Links {
    k.(ptr := k.ptr[o := p], body := k.body[o := b])
  }

  /** A record on no list becomes the first of list c. */
  function Pushed(k: Links, c: nat, o: nat): Links
    requires c < |k.lists| && o in k.body
  {
    k.(ptr := k.ptr[Slot(c) := o], lists := k.lists[c := [o] + k.lists[c]], home := k.home[o := c],
       at := if c == 0 then k.at else k.at[k.body[o].key := o])
  }

  lemma WithoutMembers(l: seq<nat>, i: nat)
    requires NoDup(l) && i < |l|
    ensures NoDup(Without(l, i)) && forall o: nat :: o in Without(l, i) <==> o in l && o != l[i]
  {
    var m := Without(l, i);
    forall o | o in l && o != l[i]
      ensures o in m
    {
      var a :| 0 <= a < |l| && l[a] == o;
      assert m[if a < i then a else a - 1] == o;
    }
  }

  lemma MembersAreRecords(k: Links, c: nat)
    requires Addresses(k) && Listed(k) && c <= NHASH
    ensures forall a :: 0 <= a < |k.lists[c]| ==>
              var o := k.lists[c][a]; o in k.body && FIRST_RECORD <= o <= PTR_MAX && o in k.home && k.home[o] == c
  {
    assert Houses(k.lists[c], c, k.home);
    assert forall a :: 0 <= a < |k.lists[c]| ==> k.lists[c][a] in k.lists[c];
  }

  /** What a walk along list c relies on. */
  lemma ListFacts(k: Links, dat: string, c: nat)
    requires Consistent(k, dat) && c <= NHASH
    ensures |k.lists| == NHASH + 1 && IsList(k.ptr, Slot(c), k.lists[c]) && 0 in k.ptr
    ensures forall a :: 0 <= a < |k.lists[c]| ==> k.lists[c][a] in k.body && k.lists[c][a] >= FIRST_RECORD
  {
    MembersAreRecords(k, c);
  }

  lemma ListHead(k: Links, dat: string, c: nat)
    requires Consistent(k, dat) && c <= NHASH
    ensures Slot(c) in k.ptr && k.ptr[Slot(c)] <= PTR_MAX
  {
    assert IsSlot(Slot(c));
  }

  /** After a free record is taken it is on no list, and the other lists start where they did. */
  lemma TakenFacts(k: Links, dat: string, i: nat, c: nat)
    requires Consistent(k, dat) && Placed(k, 0, i) && 0 < c <= NHASH
    ensures Slot(c) in Detached(k, 0, i).ptr && Detached(k, 0, i).ptr[Slot(c)] == k.ptr[Slot(c)]
    ensures k.lists[0][i] <= PTR_MAX && k.lists[0][i] in k.home && k.lists[0][i] >= FIRST_RECORD
  {
    MembersAreRecords(k, 0);
    assert IsSlot(Slot(c)) && !IsSlot(k.lists[0][i]);
    assert Cell(Slot(0), k.lists[0], i) != Slot(c);
  }

  /** The only record of a chain with a given key is the one that stands for the key. */
  lemma FoundOnChain(k: Links, dat: string, c: nat, i: nat)
    requires Consistent(k, dat) && 0 < c <= NHASH && i < |k.lists[c]| && k.lists[c][i] in k.body
    ensures k.body[k.lists[c][i]].key in k.at && k.at[k.body[k.lists[c][i]].key] == k.lists[c][i]
    ensures Placed(k, c, i)
  {
    MembersAreRecords(k, c);
    assert Live(k.home, k.lists[c][i]);
  }

  /** A stored key has its record on the chain it hashes to. */
  lemma LiveOnChain(k: Links, dat: string, key: string)
    requires Consistent(k, dat) && key in k.at
    ensures k.at[key] in k.lists[Hash(key) + 1] && k.at[key] in k.body && k.body[k.at[key]].key == key
  {
    assert Live(k.home, k.at[key]) && Houses(k.lists[Hash(key) + 1], Hash(key) + 1, k.home);
  }

  lemma CellsAreDistinct(k: Links, c: nat, i: nat, d: nat, j: nat)
    requires Addresses(k) && Listed(k) && c <= NHASH && d <= NHASH && i <= |k.lists[c]| && j <= |k.lists[d]|
    ensures Cell(Slot(c), k.lists[c], i) == Cell(Slot(d), k.lists[d], j) ==> c == d && i == j
  {
    MembersAreRecords(k, c);
    MembersAreRecords(k, d);
    assert Houses(k.lists[c], c, k.home);
  }

  /** Redirecting one cell of a list past its successor drops that record; other lists keep
      their threads. */
  lemma BypassKeepsThreads(k: Links, c: nat, i: nat, ptr: map<nat, nat>)
    requires Shape(k) && c <= NHASH && i < |k.lists[c]|
    requires ptr == k.ptr[Cell(Slot(c), k.lists[c], i) := Next(k.lists[c], i + 1)]
    ensures IsList(ptr, Slot(c), Without(k.lists[c], i))
    ensures forall d :: 0 <= d <= NHASH && d != c ==> IsList(ptr, Slot(d), k.lists[d])
  {
    var l := k.lists[c];
    var m := Without(l, i);
    assert IsList(k.ptr, Slot(c), l);
    forall j | 0 <= j <= |m|
      ensures Cell(Slot(c), m, j) in ptr && ptr[Cell(Slot(c), m, j)] == Next(m, j)
    {
      var j' := if j <= i then j else j + 1;
      assert Cell(Slot(c), m, j) == Cell(Slot(c), l, j');
      CellsAreDistinct(k, c, i, c, j');
    }
    forall d | 0 <= d <= NHASH && d != c
      ensures IsList(ptr, Slot(d), k.lists[d])
    {
      assert IsList(k.ptr, Slot(d), k.lists[d]);
      forall j | 0 <= j <= |k.lists[d]|
        ensures Cell(Slot(d), k.lists[d], j) != Cell(Slot(c), l, i)
      {
        CellsAreDistinct(k, d, j, c, i);
      }
    }
  }

  /** Writing a detached record touches no list. */
  lemma WrittenKeepsShape(k: Links, o: nat, p: nat, b: Body)
    requires Shape(k) && o >= FIRST_RECORD && o !in k.home && p <= PTR_MAX
    ensures Shape(Written(k, o, p, b))
  {
    var k' := Written(k, o, p, b);
    assert !IsSlot(o);
    forall i | 0 <= i <= NHASH
      ensures IsList(k'.ptr, Slot(i), k'.lists[i])
    {
      assert IsList(k.ptr, Slot(i), k.lists[i]);
      forall j | 0 <= j <= |k.lists[i]|
        ensures Cell(Slot(i), k.lists[i], j) != o
      {
        if j > 0 {
          assert k.lists[i][j - 1] in k.home;
        }
      }
    }
  }

  lemma DetachedKeepsLists(k: Links, c: nat, i: nat)
    requires Listed(k) && c <= NHASH && Placed(k, c, i)
    ensures Listed(Detached(k, c, i))
  {
    var k' := Detached(k, c, i);
    assert Houses(k.lists[c], c, k.home);
    WithoutMembers(k.lists[c], i);
    assert k.lists[c][i] in k.lists[c];
    forall d | 0 <= d <= NHASH
      ensures Houses(k'.lists[d], d, k'.home)
    {
      assert Houses(k.lists[d], d, k.home);
    }
  }

  /** Taking a record off a list keeps every list well threaded. */
  lemma DetachedKeepsShape(k: Links, c: nat, i: nat)
    requires Shape(k) && c <= NHASH && Placed(k, c, i)
    ensures Shape(Detached(k, c, i))
  {
    var l := k.lists[c];
    BypassKeepsThreads(k, c, i, Detached(k, c, i).ptr);
    DetachedKeepsLists(k, c, i);
    assert IsList(k.ptr, Slot(c), l);
    assert Cell(Slot(c), l, i) in k.ptr && Next(l, i + 1) <= PTR_MAX;
  }

  lemma PushedKeepsLists(k: Links, c: nat, o: nat)
    requires Listed(k) && c <= NHASH && o in k.body && o !in k.home && o <= PTR_MAX
    ensures Listed(Pushed(k, c, o))
  {
    var k' := Pushed(k, c, o);
    forall d | 0 <= d <= NHASH
      ensures Houses(k'.lists[d], d, k'.home)
    {
      assert Houses(k.lists[d], d, k.home);
    }
  }

  lemma PushKeepsThreads(k: Links, c: nat, o: nat)
    requires Shape(k) && c <= NHASH && o in k.body && k.ptr[o] == k.ptr[Slot(c)]
    ensures IsList(k.ptr[Slot(c) := o], Slot(c), [o] + k.lists[c])
    ensures forall d :: 0 <= d <= NHASH && d != c ==> IsList(k.ptr[Slot(c) := o], Slot(d), k.lists[d])
  {
    var ptr, l, m := k.ptr[Slot(c) := o], k.lists[c], [o] + k.lists[c];
    MembersAreRecords(k, c);
    assert IsList(k.ptr, Slot(c), l);
    assert Cell(Slot(c), l, 0) == Slot(c);
    forall j | 0 <= j <= |m|
      ensures Cell(Slot(c), m, j) in ptr && ptr[Cell(Slot(c), m, j)] == Next(m, j)
    {
      if j > 1 {
        assert Cell(Slot(c), m, j) == l[j - 2] == Cell(Slot(c), l, j - 1);
      }
    }
    forall d | 0 <= d <= NHASH && d != c
      ensures IsList(ptr, Slot(d), k.lists[d])
    {
      assert IsList(k.ptr, Slot(d), k.lists[d]);
      MembersAreRecords(k, d);
      assert forall j :: 0 <= j <= |k.lists[d]| ==> Cell(Slot(d), k.lists[d], j) != Slot(c);
    }
  }

  /** Linking a detached record in front of a list keeps every list well threaded. */
  lemma PushedKeepsShape(k: Links, c: nat, o: nat)
    requires Shape(k) && c <= NHASH && o in k.body && o !in k.home && o <= PTR_MAX
    requires k.ptr[o] == k.ptr[Slot(c)]
    ensures Shape(Pushed(k, c, o))
  {
    assert IsSlot(Slot(c));
    PushedKeepsLists(k, c, o);
    PushKeepsThreads(k, c, o);
  }

  // ---- What the moves do to the map -------------------------------------------------------

  function Overwrite(f: string, at: nat, s: string): string
    requires at + |s| <= |f|
  {
    f[..at] + s + f[at + |s|..]
  }

  lemma OverwriteLength(f: string, at: nat, s: string)
    requires at + |s| <= |f|
    ensures |Overwrite(f, at, s)| == |f|
  {}

  /** The data file with an extent overwritten by a data record. */
  function WithData(dat: string, b: Body, data: string): string {
    if b.datoff + |data| + 1 <= |dat| then Overwrite(dat, b.datoff, data + [NEWLINE]) else dat
  }

  ghost predicate SameExcept(body: map<nat, Body>, o: nat, dat: string, dat': string)
  {
    forall q :: q in body && q != o ==> ExtentOk(body[q], dat') && Value(body[q], dat') == Value(body[q], dat)
  }

  /** Overwriting the data of one extent with text of the same length leaves the others alone. */
  lemma OverwriteExtent(body: map<nat, Body>, dat: string, o: nat, data: string)
    requires Extents(body, dat) && o in body && |data| + 1 == body[o].datlen
    ensures Extents(body, WithData(dat, body[o], data)) && Value(body[o], WithData(dat, body[o], data)) == data
    ensures SameExcept(body, o, dat, WithData(dat, body[o], data))
  {
    var b := body[o];
    var dat' := WithData(dat, b, data);
    assert |dat'| == |dat|;
    forall q | q in body && q != o
      ensures ExtentOk(body[q], dat') && Value(body[q], dat') == Value(body[q], dat)
    {
      assert Apart(b, body[q]);
      assert forall j :: body[q].datoff <= j < body[q].datoff + body[q].datlen ==> dat'[j] == dat[j];
    }
  }

  /** Appending to the data file leaves every extent alone. */
  lemma AppendExtent(body: map<nat, Body>, dat: string, more: string)
    requires Extents(body, dat)
    ensures Extents(body, dat + more)
    ensures forall q :: q in body ==> Value(body[q], dat + more) == Value(body[q], dat)
  {
    forall q | q in body
      ensures ExtentOk(body[q], dat + more) && Value(body[q], dat + more) == Value(body[q], dat)
    {
      assert ExtentOk(body[q], dat);
    }
  }

  lemma KeyedRemove(body: map<nat, Body>, home: map<nat, nat>, at: map<string, nat>, o: nat)
    requires Keyed(body, home, at) && o in home
    ensures Keyed(body, home - {o}, if home[o] == 0 then at else at - {body[o].key})
  {
    hide Hash;
    if home[o] > 0 {
      assert Live(home, o);
    }
    assert forall p :: Live(home - {o}, p) <==> Live(home, p) && p != o;
  }

  /** Taking a live record off its chain removes its key. */
  lemma DetachedMap(k: Links, dat: string, c: nat, i: nat, o: nat)
    requires Consistent(k, dat) && c <= NHASH && Placed(k, c, i) && o == k.lists[c][i]
    ensures Consistent(Detached(k, c, i), dat) && o !in Detached(k, c, i).home
    ensures View(Detached(k, c, i), dat) == if c == 0 then View(k, dat) else View(k, dat) - {k.body[o].key}
  {
    hide ExtentOk, Value, Threaded, Hash;
    MembersAreRecords(k, c);
    DetachedKeepsShape(k, c, i);
    KeyedRemove(k.body, k.home, k.at, o);
    ViewOfChange(k.body, k.at, dat, k.body, Detached(k, c, i).at, dat, k.body[o].key);
  }

  lemma ExtentsRewrite(body: map<nat, Body>, dat: string, dat': string, o: nat, b: Body)
    requires Extents(body, dat) && SameExcept(body, o, dat, dat')
    requires ExtentOk(b, dat') && forall q :: q in body && q != o ==> Apart(b, body[q])
    ensures Extents(body[o := b], dat')
  {}

  lemma KeyedRewrite(body: map<nat, Body>, home: map<nat, nat>, at: map<string, nat>, o: nat, b: Body)
    requires Keyed(body, home, at) && o !in home
    ensures Keyed(body[o := b], home, at)
  {}

  lemma ViewRewrite(body: map<nat, Body>, at: map<string, nat>, dat: string, dat': string, o: nat, b: Body)
    requires forall k :: k in at ==> at[k] in body && at[k] != o
    requires SameExcept(body, o, dat, dat')
    ensures ViewOf(body[o := b], at, dat') == ViewOf(body, at, dat)
  {
  }

  /** Writing a detached record, and its data, leaves the map as it is. */
  lemma WrittenMap(k: Links, dat: string, dat': string, o: nat, p: nat, b: Body)
    requires Consistent(k, dat)
    requires o >= FIRST_RECORD && o !in k.home && p <= PTR_MAX
    requires ExtentOk(b, dat') && forall q :: q in k.body && q != o ==> Apart(b, k.body[q])
    requires SameExcept(k.body, o, dat, dat')
    ensures Consistent(Written(k, o, p, b), dat') && View(Written(k, o, p, b), dat') == View(k, dat)
  {
    hide Listed, Threaded, Hash;
    WrittenKeepsShape(k, o, p, b);
    ExtentsRewrite(k.body, dat, dat', o, b);
    KeyedRewrite(k.body, k.home, k.at, o, b);
    ViewRewrite(k.body, k.at, dat, dat', o, b);
  }

  lemma KeyedAdd(body: map<nat, Body>, home: map<nat, nat>, at: map<string, nat>, o: nat, c: nat)
    requires Keyed(body, home, at) && o in body && o !in home
    requires var key := body[o].key;
             if c == 0 then key == Blanks(|key|) else SEP !in key && Hash(key) + 1 == c && key !in at
    ensures Keyed(body, home[o := c], if c == 0 then at else at[body[o].key := o])
  {
    hide Hash;
    assert forall p :: Live(home[o := c], p) <==> Live(home, p) || (p == o && c > 0);
  }

  /** Linking a detached record into its chain adds its key; linking a blank one into the free
      list changes no key. */
  lemma PushedMap(k: Links, dat: string, c: nat, o: nat)
    requires Consistent(k, dat)
    requires c <= NHASH && o in k.body && o !in k.home && o <= PTR_MAX && k.ptr[o] == k.ptr[Slot(c)]
    requires var key := k.body[o].key;
             if c == 0 then key == Blanks(|key|) else SEP !in key && Hash(key) + 1 == c && key !in k.at
    ensures Consistent(Pushed(k, c, o), dat)
    ensures View(Pushed(k, c, o), dat)
         == if c == 0 then View(k, dat) else View(k, dat)[k.body[o].key := Value(k.body[o], dat)]
  {
    hide ExtentOk, Value, Listed, Threaded, Hash;
    PushedKeepsShape(k, c, o);
    KeyedAdd(k.body, k.home, k.at, o, c);
    if c > 0 {
      ViewOfChange(k.body, k.at, dat, k.body, k.at[k.body[o].key := o], dat, k.body[o].key);
    }
  }

  /** Replacing the data of a live record by data of the same length. */
  lemma ReplacedMap(k: Links, dat: string, o: nat, data: string)
    requires Consistent(k, dat) && Live(k.home, o) && |data| + 1 == k.body[o].datlen
    ensures Consistent(k, WithData(dat, k.body[o], data))
    ensures View(k, WithData(dat, k.body[o], data)) == View(k, dat)[k.body[o].key := data]
  {
    OverwriteExtent(k.body, dat, o, data);
    ViewOfChange(k.body, k.at, dat, k.body, k.at, WithData(dat, k.body[o], data), k.body[o].key);
  }

  predicate Placed(k: Links, c: nat, i: nat) {
    c < |k.lists| && i < |k.lists[c]| && k.lists[c][i] in k.body && 0 in k.ptr && k.lists[c][i] in k.ptr
  }

  /** The record at position i of chain c taken off the chain, its key blanked. */
  function Wiped(k: Links, c: nat, i: nat): Links
    requires Placed(k, c, i)
  {
    Written(Detached(k, c, i), k.lists[c][i], k.ptr[0], Blanked(k.body[k.lists[c][i]]))
  }

  /** What _db_dodelete makes of the record at position i of chain c: it leaves the chain, its key
      becomes blank and it heads the free list. */
  function Freed(k: Links, c: nat, i: nat): Links
    requires Placed(k, c, i)
  {
    Pushed(Wiped(k, c, i), 0, k.lists[c][i])
  }

  /** The data file with the data of a record blanked. */
  function WipedData(b: Body, dat: string): string
  {
    WithData(dat, b, Blanks(if b.datlen > 0 then b.datlen - 1 else 0))
  }

  function Blanked(b: Body): Body { b.(key := Blanks(|b.key|)) }

  lemma DetachedPointers(k: Links, c: nat, i: nat)
    requires Shape(k) && c <= NHASH && Placed(k, c, i)
    ensures Detached(k, c, i).ptr == k.ptr[Cell(Slot(c), k.lists[c], i) := Next(k.lists[c], i + 1)]
    ensures Detached(k, c, i).body == k.body
    ensures k.ptr[k.lists[c][i]] == Next(k.lists[c], i + 1) <= PTR_MAX && Cell(Slot(c), k.lists[c], i) in k.ptr
  {
    assert IsList(k.ptr, Slot(c), k.lists[c]);
    assert Cell(Slot(c), k.lists[c], i + 1) == k.lists[c][i];
    assert Cell(Slot(c), k.lists[c], i) in k.ptr;
  }

  lemma FreedPointers(k: Links, c: nat, i: nat)
    requires Shape(k) && 0 < c <= NHASH && Placed(k, c, i)
    ensures var o := k.lists[c][i];
            && Freed(k, c, i).ptr
              == k.ptr[o := k.ptr[0]][0 := o][Cell(Slot(c), k.lists[c], i) := Next(k.lists[c], i + 1)]
            && Freed(k, c, i).body == k.body[o := Blanked(k.body[o])]
            && Freed(k, c, i).home.Keys == k.home.Keys
            && Freed(k, c, i).at == k.at - {k.body[o].key}
            && Detached(k, c, i).ptr[0] == k.ptr[0] == Wiped(k, c, i).ptr[0]
            && FIRST_RECORD <= o <= PTR_MAX && k.ptr[0] <= PTR_MAX
            && Cell(Slot(c), k.lists[c], i) in k.ptr && Next(k.lists[c], i + 1) <= PTR_MAX
  {
    assert IsList(k.ptr, Slot(c), k.lists[c]);
    assert Cell(Slot(c), k.lists[c], i + 1) in k.ptr;
    MembersAreRecords(k, c);
    CellsAreDistinct(k, c, i, c, i + 1);
  }

  lemma ConsistentParts(k: Links, dat: string, o: nat)
    requires Consistent(k, dat) && o in k.body
    ensures Shape(k) && Keyed(k.body, k.home, k.at) && Extents(k.body, dat) && ExtentOk(k.body[o], dat)
    ensures DATLEN_MIN <= k.body[o].datlen <= DATLEN_MAX && k.body[o].datoff + k.body[o].datlen <= |dat|
    ensures |k.lists| == NHASH + 1
  {}

  /** Detaching a record and blanking it. */
  lemma WipedMap(k: Links, dat: string, c: nat, i: nat, o: nat)
    requires Consistent(k, dat) && 0 < c <= NHASH && Placed(k, c, i) && k.lists[c][i] == o
    ensures Consistent(Wiped(k, c, i), WipedData(k.body[o], dat))
    ensures View(Wiped(k, c, i), WipedData(k.body[o], dat)) == View(k, dat) - {k.body[o].key}
    ensures o !in Wiped(k, c, i).home
  {
    hide Consistent, Shape, Keyed, View, Extents, ExtentOk, SameExcept, WithData;
    var b := k.body[o];
    ConsistentParts(k, dat, o);
    FreedPointers(k, c, i);
    OverwriteExtent(k.body, dat, o, Blanks(b.datlen - 1));
    BlankedExtent(k.body, o, WipedData(b, dat));
    DetachedMap(k, dat, c, i, o);
    WrittenMap(Detached(k, c, i), dat, WipedData(b, dat), o, k.ptr[0], Blanked(b));
  }

  /** The record deleted by _db_dodelete leaves the map and joins the free list. */
  lemma FreedMap(k: Links, dat: string, c: nat, i: nat, o: nat)
    requires Consistent(k, dat) && 0 < c <= NHASH && Placed(k, c, i) && k.lists[c][i] == o
    ensures Consistent(Freed(k, c, i), WipedData(k.body[o], dat))
    ensures View(Freed(k, c, i), WipedData(k.body[o], dat)) == View(k, dat) - {k.body[o].key}
  {
    hide Consistent, Shape, Keyed, View, Extents, ExtentOk, WipedData;
    ConsistentParts(k, dat, o);
    FreedPointers(k, c, i);
    WipedMap(k, dat, c, i, o);
    PushedMap(Wiped(k, c, i), WipedData(k.body[o], dat), 0, o);
  }

  lemma WipedDataIs(b: Body, dat: string)
    requires 0 < b.datlen && b.datoff + b.datlen <= |dat|
    ensures b.datoff + |Blanks(b.datlen - 1) + [NEWLINE]| <= |dat| && |Blanks(b.datlen - 1)| == b.datlen - 1
    ensures WipedData(b, dat) == Overwrite(dat, b.datoff, Blanks(b.datlen - 1) + [NEWLINE])
    ensures |WipedData(b, dat)| == |dat|
  {}

  lemma BlankedExtent(body: map<nat, Body>, o: nat, dat: string)
    requires Extents(body, dat) && o in body
    ensures ExtentOk(Blanked(body[o]), dat)
    ensures forall q :: q in body && q != o ==> Apart(Blanked(body[o]), body[q])
  {}

  lemma HomesAreRecords(k: Links, dat: string)
    requires Consistent(k, dat)
    ensures forall o :: o in k.home ==> o in k.body
  {}

  lemma AtIsView(k: Links, dat: string, key: string)
    requires Consistent(k, dat)
    ensures key in View(k, dat) <==> key in k.at
    ensures key in k.at ==> k.at[key] in k.body && Live(k.home, k.at[key])
    ensures key in k.at ==> View(k, dat)[key] == Value(k.body[k.at[key]], dat) && ExtentOk(k.body[k.at[key]], dat)
  {
    if key in k.at {
      assert Live(k.home, k.at[key]);
    }
  }

  lemma ReplaceFits(k: Links, dat: string, o: nat, data: string)
    requires Consistent(k, dat) && o in k.body
    ensures 0 < k.body[o].datlen <= DATLEN_MAX && k.body[o].datoff + k.body[o].datlen <= |dat|
    ensures |data| + 1 == k.body[o].datlen ==>
              WithData(dat, k.body[o], data) == Overwrite(dat, k.body[o].datoff, data + [NEWLINE])
  {}

  /** Whether the free list holds a record of exactly these sizes. */
  ghost predicate HasFree(k: Links, keylen: nat, datlen: nat) {
    |k.lists| > 0 && exists a :: 0 <= a < |k.lists[0]| && k.lists[0][a] in k.body
                       && Fits(k.body[k.lists[0][a]], keylen, datlen)
  }

  predicate Fits(b: Body, keylen: nat, datlen: nat) { |b.key| == keylen && b.datlen == datlen }

  /** A detached record is written with its data and then linked in front of chain c. */
  function Stored(k: Links, c: nat, o: nat, b: Body): Links
    requires Slot(c) in k.ptr && c < |k.lists|
  {
    Pushed(Written(k, o, k.ptr[Slot(c)], b), c, o)
  }

  lemma StoredParts(k: Links, c: nat, o: nat, b: Body)
    requires Slot(c) in k.ptr && c < |k.lists|
    ensures Stored(k, c, o, b).ptr == k.ptr[o := k.ptr[Slot(c)]][Slot(c) := o]
    ensures Stored(k, c, o, b).body == k.body[o := b]
    ensures Stored(k, c, o, b).home == k.home[o := c]
  {}

  lemma StoredMap(k: Links, dat: string, dat': string, c: nat, o: nat, b: Body)
    requires Consistent(k, dat) && Slot(c) in k.ptr && c < |k.lists|
    requires FIRST_RECORD <= o <= PTR_MAX && o !in k.home && k.ptr[Slot(c)] <= PTR_MAX
    requires ExtentOk(b, dat') && forall q :: q in k.body && q != o ==> Apart(b, k.body[q])
    requires SameExcept(k.body, o, dat, dat')
    requires SEP !in b.key && Hash(b.key) + 1 == c && b.key !in k.at
    ensures Consistent(Stored(k, c, o, b), dat')
    ensures View(Stored(k, c, o, b), dat') == View(k, dat)[b.key := Value(b, dat')]
  {
    hide Consistent, Shape, View, Extents, ExtentOk, SameExcept, Hash;
    WrittenMap(k, dat, dat', o, k.ptr[Slot(c)], b);
    assert Slot(c) != o;
    PushedMap(Written(k, o, k.ptr[Slot(c)], b), dat', c, o);
  }

  /** The data of a detached record of the same sizes can be reused. */
  lemma ReuseExtent(k: Links, dat: string, o: nat, b: Body, data: string)
    requires Consistent(k, dat) && o in k.body && |data| + 1 == b.datlen
    requires b.datoff == k.body[o].datoff && b.datlen == k.body[o].datlen
    ensures ExtentOk(b, WithData(dat, k.body[o], data)) && Value(b, WithData(dat, k.body[o], data)) == data
    ensures forall q :: q in k.body && q != o ==> Apart(b, k.body[q])
    ensures SameExcept(k.body, o, dat, WithData(dat, k.body[o], data))
  {
    OverwriteExtent(k.body, dat, o, data);
  }

  lemma NewExtent(body: map<nat, Body>, dat: string, o: nat, key: string, data: string)
    requires Extents(body, dat) && o !in body && DATLEN_MIN <= |data| + 1 <= DATLEN_MAX
    ensures ExtentOk(Body(key, |dat|, |data| + 1), dat + (data + [NEWLINE]))
    ensures Value(Body(key, |dat|, |data| + 1), dat + (data + [NEWLINE])) == data
    ensures forall q :: q in body && q != o ==> Apart(Body(key, |dat|, |data| + 1), body[q])
  {
    assert forall q :: q in body ==> ExtentOk(body[q], dat);
  }

  lemma ViewSame(body: map<nat, Body>, at: map<string, nat>, dat: string, dat': string)
    requires forall q :: q in body ==> Value(body[q], dat') == Value(body[q], dat)
    ensures ViewOf(body, at, dat') == ViewOf(body, at, dat)
  {}

  /** A data record appended to the data file meets no other and changes nothing. */
  lemma AppendedExtent(k: Links, dat: string, o: nat, key: string, data: string)
    requires Consistent(k, dat) && o !in k.body && DATLEN_MIN <= |data| + 1 <= DATLEN_MAX
    ensures ExtentOk(Body(key, |dat|, |data| + 1), dat + (data + [NEWLINE]))
    ensures Value(Body(key, |dat|, |data| + 1), dat + (data + [NEWLINE])) == data
    ensures forall q :: q in k.body && q != o ==> Apart(Body(key, |dat|, |data| + 1), k.body[q])
    ensures SameExcept(k.body, o, dat, dat + (data + [NEWLINE]))
    ensures Consistent(k, dat + (data + [NEWLINE])) && View(k, dat + (data + [NEWLINE])) == View(k, dat)
  {
    hide Shape, Keyed, ExtentOk, Value;
    NewExtent(k.body, dat, o, key, data);
    AppendExtent(k.body, dat, data + [NEWLINE]);
    ViewSame(k.body, k.at, dat, dat + (data + [NEWLINE]));
  }

  // ---- Reading the whole database ---------------------------------------------------------

  predicate AllBlank(s: string) { forall i :: 0 <= i < |s| ==> s[i] == SPACE }

  /** The records db_nextrec still has to return when it stands at pos. */
  ghost function Pending(body: map<nat, Body>, pos: nat): set<nat> {
    set o | o in body && o >= pos && !AllBlank(body[o].key)
  }

  /** In a database without detached records a scan from the first record returns, once each,
      exactly the stored keys that are not all blanks, with their data. */
  lemma ScanIsComplete(k: Links, dat: string, key: string)
    requires Consistent(k, dat) && AllListed(k)
    ensures key in View(k, dat) && !AllBlank(key)
            <==> exists o :: o in Pending(k.body, FIRST_RECORD) && k.body[o].key == key
    ensures forall o :: o in Pending(k.body, FIRST_RECORD) ==>
              k.body[o].key in View(k, dat) && View(k, dat)[k.body[o].key] == Value(k.body[o], dat)
    ensures forall o, p | o in Pending(k.body, FIRST_RECORD) && p in Pending(k.body, FIRST_RECORD) ::
              k.body[o].key == k.body[p].key ==> o == p
  {
    hide Value, Hash, Threaded, Listed;
    assert forall o :: o in k.body ==> o in k.home && (k.home[o] == 0 ==> AllBlank(k.body[o].key));
    assert forall o :: o in Pending(k.body, FIRST_RECORD) ==> Live(k.home, o);
    if key in k.at && !AllBlank(key) {
      assert Live(k.home, k.at[key]);
      assert k.at[key] in Pending(k.body, FIRST_RECORD);
    }
  }

  function ZeroPtrs(): map<nat, nat> { map o: nat | 0 <= o <= NHASH * PTR_SZ && IsSlot(o) :: 0 }

  /** The links of an empty database. */
  function EmptyLinks(): Links { Links(ZeroPtrs(), map[], seq(NHASH + 1, _ => []), map[], map[]) }

  lemma EmptyConsistent()
    ensures Consistent(EmptyLinks(), "") && AllListed(EmptyLinks()) && View(EmptyLinks(), "") == map[]
    ensures EmptyLinks().ptr == ZeroPtrs() && EmptyLinks().body == map[]
  {
    var k := EmptyLinks();
    forall i | 0 <= i <= NHASH
      ensures IsList(k.ptr, Slot(i), k.lists[i]) && Houses(k.lists[i], i, k.home)
    {
      assert IsSlot(Slot(i));
    }
  }
}
