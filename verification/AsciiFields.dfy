/** The ASCII fields of the index file: numbers printed with sprintf, read back with atol and
    separated by SEP. */
module AsciiFields {
  import opened Options

  const IDXLEN_SZ: nat := 4
  const PTR_SZ: nat := 6
  const PTR_MAX: nat := 999999
  const SEP := ':'
  const NEWLINE := '\n'
  const SPACE := ' '
  const IDXLEN_MIN: nat := 6
  const IDXLEN_MAX: nat := 1024
  const DATLEN_MIN: nat := 2
  const DATLEN_MAX: nat := 1024

  predicate IsDigit(c: char) { '0' <= c <= '9' }

  function DigitChar(d: nat): char
    requires d < 10
  {
    ('0' as int + d) as char
  }

  /** What "%d" and "%ld" print for a non-negative number. */
  function Decimal(n: nat): (s: string)
    ensures |s| > 0 && forall i :: 0 <= i < |s| ==> IsDigit(s[i])
  {
    if n < 10 then [DigitChar(n)] else Decimal(n / 10) + [DigitChar(n % 10)]
  }

  function Blanks(n: nat): string { seq(n, _ => SPACE) }

  /** What "%*ld" prints: the number, padded on the left to the field width. */
  function Field(n: nat, width: nat): string {
    var d := Decimal(n);
    if |d| < width then Blanks(width - |d|) + d else d
  }

  predicate IsSpace(c: char) { c == ' ' || c == '\t' || c == '\n' || c == '\r' || c == '\U{000b}' || c == '\U{000c}' }

  function SkipSpace(s: string): string {
    if s != [] && IsSpace(s[0]) then SkipSpace(s[1..]) else s
  }

  function DigitsValue(s: string, acc: nat): nat {
    if s == [] || !IsDigit(s[0]) then acc
    else DigitsValue(s[1..], 10 * acc + (s[0] as int - '0' as int))
  }

  /** The C library's atol on a string (no overflow: every field is far below 2^31). */
  function Atol(s: string): int {
    var t := SkipSpace(s);
    if t != [] && t[0] == '-' then 0 - DigitsValue(t[1..], 0)
    else if t != [] && t[0] == '+' then DigitsValue(t[1..], 0)
    else DigitsValue(t, 0)
  }

  function Pow10(w: nat): nat { if w == 0 then 1 else 10 * Pow10(w - 1) }

  lemma {:induction false} DecimalLength(n: nat, w: nat)
    requires w > 0 && n < Pow10(w)
    ensures |Decimal(n)| <= w
  {
    if n >= 10 {
      DecimalLength(n / 10, w - 1);
    }
  }

  lemma {:induction false} DigitsValueSnoc(a: string, c: char, acc: nat)
    requires IsDigit(c) && forall i :: 0 <= i < |a| ==> IsDigit(a[i])
    ensures DigitsValue(a + [c], acc) == 10 * DigitsValue(a, acc) + (c as int - '0' as int)
  {
    if a == [] {
      assert a + [c] == [c];
      assert DigitsValue([c], acc) == DigitsValue([], 10 * acc + (c as int - '0' as int));
    } else {
      assert (a + [c])[1..] == a[1..] + [c];
      DigitsValueSnoc(a[1..], c, 10 * acc + (a[0] as int - '0' as int));
    }
  }

  lemma {:induction false} DigitsValueDecimal(n: nat)
    ensures DigitsValue(Decimal(n), 0) == n
  {
    if n < 10 {
      assert DigitsValue([DigitChar(n)], 0) == DigitsValue([], n);
    } else {
      DigitsValueDecimal(n / 10);
      DigitsValueSnoc(Decimal(n / 10), DigitChar(n % 10), 0);
    }
  }

  lemma {:induction false} SkipBlanks(k: nat, s: string)
    requires s != [] && !IsSpace(s[0])
    ensures SkipSpace(Blanks(k) + s) == s
  {
    if k == 0 {
      assert Blanks(k) + s == s;
    } else {
      assert (Blanks(k) + s)[1..] == Blanks(k - 1) + s;
      SkipBlanks(k - 1, s);
    }
  }

  /** Reading back what was printed gives the number, whatever the field width. */
  lemma AtolField(n: nat, width: nat)
    ensures Atol(Field(n, width)) == n && Atol(Decimal(n)) == n
  {
    var d := Decimal(n);
    assert IsDigit(d[0]);
    DigitsValueDecimal(n);
    SkipBlanks(0, d);
    assert Blanks(0) + d == d;
    if |d| < width {
      SkipBlanks(width - |d|, d);
    }
  }

  lemma FieldLength(n: nat, width: nat)
    requires width > 0 && n < Pow10(width)
    ensures |Field(n, width)| == width
  {
    DecimalLength(n, width);
  }

  lemma PtrField(n: nat)
    requires n <= PTR_MAX
    ensures |Field(n, PTR_SZ)| == PTR_SZ && Atol(Field(n, PTR_SZ)) == n
  {
    assert Pow10(6) == 1000000 by { assert Pow10(3) == 1000; }
    FieldLength(n, PTR_SZ);
    AtolField(n, PTR_SZ);
  }

  lemma LenField(n: nat)
    requires n <= IDXLEN_MAX
    ensures |Field(n, IDXLEN_SZ)| == IDXLEN_SZ && Atol(Field(n, IDXLEN_SZ)) == n
  {
    assert Pow10(4) == 10000 by { assert Pow10(2) == 100; }
    FieldLength(n, IDXLEN_SZ);
    AtolField(n, IDXLEN_SZ);
  }

  /** strchr: the index of the first c, or the length when there is none. */
  function Strchr(s: string, c: char): (i: nat)
    ensures i <= |s|
    ensures i < |s| ==> s[i] == c
    ensures forall j :: 0 <= j < i ==> s[j] != c
    ensures i < |s| <==> c in s
  {
    if s == [] then 0 else if s[0] == c then 0 else 1 + Strchr(s[1..], c)
  }

  /** What an index record says, apart from its chain pointer. */
  datatype Body = Body(key: string, datoff: nat, datlen: nat)

  /** The variable part of an index record as _db_writeidx prints it. */
  function Text(b: Body): string {
    b.key + [SEP] + Decimal(b.datoff) + [SEP] + Decimal(b.datlen) + [NEWLINE]
  }

  /** _db_readidx on the variable part, its final newline already taken off; None where it gives
      up with err_dump. */
  function ParseText(t: string): Option<Body> {
    var i := Strchr(t, SEP);
    if i == |t| then None else
    var rest := t[i + 1..];
    var j := Strchr(rest, SEP);
    if j == |rest| then None else
    var last := rest[j + 1..];
    if SEP in last then None else
    var off := Atol(rest[..j]);
    var len := Atol(last);
    if off < 0 || len <= 0 || len > DATLEN_MAX then None
    else Some(Body(t[..i], off, len))
  }

  lemma StrchrAt(s: string, c: char, t: string)
    requires c !in s
    ensures Strchr(s + [c] + t, c) == |s|
  {
    var u := s + [c] + t;
    assert u[|s|] == c && forall j :: 0 <= j < |s| ==> u[j] == s[j];
  }

  lemma DecimalHasNoSep(n: nat)
    ensures SEP !in Decimal(n)
  {}

  /** Splitting key:off:len at its separators when the key holds none. */
  lemma ParseFields(key: string, off: string, len: string)
    requires SEP !in key && SEP !in off && SEP !in len
    ensures var t := key + [SEP] + off + [SEP] + len;
            var i := Strchr(t, SEP);
            && i == |key| && t[..i] == key
            && t[i + 1..] == off + [SEP] + len
            && Strchr(t[i + 1..], SEP) == |off| && t[i + 1..][..|off|] == off
            && t[i + 1..][|off| + 1..] == len
  {
    var t := key + [SEP] + off + [SEP] + len;
    assert t == key + [SEP] + (off + [SEP] + len);
    StrchrAt(key, SEP, off + [SEP] + len);
    StrchrAt(off, SEP, len);
  }

  /** A separator in the key makes a third one: "too many separators". */
  lemma ParseTooMany(key: string, off: string, len: string)
    requires SEP in key
    ensures ParseText(key + [SEP] + off + [SEP] + len) == None
  {
    var t := key + [SEP] + off + [SEP] + len;
    var k := Strchr(key, SEP);
    assert t[k] == SEP;
    var i := Strchr(t, SEP);
    assert i <= k;
    var rest := t[i + 1..];
    var p := |key| - i - 1;
    assert rest[p] == t[|key|] == SEP;
    var j := Strchr(rest, SEP);
    assert j <= p;
    var last := rest[j + 1..];
    assert last[p - j + |off|] == t[|key| + 1 + |off|] == SEP;
  }

  lemma ParseParts(key: string, off: string, len: string)
    requires SEP !in key && SEP !in off && SEP !in len && Atol(off) >= 0
    ensures 0 < Atol(len) <= DATLEN_MAX ==>
              ParseText(key + [SEP] + off + [SEP] + len) == Some(Body(key, Atol(off), Atol(len)))
  {
    hide Strchr, Atol;
    ParseFields(key, off, len);
  }

  lemma TextWithoutNewline(b: Body)
    ensures Text(b)[..|Text(b)| - 1] == b.key + [SEP] + Decimal(b.datoff) + [SEP] + Decimal(b.datlen)
  {
    hide Decimal;
  }

  /** An index record can be read back exactly when its key holds no separator. */
  lemma ParseRoundTrip(b: Body)
    requires 0 < b.datlen <= DATLEN_MAX
    ensures ParseText(Text(b)[..|Text(b)| - 1]) == if SEP in b.key then None else Some(b)
  {
    hide ParseText, Atol, Decimal, Text;
    var off, len := Decimal(b.datoff), Decimal(b.datlen);
    TextWithoutNewline(b);
    if SEP in b.key {
      ParseTooMany(b.key, off, len);
    } else {
      DecimalHasNoSep(b.datoff);
      DecimalHasNoSep(b.datlen);
      AtolField(b.datoff, 0);
      AtolField(b.datlen, 0);
      ParseParts(b.key, off, len);
    }
  }
}
