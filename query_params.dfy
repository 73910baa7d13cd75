/** The admin listing's pagination: `parseInt(value, 10) || default` for `page` and
    `limit`, the start and end indices, the database's skip/limit window and the
    `next`/`prev` metadata. */
module QueryParams {
  import opened Common
  import opened OperatorRewrite

  const DefaultPage: int := 1
  const DefaultLimit: int := 25

  // ---------------------------------------------------------------------------
  // parseInt(text, 10)

  /** The characters `parseInt` skips at the start (white space and line terminators). */
  predicate IsJsSpace(c: char) {
    var k := c as int;
    k == 9 || k == 10 || k == 11 || k == 12 || k == 13 || k == 32 || k == 0xA0 || k == 0x1680
    || (0x2000 <= k <= 0x200A) || k == 0x2028 || k == 0x2029 || k == 0x202F || k == 0x205F
    || k == 0x3000 || k == 0xFEFF
  }

  function TrimStart(s: string): (r: string)
    ensures |r| <= |s| && r == s[|s| - |r|..]
    ensures r == [] || !IsJsSpace(r[0])
  {
    if s != [] && IsJsSpace(s[0]) then TrimStart(s[1..]) else s
  }

  /** The number of decimal digits `s` starts with. */
  function DigitRun(s: string): (n: nat)
    ensures n <= |s|
    ensures forall i :: 0 <= i < n ==> IsDigit(s[i])
    ensures n < |s| ==> !IsDigit(s[n])
  {
    if s == [] || !IsDigit(s[0]) then 0 else 1 + DigitRun(s[1..])
  }

  /** The value of a string of decimal digits, most significant first. */
  function DigitsValue(ds: string): nat
    requires forall i :: 0 <= i < |ds| ==> IsDigit(ds[i])
  {
    if ds == [] then 0 else DigitsValue(ds[..|ds| - 1]) * 10 + DigitValue(ds[|ds| - 1])
  }

  /** `parseInt(s, 10)`: leading white space and one sign are skipped, then the longest
      run of digits is read; `None` stands for `NaN` (no digit at all). */
  function ParseInt(s: string): Option<int> {
    ParseSigned(TrimStart(s))
  }

  function ParseSigned(t: string): Option<int> {
    if t != [] && t[0] == '-' then Negate(ParseDigits(t[1..]))
    else if t != [] && t[0] == '+' then ParseDigits(t[1..])
    else ParseDigits(t)
  }

  /** The value of the digits `u` starts with, or `None` when it starts with none. */
  function ParseDigits(u: string): Option<nat> {
    var n := DigitRun(u);
    if n == 0 then None else Some(DigitsValue(u[..n]))
  }

  function Negate(v: Option<nat>): Option<int> {
    if v.None? then None else Some(-(v.value as int))
  }

  lemma {:induction false} DigitsValueOfNatString(n: nat)
    ensures DigitsValue(NatString(n)) == n
  {
    var s := NatString(n);
    if n >= 10 {
      DigitsValueOfNatString(n / 10);
      assert s[..|s| - 1] == NatString(n / 10);
    }
  }

  lemma DigitRunOfDigits(ds: string, rest: string)
    requires forall i :: 0 <= i < |ds| ==> IsDigit(ds[i])
    requires rest == [] || !IsDigit(rest[0])
    ensures DigitRun(ds + rest) == |ds| && (ds + rest)[..|ds|] == ds
  {
    if ds != [] {
      assert (ds + rest)[1..] == ds[1..] + rest;
      DigitRunOfDigits(ds[1..], rest);
    }
  }

  lemma ParseDigitsOfDecimal(n: nat, rest: string)
    requires rest == [] || !IsDigit(rest[0])
    ensures ParseDigits(NatString(n) + rest) == Some(n)
  {
    DigitRunOfDigits(NatString(n), rest);
    DigitsValueOfNatString(n);
  }

  /** A text that starts with neither white space nor a sign is read as digits. */
  lemma ParseIntUnsigned(t: string)
    requires t != [] && !IsJsSpace(t[0]) && t[0] != '-' && t[0] != '+'
    ensures ParseInt(t) == ParseDigits(t)
  {
    assert TrimStart(t) == t;
  }

  /** `parseInt` reads back the decimal text of a number and ignores whatever follows
      its digits. */
  lemma ParseIntOfDecimal(n: nat, rest: string)
    requires rest == [] || !IsDigit(rest[0])
    ensures ParseInt(NatString(n) + rest) == Some(n)
  {
    var t := NatString(n) + rest;
    assert t[0] == NatString(n)[0];
    ParseIntUnsigned(t);
    ParseDigitsOfDecimal(n, rest);
  }

  /** A minus sign in front negates what the digits after it give. */
  lemma ParseIntMinus(tail: string)
    ensures ParseInt(['-'] + tail) == Negate(ParseDigits(tail))
  {
    var t := ['-'] + tail;
    assert TrimStart(t) == t;
    assert t[1..] == tail;
  }

  /** What follows one leading sign, if there is one. */
  function Unsigned(t: string): (r: string)
    ensures |r| <= |t|
  {
    if t != [] && (t[0] == '-' || t[0] == '+') then t[1..] else t
  }

  /** `parseInt` gives NaN exactly when, after the white space and one sign, no digit
      follows. */
  lemma ParseIntNaN(s: string)
    ensures ParseInt(s).None? <==> DigitRun(Unsigned(TrimStart(s))) == 0
  {
  }

  // ---------------------------------------------------------------------------
  // page and limit

  /** `String(value)`, which `parseInt` applies to its argument first. */
  function ParamString(p: Param): string {
    match p
    case Str(s) => s
    case Arr(items) => Join(seq(|items|, i requires 0 <= i < |items| => ParamString(items[i])), ",")
    case Obj(_) => "[object Object]"
  }

  /** `parseInt(value, 10) || fallback`: NaN and 0 are falsy, so both give the fallback;
      an absent value reads as "undefined", which is NaN. */
  function IntOr(v: Option<Param>, fallback: int): (r: int)
    ensures v.Some? && ParseInt(ParamString(v.value)).Some? && ParseInt(ParamString(v.value)).value != 0 ==>
              r == ParseInt(ParamString(v.value)).value
    ensures v.None? || ParseInt(ParamString(v.value)).None? || ParseInt(ParamString(v.value)) == Some(0) ==>
              r == fallback
    ensures fallback != 0 ==> r != 0
  {
    if v.None? then fallback
    else match ParseInt(ParamString(v.value))
      case None => fallback
      case Some(k) => if k == 0 then fallback else k
  }

  function PageNumber(v: Option<Param>): int {
    IntOr(v, DefaultPage)
  }

  function PageLimit(v: Option<Param>): int {
    IntOr(v, DefaultLimit)
  }

  /** `page` defaults to 1 and `limit` to 25 when absent, when not numeric and when zero. */
  lemma PageParamAbsent()
    ensures PageNumber(None) == 1 && PageLimit(None) == 25
  {
  }

  lemma PageParamNotNumeric(p: Param)
    requires ParseInt(ParamString(p)).None?
    ensures PageNumber(Some(p)) == 1 && PageLimit(Some(p)) == 25
  {
  }

  lemma PageParamZero(p: Param)
    requires ParseInt(ParamString(p)) == Some(0)
    ensures PageNumber(Some(p)) == 1 && PageLimit(Some(p)) == 25
  {
  }

  /** Any other number `parseInt` reads is taken as it is, whatever its sign. */
  lemma PageParamNumber(p: Param, n: int)
    requires n != 0 && ParseInt(ParamString(p)) == Some(n)
    ensures PageNumber(Some(p)) == n && PageLimit(Some(p)) == n
  {
  }

  /** A positive number given in decimal is taken as it is. */
  lemma PageParamDecimal(n: nat)
    requires n != 0
    ensures PageNumber(Some(Str(NatString(n)))) == n && PageLimit(Some(Str(NatString(n)))) == n
  {
    ParseNatString(n);
  }

  /** "abc" is not numeric and "0" is zero, so both fall back. */
  lemma PageParamFallbackExamples()
    ensures PageNumber(Some(Str("abc"))) == 1 && PageLimit(Some(Str("0"))) == 25
  {
    ParseNotNumeric();
    ParseZero();
  }

  lemma ParseZero()
    ensures ParseInt("0") == Some(0)
  {
    ParseIntOfDecimal(0, "");
    assert NatString(0) + "" == "0";
  }

  lemma ParseNotNumeric()
    ensures ParseInt("abc") == None
  {
    ParseIntUnsigned("abc");
    assert DigitRun("abc") == 0;
  }

  lemma ParseNatString(n: nat)
    ensures ParseInt(NatString(n)) == Some(n)
  {
    ParseIntOfDecimal(n, "");
    assert NatString(n) + "" == NatString(n);
  }

  // ---------------------------------------------------------------------------
  // Indices, the window and the metadata

  function StartIndex(page: int, limit: int): int {
    (page - 1) * limit
  }

  function EndIndex(page: int, limit: int): int {
    page * limit
  }

  /** From the first page on, with a positive limit, the start index is not negative. */
  lemma StartIndexNonNegative(page: int, limit: int)
    requires page >= 1 && limit >= 1
    ensures StartIndex(page, limit) >= 0
  {
    var k: nat := page - 1;
    assert StartIndex(page, limit) == k * limit;
  }

  function Abs(x: int): nat {
    if x < 0 then -x else x
  }

  /** `skip(start).limit(limit)` as the database applies it: a negative limit returns at
      most `-limit` documents in a single batch. */
  function Window<T>(rs: seq<T>, start: nat, limit: int): (r: seq<T>)
    ensures |r| <= Abs(limit)
    ensures |r| == if start >= |rs| then 0 else if |rs| - start < Abs(limit) then |rs| - start else Abs(limit)
    ensures forall i :: 0 <= i < |r| ==> r[i] == rs[start + i]
  {
    var lo := if start < |rs| then start else |rs|;
    var hi := if lo + Abs(limit) < |rs| then lo + Abs(limit) else |rs|;
    rs[lo..hi]
  }

  /** Within the sequence the window is a slice of it. */
  lemma WindowIsSlice<T>(rs: seq<T>, start: nat, limit: int)
    requires start <= |rs|
    ensures Window(rs, start, limit) == rs[start..start + |Window(rs, start, limit)|]
  {
  }

  datatype PageRef = PageRef(page: int, limit: int)
  datatype Pagination = Pagination(next: Option<PageRef>, prev: Option<PageRef>)

  /** The metadata: `next` when the page ends before `total`, `prev` when it does not
      start at the first document. */
  function PaginationOf(page: int, limit: int, total: int): (r: Pagination)
    ensures r.next.Some? <==> EndIndex(page, limit) < total
    ensures r.prev.Some? <==> StartIndex(page, limit) > 0
    ensures r.next.Some? ==> r.next.value == PageRef(page + 1, limit)
    ensures r.prev.Some? ==> r.prev.value == PageRef(page - 1, limit)
  {
    Pagination(
      if EndIndex(page, limit) < total then Some(PageRef(page + 1, limit)) else None,
      if StartIndex(page, limit) > 0 then Some(PageRef(page - 1, limit)) else None)
  }

  /** For a positive page and limit, `prev` is present exactly after the first page, and
      `next` exactly when some document lies beyond this page. */
  lemma PrevIffNotFirstPage(page: int, limit: int, total: int)
    requires page >= 1 && limit >= 1
    ensures PaginationOf(page, limit, total).prev.Some? <==> page > 1
    ensures PaginationOf(page, limit, total).next.Some? <==> total - StartIndex(page, limit) > limit
  {
    if page > 1 {
      assert (page - 1) * limit >= limit;
    }
  }
}
