/** String and date helpers standing in for the JavaScript built-ins the
    pages call: `trim`, `toLowerCase`, `includes`, `substring`, `split('@')`,
    `localeCompare`, and the year/month/day view of a `Date`. */
module Text {

  /** A character that JavaScript's `String.prototype.trim` removes: the
      WhiteSpace and LineTerminator code points of ECMAScript. */
  predicate IsJsWhitespace(c: char)
  {
    || c == '\t' || c == '\n' || c == '\U{B}' || c == '\U{C}' || c == '\r'
    || c == ' ' || c == '\U{A0}' || c == '\U{1680}'
    || ('\U{2000}' <= c <= '\U{200A}')
    || c == '\U{2028}' || c == '\U{2029}' || c == '\U{202F}' || c == '\U{205F}'
    || c == '\U{3000}' || c == '\U{FEFF}'
  }

  /** `!s.trim()`: the string is empty once trimmed, that is, it holds only
      whitespace. */
  predicate IsBlank(s: string)
  {
    forall i :: 0 <= i < |s| ==> IsJsWhitespace(s[i])
  }

  /** `s.trim()`: leading and trailing whitespace removed. */
  function Trim(s: string): string
  {
    TrimEnd(TrimStart(s))
  }

  function TrimStart(s: string): string
  {
    if s != [] && IsJsWhitespace(s[0]) then TrimStart(s[1..]) else s
  }

  function TrimEnd(s: string): string
  {
    if s != [] && IsJsWhitespace(s[|s| - 1]) then TrimEnd(s[..|s| - 1]) else s
  }

  /** The blank test used by the forms is `!s.trim()`: a string is blank
      exactly when trimming it leaves the empty string. */
  lemma BlankIsTrimmedEmpty(s: string)
    ensures IsBlank(s) <==> Trim(s) == ""
  {
    TrimStartEmpty(s);
    var t := TrimStart(s);
    if t != [] {
      TrimStartHead(s);
      TrimEndKeepsHead(t);
    }
  }

  lemma {:induction false} TrimStartEmpty(s: string)
    ensures TrimStart(s) == "" <==> IsBlank(s)
  {
    if s != [] && IsJsWhitespace(s[0]) {
      TrimStartEmpty(s[1..]);
      assert forall i :: 0 < i < |s| ==> s[i] == s[1..][i - 1];
    }
  }

  lemma {:induction false} TrimStartHead(s: string)
    requires TrimStart(s) != ""
    ensures !IsJsWhitespace(TrimStart(s)[0])
  {
    if s != [] && IsJsWhitespace(s[0]) {
      TrimStartHead(s[1..]);
    }
  }

  lemma {:induction false} TrimEndKeepsHead(t: string)
    requires t != "" && !IsJsWhitespace(t[0])
    ensures TrimEnd(t) != ""
  {
    if IsJsWhitespace(t[|t| - 1]) {
      assert |t| > 1;
      TrimEndKeepsHead(t[..|t| - 1]);
    }
  }

  /** `toLowerCase` on the ASCII letters. */
  function LowerChar(c: char): (d: char)
    ensures 'A' <= c <= 'Z' ==> 'a' <= d <= 'z' && d as int - c as int == 32
    ensures !('A' <= c <= 'Z') ==> d == c
  {
    if 'A' <= c <= 'Z' then (c as int + 32) as char else c
  }

  function Lower(s: string): (r: string)
    ensures |r| == |s|
    ensures forall i :: 0 <= i < |s| ==> r[i] == LowerChar(s[i])
  {
    seq(|s|, i requires 0 <= i < |s| => LowerChar(s[i]))
  }

  /** `hay.includes(needle)`: `needle` occurs in `hay` at some offset. */
  predicate Contains(hay: string, needle: string)
  {
    needle <= hay || (hay != [] && Contains(hay[1..], needle))
  }

  /** `Contains` is `includes`: the needle starts at some offset of the
      haystack. */
  lemma {:induction false} ContainsIffOccurs(hay: string, needle: string)
    ensures Contains(hay, needle) <==> exists i :: 0 <= i <= |hay| && needle <= hay[i..]
  {
    if hay != [] {
      ContainsIffOccurs(hay[1..], needle);
      assert forall i :: 1 <= i <= |hay| ==> hay[i..] == hay[1..][i - 1..];
      if exists i :: 0 <= i <= |hay| && needle <= hay[i..] {
        var i :| 0 <= i <= |hay| && needle <= hay[i..];
        if i > 0 {
          assert needle <= hay[1..][i - 1..];
        }
      }
    } else {
      assert forall i :: 0 <= i <= |hay| ==> hay[i..] == hay;
    }
  }

  /** `s.substring(0, n)`. */
  function Take(s: string, n: nat): (r: string)
    ensures |r| == if |s| < n then |s| else n
    ensures r <= s
  {
    if |s| <= n then s else s[..n]
  }

  /** `s.split('@')[0]`: the text before the first '@', or all of `s`. */
  function BeforeAt(s: string): (r: string)
    ensures r <= s
    ensures '@' !in r
    ensures r == s || s[|r|] == '@'
  {
    if s == [] then ""
    else if s[0] == '@' then ""
    else [s[0]] + BeforeAt(s[1..])
  }

  /** Code-unit lexicographic order, `a` not before `b`: what
      `b.localeCompare(a) <= 0` yields on the digit-and-dash period strings
      the pages sort. */
  predicate StrGeq(a: string, b: string)
  {
    if b == [] then true
    else if a == [] then false
    else if a[0] != b[0] then a[0] > b[0]
    else StrGeq(a[1..], b[1..])
  }

  lemma {:induction false} StrGeqTotal(a: string, b: string)
    ensures StrGeq(a, b) || StrGeq(b, a)
  {
    if a != [] && b != [] && a[0] == b[0] {
      StrGeqTotal(a[1..], b[1..]);
    }
  }

  lemma {:induction false} StrGeqTransitive(a: string, b: string, c: string)
    requires StrGeq(a, b) && StrGeq(b, c)
    ensures StrGeq(a, c)
  {
    if c != [] && a != [] && b != [] && a[0] == b[0] && b[0] == c[0] {
      StrGeqTransitive(a[1..], b[1..], c[1..]);
    }
  }

  /** A calendar day as `Date.getFullYear`, `getMonth() + 1` and `getDate`
      report it. */
  datatype CalendarDate = CalendarDate(year: int, month: int, day: int)

  /** `b.getTime() - a.getTime() <= 0` on days: `a` is the same day as `b`
      or later. */
  predicate DateGeq(a: CalendarDate, b: CalendarDate)
  {
    || a.year > b.year
    || (a.year == b.year && a.month > b.month)
    || (a.year == b.year && a.month == b.month && a.day >= b.day)
  }

  function DigitValue(c: char): (d: int)
    requires '0' <= c <= '9'
    ensures 0 <= d <= 9
  {
    c as int - '0' as int
  }

  function DigitChar(d: int): (c: char)
    requires 0 <= d <= 9
    ensures '0' <= c <= '9' && DigitValue(c) == d
  {
    (d + '0' as int) as char
  }

  predicate AllDigits(s: string)
  {
    forall i :: 0 <= i < |s| ==> '0' <= s[i] <= '9'
  }

  /** The decimal value of a string of digits, most significant first. */
  function DecimalValue(s: string): (n: nat)
    requires AllDigits(s)
  {
    if s == [] then 0 else DecimalValue(s[..|s| - 1]) * 10 + DigitValue(s[|s| - 1])
  }

  /** `n` written with exactly `width` digits, zero-padded on the left. */
  function Decimal(n: nat, width: nat): (s: string)
    ensures |s| == width
    ensures AllDigits(s)
  {
    if width == 0 then ""
    else Decimal(n / 10, width - 1) + [DigitChar(n % 10)]
  }

  lemma {:induction false} DecimalRoundTrip(n: nat, width: nat)
    requires n < Pow10(width)
    ensures DecimalValue(Decimal(n, width)) == n
  {
    if width > 0 {
      var s := Decimal(n, width);
      assert s[..|s| - 1] == Decimal(n / 10, width - 1);
      DecimalRoundTrip(n / 10, width - 1);
    }
  }

  /** A string of `k` digits stands for a number below 10^k. */
  lemma {:induction false} DecimalValueBound(s: string)
    requires AllDigits(s)
    ensures DecimalValue(s) < Pow10(|s|)
  {
    if s != [] {
      DecimalValueBound(s[..|s| - 1]);
    }
  }

  function Pow10(k: nat): (p: nat)
    ensures p >= 1
  {
    if k == 0 then 1 else 10 * Pow10(k - 1)
  }

  /** Month arithmetic: the number of months since January of year 0. */
  function MonthIndex(year: int, month: int): int
  {
    year * 12 + (month - 1)
  }
}
