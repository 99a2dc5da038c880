/**
 * Helpers shared by the whole model: an Option type for Kotlin's nullable
 * values, Kotlin's `coerceIn`, the page arithmetic used by every paginated
 * view, and the few `String` operations the bot relies on (`startsWith`,
 * `split`, `trim`, `joinToString`, `toString` and `toInt` of numbers).
 */
module Util {

  /** Kotlin's `T?`. */
  datatype Option<+T> = None | Some(value: T) {
    /** Kotlin's `?: default`. */
    function GetOr(default: T): T {
      match this
      case Some(v) => v
      case None => default
    }
  }

  /** Stations shown on one page of a paginated list (STATIONS_PER_PAGE). */
  const PAGE_SIZE: nat := 5

  /** Largest and smallest values of a Kotlin/JVM `Int`. */
  const INT_MAX: int := 0x7FFF_FFFF
  const INT_MIN: int := -0x8000_0000

  /** Kotlin's `v.coerceIn(lo, hi)` over a non-empty range. */
  function Clamp(v: int, lo: int, hi: int): (r: int)
    requires lo <= hi
    ensures lo <= r <= hi
    ensures lo <= v <= hi ==> r == v
    ensures v < lo ==> r == lo
    ensures hi < v ==> r == hi
  {
    if v < lo then lo else if hi < v then hi else v
  }

  /**
   * Kotlin's `v.coerceIn(lo, hi)` for any bounds: an empty range
   * (`hi < lo`) makes Kotlin throw IllegalArgumentException, modelled as None.
   */
  function CoerceIn(v: int, lo: int, hi: int): (r: Option<int>)
    ensures r.None? <==> hi < lo
    ensures r.Some? ==> lo <= r.value <= hi && (lo <= v <= hi ==> r.value == v)
  {
    if hi < lo then None else Some(Clamp(v, lo, hi))
  }

  /** `(n + STATIONS_PER_PAGE - 1) / STATIONS_PER_PAGE`: the number of pages of n items. */
  function TotalPages(n: nat): (t: nat)
  {
    (n + PAGE_SIZE - 1) / PAGE_SIZE
  }

  /** TotalPages is the ceiling of n / 5: the pages hold every item and none is empty. */
  lemma TotalPagesIsCeiling(n: nat)
    ensures TotalPages(n) * PAGE_SIZE >= n
    ensures n > 0 ==> (TotalPages(n) - 1) * PAGE_SIZE < n
    ensures TotalPages(n) == 0 <==> n == 0
  {
  }

  /** Index of the first item of page p (1-based pages): `(p - 1) * STATIONS_PER_PAGE`. */
  function PageStart(p: int): int
  {
    (p - 1) * PAGE_SIZE
  }

  /**
   * `results.subList(start, (start + 5).coerceAtMost(n))` with start = PageStart(p).
   * `subList` throws IndexOutOfBoundsException for a negative start or a start past
   * the end; that is modelled as None.
   */
  function PageSlice<T>(items: seq<T>, p: int): (r: Option<seq<T>>)
    ensures r.Some? <==> 0 <= PageStart(p) <= |items|
    ensures r.Some? ==> |r.value| <= PAGE_SIZE && PageStart(p) + |r.value| <= |items|
    ensures r.Some? ==> forall k :: 0 <= k < |r.value| ==> r.value[k] == items[PageStart(p) + k]
    ensures r.Some? && PageStart(p) + PAGE_SIZE <= |items| ==> |r.value| == PAGE_SIZE
    ensures r.Some? && |items| < PageStart(p) + PAGE_SIZE ==> |r.value| == |items| - PageStart(p)
  {
    var start := PageStart(p);
    if 0 <= start <= |items| then
      var end := if start + PAGE_SIZE <= |items| then start + PAGE_SIZE else |items|;
      Some(items[start..end])
    else None
  }

  /** Every page from 1 to TotalPages(|items|) has a slice, and it is not empty. */
  lemma {:induction false} ValidPagesHaveSlices<T>(items: seq<T>, p: int)
    requires 1 <= p <= TotalPages(|items|)
    ensures PageSlice(items, p).Some? && |PageSlice(items, p).value| > 0
  {
    TotalPagesIsCeiling(|items|);
  }

  /** A subset is no larger than its superset, and a proper subset is smaller. */
  lemma {:induction false} SubsetSize<T>(a: set<T>, b: set<T>)
    requires a <= b
    ensures |a| <= |b|
    ensures a < b ==> |a| < |b|
    decreases |b|
  {
    if b != {} {
      var x :| x in b;
      SubsetSize(a - {x}, b - {x});
      if x in a {
        assert a == (a - {x}) + {x};
      }
    }
  }

  // ---------------------------------------------------------------- strings

  /** Kotlin's `s.startsWith(prefix)`. */
  predicate StartsWith(s: string, prefix: string)
  {
    |prefix| <= |s| && s[..|prefix|] == prefix
  }

  /** Kotlin's `s.removePrefix(prefix)`: drops the prefix when present, else keeps s. */
  function RemovePrefix(s: string, prefix: string): (r: string)
    ensures StartsWith(s, prefix) ==> prefix + r == s
    ensures !StartsWith(s, prefix) ==> r == s
  {
    if StartsWith(s, prefix) then s[|prefix|..] else s
  }

  /** Kotlin's `Char.isWhitespace()`, restricted to the ASCII whitespace characters. */
  predicate IsWhitespace(c: char)
  {
    c == ' ' || c == '\t' || c == '\n' || c == '\r' || c == '\U{B}' || c == '\U{C}'
  }

  /** Kotlin's `s.isBlank()`: empty or whitespace only. */
  predicate IsBlank(s: string)
  {
    forall i :: 0 <= i < |s| ==> IsWhitespace(s[i])
  }

  /** Kotlin's `s.trimStart()`. */
  function TrimStart(s: string): (r: string)
    ensures |r| <= |s| && r == s[|s| - |r|..]
    ensures r == [] || !IsWhitespace(r[0])
  {
    if s == [] || !IsWhitespace(s[0]) then s else TrimStart(s[1..])
  }

  /** Kotlin's `s.trimEnd()`. */
  function TrimEnd(s: string): (r: string)
    ensures |r| <= |s| && r == s[..|r|]
    ensures r == [] || !IsWhitespace(r[|r| - 1])
  {
    if s == [] || !IsWhitespace(s[|s| - 1]) then s else TrimEnd(s[..|s| - 1])
  }

  /** Kotlin's `s.trim()`. */
  function Trim(s: string): string
  {
    TrimEnd(TrimStart(s))
  }

  /** A trimmed string is blank exactly when it is empty. */
  lemma TrimmedBlankIsEmpty(s: string)
    ensures IsBlank(Trim(s)) <==> Trim(s) == []
  {
  }

  /** Kotlin's `s.split(sep)` for a one-character separator: keeps empty pieces. */
  function Split(s: string, sep: char): (parts: seq<string>)
    ensures |parts| >= 1
    ensures forall i :: 0 <= i < |parts| ==> sep !in parts[i]
    decreases |s|
  {
    if s == [] then [""]
    else
      var rest := Split(s[1..], sep);
      if s[0] == sep then [""] + rest
      else [[s[0]] + rest[0]] + rest[1..]
  }

  /** Kotlin's `parts.joinToString(sep)`. */
  function Join(parts: seq<string>, sep: string): string
  {
    if parts == [] then ""
    else if |parts| == 1 then parts[0]
    else parts[0] + sep + Join(parts[1..], sep)
  }

  /** A joined string begins with the first piece. */
  lemma JoinStartsWithFirst(parts: seq<string>, sep: string)
    requires parts != []
    ensures parts[0] <= Join(parts, sep)
  {
  }

  /** Splitting on a character and joining with it again gives the original string back. */
  lemma {:induction false} JoinSplit(s: string, sep: char)
    ensures Join(Split(s, sep), [sep]) == s
    decreases |s|
  {
    if s != [] {
      var rest := Split(s[1..], sep);
      JoinSplit(s[1..], sep);
      if s[0] == sep {
        assert Split(s, sep) == [""] + rest;
        assert ([""] + rest)[1..] == rest;
      } else {
        var parts := [[s[0]] + rest[0]] + rest[1..];
        assert Split(s, sep) == parts;
        if |rest| == 1 {
          assert Join(rest, [sep]) == rest[0];
        } else {
          assert Join(rest, [sep]) == rest[0] + [sep] + Join(rest[1..], [sep]);
          assert parts[1..] == rest[1..];
        }
      }
    }
  }

  /** A piece without the separator, followed by more text, splits off as the head of the first piece. */
  lemma {:induction false} SplitAppend(a: string, r: string, sep: char)
    requires sep !in a
    ensures Split(a + r, sep) == [a + Split(r, sep)[0]] + Split(r, sep)[1..]
    decreases |a|
  {
    if a != [] {
      var s, R := a + r, Split(r, sep);
      SplitAppend(a[1..], r, sep);
      assert s[1..] == a[1..] + r;
      var rest := Split(s[1..], sep);
      assert rest == [a[1..] + R[0]] + R[1..];
      assert s[0] == a[0] && a[0] in a;
      assert Split(s, sep) == [[s[0]] + rest[0]] + rest[1..];
      assert rest[1..] == R[1..];
      assert [a[0]] + (a[1..] + R[0]) == a + R[0];
    } else {
      var R := Split(r, sep);
      assert a + r == r && a + R[0] == R[0];
      assert R == [R[0]] + R[1..];
    }
  }

  /** Joining pieces that do not contain the separator and splitting again gives the pieces back. */
  lemma {:induction false} SplitJoin(parts: seq<string>, sep: char)
    requires parts != []
    requires forall i :: 0 <= i < |parts| ==> sep !in parts[i]
    ensures Split(Join(parts, [sep]), sep) == parts
    decreases |parts|
  {
    if |parts| == 1 {
      SplitAppend(parts[0], "", sep);
      assert parts[0] + "" == parts[0];
    } else {
      var rest := Join(parts[1..], [sep]);
      assert Join(parts, [sep]) == parts[0] + ([sep] + rest);
      SplitJoin(parts[1..], sep);
      SplitAppend(parts[0], [sep] + rest, sep);
      var t := [sep] + rest;
      assert t[0] == sep && t[1..] == rest;
      assert Split(t, sep) == [""] + Split(rest, sep);
      assert Split(t, sep)[0] == "" && Split(t, sep)[1..] == parts[1..];
      assert parts[0] + "" == parts[0];
      assert parts == [parts[0]] + parts[1..];
    }
  }

  /** Kotlin's `list.take(n)`. */
  function Take<T>(xs: seq<T>, n: nat): (r: seq<T>)
    ensures |r| == if n < |xs| then n else |xs|
    ensures r <= xs
  {
    if n < |xs| then xs[..n] else xs
  }

  // ---------------------------------------------------------------- numbers

  /** The decimal digit character of d. */
  function DigitChar(d: nat): char
    requires d < 10
  {
    "0123456789"[d]
  }

  predicate IsDigit(c: char)
  {
    '0' <= c <= '9'
  }

  function DigitValue(c: char): nat
    requires IsDigit(c)
  {
    c as int - '0' as int
  }

  /** Kotlin's `n.toString()` for a non-negative number. */
  function NatToString(n: nat): (s: string)
    ensures |s| >= 1
    ensures forall i :: 0 <= i < |s| ==> IsDigit(s[i])
  {
    if n < 10 then [DigitChar(n)] else NatToString(n / 10) + [DigitChar(n % 10)]
  }

  /** Kotlin's `i.toString()`. */
  function IntToString(i: int): string
  {
    if i < 0 then "-" + NatToString(-i) else NatToString(i)
  }

  /** The value of a string of decimal digits, most significant first. */
  function DigitsValue(s: string): nat
    requires forall i :: 0 <= i < |s| ==> IsDigit(s[i])
  {
    if s == [] then 0 else DigitsValue(s[..|s| - 1]) * 10 + DigitValue(s[|s| - 1])
  }

  /** Reading back the digits that NatToString writes gives the number again. */
  lemma {:induction false} DigitsOfNatToString(n: nat)
    ensures DigitsValue(NatToString(n)) == n
  {
    if n >= 10 {
      var s := NatToString(n);
      DigitsOfNatToString(n / 10);
      assert s[..|s| - 1] == NatToString(n / 10);
    }
  }

  /**
   * Kotlin's `String.toInt()` for ASCII digits: an optional '+' or '-' followed
   * by at least one digit, with a value that fits a JVM `Int`. Anything else makes
   * Kotlin throw NumberFormatException, modelled as None.
   */
  function ParseInt(s: string): (r: Option<int>)
    ensures r.Some? ==> INT_MIN <= r.value <= INT_MAX
  {
    var neg := |s| > 0 && s[0] == '-';
    var body := if |s| > 0 && (s[0] == '-' || s[0] == '+') then s[1..] else s;
    if body == [] || exists i :: 0 <= i < |body| && !IsDigit(body[i]) then None
    else
      var v: int := if neg then 0 - (DigitsValue(body) as int) else DigitsValue(body) as int;
      if INT_MIN <= v <= INT_MAX then Some(v) else None
  }

  /** Every Int the bot prints (`toString`) is read back by `toInt` unchanged. */
  lemma ParseIntOfIntToString(i: int)
    requires INT_MIN <= i <= INT_MAX
    ensures ParseInt(IntToString(i)) == Some(i)
  {
    if i < 0 {
      var s := IntToString(i);
      assert s[1..] == NatToString(-i);
      DigitsOfNatToString(-i);
    } else {
      var s := NatToString(i);
      assert s[0] != '-' && s[0] != '+' by { assert IsDigit(s[0]); }
      DigitsOfNatToString(i);
    }
  }
}
