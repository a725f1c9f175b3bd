/**
 * The JavaScript runtime primitives the application relies on, stated
 * explicitly: nullable values, numbers with NaN and infinities, the value
 * coercions `Number()`/`String()`, decimal rendering of integers,
 * `String.prototype.trim` and the UTF-16 `length` of a string.
 */
module JsCore {

  /** A nullable / optional value (`T | null`, `T | undefined`). */
  datatype Option<+T> = None | Some(value: T) {
    function GetOr(default: T): T {
      match this
      case Some(v) => v
      case None => default
    }
  }

  /** The outcome of an operation that can fail (a resolved or a rejected promise). */
  datatype Result<+T, +E> = Success(value: T) | Failure(error: E)

  /** A JavaScript number. Finite values are modelled exactly, as reals. */
  datatype Num = NaN | Infinity(negative: bool) | Finite(r: real)

  /**
   * An `unknown` value as the code observes it: through its `Number()` and
   * `String()` coercions (the coercions themselves are not modelled).
   */
  datatype Unknown = Unknown(asNumber: Num, asString: string)

  /** `undefined`: `Number(undefined)` is NaN and `String(undefined)` is "undefined". */
  const Undefined: Unknown := Unknown(NaN, "undefined")

  // ---------------------------------------------------------------------
  // Decimal rendering of integers (`String(n)`, template literals)
  // ---------------------------------------------------------------------

  predicate IsDigit(c: char) {
    '0' <= c <= '9'
  }

  function DigitChar(d: nat): (c: char)
    requires d < 10
    ensures IsDigit(c) && (c as int) - ('0' as int) == d
  {
    "0123456789"[d]
  }

  /** The decimal digits of `n`, most significant first, without leading zeros. */
  function NatToString(n: nat): (r: string)
    ensures |r| > 0
    ensures forall i :: 0 <= i < |r| ==> IsDigit(r[i])
    ensures r[0] == '0' ==> r == "0"
    decreases n
  {
    if n < 10 then [DigitChar(n)] else NatToString(n / 10) + [DigitChar(n % 10)]
  }

  function DigitValue(c: char): nat
    requires IsDigit(c)
  {
    (c as int) - ('0' as int)
  }

  /** The value of a string of decimal digits. */
  function ParseDigits(s: string): nat
    requires forall i :: 0 <= i < |s| ==> IsDigit(s[i])
  {
    if |s| == 0 then 0
    else ParseDigits(s[..|s| - 1]) * 10 + DigitValue(s[|s| - 1])
  }

  /** Rendering a natural number in decimal loses nothing: it parses back. */
  lemma {:induction false} ParseNatToString(n: nat)
    ensures ParseDigits(NatToString(n)) == n
    decreases n
  {
    if n >= 10 {
      ParseNatToString(n / 10);
      var s := NatToString(n);
      assert s[..|s| - 1] == NatToString(n / 10);
    }
  }

  lemma NatToStringInjective(a: nat, b: nat)
    ensures NatToString(a) == NatToString(b) ==> a == b
  {
    ParseNatToString(a);
    ParseNatToString(b);
  }

  /** `String(i)` for an integral number. */
  function IntToString(i: int): (r: string)
    ensures |r| > 0
    ensures (r[0] == '-') <==> i < 0
    ensures i >= 0 ==> IsDigit(r[0])
  {
    if i < 0 then "-" + NatToString(-i) else NatToString(i)
  }

  lemma IntToStringInjective(a: int, b: int)
    ensures IntToString(a) == IntToString(b) ==> a == b
  {
    if IntToString(a) == IntToString(b) {
      if a < 0 {
        assert IntToString(a)[1..] == NatToString(-a);
        assert IntToString(b)[1..] == NatToString(-b);
        NatToStringInjective(-a, -b);
      } else {
        NatToStringInjective(a, b);
      }
    }
  }

  /** `s.includes(t)`: `t` occurs in `s` at some position. */
  predicate Contains(s: string, t: string)
    decreases |s|
  {
    |t| <= |s| && (s[..|t|] == t || Contains(s[1..], t))
  }

  // ---------------------------------------------------------------------
  // Array.prototype.filter and findIndex
  // ---------------------------------------------------------------------

  /** `s.filter(keep)`: the kept elements, in their order. */
  function Filter<T(!new)>(s: seq<T>, keep: T -> bool): (r: seq<T>)
    ensures |r| <= |s|
    ensures forall x :: x in r <==> x in s && keep(x)
    decreases |s|
  {
    if s == [] then []
    else
      var rest := Filter(s[1..], keep);
      assert forall x :: x in s <==> x == s[0] || x in s[1..];
      if keep(s[0]) then [s[0]] + rest else rest
  }

  /** Filtering with a test every element passes changes nothing. */
  lemma {:induction false} FilterAll<T(!new)>(s: seq<T>, keep: T -> bool)
    requires forall i :: 0 <= i < |s| ==> keep(s[i])
    ensures Filter(s, keep) == s
    decreases |s|
  {
    if s != [] {
      FilterAll(s[1..], keep);
    }
  }

  /** `filter` distributes over concatenation: what it keeps stays in its order. */
  lemma {:induction false} FilterAppend<T(!new)>(a: seq<T>, b: seq<T>, keep: T -> bool)
    ensures Filter(a + b, keep) == Filter(a, keep) + Filter(b, keep)
    decreases |a|
  {
    if a == [] {
      assert a + b == b;
    } else {
      assert (a + b)[0] == a[0];
      assert (a + b)[1..] == a[1..] + b;
      FilterAppend(a[1..], b, keep);
    }
  }

  /** On a single element `filter` keeps it exactly when it passes. Together with
      `FilterAppend` this fixes the order and multiplicity of every result. */
  lemma FilterSingle<T(!new)>(x: T, keep: T -> bool)
    ensures Filter([x], keep) == if keep(x) then [x] else []
  {
    assert [x][1..] == [];
  }

  /** `s.findIndex(p)`: the first index whose element passes, or -1. */
  function FindIndex<T>(s: seq<T>, p: T -> bool): (r: int)
    ensures -1 <= r < |s|
    ensures r == -1 <==> forall i :: 0 <= i < |s| ==> !p(s[i])
    ensures r >= 0 ==> p(s[r]) && forall j :: 0 <= j < r ==> !p(s[j])
    decreases |s|
  {
    if s == [] then -1
    else if p(s[0]) then 0
    else
      var r := FindIndex(s[1..], p);
      assert forall i :: 1 <= i < |s| ==> s[i] == s[1..][i - 1];
      if r == -1 then -1 else r + 1
  }

  /** The first element `filter` keeps is the one `findIndex` finds, so
      `s.filter(p)[0]` is `s[s.findIndex(p)]`, and undefined exactly when it is -1. */
  lemma {:induction false} FilterFirst<T(!new)>(s: seq<T>, p: T -> bool)
    ensures Filter(s, p) == [] <==> FindIndex(s, p) == -1
    ensures FindIndex(s, p) >= 0 ==> Filter(s, p)[0] == s[FindIndex(s, p)]
    decreases |s|
  {
    if s != [] {
      if !p(s[0]) {
        FilterFirst(s[1..], p);
      }
    }
  }

  // ---------------------------------------------------------------------
  // String.prototype.trim
  // ---------------------------------------------------------------------

  /** ECMAScript WhiteSpace and LineTerminator code points, which `trim` strips. */
  const Whitespace: set<char> := {
    '\t', '\n', '\U{B}', '\U{C}', '\r', ' ', '\U{A0}', '\U{1680}',
    '\U{2000}', '\U{2001}', '\U{2002}', '\U{2003}', '\U{2004}', '\U{2005}',
    '\U{2006}', '\U{2007}', '\U{2008}', '\U{2009}', '\U{200A}',
    '\U{2028}', '\U{2029}', '\U{202F}', '\U{205F}', '\U{3000}', '\U{FEFF}'
  }

  predicate IsWhitespace(c: char) {
    c in Whitespace
  }

  /** The index of the first non-whitespace character (|s| when there is none). */
  function LeadingSpace(s: string): (n: nat)
    ensures n <= |s|
    ensures forall k :: 0 <= k < n ==> IsWhitespace(s[k])
    ensures n < |s| ==> !IsWhitespace(s[n])
  {
    if |s| > 0 && IsWhitespace(s[0]) then 1 + LeadingSpace(s[1..]) else 0
  }

  /** One past the index of the last non-whitespace character (0 when there is none). */
  function ContentEnd(s: string): (n: nat)
    ensures n <= |s|
    ensures forall k :: n <= k < |s| ==> IsWhitespace(s[k])
    ensures n > 0 ==> !IsWhitespace(s[n - 1])
  {
    if |s| > 0 && IsWhitespace(s[|s| - 1]) then ContentEnd(s[..|s| - 1]) else |s|
  }

  /** No character survives trimming exactly when the first non-whitespace
      character does not come before the end of the content. */
  lemma AllWhitespaceIff(s: string)
    ensures LeadingSpace(s) >= ContentEnd(s) <==> forall k :: 0 <= k < |s| ==> IsWhitespace(s[k])
  {
    var i, j := LeadingSpace(s), ContentEnd(s);
    if i >= j {
      forall k | 0 <= k < |s|
        ensures IsWhitespace(s[k])
      {
      }
    }
  }

  /** `s.trim()`: the stretch from the first to the last non-whitespace character,
      or "" when there is none. */
  function Trim(s: string): (r: string)
    ensures |r| <= |s|
    ensures |r| > 0 ==> !IsWhitespace(r[0]) && !IsWhitespace(r[|r| - 1])
    ensures |r| == 0 <==> forall k :: 0 <= k < |s| ==> IsWhitespace(s[k])
  {
    AllWhitespaceIff(s);
    var i, j := LeadingSpace(s), ContentEnd(s);
    if i < j then s[i..j] else []
  }

  /** What `trim` means: the result is the stretch of `s` between its first and last
      non-whitespace characters, everything cut away is whitespace, and the result is
      empty exactly when `s` is all whitespace. */
  lemma TrimIsCore(s: string)
    ensures var i, j := LeadingSpace(s), ContentEnd(s);
      && (forall k :: 0 <= k < i ==> IsWhitespace(s[k]))
      && (forall k :: j <= k < |s| ==> IsWhitespace(s[k]))
      && (i < j ==> Trim(s) == s[i..j] && !IsWhitespace(s[i]) && !IsWhitespace(s[j - 1]))
      && (|Trim(s)| == 0 <==> forall k :: 0 <= k < |s| ==> IsWhitespace(s[k]))
  {
    var i, j := LeadingSpace(s), ContentEnd(s);
    if |Trim(s)| == 0 {
      assert j <= i;
      forall k | 0 <= k < |s| ensures IsWhitespace(s[k]) {
        if !IsWhitespace(s[k]) {
          assert false;
        }
      }
    }
  }

  /** A string trims to "" exactly when every character of it is whitespace. */
  lemma TrimEmptyIff(s: string)
    ensures |Trim(s)| == 0 <==> forall k :: 0 <= k < |s| ==> IsWhitespace(s[k])
  {
    TrimIsCore(s);
  }

  lemma TrimIdempotent(s: string)
    ensures Trim(Trim(s)) == Trim(s)
  {
    TrimIsCore(s);
    var i, j := LeadingSpace(s), ContentEnd(s);
    var r := Trim(s);
    if i < j {
      assert r[0] == s[i] && r[|r| - 1] == s[j - 1];
      assert LeadingSpace(r) == 0;
      assert ContentEnd(r) == |r|;
      assert r[0..|r|] == r;
    }
  }

  // ---------------------------------------------------------------------
  // String.prototype.length
  // ---------------------------------------------------------------------

  /** `s.length`: the number of UTF-16 code units, so a character outside the
      Basic Multilingual Plane counts twice. */
  function Utf16Length(s: string): (n: nat)
    ensures |s| <= n <= 2 * |s|
  {
    if |s| == 0 then 0
    else Utf16Length(s[..|s| - 1]) + (if s[|s| - 1] as int > 0xFFFF then 2 else 1)
  }

  lemma {:induction false} Utf16LengthOfBmp(s: string)
    requires forall k :: 0 <= k < |s| ==> s[k] as int <= 0xFFFF
    ensures Utf16Length(s) == |s|
  {
    if |s| > 0 {
      Utf16LengthOfBmp(s[..|s| - 1]);
    }
  }
}
