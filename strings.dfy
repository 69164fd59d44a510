/**
 * The few JavaScript string operations the application relies on:
 * `trim`, `startsWith`, `includes`, `toLowerCase`, `split`, `join`,
 * number-to-string conversion and `parseInt`.
 */
module Strings {

  /** The characters JavaScript's `\s` and `String.prototype.trim` treat as white space. */
  predicate IsWhitespace(c: char) {
    c == ' ' || c == '\t' || c == '\n' || c == '\r' || c == '\U{000B}' || c == '\U{000C}'
    || c == '\U{00A0}' || c == '\U{1680}' || ('\U{2000}' <= c <= '\U{200A}')
    || c == '\U{2028}' || c == '\U{2029}' || c == '\U{202F}' || c == '\U{205F}'
    || c == '\U{3000}' || c == '\U{FEFF}'
  }

  predicate IsBlank(s: string) {
    forall i :: 0 <= i < |s| ==> IsWhitespace(s[i])
  }

  /** Leading white space removed: what is left is no longer and starts with a non-space. */
  function TrimStart(s: string): (r: string)
    ensures |r| <= |s|
    ensures r == [] || !IsWhitespace(r[0])
  {
    if s != [] && IsWhitespace(s[0]) then TrimStart(s[1..]) else s
  }

  /** What `TrimStart` drops is a run of white space in front of what it keeps. */
  lemma {:induction false} TrimStartSuffix(s: string)
    ensures s[|s| - |TrimStart(s)|..] == TrimStart(s)
    ensures IsBlank(s[..|s| - |TrimStart(s)|])
  {
    if s != [] && IsWhitespace(s[0]) {
      var r := TrimStart(s[1..]);
      assert TrimStart(s) == r;
      TrimStartSuffix(s[1..]);
      var k := |s| - |r|;
      assert IsBlank(s[1..][..k - 1]);
      assert s[..k] == [s[0]] + s[1..][..k - 1];
      assert s[k..] == s[1..][k - 1..];
    }
  }

  /** Trailing white space removed. */
  function TrimEnd(s: string): (r: string)
    ensures |r| <= |s| && r == s[..|r|]
    ensures IsBlank(s[|r|..])
    ensures r == [] || !IsWhitespace(r[|r| - 1])
  {
    if s != [] && IsWhitespace(s[|s| - 1]) then
      var r := TrimEnd(s[..|s| - 1]);
      assert s[|r|..] == s[..|s| - 1][|r|..] + [s[|s| - 1]];
      r
    else s
  }

  /** `s.trim()` */
  function Trim(s: string): (r: string)
    ensures |r| <= |s|
    ensures r == [] || (!IsWhitespace(r[0]) && !IsWhitespace(r[|r| - 1]))
  {
    TrimEnd(TrimStart(s))
  }

  /** A string trims to nothing exactly when it is all white space. */
  lemma {:induction false} TrimEmptyIffBlank(s: string)
    ensures Trim(s) == [] <==> IsBlank(s)
  {
    TrimStartEmptyIffBlank(s);
    var t := TrimStart(s);
    assert t[0..] == t;
  }

  lemma {:induction false} TrimStartEmptyIffBlank(s: string)
    ensures TrimStart(s) == [] <==> IsBlank(s)
  {
    if s != [] && IsWhitespace(s[0]) {
      TrimStartEmptyIffBlank(s[1..]);
    }
  }

  predicate StartsWith(s: string, prefix: string) {
    |prefix| <= |s| && s[..|prefix|] == prefix
  }

  /** `hay.includes(needle)` */
  predicate Includes(hay: string, needle: string)
    decreases |hay|
  {
    StartsWith(hay, needle) || (hay != [] && Includes(hay[1..], needle))
  }

  predicate OccursAt(hay: string, needle: string, k: int) {
    0 <= k <= |hay| - |needle| && hay[k..k + |needle|] == needle
  }

  /** `includes` holds exactly when the needle occurs at some offset. */
  lemma {:induction false} IncludesIffOccurs(hay: string, needle: string)
    ensures Includes(hay, needle) <==> exists k :: OccursAt(hay, needle, k)
    decreases |hay|
  {
    if hay != [] {
      IncludesIffOccurs(hay[1..], needle);
    }
    if Includes(hay, needle) {
      if StartsWith(hay, needle) {
        assert OccursAt(hay, needle, 0);
      } else {
        var k :| OccursAt(hay[1..], needle, k);
        SliceOfTail(hay, k + 1, k + 1 + |needle|);
        assert OccursAt(hay, needle, k + 1);
      }
    }
    if exists k :: OccursAt(hay, needle, k) {
      var k :| OccursAt(hay, needle, k);
      if k > 0 {
        SliceOfTail(hay, k, k + |needle|);
        assert OccursAt(hay[1..], needle, k - 1);
      }
    }
  }

  lemma SliceOfTail(s: string, a: int, b: int)
    requires 1 <= a <= b <= |s|
    ensures s[1..][a - 1..b - 1] == s[a..b]
  {
    var t := s[1..][a - 1..b - 1];
    assert forall j :: 0 <= j < |t| ==> t[j] == s[a..b][j];
  }

  /** The empty string is included in every string. */
  lemma IncludesEmpty(hay: string)
    ensures Includes(hay, "")
  {
  }

  /** ASCII case mapping of `toLowerCase`. */
  function LowerChar(c: char): (r: char)
    ensures 'A' <= c <= 'Z' ==> 'a' <= r <= 'z'
    ensures !('A' <= c <= 'Z') ==> r == c
  {
    if 'A' <= c <= 'Z' then (c as int + 32) as char else c
  }

  function ToLower(s: string): (r: string)
    ensures |r| == |s|
    ensures forall i :: 0 <= i < |s| ==> r[i] == LowerChar(s[i])
  {
    if s == [] then [] else [LowerChar(s[0])] + ToLower(s[1..])
  }

  lemma {:induction false} ToLowerIdempotent(s: string)
    ensures ToLower(ToLower(s)) == ToLower(s)
  {
    var t := ToLower(s);
    assert forall i :: 0 <= i < |t| ==> LowerChar(t[i]) == t[i];
  }

  /** Index of the first occurrence of `c`. */
  function IndexOf(s: string, c: char): (i: nat)
    requires c in s
    ensures i < |s| && s[i] == c && c !in s[..i]
  {
    if s[0] == c then 0 else IndexOf(s[1..], c) + 1
  }

  /** `pieces.join(sep)` */
  function Join(pieces: seq<string>, sep: string): string {
    if pieces == [] then ""
    else if |pieces| == 1 then pieces[0]
    else pieces[0] + sep + Join(pieces[1..], sep)
  }

  /**
   * `s.split(sep)` for a one-character separator: always at least one piece.
   */
  function Split(s: string, sep: char): (r: seq<string>)
    ensures |r| >= 1
    decreases |s|
  {
    if sep !in s then [s]
    else
      var i := IndexOf(s, sep);
      [s[..i]] + Split(s[i + 1..], sep)
  }

  /** No piece of a split holds the separator. */
  lemma {:induction false} SplitPiecesFree(s: string, sep: char)
    ensures forall k :: 0 <= k < |Split(s, sep)| ==> sep !in Split(s, sep)[k]
    decreases |s|
  {
    if sep in s {
      var i := IndexOf(s, sep);
      var rest := Split(s[i + 1..], sep);
      SplitPiecesFree(s[i + 1..], sep);
      assert Split(s, sep) == [s[..i]] + rest;
    }
  }

  /** Joining the pieces of a split with the separator gives back the text. */
  lemma {:induction false} SplitJoin(s: string, sep: char)
    ensures Join(Split(s, sep), [sep]) == s
    decreases |s|
  {
    if sep in s {
      var i := IndexOf(s, sep);
      var rest := Split(s[i + 1..], sep);
      SplitJoin(s[i + 1..], sep);
      assert Split(s, sep) == [s[..i]] + rest;
      JoinCons(s[..i], rest, [sep]);
      assert s == s[..i] + [sep] + s[i + 1..];
    }
  }

  lemma JoinCons(piece: string, rest: seq<string>, sep: string)
    requires rest != []
    ensures Join([piece] + rest, sep) == piece + sep + Join(rest, sep)
  {
    assert ([piece] + rest)[1..] == rest;
  }

  function Last<T>(s: seq<T>): T
    requires s != []
  {
    s[|s| - 1]
  }

  /**
   * Splitting a concatenation: the complete pieces of `x` stay as they are and
   * the unfinished last piece of `x` is continued by `y`.
   */
  lemma {:induction false} SplitAppend(x: string, y: string, sep: char)
    ensures Split(x + y, sep) ==
      Split(x, sep)[..|Split(x, sep)| - 1] + Split(Last(Split(x, sep)) + y, sep)
    decreases |x|, 1
  {
    if sep in x {
      SplitAppendPast(x, y, sep);
    } else {
      assert Split(x, sep) == [x];
    }
  }

  /** The step of the proof above, when `x` holds a separator. */
  lemma {:induction false} SplitAppendPast(x: string, y: string, sep: char)
    requires sep in x
    ensures Split(x + y, sep) ==
      Split(x, sep)[..|Split(x, sep)| - 1] + Split(Last(Split(x, sep)) + y, sep)
    decreases |x|, 0
  {
    var i := IndexOf(x, sep);
    var t := Split(x[i + 1..], sep);
    var a := Split(x, sep);
    assert a == [x[..i]] + t;
    SplitAppendFirst(x, y, sep);
    SplitAppend(x[i + 1..], y, sep);
    ConsKeepsLast(x[..i], t, Split(x + y, sep), Split(x[i + 1..] + y, sep), Split(Last(t) + y, sep));
  }

  /** Putting `h` in front of both sides of `b == t[..|t| - 1] + z`. */
  lemma ConsKeepsLast<T>(h: T, t: seq<T>, c: seq<T>, b: seq<T>, z: seq<T>)
    requires t != [] && c == [h] + b && b == t[..|t| - 1] + z
    ensures c == ([h] + t)[..|t|] + z && Last([h] + t) == Last(t)
  {
    assert ([h] + t)[..|t|] == [h] + t[..|t| - 1];
  }

  /** The first piece of `x + y` is that of `x` when `x` holds a separator. */
  lemma SplitAppendFirst(x: string, y: string, sep: char)
    requires sep in x
    ensures Split(x + y, sep) == [x[..IndexOf(x, sep)]] + Split(x[IndexOf(x, sep) + 1..] + y, sep)
  {
    var i := IndexOf(x, sep);
    assert (x + y)[..i] == x[..i];
    assert sep in x + y && IndexOf(x + y, sep) == i by {
      assert (x + y)[i] == sep;
      IndexOfUnique(x + y, sep, i);
    }
    assert (x + y)[i + 1..] == x[i + 1..] + y;
  }

  lemma LastCons<T>(x: T, t: seq<T>)
    requires t != []
    ensures Last([x] + t) == Last(t)
  {
  }

  /** A piece without the separator, then the separator: that piece comes first. */
  lemma SplitAtFirst(x: string, y: string, sep: char)
    requires sep !in x
    ensures Split(x + [sep] + y, sep) == [x] + Split(y, sep)
  {
    var s := x + [sep] + y;
    assert s[..|x|] == x;
    IndexOfUnique(s, sep, |x|);
    assert s[|x| + 1..] == y;
  }

  lemma IndexOfUnique(s: string, c: char, i: nat)
    requires i < |s| && s[i] == c && c !in s[..i]
    ensures IndexOf(s, c) == i
  {
    var j := IndexOf(s, c);
    assert s[j] in s[..i] || i <= j;
    assert s[i] in s[..j] || j <= i;
  }

  function DigitChar(d: nat): (c: char)
    requires d < 10
    ensures '0' <= c <= '9'
  {
    ('0' as int + d) as char
  }

  /** Decimal representation, as in a template literal `${n}`. */
  function NatToString(n: nat): (r: string)
    ensures r != []
    ensures forall i :: 0 <= i < |r| ==> '0' <= r[i] <= '9'
  {
    if n < 10 then [DigitChar(n)] else NatToString(n / 10) + [DigitChar(n % 10)]
  }

  predicate IsDigit(c: char) {
    '0' <= c <= '9'
  }

  /** Length of the longest prefix made of decimal digits. */
  function DigitPrefixLength(s: string): (n: nat)
    ensures n <= |s|
    ensures forall i :: 0 <= i < n ==> IsDigit(s[i])
    ensures n == |s| || !IsDigit(s[n])
  {
    if s != [] && IsDigit(s[0]) then DigitPrefixLength(s[1..]) + 1 else 0
  }

  function DigitValue(c: char): (d: nat)
    requires IsDigit(c)
    ensures d < 10
  {
    c as int - '0' as int
  }

  function DigitsValue(s: string): (v: nat)
    requires forall i :: 0 <= i < |s| ==> IsDigit(s[i])
  {
    if s == [] then 0
    else 10 * DigitsValue(s[..|s| - 1]) + DigitValue(s[|s| - 1])
  }

  /**
   * `parseInt(s) || 0` with radix 10: leading white space, an optional sign,
   * then the longest run of decimal digits; no digits is `NaN`, which `|| 0`
   * turns into 0.
   */
  function ParseIntOrZero(s: string): (r: int)
    ensures DigitsAfterSign(TrimStart(s)) == "" ==> r == 0
  {
    var t := TrimStart(s);
    var negative := t != [] && t[0] == '-';
    var digits := DigitsAfterSign(t);
    if digits == "" then 0
    else if negative then -(DigitsValue(digits) as int)
    else DigitsValue(digits)
  }

  /** The digit run that `parseInt` reads after an optional sign. */
  function DigitsAfterSign(t: string): (d: string)
    ensures forall i :: 0 <= i < |d| ==> IsDigit(d[i])
  {
    var body := if t != [] && (t[0] == '-' || t[0] == '+') then t[1..] else t;
    body[..DigitPrefixLength(body)]
  }

  /** A string of decimal digits round-trips through `parseInt`. */
  lemma {:induction false} ParseNatToString(n: nat)
    ensures ParseIntOrZero(NatToString(n)) == n
  {
    var s := NatToString(n);
    assert TrimStart(s) == s by {
      assert !IsWhitespace(s[0]);
    }
    assert DigitsAfterSign(s) == s by {
      DigitPrefixAll(s);
      assert s[..|s|] == s;
    }
    DigitsValueOfNatToString(n);
  }

  lemma {:induction false} DigitPrefixAll(s: string)
    requires forall i :: 0 <= i < |s| ==> IsDigit(s[i])
    ensures DigitPrefixLength(s) == |s|
  {
    if s != [] {
      DigitPrefixAll(s[1..]);
    }
  }

  lemma {:induction false} DigitsValueOfNatToString(n: nat)
    ensures DigitsValue(NatToString(n)) == n
  {
    var s := NatToString(n);
    if n >= 10 {
      DigitsValueOfNatToString(n / 10);
      assert s[..|s| - 1] == NatToString(n / 10);
    }
  }
}
