/**
 * The JavaScript built-ins that the components call, stated as functions:
 * `toLowerCase`, `includes`, `trim`, `Math.floor(Math.random() * n)`,
 * `slice(-n)`, `Math.round(t / c)`, `Number.prototype.toString` and `padStart`.
 */
module Js {

  // ---------------------------------------------------------------------------
  // toLowerCase (ASCII letters only)
  // ---------------------------------------------------------------------------

  predicate IsUpper(c: char) {
    'A' <= c <= 'Z'
  }

  function LowerChar(c: char): (d: char)
    ensures !IsUpper(d)
    ensures !IsUpper(c) ==> d == c
  {
    if IsUpper(c) then (c as int + 32) as char else c
  }

  /** `s.toLowerCase()`, mapping only the ASCII letters A-Z. */
  function ToLower(s: string): (r: string)
    ensures |r| == |s|
    ensures forall i :: 0 <= i < |s| ==> r[i] == LowerChar(s[i])
    ensures forall i :: 0 <= i < |r| ==> !IsUpper(r[i])
  {
    if s == [] then [] else [LowerChar(s[0])] + ToLower(s[1..])
  }

  lemma ToLowerIdempotent(s: string)
    ensures ToLower(ToLower(s)) == ToLower(s)
  {
  }

  lemma ToLowerAppend(a: string, b: string)
    ensures ToLower(a + b) == ToLower(a) + ToLower(b)
  {
    assert forall i :: 0 <= i < |a + b| ==> ToLower(a + b)[i] == (ToLower(a) + ToLower(b))[i];
  }

  /** A string with no letter A-Z is its own lower-cased form. */
  lemma ToLowerNoUpper(s: string)
    requires forall i :: 0 <= i < |s| ==> !IsUpper(s[i])
    ensures ToLower(s) == s
  {
  }

  // ---------------------------------------------------------------------------
  // includes
  // ---------------------------------------------------------------------------

  /** `k` occurs in `t` at position `p`. */
  ghost predicate OccursAt(t: string, k: string, p: int) {
    0 <= p && p + |k| <= |t| && t[p..p + |k|] == k
  }

  /** Characters `j..` of `k` equal those of `t` from `i + j` on. */
  function MatchesFrom(t: string, k: string, i: nat, j: nat): (r: bool)
    requires i + |k| <= |t| && j <= |k|
    decreases |k| - j
    ensures r <==> t[i + j..i + |k|] == k[j..]
  {
    if j == |k| then true
    else
      assert t[i + j..i + |k|] == [t[i + j]] + t[i + j + 1..i + |k|];
      assert k[j..] == [k[j]] + k[j + 1..];
      t[i + j] == k[j] && MatchesFrom(t, k, i, j + 1)
  }

  /** The left-to-right scan of `t.includes(k)` from position `i`. */
  function IncludesFrom(t: string, k: string, i: nat): (r: bool)
    decreases |t| - i
    ensures r <==> exists p :: i <= p && OccursAt(t, k, p)
  {
    if i + |k| > |t| then false
    else
      assert MatchesFrom(t, k, i, 0) <==> OccursAt(t, k, i);
      MatchesFrom(t, k, i, 0) || IncludesFrom(t, k, i + 1)
  }

  /** `t.includes(k)`: `k` is a substring of `t` (the empty string is a substring of every string). */
  function Includes(t: string, k: string): (r: bool)
    ensures r <==> exists p :: OccursAt(t, k, p)
  {
    IncludesFrom(t, k, 0)
  }

  /** A substring stays a substring when text is added after or before. */
  lemma IncludesExtend(t: string, k: string, before: string, after: string)
    requires Includes(t, k)
    ensures Includes(before + t + after, k)
  {
    var p :| OccursAt(t, k, p);
    var u := before + t + after;
    assert u[|before| + p..|before| + p + |k|] == t[p..p + |k|];
    assert OccursAt(u, k, |before| + p);
  }

  /** A keyword with a character that `t` lacks does not occur in `t`. */
  lemma NotIncludesMissingChar(t: string, k: string, c: char)
    requires c in k && c !in t
    ensures !Includes(t, k)
  {
    forall p | 0 <= p && p + |k| <= |t|
      ensures !OccursAt(t, k, p)
    {
      var j :| 0 <= j < |k| && k[j] == c;
      assert t[p..p + |k|][j] == t[p + j] != c;
    }
  }

  // ---------------------------------------------------------------------------
  // trim
  // ---------------------------------------------------------------------------

  /** The characters `String.prototype.trim` removes: WhiteSpace and LineTerminator of ECMAScript. */
  predicate IsSpace(c: char) {
    c == '\t' || c == '\n' || c == '\U{000B}' || c == '\U{000C}' || c == '\r' || c == ' '
    || c == '\U{00A0}' || c == '\U{1680}' || ('\U{2000}' <= c <= '\U{200A}')
    || c == '\U{2028}' || c == '\U{2029}' || c == '\U{202F}' || c == '\U{205F}'
    || c == '\U{3000}' || c == '\U{FEFF}'
  }

  function TrimStart(s: string): (r: string)
    ensures |r| <= |s| && r == s[|s| - |r|..]
    ensures forall i :: 0 <= i < |s| - |r| ==> IsSpace(s[i])
    ensures r == [] || !IsSpace(r[0])
  {
    if s != [] && IsSpace(s[0]) then TrimStart(s[1..]) else s
  }

  function TrimEnd(s: string): (r: string)
    ensures |r| <= |s| && r == s[..|r|]
    ensures forall i :: |r| <= i < |s| ==> IsSpace(s[i])
    ensures r == [] || !IsSpace(r[|r| - 1])
  {
    if s != [] && IsSpace(s[|s| - 1]) then TrimEnd(s[..|s| - 1]) else s
  }

  /** `s.trim()`. */
  function Trim(s: string): string {
    TrimEnd(TrimStart(s))
  }

  predicate IsBlank(s: string) {
    forall i :: 0 <= i < |s| ==> IsSpace(s[i])
  }

  /** `!s.trim()` holds exactly for the strings made only of white space, the empty one included. */
  lemma TrimEmptyIffBlank(s: string)
    ensures Trim(s) == [] <==> IsBlank(s)
  {
    var t := TrimStart(s);
    if Trim(s) == [] {
      // TrimEnd(t) is empty, so t is all white space, so t starts with white space unless empty
      assert t == [];
    }
  }

  // ---------------------------------------------------------------------------
  // Math.floor(Math.random() * n)
  // ---------------------------------------------------------------------------

  /** `Math.floor(r * len)` for a draw `r` of `Math.random()`, which lies in [0, 1). */
  function RandomIndex(r: real, len: nat): (i: nat)
    requires 0.0 <= r < 1.0 && 0 < len
    ensures i < len
    ensures i as real <= r * len as real < i as real + 1.0
  {
    assert 0.0 <= r * len as real < len as real by {
      assert r * len as real < 1.0 * len as real;
    }
    (r * len as real).Floor
  }

  /** Every index can be drawn: the draw `i / len` selects index `i`. */
  lemma RandomIndexReaches(i: nat, len: nat)
    requires i < len
    ensures 0.0 <= i as real / len as real < 1.0
    ensures RandomIndex(i as real / len as real, len) == i
  {
    var r := i as real / len as real;
    assert r * len as real == i as real;
  }

  /** `arr[Math.floor(Math.random() * arr.length)]`, the `getRandomItem` helper. */
  function RandomItem<T>(arr: seq<T>, r: real): T
    requires 0.0 <= r < 1.0 && 0 < |arr|
  {
    arr[RandomIndex(r, |arr|)]
  }

  /**
   * The picked item is an element of the list, and every element can be
   * picked. (Stated apart from `RandomItem` so that proofs about literal
   * lists do not compare the pick with every entry.)
   */
  lemma RandomItemInList<T>(arr: seq<T>, r: real)
    requires 0.0 <= r < 1.0 && 0 < |arr|
    ensures RandomItem(arr, r) in arr
    ensures forall i :: 0 <= i < |arr| ==> RandomItem(arr, i as real / |arr| as real) == arr[i]
  {
    forall i | 0 <= i < |arr|
      ensures RandomItem(arr, i as real / |arr| as real) == arr[i]
    {
      RandomIndexReaches(i, |arr|);
    }
  }

  // ---------------------------------------------------------------------------
  // slice(-n)
  // ---------------------------------------------------------------------------

  /** `s.slice(-n)` for `n > 0`: the last `n` elements, or all of them when there are fewer. */
  function TakeLast<T>(s: seq<T>, n: nat): (r: seq<T>)
    requires 0 < n
    ensures |r| == if |s| <= n then |s| else n
    ensures r == s[|s| - |r|..]
  {
    if |s| <= n then s else s[|s| - n..]
  }

  /**
   * `[...s.slice(-n), x]`: at most `n + 1` elements with `x` last, the others
   * the newest of `s` in their order, and nothing dropped when `s` has at most `n`.
   */
  lemma KeepLastThenPush<T>(s: seq<T>, n: nat, x: T)
    requires 0 < n
    ensures var r := TakeLast(s, n) + [x];
      |r| <= n + 1 && r[|r| - 1] == x && r[..|r| - 1] == s[|s| - (|r| - 1)..]
      && (|s| <= n ==> r == s + [x])
  {
  }

  // ---------------------------------------------------------------------------
  // Math.round(t / c)
  // ---------------------------------------------------------------------------

  /** `Math.round(t / c)` for natural `t` and positive `c`: the quotient rounded half up. */
  function RoundDiv(t: nat, c: nat): (q: nat)
    requires 0 < c
    ensures 2 * q * c <= 2 * t + c < 2 * q * c + 2 * c
  {
    (2 * t + c) / (2 * c)
  }

  // ---------------------------------------------------------------------------
  // Number.prototype.toString and String.prototype.padStart
  // ---------------------------------------------------------------------------

  predicate IsDigit(c: char) {
    '0' <= c <= '9'
  }

  function DigitChar(d: nat): (c: char)
    requires d < 10
    ensures IsDigit(c)
  {
    ('0' as int + d) as char
  }

  function DigitValue(c: char): (d: nat)
    requires IsDigit(c)
    ensures d < 10 && DigitChar(d) == c
  {
    c as int - '0' as int
  }

  /** `n.toString()`: decimal digits, no leading zero except for 0 itself. */
  function Digits(n: nat): (s: string)
    ensures 0 < |s|
    ensures forall i :: 0 <= i < |s| ==> IsDigit(s[i])
    ensures |s| > 1 ==> s[0] != '0'
  {
    if n < 10 then [DigitChar(n)] else Digits(n / 10) + [DigitChar(n % 10)]
  }

  /** `s.padStart(width, fill)`. */
  function PadStart(s: string, width: nat, fill: char): (r: string)
    ensures |r| == if |s| < width then width else |s|
    ensures r[|r| - |s|..] == s
    ensures forall i :: 0 <= i < |r| - |s| ==> r[i] == fill
  {
    if |s| < width then seq(width - |s|, _ => fill) + s else s
  }

  /** The value of a string of decimal digits; the inverse of `Digits`. */
  function ParseDecimal(s: string): nat
    requires forall i :: 0 <= i < |s| ==> IsDigit(s[i])
  {
    if s == [] then 0 else 10 * ParseDecimal(s[..|s| - 1]) + DigitValue(s[|s| - 1])
  }

  lemma {:induction false} ParseDigits(n: nat)
    ensures ParseDecimal(Digits(n)) == n
  {
    if n >= 10 {
      var s := Digits(n);
      assert s[..|s| - 1] == Digits(n / 10);
      ParseDigits(n / 10);
    }
  }

  /** Leading zeros do not change the value of a decimal string. */
  lemma {:induction false} ParseLeadingZeros(z: nat, s: string)
    requires forall i :: 0 <= i < |s| ==> IsDigit(s[i])
    ensures ParseDecimal(seq(z, _ => '0') + s) == ParseDecimal(s)
    decreases |s|
  {
    var u := seq(z, _ => '0') + s;
    if s == [] {
      assert u == seq(z, _ => '0');
      ParseZeros(z);
    } else {
      assert u[..|u| - 1] == seq(z, _ => '0') + s[..|s| - 1];
      ParseLeadingZeros(z, s[..|s| - 1]);
    }
  }

  lemma {:induction false} ParseZeros(z: nat)
    ensures ParseDecimal(seq(z, _ => '0')) == 0
  {
    if z > 0 {
      var u := seq(z, _ => '0');
      assert u[..|u| - 1] == seq(z - 1, _ => '0');
      ParseZeros(z - 1);
    }
  }

  /** Padding a number's digits with zeros keeps its value. */
  lemma ParsePaddedDigits(n: nat, width: nat)
    ensures forall i :: 0 <= i < |PadStart(Digits(n), width, '0')| ==> IsDigit(PadStart(Digits(n), width, '0')[i])
    ensures ParseDecimal(PadStart(Digits(n), width, '0')) == n
  {
    var s := Digits(n);
    ParseDigits(n);
    if |s| < width {
      ParseLeadingZeros(width - |s|, s);
    }
  }
}
