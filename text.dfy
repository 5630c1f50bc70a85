/**
 * String helpers for the string operations the Java controllers and the
 * browser scripts call: trimming, ASCII case mapping, substring search,
 * joining and first-occurrence replacement.
 */
module Text {

  /** Characters `String.trim()` removes in Java: every code point up to U+0020. */
  predicate IsJavaSpace(c: char) { c <= ' ' }

  /** Characters JavaScript's `trim()` and the regular-expression class `\s` match. */
  predicate IsJsSpace(c: char)
  {
    c == ' ' || c == '\t' || c == '\n' || c == '\U{B}' || c == '\U{C}' || c == '\r'
    || c == '\U{A0}' || c == '\U{1680}' || ('\U{2000}' <= c <= '\U{200A}')
    || c == '\U{2028}' || c == '\U{2029}' || c == '\U{202F}' || c == '\U{205F}'
    || c == '\U{3000}' || c == '\U{FEFF}'
  }

  function TrimStart(s: string, ws: char -> bool): (r: string)
    ensures |r| <= |s| && r == s[|s| - |r|..]
    ensures r != [] ==> !ws(r[0])
    ensures forall i :: 0 <= i < |s| - |r| ==> ws(s[i])
  {
    if s != [] && ws(s[0]) then TrimStart(s[1..], ws) else s
  }

  function TrimEnd(s: string, ws: char -> bool): (r: string)
    ensures |r| <= |s| && r == s[..|r|]
    ensures r != [] ==> !ws(r[|r| - 1])
    ensures forall i :: |r| <= i < |s| ==> ws(s[i])
  {
    if s != [] && ws(s[|s| - 1]) then TrimEnd(s[..|s| - 1], ws) else s
  }

  /** `t` sits in `s` starting at index `i`. */
  predicate BlockAt(s: string, t: string, i: int)
  {
    0 <= i <= |s| - |t| && s[i..i + |t|] == t
  }

  /** Removes the leading and trailing characters `ws` accepts. */
  function Trim(s: string, ws: char -> bool): (r: string)
    ensures r != [] ==> !ws(r[0]) && !ws(r[|r| - 1])
    ensures exists i :: BlockAt(s, r, i)
  {
    var t := TrimStart(s, ws);
    var r := TrimEnd(t, ws);
    assert BlockAt(s, r, |s| - |t|);
    r
  }

  /** Java's `String.trim()`. */
  function JavaTrim(s: string): string { Trim(s, IsJavaSpace) }

  /** JavaScript's `String.prototype.trim()`. */
  function JsTrim(s: string): string { Trim(s, IsJsSpace) }

  /** A string that trims to nothing: Java's `s.trim().isEmpty()`. */
  predicate IsJavaBlank(s: string) { JavaTrim(s) == "" }

  lemma {:induction false} TrimStartFixed(s: string, ws: char -> bool)
    requires s == [] || !ws(s[0])
    ensures TrimStart(s, ws) == s
  {
  }

  lemma {:induction false} TrimEndFixed(s: string, ws: char -> bool)
    requires s == [] || !ws(s[|s| - 1])
    ensures TrimEnd(s, ws) == s
  {
  }

  /** Trimming twice is trimming once. */
  lemma TrimIdempotent(s: string, ws: char -> bool)
    ensures Trim(Trim(s, ws), ws) == Trim(s, ws)
  {
    var r := Trim(s, ws);
    TrimStartFixed(r, ws);
    TrimEndFixed(r, ws);
  }

  /** An all-space string trims to nothing, and only such a string does. */
  lemma TrimEmptyIff(s: string, ws: char -> bool)
    ensures Trim(s, ws) == [] <==> forall i :: 0 <= i < |s| ==> ws(s[i])
  {
    var t := TrimStart(s, ws);
    var r := Trim(s, ws);
    if r == [] {
      assert TrimEnd(t, ws) == [];
      forall i | 0 <= i < |s| ensures ws(s[i]) {
        if i >= |s| - |t| {
          assert s[i] == t[i - (|s| - |t|)];
        }
      }
    } else {
      var k :| BlockAt(s, r, k);
      assert s[k] == r[0] && !ws(s[k]);
    }
  }

  function LowerChar(c: char): char
  {
    if 'A' <= c <= 'Z' then (c as int + 32) as char else c
  }

  function UpperChar(c: char): char
  {
    if 'a' <= c <= 'z' then (c as int - 32) as char else c
  }

  /** `toLowerCase()` on the ASCII letters; other characters are kept. */
  function Lower(s: string): (r: string)
    ensures |r| == |s|
    ensures forall i :: 0 <= i < |s| ==> r[i] == LowerChar(s[i])
  {
    if s == [] then [] else [LowerChar(s[0])] + Lower(s[1..])
  }

  /** `toUpperCase()` on the ASCII letters; other characters are kept. */
  function Upper(s: string): (r: string)
    ensures |r| == |s|
    ensures forall i :: 0 <= i < |s| ==> r[i] == UpperChar(s[i])
  {
    if s == [] then [] else [UpperChar(s[0])] + Upper(s[1..])
  }

  lemma LowerIdempotent(s: string)
    ensures Lower(Lower(s)) == Lower(s)
  {
  }

  lemma UpperIdempotent(s: string)
    ensures Upper(Upper(s)) == Upper(s)
  {
  }

  /** Java's `equalsIgnoreCase` on ASCII text. */
  predicate EqualsIgnoreCase(a: string, b: string) { Lower(a) == Lower(b) }

  /** `t` occurs in `s` as a contiguous block: Java `contains`, JavaScript `includes`. */
  predicate Contains(s: string, t: string)
  {
    exists i | 0 <= i <= |s| - |t| :: BlockAt(s, t, i)
  }

  predicate StartsWith(s: string, p: string) { |p| <= |s| && s[..|p|] == p }

  /** Every string contains the empty string. */
  lemma ContainsEmpty(s: string)
    ensures Contains(s, "")
  {
    assert BlockAt(s, "", 0);
  }

  /** Deletes every character `ws` accepts; JavaScript `replace(/\s+/g, "")`. */
  function RemoveAll(s: string, ws: char -> bool): (r: string)
    ensures |r| <= |s|
    ensures forall i :: 0 <= i < |r| ==> !ws(r[i])
  {
    if s == [] then []
    else if ws(s[0]) then RemoveAll(s[1..], ws)
    else [s[0]] + RemoveAll(s[1..], ws)
  }

  predicate IsDigit(c: char) { '0' <= c <= '9' }

  predicate AllDigits(s: string) { forall i :: 0 <= i < |s| ==> IsDigit(s[i]) }

  function DigitValue(c: char): (d: nat)
    requires IsDigit(c)
    ensures d < 10
  {
    c as int - '0' as int
  }

  /** The decimal value of a string of digits. */
  function DigitsValue(s: string): nat
    requires AllDigits(s)
  {
    if s == [] then 0 else DigitsValue(s[..|s| - 1]) * 10 + DigitValue(s[|s| - 1])
  }

  /** Array `join`: the parts with `sep` between neighbours. */
  function Join(parts: seq<string>, sep: string): (r: string)
    ensures parts == [] ==> r == ""
    ensures |parts| == 1 ==> r == parts[0]
  {
    if parts == [] then ""
    else if |parts| == 1 then parts[0]
    else Join(parts[..|parts| - 1], sep) + sep + parts[|parts| - 1]
  }

  /** JavaScript `s.replace(from, to)` with a one-character string pattern: the first occurrence only. */
  function ReplaceFirst(s: string, from: char, to: char): (r: string)
    ensures |r| == |s|
    ensures forall i :: 0 <= i < |s| && s[i] != from ==> r[i] == s[i]
  {
    if s == [] then []
    else if s[0] == from then [to] + s[1..]
    else [s[0]] + ReplaceFirst(s[1..], from, to)
  }

  /** The position of the first `c` in `s`. */
  function IndexOf(s: string, c: char): (k: nat)
    requires c in s
    ensures k < |s| && s[k] == c && c !in s[..k]
  {
    if s[0] == c then 0 else 1 + IndexOf(s[1..], c)
  }

  /** `ReplaceFirst` turns the first `from` into `to` and leaves the rest alone; without a `from` it changes nothing. */
  lemma {:induction false} ReplaceFirstSpec(s: string, from: char, to: char)
    ensures from !in s ==> ReplaceFirst(s, from, to) == s
    ensures from in s ==>
              var k := IndexOf(s, from);
              ReplaceFirst(s, from, to) == s[..k] + [to] + s[k + 1..]
  {
    if s != [] && s[0] != from {
      ReplaceFirstSpec(s[1..], from, to);
      if from in s {
        assert from in s[1..];
        var k := IndexOf(s, from);
        assert k == 1 + IndexOf(s[1..], from);
        assert [s[0]] + s[1..][..k - 1] == s[..k];
        assert s[1..][k..] == s[k + 1..];
      }
    }
  }

  function DigitChar(d: nat): char
    requires d < 10
  {
    ('0' as int + d) as char
  }

  /** A number below 100 as exactly two digits, with a leading zero when needed. */
  function TwoDigits(n: int): (s: string)
    requires 0 <= n < 100
    ensures |s| == 2 && AllDigits(s)
  {
    [DigitChar(n / 10), DigitChar(n % 10)]
  }

  /** The decimal text of a number, as JavaScript's `toString()` writes it. */
  function NatToString(n: nat): (r: string)
    ensures |r| >= 1 && AllDigits(r)
    decreases n
  {
    if n < 10 then [DigitChar(n)] else NatToString(n / 10) + [DigitChar(n % 10)]
  }

  function IntToString(n: int): string
  {
    if n < 0 then "-" + NatToString(-n) else NatToString(n)
  }

  /** Reading the decimal text back gives the number: `NatToString` is injective. */
  lemma {:induction false} NatToStringValue(n: nat)
    ensures DigitsValue(NatToString(n)) == n
    decreases n
  {
    if n >= 10 {
      NatToStringValue(n / 10);
      var s := NatToString(n);
      assert s[..|s| - 1] == NatToString(n / 10);
    }
  }
}
