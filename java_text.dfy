/**
 * The few `java.lang.String` operations the modelled code relies on, with
 * Java's semantics written out: prefix and suffix tests, `String.join`,
 * `String.replace(CharSequence, CharSequence)`, `equalsIgnoreCase` against an
 * ASCII string, and decimal rendering of integers as `StringBuilder.append(int)` does it.
 */
module JavaText {

  predicate StartsWith(s: string, prefix: string) {
    |prefix| <= |s| && s[..|prefix|] == prefix
  }

  predicate EndsWith(s: string, suffix: string) {
    |suffix| <= |s| && s[|s| - |suffix|..] == suffix
  }

  /** `t` occurs in `s` starting at index `p`. */
  predicate OccursAt(s: string, t: string, p: int) {
    0 <= p && p + |t| <= |s| && s[p..p + |t|] == t
  }

  /** `String.join(sep, parts)`: the parts with `sep` between neighbours. */
  function Join(sep: string, parts: seq<string>): (r: string)
    ensures parts == [] ==> r == ""
    ensures |parts| == 1 ==> r == parts[0]
    ensures |parts| > 0 ==> StartsWith(r, parts[0])
  {
    if parts == [] then ""
    else if |parts| == 1 then parts[0]
    else parts[0] + sep + Join(sep, parts[1..])
  }

  /**
   * `s.replace(target, replacement)`: scans left to right and replaces every
   * non-overlapping occurrence of `target`.  The source only ever calls it
   * with a non-empty constant target.
   */
  function ReplaceAll(s: string, target: string, replacement: string): (r: string)
    requires target != []
    decreases |s|
  {
    if s == [] then []
    else if StartsWith(s, target) then replacement + ReplaceAll(s[|target|..], target, replacement)
    else [s[0]] + ReplaceAll(s[1..], target, replacement)
  }

  /** A string that starts with `target` starts with `replacement` afterwards. */
  lemma ReplaceAllLeading(s: string, target: string, replacement: string)
    requires target != [] && StartsWith(s, target)
    ensures StartsWith(ReplaceAll(s, target, replacement), replacement)
  {
  }

  /**
   * No occurrence of `target` can start inside `replacement` and agree with
   * it up to where `replacement` ends.
   */
  predicate NoOverlap(target: string, replacement: string) {
    forall p :: 0 <= p < |replacement| ==> !Agree(replacement[p..], target)
  }

  /** `a` and `b` agree on the positions both have. */
  predicate Agree(a: string, b: string) {
    forall j :: 0 <= j < |a| && j < |b| ==> a[j] == b[j]
  }

  /**
   * When the first character of `replacement` does not occur in `target`, a
   * result that starts with a suffix of `target` comes from a string that
   * starts with the same suffix.
   */
  lemma {:induction false} ReplaceAllPrefixBack(s: string, target: string, replacement: string, k: int)
    requires target != [] && replacement != []
    requires forall j :: 0 <= j < |target| ==> target[j] != replacement[0]
    requires 0 <= k < |target| && StartsWith(ReplaceAll(s, target, replacement), target[k..])
    ensures StartsWith(s, target[k..])
    decreases |s|
  {
    var r := ReplaceAll(s, target, replacement);
    assert r[0] == target[k];
    if !StartsWith(s, target) && k + 1 < |target| {
      var rest := ReplaceAll(s[1..], target, replacement);
      assert r == [s[0]] + rest;
      assert target[k + 1..] == target[k..][1..];
      ReplaceAllPrefixBack(s[1..], target, replacement, k + 1);
      assert s[..|target[k..]|] == [s[0]] + s[1..][..|target[k + 1..]|];
    }
  }

  /**
   * Under those two conditions on the constants, `s.replace(target,
   * replacement)` leaves no occurrence of `target` anywhere.
   */
  lemma {:induction false} ReplaceAllLeavesNoTarget(s: string, target: string, replacement: string)
    requires target != [] && replacement != []
    requires forall j :: 0 <= j < |target| ==> target[j] != replacement[0]
    requires NoOverlap(target, replacement)
    ensures forall p :: !OccursAt(ReplaceAll(s, target, replacement), target, p)
    decreases |s|
  {
    var r := ReplaceAll(s, target, replacement);
    if s == [] {
    } else if StartsWith(s, target) {
      var rest := ReplaceAll(s[|target|..], target, replacement);
      ReplaceAllLeavesNoTarget(s[|target|..], target, replacement);
      forall p | 0 <= p
        ensures !OccursAt(r, target, p)
      {
        if p < |replacement| {
          assert !Agree(replacement[p..], target);
        } else {
          assert !OccursAt(rest, target, p - |replacement|);
        }
      }
    } else {
      var rest := ReplaceAll(s[1..], target, replacement);
      ReplaceAllLeavesNoTarget(s[1..], target, replacement);
      forall p | 0 <= p
        ensures !OccursAt(r, target, p)
      {
        if p == 0 {
          if 1 < |target| && StartsWith(rest, target[1..]) {
            ReplaceAllPrefixBack(s[1..], target, replacement, 1);
          }
        } else {
          assert !OccursAt(rest, target, p - 1);
        }
      }
    }
  }

  // Character case mapping, as `Character.toUpperCase` / `toLowerCase` do it
  // for the ASCII letters and for the four non-ASCII characters whose case
  // mapping lands on an ASCII letter: 'ı' U+0131 and 'ſ' U+017F upper-case to
  // 'I' and 'S', 'İ' U+0130 and the Kelvin sign U+212A lower-case to 'i' and
  // 'k'.  Every other character maps to itself here, so the comparison below
  // agrees with Java whenever one of the two strings is ASCII, and is stricter
  // than Java for two non-ASCII letters (it does not equate 'é' and 'É').

  function ToUpperChar(c: char): char {
    if 'a' <= c <= 'z' then (c as int - 32) as char
    else if c == '\U{0131}' then 'I'
    else if c == '\U{017F}' then 'S'
    else c
  }

  function ToLowerChar(c: char): char {
    if 'A' <= c <= 'Z' then (c as int + 32) as char
    else if c == '\U{0130}' then 'i'
    else if c == '\U{212A}' then 'k'
    else c
  }

  /** The per-character test of `String.regionMatches(true, ...)`. */
  predicate CharEqualsIgnoreCase(a: char, b: char) {
    a == b
    || ToUpperChar(a) == ToUpperChar(b)
    || ToLowerChar(ToUpperChar(a)) == ToLowerChar(ToUpperChar(b))
  }

  /** `a.equalsIgnoreCase(b)`. */
  predicate EqualsIgnoreCase(a: string, b: string) {
    |a| == |b| && forall i :: 0 <= i < |a| ==> CharEqualsIgnoreCase(a[i], b[i])
  }

  /** `Boolean.toString(b)`. */
  function BoolToString(b: bool): string {
    if b then "true" else "false"
  }

  function DigitChar(d: nat): char
    requires d < 10
  {
    ('0' as int + d) as char
  }

  predicate IsDigit(c: char) {
    '0' <= c <= '9'
  }

  function DigitValue(c: char): nat
    requires IsDigit(c)
  {
    c as int - '0' as int
  }

  /** Decimal rendering of a non-negative integer, without leading zeros. */
  function NatToString(n: nat): (r: string)
    ensures |r| > 0
    ensures forall i :: 0 <= i < |r| ==> IsDigit(r[i])
    ensures n > 0 ==> r[0] != '0'
  {
    if n < 10 then [DigitChar(n)] else NatToString(n / 10) + [DigitChar(n % 10)]
  }

  /** The value of a string of decimal digits. */
  function ParseNat(s: string): nat
    requires forall i :: 0 <= i < |s| ==> IsDigit(s[i])
  {
    if s == [] then 0 else ParseNat(s[..|s| - 1]) * 10 + DigitValue(s[|s| - 1])
  }

  /** Reading back the decimal rendering gives the number. */
  lemma {:induction false} ParseNatToString(n: nat)
    ensures ParseNat(NatToString(n)) == n
  {
    if n >= 10 {
      var s := NatToString(n);
      assert s[..|s| - 1] == NatToString(n / 10);
      ParseNatToString(n / 10);
    }
  }
}
