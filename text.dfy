/**
 * The JavaScript string operations the engine relies on, over `string`
 * (a sequence of Unicode scalar values).
 */
module Text {
  import opened Wrappers

  predicate IsDigit(c: char) {
    '0' <= c <= '9'
  }

  /** The decimal digit character for `d`. */
  function Digit(d: nat): (c: char)
    requires d < 10
    ensures IsDigit(c)
  {
    ('0' as int + d) as char
  }

  /** `Number.prototype.toString()` for a non-negative integer. */
  function NatToString(n: nat): (r: string)
    ensures 1 <= |r|
    ensures n < 10 <==> |r| == 1
    ensures forall i :: 0 <= i < |r| ==> IsDigit(r[i])
  {
    if n < 10 then [Digit(n)] else NatToString(n / 10) + [Digit(n % 10)]
  }

  /** Distinct numbers print as distinct strings. */
  lemma {:induction false} NatToStringInjective(m: nat, n: nat)
    requires NatToString(m) == NatToString(n)
    ensures m == n
  {
    var s, t := NatToString(m), NatToString(n);
    if m < 10 && n < 10 {
      assert Digit(m) == s[0] == t[0] == Digit(n);
    } else if 10 <= m && 10 <= n {
      assert s[..|s| - 1] == NatToString(m / 10);
      assert t[..|t| - 1] == NatToString(n / 10);
      NatToStringInjective(m / 10, n / 10);
      assert Digit(m % 10) == s[|s| - 1] == t[|t| - 1] == Digit(n % 10);
    } else {
      assert false;
    }
  }

  /** `s.padStart(width, c)`: left-pads with `c`, never truncates. */
  function PadStart(s: string, width: nat, c: char): (r: string)
    ensures |r| == if |s| >= width then |s| else width
    ensures r[|r| - |s|..] == s
    ensures forall i :: 0 <= i < |r| - |s| ==> r[i] == c
  {
    if |s| >= width then s else seq(width - |s|, _ => c) + s
  }

  /** `n.toString().padStart(4, '0')`. */
  function Pad4(n: nat): string {
    PadStart(NatToString(n), 4, '0')
  }

  /** The four decimal digits of a count below 10000, most significant first. */
  function Digits4(n: nat): string
    requires n < 10000
  {
    [Digit(n / 1000), Digit(n / 100 % 10), Digit(n / 10 % 10), Digit(n % 10)]
  }

  lemma NatToStringStep(n: nat)
    requires 10 <= n
    ensures NatToString(n) == NatToString(n / 10) + [Digit(n % 10)]
  {
  }

  /** Below 10000 the padded count is exactly the four decimal digits of the count. */
  lemma Pad4Digits(n: nat)
    requires n < 10000
    ensures Pad4(n) == Digits4(n)
  {
    if n < 10 {
      PadDigits(NatToString(n), [Digit(n)]);
    } else if n < 100 {
      Pad4TwoDigits(n);
    } else if n < 1000 {
      Pad4ThreeDigits(n);
    } else {
      Pad4FourDigits(n);
    }
  }

  lemma Pad4TwoDigits(n: nat)
    requires 10 <= n < 100
    ensures Pad4(n) == Digits4(n)
  {
    NatToStringStep(n);
    PadDigits(NatToString(n), [Digit(n / 10), Digit(n % 10)]);
  }

  lemma Pad4ThreeDigits(n: nat)
    requires 100 <= n < 1000
    ensures Pad4(n) == Digits4(n)
  {
    var q1 := n / 10;
    assert q1 / 10 == n / 100 && q1 % 10 == n / 10 % 10;
    NatToStringStep(n);
    NatToStringStep(q1);
    PadDigits(NatToString(n), [Digit(q1 / 10), Digit(q1 % 10), Digit(n % 10)]);
  }

  lemma Pad4FourDigits(n: nat)
    requires 1000 <= n < 10000
    ensures Pad4(n) == Digits4(n)
  {
    var q1 := n / 10;
    var q2 := q1 / 10;
    assert q2 == n / 100 && q2 / 10 == n / 1000 && q2 % 10 == n / 100 % 10 && q1 % 10 == n / 10 % 10;
    NatToStringStep(n);
    NatToStringStep(q1);
    NatToStringStep(q2);
    PadDigits(NatToString(n), [Digit(q2 / 10), Digit(q2 % 10), Digit(q1 % 10), Digit(n % 10)]);
  }

  /** Padding a string of at most four characters to four with `'0'`. */
  lemma PadDigits(s: string, t: string)
    requires s == t && 1 <= |t| <= 4
    ensures PadStart(s, 4, '0') == seq(4 - |t|, _ => '0') + t
  {
  }

  /** JavaScript's `<` on strings: lexicographic order of the characters. */
  predicate LexLess(a: string, b: string) {
    if a == [] then b != []
    else if b == [] then false
    else if a[0] != b[0] then a[0] < b[0]
    else LexLess(a[1..], b[1..])
  }

  lemma DigitOrder(a: nat, b: nat)
    requires a < 10 && b < 10
    ensures Digit(a) < Digit(b) <==> a < b
    ensures Digit(a) == Digit(b) <==> a == b
  {
  }

  /** Lexicographic order of four digits written as numbers. */
  predicate DigitsLess(a0: nat, a1: nat, a2: nat, a3: nat, b0: nat, b1: nat, b2: nat, b3: nat) {
    a0 < b0 || (a0 == b0 && (a1 < b1 || (a1 == b1 && (a2 < b2 || (a2 == b2 && a3 < b3)))))
  }

  lemma LexLessDigits(a0: nat, a1: nat, a2: nat, a3: nat, b0: nat, b1: nat, b2: nat, b3: nat)
    requires a0 < 10 && a1 < 10 && a2 < 10 && a3 < 10 && b0 < 10 && b1 < 10 && b2 < 10 && b3 < 10
    ensures LexLess([Digit(a0), Digit(a1), Digit(a2), Digit(a3)], [Digit(b0), Digit(b1), Digit(b2), Digit(b3)])
            <==> DigitsLess(a0, a1, a2, a3, b0, b1, b2, b3)
  {
    DigitOrder(a0, b0);
    DigitOrder(a1, b1);
    DigitOrder(a2, b2);
    DigitOrder(a3, b3);
    var x, y := [Digit(a0), Digit(a1), Digit(a2), Digit(a3)], [Digit(b0), Digit(b1), Digit(b2), Digit(b3)];
    assert x[1..] == [Digit(a1), Digit(a2), Digit(a3)] && y[1..] == [Digit(b1), Digit(b2), Digit(b3)];
    assert x[1..][1..] == [Digit(a2), Digit(a3)] && y[1..][1..] == [Digit(b2), Digit(b3)];
    assert x[1..][1..][1..] == [Digit(a3)] && y[1..][1..][1..] == [Digit(b3)];
    assert x[1..][1..][1..][1..] == [] && y[1..][1..][1..][1..] == [];
    var x1, y1 := x[1..], y[1..];
    var x2, y2 := x1[1..], y1[1..];
    var x3, y3 := x2[1..], y2[1..];
    assert !LexLess(x3[1..], y3[1..]);
    assert LexLess(x3, y3) <==> a3 < b3;
    assert LexLess(x2, y2) <==> (a2 < b2 || (a2 == b2 && a3 < b3));
    assert LexLess(x1, y1) <==> (a1 < b1 || (a1 == b1 && (a2 < b2 || (a2 == b2 && a3 < b3))));
  }

  lemma DigitsValue(n: nat)
    requires n < 10000
    ensures n == 1000 * (n / 1000) + 100 * (n / 100 % 10) + 10 * (n / 10 % 10) + n % 10
    ensures n / 1000 < 10
  {
    var q1 := n / 10;
    var q2 := q1 / 10;
    var q3 := q2 / 10;
    assert n == 10 * q1 + n % 10;
    assert q1 == 10 * q2 + q1 % 10;
    assert q2 == 10 * q3 + q2 % 10;
    assert q2 == n / 100 && q3 == n / 1000 && q1 % 10 == n / 10 % 10 && q2 % 10 == n / 100 % 10;
  }

  /** Four-digit strings compare like the numbers they spell. */
  lemma Digits4Order(m: nat, n: nat)
    requires m < 10000 && n < 10000
    ensures LexLess(Digits4(m), Digits4(n)) <==> m < n
  {
    DigitsValue(m);
    DigitsValue(n);
    LexLessDigits(m / 1000, m / 100 % 10, m / 10 % 10, m % 10, n / 1000, n / 100 % 10, n / 10 % 10, n % 10);
  }

  /** The padded four-digit counts sort as strings exactly as the counts sort as numbers. */
  lemma Pad4Order(m: nat, n: nat)
    requires m < 10000 && n < 10000
    ensures LexLess(Pad4(m), Pad4(n)) <==> m < n
  {
    Pad4Digits(m);
    Pad4Digits(n);
    Digits4Order(m, n);
  }

  predicate IsPrefix(p: string, s: string) {
    |p| <= |s| && s[..|p|] == p
  }

  predicate IsSuffix(p: string, s: string) {
    |p| <= |s| && s[|s| - |p|..] == p
  }

  /** `s.includes(t)`. */
  predicate Contains(s: string, t: string)
    decreases |s|
  {
    IsPrefix(t, s) || (s != [] && Contains(s[1..], t))
  }

  /** ASCII upper case to lower case; every other character is kept. */
  function LowerChar(c: char): char {
    if 'A' <= c <= 'Z' then (c as int + 32) as char else c
  }

  /** `s.toLowerCase()` on the ASCII letters. */
  function Lower(s: string): (r: string)
    ensures |r| == |s|
    ensures forall i :: 0 <= i < |s| ==> r[i] == LowerChar(s[i])
  {
    if s == [] then [] else [LowerChar(s[0])] + Lower(s[1..])
  }

  /** Two strings that differ at most in the case of their letters. */
  predicate EqualIgnoringCase(a: string, b: string) {
    |a| == |b| && forall i :: 0 <= i < |a| ==> LowerChar(a[i]) == LowerChar(b[i])
  }

  /** The lower-cased forms agree exactly when the strings are equal up to case. */
  lemma LowerAgreesIffEqualIgnoringCase(a: string, b: string)
    ensures Lower(a) == Lower(b) <==> EqualIgnoringCase(a, b)
  {
    if EqualIgnoringCase(a, b) {
      assert forall i :: 0 <= i < |a| ==> Lower(a)[i] == Lower(b)[i];
    }
    if Lower(a) == Lower(b) {
      assert forall i :: 0 <= i < |a| ==> LowerChar(a[i]) == Lower(a)[i];
    }
  }

  /** The characters JavaScript's `trim` and the regex class `\s` remove. */
  predicate IsWhitespace(c: char) {
    c == ' ' || c == '\t' || c == '\n' || c == '\r' || c == '\U{000B}' || c == '\U{000C}'
    || c == '\U{00A0}' || c == '\U{1680}' || ('\U{2000}' <= c <= '\U{200A}')
    || c == '\U{2028}' || c == '\U{2029}' || c == '\U{202F}' || c == '\U{205F}'
    || c == '\U{3000}' || c == '\U{FEFF}'
  }

  /** Removes the longest prefix whose characters satisfy `p` (the regex `^x+` replaced by ''). */
  function DropWhile(s: string, p: char -> bool): (r: string)
    ensures IsSuffix(r, s)
    ensures r == [] || !p(r[0])
    ensures forall i :: 0 <= i < |s| - |r| ==> p(s[i])
  {
    if s != [] && p(s[0]) then DropWhile(s[1..], p) else s
  }

  /** Removes the longest suffix whose characters satisfy `p` (the regex `x+$` replaced by ''). */
  function DropLastWhile(s: string, p: char -> bool): (r: string)
    ensures IsPrefix(r, s)
    ensures r == [] || !p(r[|r| - 1])
    ensures forall i :: |r| <= i < |s| ==> p(s[i])
  {
    if s != [] && p(s[|s| - 1]) then DropLastWhile(s[..|s| - 1], p) else s
  }

  /** `s.trim()`. */
  function Trim(s: string): (r: string)
    ensures r == [] || (!IsWhitespace(r[0]) && !IsWhitespace(r[|r| - 1]))
  {
    DropLastWhile(DropWhile(s, IsWhitespace), IsWhitespace)
  }

  /** `s.substring(0, n)` for a non-negative `n`. */
  function Take(s: string, n: nat): (r: string)
    ensures IsPrefix(r, s) && |r| == if |s| <= n then |s| else n
  {
    if |s| <= n then s else s[..n]
  }

  /** `s.substring(1)`. */
  function DropFirst(s: string): string {
    if s == [] then s else s[1..]
  }

  /** `s.substr(start, len)` for non-negative arguments. */
  function Substr(s: string, start: nat, len: nat): (r: string)
    ensures |r| <= len
  {
    var b := if start < |s| then start else |s|;
    var e := if start + len < |s| then start + len else |s|;
    s[b..e]
  }

  /** `s.replace(pat, rep)` with a string pattern: only the first occurrence is replaced. */
  function ReplaceFirst(s: string, pat: string, rep: string): string
    decreases |s|
  {
    if IsPrefix(pat, s) then rep + s[|pat|..]
    else if s == [] then s
    else [s[0]] + ReplaceFirst(s[1..], pat, rep)
  }

  /** Without an occurrence of the pattern, `replace` leaves the string as it is. */
  lemma {:induction false} ReplaceFirstAbsent(s: string, pat: string, rep: string)
    requires !Contains(s, pat)
    ensures ReplaceFirst(s, pat, rep) == s
  {
    if s != [] {
      ReplaceFirstAbsent(s[1..], pat, rep);
    }
  }

  /** `s.split(c)` for a one-character separator. */
  function Split(s: string, c: char): (r: seq<string>)
    ensures |r| >= 1
    ensures forall i :: 0 <= i < |r| ==> c !in r[i]
  {
    if s == [] then [[]]
    else if s[0] == c then [[]] + Split(s[1..], c)
    else
      var rest := Split(s[1..], c);
      [[s[0]] + rest[0]] + rest[1..]
  }

  /** `parts.join(sep)` for a one-character separator. */
  function Join(parts: seq<string>, c: char): string {
    if parts == [] then []
    else if |parts| == 1 then parts[0]
    else parts[0] + [c] + Join(parts[1..], c)
  }

  /** Splitting and joining on the same separator gives back the string. */
  lemma {:induction false} JoinSplit(s: string, c: char)
    ensures Join(Split(s, c), c) == s
  {
    if s == [] {
    } else if s[0] == c {
      JoinSplit(s[1..], c);
      assert Split(s, c) == [[]] + Split(s[1..], c);
    } else {
      JoinSplit(s[1..], c);
      var rest := Split(s[1..], c);
      if |rest| == 1 {
        assert Join(Split(s, c), c) == [s[0]] + rest[0];
      } else {
        assert Split(s, c)[1..] == rest[1..];
        assert Join(Split(s, c), c) == ([s[0]] + rest[0]) + [c] + Join(rest[1..], c);
        assert Join(rest, c) == rest[0] + [c] + Join(rest[1..], c);
      }
    }
  }

  /** A string without the separator splits into itself alone. */
  lemma {:induction false} SplitNoSeparator(a: string, c: char)
    requires c !in a
    ensures Split(a, c) == [a]
  {
    if a != [] {
      SplitNoSeparator(a[1..], c);
      assert a == [a[0]] + a[1..];
    }
  }

  /** A separator after a piece without one starts a new piece. */
  lemma {:induction false} SplitAtSeparator(a: string, rest: string, c: char)
    requires c !in a
    ensures Split(a + [c] + rest, c) == [a] + Split(rest, c)
  {
    var s := a + [c] + rest;
    if a == [] {
      assert s == [c] + rest && s[1..] == rest;
    } else {
      SplitAtSeparator(a[1..], rest, c);
      assert s[0] == a[0] && s[1..] == a[1..] + [c] + rest;
      assert a == [a[0]] + a[1..];
    }
  }

  /** Joining pieces without the separator and splitting again gives back the pieces. */
  lemma {:induction false} SplitJoin(parts: seq<string>, c: char)
    requires parts != [] && forall i :: 0 <= i < |parts| ==> c !in parts[i]
    ensures Split(Join(parts, c), c) == parts
  {
    if |parts| == 1 {
      SplitNoSeparator(parts[0], c);
    } else {
      SplitJoin(parts[1..], c);
      SplitAtSeparator(parts[0], Join(parts[1..], c), c);
      assert parts == [parts[0]] + parts[1..];
    }
  }

  /** `s.split(c)[0]`: everything before the first `c`. */
  function FirstField(s: string, c: char): (r: string)
    ensures IsPrefix(r, s) && c !in r
  {
    JoinSplit(s, c);
    JoinPrefix(Split(s, c), c);
    Split(s, c)[0]
  }

  lemma JoinPrefix(parts: seq<string>, c: char)
    requires parts != []
    ensures IsPrefix(parts[0], Join(parts, c))
  {
  }

  /** A template literal `${x}` of a value that may be `undefined`. */
  function Str(o: Option<string>): string {
    match o
    case Some(s) => s
    case None => "undefined"
  }
}
