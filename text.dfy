/** The JavaScript string operations the handler relies on (`includes`,
    `lastIndexOf`, `substring`, `split(...)[0]`, `toLowerCase`, `parseInt`,
    number-to-text conversion), over `seq<char>`, with the facts about them
    that the rest of the model uses. */
module Text {
  import opened Wrappers

  // ---------------------------------------------------------------------
  // Substring search: `s.includes(n)`
  // ---------------------------------------------------------------------

  /** `n` occurs in `s` starting at position `i`. */
  predicate MatchAt(s: string, n: string, i: nat) {
    i + |n| <= |s| && s[i..i + |n|] == n
  }

  /** `s.includes(n)`. */
  predicate Contains(s: string, n: string) {
    exists i: nat | i <= |s| :: MatchAt(s, n, i)
  }

  /** A text built around `n` contains it. */
  lemma ContainsInfix(a: string, n: string, b: string)
    ensures Contains(a + n + b, n)
  {
    var s := a + n + b;
    assert s[|a|..|a| + |n|] == n;
    assert MatchAt(s, n, |a|);
  }

  /** A character that does not occur in `n` cannot lie inside an occurrence
      of `n`: every occurrence is on one side of it. */
  lemma Barrier(a: string, c: char, b: string, n: string)
    requires c !in n
    ensures Contains(a + [c] + b, n) ==> Contains(a, n) || Contains(b, n)
  {
    if Contains(a + [c] + b, n) {
      var s := a + [c] + b;
      var i: nat :| i <= |s| && MatchAt(s, n, i);
      assert s[|a|] == c;
      assert forall j :: i <= j < i + |n| ==> s[j] == n[j - i];
      if i + |n| <= |a| {
        assert s[i..i + |n|] == a[i..i + |n|];
        assert MatchAt(a, n, i);
      } else if i > |a| {
        var k := i - |a| - 1;
        assert s[i..i + |n|] == b[k..k + |n|];
        assert MatchAt(b, n, k);
      }
    }
  }

  /** If the first character of `n` does not occur in `a`, no occurrence of
      `n` in `a + b` starts inside `a`. */
  lemma Lead(a: string, b: string, n: string)
    requires |n| > 0 && n[0] !in a
    ensures Contains(a + b, n) ==> Contains(b, n)
  {
    if Contains(a + b, n) {
      var s := a + b;
      var i: nat :| i <= |s| && MatchAt(s, n, i);
      if i >= |a| {
        var k := i - |a|;
        assert s[i..i + |n|] == b[k..k + |n|];
        assert MatchAt(b, n, k);
      }
    }
  }

  /** No position of `a` begins with the first two characters of `n`, and
      the last one does not hold the first: no occurrence of `n` in `a + b`
      can start inside `a`. */
  predicate NoStartIn(a: string, n: string) {
    |n| >= 2 &&
    (forall i :: 0 <= i < |a| - 1 ==> a[i] != n[0] || a[i + 1] != n[1]) &&
    (|a| > 0 ==> a[|a| - 1] != n[0])
  }

  lemma Skip(a: string, b: string, n: string)
    requires NoStartIn(a, n)
    ensures Contains(a + b, n) ==> Contains(b, n)
  {
    if Contains(a + b, n) {
      var s := a + b;
      var i: nat :| i <= |s| && MatchAt(s, n, i);
      assert s[i] == n[0] && s[i + 1] == n[1];
      if i >= |a| {
        var k := i - |a|;
        assert s[i..i + |n|] == b[k..k + |n|];
        assert MatchAt(b, n, k);
      }
    }
  }

  /** An occurrence that does not start at the first character lies in the rest. */
  lemma DropFirst(x: char, rest: string, n: string)
    requires !MatchAt([x] + rest, n, 0)
    ensures Contains([x] + rest, n) ==> Contains(rest, n)
  {
    if Contains([x] + rest, n) {
      var s := [x] + rest;
      var i: nat :| i <= |s| && MatchAt(s, n, i);
      assert i > 0;
      assert s[i..i + |n|] == rest[i - 1..i - 1 + |n|];
      assert MatchAt(rest, n, i - 1);
    }
  }

  /** A text starting with two characters that do not begin `n` cannot hold
      `n` at its first position. */
  lemma FalseStart(x: char, y: char, rest: string, n: string)
    requires |n| >= 2 && (x != n[0] || y != n[1])
    ensures Contains([x, y] + rest, n) ==> Contains([y] + rest, n)
  {
    var s := [x, y] + rest;
    assert s == [x] + ([y] + rest);
    if |n| <= |s| {
      assert s[0..|n|][0] == x && s[0..|n|][1] == y;
    }
    DropFirst(x, [y] + rest, n);
  }

  // ---------------------------------------------------------------------
  // `lastIndexOf`, `substring` and `split(c)[0]`
  // ---------------------------------------------------------------------

  /** `s.lastIndexOf(c)`: the last position holding `c`, or -1. */
  function LastIndexOf(s: string, c: char): (r: int)
    ensures -1 <= r < |s|
    ensures r >= 0 ==> s[r] == c
    ensures forall k :: r < k < |s| ==> s[k] != c
  {
    if |s| == 0 then -1
    else if s[|s| - 1] == c then |s| - 1
    else LastIndexOf(s[..|s| - 1], c)
  }

  /** `s.split(c)[0]`: the text before the first `c`, or all of `s`. */
  function BeforeFirst(s: string, c: char): (r: string)
    ensures r <= s
    ensures c !in r
    ensures |r| < |s| ==> s[|r|] == c
  {
    if |s| == 0 || s[0] == c then []
    else [s[0]] + BeforeFirst(s[1..], c)
  }

  // ---------------------------------------------------------------------
  // `toLowerCase`
  // ---------------------------------------------------------------------

  function LowerChar(c: char): char {
    if 'A' <= c <= 'Z' then (c as int - 'A' as int + 'a' as int) as char else c
  }

  /** `s.toLowerCase()` on the letters A to Z. */
  function ToLower(s: string): (r: string)
    ensures |r| == |s|
    ensures forall i :: 0 <= i < |s| ==> r[i] == LowerChar(s[i])
  {
    if s == [] then [] else [LowerChar(s[0])] + ToLower(s[1..])
  }

  // ---------------------------------------------------------------------
  // Decimal text of a number, and `parseInt(s, 10)`
  // ---------------------------------------------------------------------

  predicate IsDigit(c: char) {
    '0' <= c <= '9'
  }

  function DigitChar(d: nat): (c: char)
    requires d < 10
    ensures IsDigit(c) && c as int - '0' as int == d
  {
    ('0' as int + d) as char
  }

  function DigitValue(c: char): nat
    requires IsDigit(c)
  {
    c as int - '0' as int
  }

  /** The decimal text of `n`, as `${n}` produces it for an integer. */
  function Decimal(n: nat): (r: string)
    ensures |r| > 0
    ensures forall i :: 0 <= i < |r| ==> IsDigit(r[i])
  {
    if n < 10 then [DigitChar(n)] else Decimal(n / 10) + [DigitChar(n % 10)]
  }

  /** The number a run of decimal digits denotes. */
  function DigitsValue(s: string): nat
    requires forall i :: 0 <= i < |s| ==> IsDigit(s[i])
  {
    if s == [] then 0 else DigitsValue(s[..|s| - 1]) * 10 + DigitValue(s[|s| - 1])
  }

  /** The characters `parseInt` skips before a number: ECMAScript's white
      space (tab, vertical tab, form feed, no-break space, byte-order mark and
      the space separators) and line terminators. */
  predicate IsJsSpace(c: char) {
    c == '\t' || c == '\n' || c == '\U{000B}' || c == '\U{000C}' || c == '\r' ||
    c == ' ' || c == '\U{00A0}' || c == '\U{1680}' ||
    ('\U{2000}' <= c <= '\U{200A}') ||
    c == '\U{2028}' || c == '\U{2029}' || c == '\U{202F}' || c == '\U{205F}' ||
    c == '\U{3000}' || c == '\U{FEFF}'
  }

  /** `s` without its leading white space. */
  function TrimStart(s: string): (r: string)
    ensures |r| <= |s| && r == s[|s| - |r|..]
    ensures r == [] || !IsJsSpace(r[0])
    ensures forall i :: 0 <= i < |s| - |r| ==> IsJsSpace(s[i])
  {
    if s != [] && IsJsSpace(s[0]) then TrimStart(s[1..]) else s
  }

  /** The longest prefix of `s` made of decimal digits. */
  function LeadingDigits(s: string): (r: string)
    ensures r <= s
    ensures forall i :: 0 <= i < |r| ==> IsDigit(r[i])
    ensures |r| < |s| ==> !IsDigit(s[|r|])
  {
    if s != [] && IsDigit(s[0]) then [s[0]] + LeadingDigits(s[1..]) else []
  }

  /** `parseInt(s, 10)`; `None` stands for `NaN`. */
  function ParseInt(s: string): Option<int> {
    var t := TrimStart(s);
    var negative := |t| > 0 && t[0] == '-';
    var body := if |t| > 0 && (t[0] == '-' || t[0] == '+') then t[1..] else t;
    var digits := LeadingDigits(body);
    var magnitude: int := if digits == [] then 0 else DigitsValue(digits);
    if digits == [] then None
    else if negative then Some(-magnitude)
    else Some(magnitude)
  }

  lemma {:induction false} DigitsOfDecimal(n: nat)
    ensures DigitsValue(Decimal(n)) == n
  {
    if n >= 10 {
      var s := Decimal(n);
      assert s[..|s| - 1] == Decimal(n / 10);
      DigitsOfDecimal(n / 10);
    }
  }

  lemma {:induction false} LeadingDigitsOfDigits(s: string)
    requires forall i :: 0 <= i < |s| ==> IsDigit(s[i])
    ensures LeadingDigits(s) == s
  {
    if s != [] {
      LeadingDigitsOfDigits(s[1..]);
    }
  }

  /** `parseInt` reads back the decimal text of every natural number. */
  lemma ParseDecimal(n: nat)
    ensures ParseInt(Decimal(n)) == Some(n)
  {
    var s := Decimal(n);
    assert !IsJsSpace(s[0]) && s[0] != '-' && s[0] != '+';
    assert TrimStart(s) == s;
    LeadingDigitsOfDigits(s);
    DigitsOfDecimal(n);
  }
}
