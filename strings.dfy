/**
 * The handful of JavaScript string operations the application relies on,
 * restricted to ASCII: `trim`, `split` on a one-character separator and
 * `join`, decimal rendering and parsing of non-negative integers,
 * `toUpperCase`, and `String.prototype.includes` (substring search).
 */
module Strings {

  /** The ASCII characters `String.prototype.trim` strips. */
  predicate IsSpace(c: char) {
    c == ' ' || c == '\t' || c == '\n' || c == '\r' || c == '\U{B}' || c == '\U{C}'
  }

  /** `s` with its leading white space removed. */
  function TrimStart(s: string): string {
    if |s| > 0 && IsSpace(s[0]) then TrimStart(s[1..]) else s
  }

  /** The result is the longest suffix that does not start with white space. */
  lemma {:induction false} TrimStartFacts(s: string)
    ensures var r := TrimStart(s);
      && |r| <= |s| && r == s[|s| - |r|..]
      && (forall k :: 0 <= k < |s| - |r| ==> IsSpace(s[k]))
      && (r == [] || !IsSpace(r[0]))
  {
    if |s| > 0 && IsSpace(s[0]) {
      TrimStartFacts(s[1..]);
    }
  }

  /** `s` with its trailing white space removed. */
  function TrimEnd(s: string): string {
    if |s| > 0 && IsSpace(s[|s| - 1]) then TrimEnd(s[..|s| - 1]) else s
  }

  /** The result is the longest prefix that does not end with white space. */
  lemma {:induction false} TrimEndFacts(s: string)
    ensures var r := TrimEnd(s);
      && |r| <= |s| && r == s[..|r|]
      && (forall k :: |r| <= k < |s| ==> IsSpace(s[k]))
      && (r == [] || !IsSpace(r[|r| - 1]))
  {
    if |s| > 0 && IsSpace(s[|s| - 1]) {
      TrimEndFacts(s[..|s| - 1]);
    }
  }

  /** `s.trim()` */
  function Trim(s: string): string {
    TrimEnd(TrimStart(s))
  }

  /** The text holds something other than white space. */
  predicate HasText(s: string) {
    exists k :: 0 <= k < |s| && !IsSpace(s[k])
  }

  /** `s.trim()` is truthy exactly when the text is not all white space. */
  lemma TrimNonEmpty(s: string)
    ensures Trim(s) != "" <==> HasText(s)
  {
    TrimFacts(s);
  }

  /**
   * The trim is no longer than the text, has no white space at either end,
   * consists of characters of the text, and is empty exactly when the text
   * is all white space.
   */
  lemma TrimFacts(s: string)
    ensures var r := Trim(s);
      && |r| <= |s|
      && (r == [] || (!IsSpace(r[0]) && !IsSpace(r[|r| - 1])))
      && (forall c :: c in r ==> c in s)
      && ((forall k :: 0 <= k < |s| ==> IsSpace(s[k])) <==> r == [])
  {
    var t := TrimStart(s);
    var r := TrimEnd(t);
    TrimStartFacts(s);
    TrimEndFacts(t);
    TrimmedChars(s, t, r);
    if t != [] {
      assert r != [] by { TrimEndKeepsNonSpace(t); }
      assert r[0] == t[0];
    }
  }

  lemma TrimmedChars(s: string, t: string, r: string)
    requires |r| <= |t| <= |s| && t == s[|s| - |t|..] && r == t[..|r|]
    ensures forall c :: c in r ==> c in s
  {
    forall c | c in r ensures c in s {
      var i :| 0 <= i < |r| && r[i] == c;
      assert s[|s| - |t| + i] == c;
    }
  }

  lemma {:induction false} TrimEndKeepsNonSpace(t: string)
    requires t != [] && !IsSpace(t[0])
    ensures TrimEnd(t) != []
  {
    if IsSpace(t[|t| - 1]) {
      TrimEndKeepsNonSpace(t[..|t| - 1]);
    }
  }

  /** Text without surrounding white space is its own trim. */
  lemma TrimOfTrimmed(p: string)
    requires p == [] || (!IsSpace(p[0]) && !IsSpace(p[|p| - 1]))
    ensures Trim(p) == p
  {
    if p != [] {
      assert TrimStart(p) == p;
      assert TrimEnd(p) == p;
    }
  }

  /** `s.split(sep)` for a one-character separator: the pieces between separators, in order. */
  function Split(s: string, sep: char): (parts: seq<string>)
    ensures |parts| >= 1
  {
    if s == [] then [[]]
    else
      var rest := Split(s[1..], sep);
      if s[0] == sep then [[]] + rest
      else [[s[0]] + rest[0]] + rest[1..]
  }

  /** No piece of a split contains the separator. */
  lemma {:induction false} SplitPieces(s: string, sep: char)
    ensures forall i :: 0 <= i < |Split(s, sep)| ==> sep !in Split(s, sep)[i]
  {
    if s != [] {
      SplitPieces(s[1..], sep);
    }
  }

  /** `parts.join(sep)` for a non-empty list of pieces. */
  function Join(parts: seq<string>, sep: char): string
    requires |parts| >= 1
  {
    if |parts| == 1 then parts[0] else parts[0] + [sep] + Join(parts[1..], sep)
  }

  /** Joining the pieces of a split gives back the original string. */
  lemma {:induction false} JoinSplit(s: string, sep: char)
    ensures Join(Split(s, sep), sep) == s
  {
    if s != [] {
      JoinSplit(s[1..], sep);
      var rest := Split(s[1..], sep);
      if s[0] != sep {
        if |rest| > 1 {
          assert Split(s, sep)[1..] == rest[1..];
          assert [s[0]] + rest[0] + [sep] + Join(rest[1..], sep) == [s[0]] + (rest[0] + [sep] + Join(rest[1..], sep));
        }
      } else {
        assert Split(s, sep)[1..] == rest;
      }
    }
  }

  /** Splitting a join of separator-free pieces gives back the pieces. */
  lemma {:induction false} SplitJoin(parts: seq<string>, sep: char)
    requires |parts| >= 1
    requires forall i :: 0 <= i < |parts| ==> sep !in parts[i]
    ensures Split(Join(parts, sep), sep) == parts
  {
    if |parts| == 1 {
      SplitNoSeparator(parts[0], sep);
    } else {
      SplitJoin(parts[1..], sep);
      SplitSeparated(parts[0], Join(parts[1..], sep), sep);
      assert [parts[0]] + parts[1..] == parts;
    }
  }

  /** A string without the separator splits into itself. */
  lemma {:induction false} SplitNoSeparator(s: string, sep: char)
    requires sep !in s
    ensures Split(s, sep) == [s]
  {
    if s != [] {
      SplitNoSeparator(s[1..], sep);
      assert [s[0]] + s[1..] == s;
    }
  }

  /** Splitting `a + sep + b`, where `a` has no separator, yields `a` and then the pieces of `b`. */
  lemma {:induction false} SplitSeparated(a: string, b: string, sep: char)
    requires sep !in a
    ensures Split(a + [sep] + b, sep) == [a] + Split(b, sep)
  {
    if a == [] {
      assert a + [sep] + b == [sep] + b;
      assert ([sep] + b)[1..] == b;
    } else {
      SplitSeparated(a[1..], b, sep);
      assert (a + [sep] + b)[1..] == a[1..] + [sep] + b;
      assert [a[0]] + a[1..] == a;
    }
  }

  /** Splitting distributes over a separator: the pieces of `a + sep + b` are those of `a`, then those of `b`. */
  lemma SplitAppend(a: string, b: string, sep: char)
    ensures Split(a + [sep] + b, sep) == Split(a, sep) + Split(b, sep)
  {
    var pa, pb := Split(a, sep), Split(b, sep);
    JoinSplit(a, sep);
    JoinSplit(b, sep);
    JoinAppend(pa, pb, sep);
    SplitPieces(a, sep);
    SplitPieces(b, sep);
    assert forall i :: 0 <= i < |pa + pb| ==> sep !in (pa + pb)[i] by {
      forall i | 0 <= i < |pa + pb| ensures sep !in (pa + pb)[i] {
        if i < |pa| { assert (pa + pb)[i] == pa[i]; } else { assert (pa + pb)[i] == pb[i - |pa|]; }
      }
    }
    SplitJoin(pa + pb, sep);
  }

  lemma {:induction false} JoinAppend(p: seq<string>, q: seq<string>, sep: char)
    requires |p| >= 1 && |q| >= 1
    ensures Join(p + q, sep) == Join(p, sep) + [sep] + Join(q, sep)
  {
    if |p| == 1 {
      assert (p + q)[1..] == q;
    } else {
      JoinAppend(p[1..], q, sep);
      assert (p + q)[1..] == p[1..] + q;
    }
  }

  /** The part of an e-mail address before its first '@' (`email.split('@')[0]`). */
  function LocalPart(email: string): (r: string)
    ensures '@' !in r
    ensures r <= email
    ensures '@' !in email ==> r == email
    ensures |r| < |email| ==> email[|r|] == '@'
  {
    LocalPartFacts(email);
    SplitPieces(email, '@');
    Split(email, '@')[0]
  }

  lemma LocalPartFacts(email: string)
    ensures Split(email, '@')[0] <= email
    ensures '@' !in email ==> Split(email, '@')[0] == email
    ensures |Split(email, '@')[0]| < |email| ==> email[|Split(email, '@')[0]|] == '@'
  {
    var parts := Split(email, '@');
    JoinSplit(email, '@');
    if '@' !in email { SplitNoSeparator(email, '@'); }
    if |parts| > 1 {
      assert email == parts[0] + ['@'] + Join(parts[1..], '@');
      assert email[|parts[0]|] == '@';
    }
  }

  /** The local part of `a@b`, where `a` holds no '@', is `a`, whatever `b` holds. */
  lemma LocalPartBeforeFirstAt(a: string, b: string)
    requires '@' !in a
    ensures LocalPart(a + "@" + b) == a
  {
    SplitSeparated(a, b, '@');
  }

  predicate IsDigit(c: char) { '0' <= c <= '9' }

  predicate AllDigits(s: string) { forall i :: 0 <= i < |s| ==> IsDigit(s[i]) }

  function DigitChar(d: nat): (c: char)
    requires d < 10
    ensures IsDigit(c)
  {
    ('0' as int + d) as char
  }

  /** The decimal numeral of `n`, as JavaScript prints a non-negative integer. */
  function NatToString(n: nat): (s: string)
    ensures |s| >= 1 && AllDigits(s)
    ensures s[0] == '0' <==> n == 0
  {
    if n < 10 then [DigitChar(n)] else NatToString(n / 10) + [DigitChar(n % 10)]
  }

  /** The decimal numeral of an integer, with a leading '-' when negative. */
  function IntToString(i: int): string {
    if i < 0 then "-" + NatToString(-i) else NatToString(i)
  }

  /** The value of a numeral (what `parseInt` gives for a string of decimal digits). */
  function ParseNat(s: string): nat
    requires AllDigits(s)
  {
    if s == [] then 0 else ParseNat(s[..|s| - 1]) * 10 + (s[|s| - 1] as int - '0' as int)
  }

  /** Parsing a rendered number gives the number back. */
  lemma {:induction false} ParseNatToString(n: nat)
    ensures ParseNat(NatToString(n)) == n
  {
    if n >= 10 {
      ParseNatToString(n / 10);
      var s := NatToString(n);
      assert s[..|s| - 1] == NatToString(n / 10);
    }
  }

  /** Rendering a parsed numeral without a superfluous leading zero gives the numeral back. */
  lemma {:induction false} NatToStringParse(s: string)
    requires |s| >= 1 && AllDigits(s)
    requires s[0] == '0' ==> |s| == 1
    ensures NatToString(ParseNat(s)) == s
  {
    if |s| > 1 {
      var init := s[..|s| - 1];
      NatToStringParse(init);
      assert init[0] != '0';
      ParseNatPositive(init);
      var n := ParseNat(s);
      var d := s[|s| - 1] as int - '0' as int;
      assert n / 10 == ParseNat(init) && n % 10 == d;
      assert s == init + [s[|s| - 1]];
    }
  }

  lemma {:induction false} ParseNatPositive(s: string)
    requires |s| >= 1 && AllDigits(s) && s[0] != '0'
    ensures ParseNat(s) >= 1
  {
    if |s| > 1 {
      ParseNatPositive(s[..|s| - 1]);
    }
  }

  /** `toUpperCase` on one ASCII character. */
  function UpperChar(c: char): (u: char)
    ensures 'a' <= c <= 'z' ==> u as int == c as int - 32
    ensures !('a' <= c <= 'z') ==> u == c
  {
    if 'a' <= c <= 'z' then (c as int - 32) as char else c
  }

  /** `s.toUpperCase()` on ASCII text. */
  function ToUpper(s: string): (r: string)
    ensures |r| == |s|
    ensures forall i :: 0 <= i < |s| ==> r[i] == UpperChar(s[i])
  {
    if s == [] then [] else [UpperChar(s[0])] + ToUpper(s[1..])
  }

  /** `s.includes(t)`: `t` occurs as a contiguous piece of `s`. */
  predicate IsInfix(t: string, s: string)
    decreases |s|
  {
    t <= s || (|s| > 0 && IsInfix(t, s[1..]))
  }

  /** `IsInfix` finds exactly the occurrences at some offset. */
  lemma {:induction false} IsInfixAt(t: string, s: string, i: nat)
    requires i + |t| <= |s| && s[i..i + |t|] == t
    ensures IsInfix(t, s)
  {
    if i > 0 {
      assert s[1..][i - 1..i - 1 + |t|] == t;
      IsInfixAt(t, s[1..], i - 1);
    }
  }
}
