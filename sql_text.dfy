/**
 * Text utilities the query builder relies on: decimal rendering of
 * placeholder numbers, `Array.prototype.join`, and a scanner that reads the
 * positional placeholders (`$1`, `$2`, ...) back out of a query text,
 * skipping `--` comments. It knows no other lexical form of SQL (block
 * comments, quoted strings, `$` inside identifiers).
 */
module SqlText {

  predicate IsDigit(c: char) {
    '0' <= c <= '9'
  }

  predicate AllDigits(s: string) {
    forall i :: 0 <= i < |s| ==> IsDigit(s[i])
  }

  function DigitChar(d: nat): (c: char)
    requires d < 10
    ensures IsDigit(c) && c as int - '0' as int == d
  {
    ('0' as int + d) as char
  }

  function DigitValue(c: char): nat
    requires IsDigit(c)
  {
    c as int - '0' as int
  }

  /** The decimal text JavaScript produces when it interpolates a non-negative integer. */
  function NatToString(n: nat): (s: string)
    ensures |s| > 0 && AllDigits(s)
    ensures n > 0 ==> s[0] != '0'
    decreases n
  {
    if n < 10 then [DigitChar(n)] else NatToString(n / 10) + [DigitChar(n % 10)]
  }

  /** The number a run of decimal digits denotes. */
  function DigitsValue(s: string): nat
    requires AllDigits(s)
    decreases |s|
  {
    if s == [] then 0 else DigitsValue(s[..|s| - 1]) * 10 + DigitValue(s[|s| - 1])
  }

  lemma {:induction false} DigitsValueOfNatToString(n: nat)
    ensures DigitsValue(NatToString(n)) == n
    decreases n
  {
    if n >= 10 {
      var p := NatToString(n / 10);
      var s := NatToString(n);
      assert s == p + [DigitChar(n % 10)];
      assert s[..|s| - 1] == p;
      DigitsValueOfNatToString(n / 10);
    }
  }

  /** Distinct numbers get distinct placeholder texts. */
  lemma NatToStringInjective(m: nat, n: nat)
    requires NatToString(m) == NatToString(n)
    ensures m == n
  {
    DigitsValueOfNatToString(m);
    DigitsValueOfNatToString(n);
  }

  /** The positional placeholder `$n`. */
  function Placeholder(n: nat): string {
    "$" + NatToString(n)
  }

  /** The number of leading decimal digits of `s`. */
  function DigitRun(s: string): (k: nat)
    ensures k <= |s|
    ensures forall i :: 0 <= i < k ==> IsDigit(s[i])
    ensures k < |s| ==> !IsDigit(s[k])
    decreases |s|
  {
    if s == [] || !IsDigit(s[0]) then 0 else 1 + DigitRun(s[1..])
  }

  /** What follows the first line break of `s` (empty when there is none): where a `--` comment ends. */
  function LineRest(s: string): (r: string)
    ensures |r| <= |s| && r == s[|s| - |r|..]
    decreases |s|
  {
    if s == [] then [] else if s[0] == '\n' then s[1..] else LineRest(s[1..])
  }

  /**
   * The placeholder numbers a query text refers to, in order of appearance.
   * A `$` followed by decimal digits is a reference; text from `--` to the
   * end of the line is a comment and refers to nothing.
   */
  function Placeholders(s: string): seq<nat>
    decreases |s|
  {
    if |s| < 2 then []
    else if s[0] == '-' && s[1] == '-' then Placeholders(LineRest(s[2..]))
    else if s[0] == '$' && IsDigit(s[1]) then
      var k := DigitRun(s[1..]);
      [DigitsValue(s[1..1 + k])] + Placeholders(s[1 + k..])
    else Placeholders(s[1..])
  }

  /** `s` cannot extend a placeholder or a comment that precedes it. */
  predicate Opens(s: string) {
    |s| == 0 || (!IsDigit(s[0]) && s[0] != '-')
  }

  /** The numbers lo, lo + 1, ..., lo + n - 1. */
  function Numbering(lo: nat, n: nat): (r: seq<nat>)
    ensures |r| == n && forall i :: 0 <= i < n ==> r[i] == lo + i
  {
    seq(n, i requires 0 <= i < n => lo + i)
  }

  lemma NumberingSplit(lo: nat, n: nat)
    requires n > 0
    ensures Numbering(lo, n) == [lo] + Numbering(lo + 1, n - 1)
  {
  }

  lemma NumberingSnoc(lo: nat, n: nat)
    ensures Numbering(lo, n) + [lo + n] == Numbering(lo, n + 1)
  {
  }

  /** `Array.prototype.join`: the parts with `sep` between neighbours. */
  function Join(parts: seq<string>, sep: string): string
    decreases |parts|
  {
    if |parts| == 0 then ""
    else if |parts| == 1 then parts[0]
    else parts[0] + sep + Join(parts[1..], sep)
  }

  /** Joining one more part appends the separator and that part. */
  lemma {:induction false} JoinSnoc(parts: seq<string>, last: string, sep: string)
    requires |parts| > 0
    ensures Join(parts + [last], sep) == Join(parts, sep) + sep + last
    decreases |parts|
  {
    if |parts| == 1 {
      assert (parts + [last])[1..] == [last];
    } else {
      assert (parts + [last])[1..] == parts[1..] + [last];
      JoinSnoc(parts[1..], last, sep);
    }
  }

  /** A text with no `$` refers to no placeholder, whatever comments it holds. */
  lemma {:induction false} PlaceholdersFree(s: string)
    requires '$' !in s
    ensures Placeholders(s) == []
    decreases |s|
  {
    if |s| >= 2 {
      if s[0] == '-' && s[1] == '-' {
        var r := LineRest(s[2..]);
        assert r == s[|s| - |r|..];
        PlaceholdersFree(r);
      } else {
        PlaceholdersFree(s[1..]);
      }
    }
  }

  /** A digit run is not extended by text that does not start with a digit. */
  lemma {:induction false} DigitRunAppend(x: string, y: string)
    requires Opens(y)
    ensures DigitRun(x + y) == DigitRun(x)
    decreases |x|
  {
    if x == [] {
      assert x + y == y;
    } else if IsDigit(x[0]) {
      assert (x + y)[1..] == x[1..] + y;
      DigitRunAppend(x[1..], y);
    }
  }

  /**
   * Placeholders distribute over concatenation when the left text holds no
   * `-` (so no comment can swallow the right one) and the right text does not
   * start with a digit or a `-`.
   */
  lemma {:induction false} PlaceholdersAppend(a: string, b: string)
    requires '-' !in a && Opens(b)
    ensures Placeholders(a + b) == Placeholders(a) + Placeholders(b)
    decreases |a|
  {
    if |a| == 0 {
      assert a + b == b;
    } else if |b| == 0 {
      assert a + b == a;
    } else if |a| == 1 {
      assert a[0] != '-' && (a + b)[1] == b[0];
      assert (a + b)[1..] == b;
      assert Placeholders(a + b) == Placeholders(b);
    } else if a[0] == '$' && IsDigit(a[1]) {
      var k := DigitRun(a[1..]);
      assert (a + b)[1..] == a[1..] + b;
      DigitRunAppend(a[1..], b);
      assert (a + b)[1..1 + k] == a[1..1 + k];
      assert (a + b)[1 + k..] == a[1 + k..] + b;
      assert Placeholders(a + b) == [DigitsValue(a[1..1 + k])] + Placeholders(a[1 + k..] + b);
      PlaceholdersAppend(a[1 + k..], b);
    } else {
      assert a[0] != '-' && (a + b)[1] == a[1];
      assert (a + b)[1..] == a[1..] + b;
      assert Placeholders(a + b) == Placeholders(a[1..] + b);
      PlaceholdersAppend(a[1..], b);
    }
  }

  /** Text that can neither open a comment nor hold a placeholder. */
  predicate Inert(s: string) {
    forall i :: 0 <= i < |s| ==> s[i] != '-' && s[i] != '$'
  }

  lemma InertChars(s: string)
    ensures Inert(s) <==> '-' !in s && '$' !in s
  {
  }

  /** Inert text in front of any text adds no placeholder and hides none of what follows. */
  lemma {:induction false} PlaceholdersInertPrefix(a: string, b: string)
    requires Inert(a)
    ensures Placeholders(a + b) == Placeholders(b)
    decreases |a|
  {
    if |a| > 0 {
      var s := a + b;
      assert s[0] == a[0];
      assert s[1..] == a[1..] + b;
      if |s| >= 2 {
        assert s[0] != '-' && s[0] != '$';
        assert Placeholders(s) == Placeholders(s[1..]);
      } else {
        assert b == [];
      }
      assert Inert(a[1..]) by {
        forall i | 0 <= i < |a[1..]| ensures a[1..][i] == a[i + 1] { }
      }
      PlaceholdersInertPrefix(a[1..], b);
    } else {
      assert a + b == b;
    }
  }

  /** A character that none of the parts nor the separator holds is not in the joined text. */
  lemma {:induction false} JoinAvoids(parts: seq<string>, sep: string, c: char)
    requires c !in sep
    requires forall i :: 0 <= i < |parts| ==> c !in parts[i]
    ensures c !in Join(parts, sep)
    decreases |parts|
  {
    if |parts| > 1 {
      JoinAvoids(parts[1..], sep, c);
    }
  }

  /** Inert parts joined by an inert separator make inert text. */
  lemma JoinInert(parts: seq<string>, sep: string)
    requires Inert(sep)
    requires forall i :: 0 <= i < |parts| ==> Inert(parts[i])
    ensures Inert(Join(parts, sep))
  {
    InertChars(sep);
    forall i | 0 <= i < |parts| ensures '-' !in parts[i] && '$' !in parts[i] {
      InertChars(parts[i]);
    }
    JoinAvoids(parts, sep, '-');
    JoinAvoids(parts, sep, '$');
    InertChars(Join(parts, sep));
  }

  /** The joined text starts where its first part does. */
  lemma JoinOpens(parts: seq<string>, sep: string)
    requires |parts| > 0 && parts[0] != "" && Opens(parts[0])
    ensures Join(parts, sep) != "" && Opens(Join(parts, sep))
  {
    if |parts| > 1 {
      assert Join(parts, sep) == parts[0] + (sep + Join(parts[1..], sep));
    }
  }

  /** Appending inert text adds no placeholder. */
  lemma AppendInert(a: string, b: string)
    requires '-' !in a && Inert(b) && Opens(b)
    ensures Placeholders(a + b) == Placeholders(a) && '-' !in a + b
  {
    InertChars(b);
    PlaceholdersAppend(a, b);
    PlaceholdersFree(b);
  }

  /** Text that refers to no placeholder, holds no `-`, and cannot extend a placeholder before it. */
  predicate Quiet(s: string) {
    '-' !in s && Opens(s) && Placeholders(s) == []
  }

  lemma InertQuiet(s: string)
    requires Inert(s) && Opens(s)
    ensures Quiet(s)
  {
    InertChars(s);
    PlaceholdersFree(s);
  }

  /** Appending quiet text adds no placeholder. */
  lemma AppendQuiet(a: string, b: string)
    requires '-' !in a && Quiet(b)
    ensures Placeholders(a + b) == Placeholders(a) && '-' !in a + b
  {
    PlaceholdersAppend(a, b);
  }

  /** Appending `$n` adds exactly the reference to placeholder n. */
  lemma AppendPlaceholder(a: string, n: nat)
    requires '-' !in a
    ensures Placeholders(a + Placeholder(n)) == Placeholders(a) + [n] && '-' !in a + Placeholder(n)
  {
    PlaceholderOf(n);
    PlaceholdersAppend(a, Placeholder(n));
  }

  /** `$n` refers to placeholder n and to nothing else. */
  lemma PlaceholderOf(n: nat)
    ensures Placeholders(Placeholder(n)) == [n]
    ensures '-' !in Placeholder(n) && Opens(Placeholder(n))
  {
    var s := Placeholder(n);
    var d := NatToString(n);
    assert s[1..] == d;
    assert DigitRun(d) == |d| by { AllDigitsRun(d); }
    assert s[1..1 + |d|] == d;
    assert s[1 + |d|..] == [];
    DigitsValueOfNatToString(n);
  }

  lemma {:induction false} AllDigitsRun(s: string)
    requires AllDigits(s)
    ensures DigitRun(s) == |s|
    decreases |s|
  {
    if s != [] {
      AllDigitsRun(s[1..]);
    }
  }

  lemma {:induction false} LineRestAfter(c: string, rest: string)
    requires '\n' !in c
    ensures LineRest(c + "\n" + rest) == rest
    decreases |c|
  {
    if c == [] {
      assert c + "\n" + rest == "\n" + rest;
      assert ("\n" + rest)[1..] == rest;
    } else {
      assert (c + "\n" + rest)[1..] == c[1..] + "\n" + rest;
      LineRestAfter(c[1..], rest);
    }
  }

  /** Whatever a `--` comment holds up to the line break refers to nothing. */
  lemma SkipComment(c: string, rest: string)
    requires '\n' !in c
    ensures Placeholders("--" + c + "\n" + rest) == Placeholders(rest)
  {
    var s := "--" + c + "\n" + rest;
    assert s[2..] == c + "\n" + rest;
    LineRestAfter(c, rest);
  }
}
