/** The few string operations the repository uses, with the facts proved about them. */
module Strings {
  function Lower(c: char): char {
    if 'A' <= c <= 'Z' then (c as int + 32) as char else c
  }

  /** `to_ascii_lowercase` */
  function ToLower(s: string): (r: string)
    ensures |r| == |s|
    ensures forall i | 0 <= i < |s| :: r[i] == Lower(s[i])
  {
    seq(|s|, i requires 0 <= i < |s| => Lower(s[i]))
  }

  /** `parts.join(sep)` */
  function Join(parts: seq<string>, sep: string): string {
    if parts == [] then ""
    else if |parts| == 1 then parts[0]
    else parts[0] + sep + Join(parts[1..], sep)
  }

  predicate EndsWith(s: string, suffix: string) {
    |suffix| <= |s| && s[|s| - |suffix|..] == suffix
  }

  /** The Unicode White_Space characters. */
  predicate IsWhitespace(c: char) {
    || '\U{9}' <= c <= '\U{D}' || c == ' ' || c == '\U{85}' || c == '\U{A0}' || c == '\U{1680}'
    || '\U{2000}' <= c <= '\U{200A}' || c == '\U{2028}' || c == '\U{2029}' || c == '\U{202F}'
    || c == '\U{205F}' || c == '\U{3000}'
  }

  function TrimStart(s: string): string {
    if s != "" && IsWhitespace(s[0]) then TrimStart(s[1..]) else s
  }

  function TrimEnd(s: string): string {
    if s != "" && IsWhitespace(s[|s| - 1]) then TrimEnd(s[..|s| - 1]) else s
  }

  function Trim(s: string): string { TrimEnd(TrimStart(s)) }

  function FirstIndex(s: string, c: char): (i: nat)
    ensures i <= |s|
  {
    if s == "" || s[0] == c then 0 else 1 + FirstIndex(s[1..], c)
  }

  lemma {:induction false} FirstIndexIs(a: string, b: string, c: char)
    requires c !in a
    ensures FirstIndex(a + [c] + b, c) == |a|
  {
    if a != "" {
      assert (a + [c] + b)[1..] == a[1..] + [c] + b;
      FirstIndexIs(a[1..], b, c);
    }
  }

  /** How much of `s` follows the last `c`. */
  function LastDistance(s: string, c: char): nat {
    if s == "" || s[|s| - 1] == c then 0 else 1 + LastDistance(s[..|s| - 1], c)
  }

  lemma {:induction false} LastDistanceIs(a: string, b: string, c: char)
    requires c !in b
    ensures LastDistance(a + [c] + b, c) == |b|
  {
    if b != "" {
      assert (a + [c] + b)[..|a + [c] + b| - 1] == a + [c] + b[..|b| - 1];
      LastDistanceIs(a, b[..|b| - 1], c);
    }
  }

  /** Text can be cut at its first separator in one way only. */
  lemma SplitAtFirst(a: string, b: string, c: string, d: string, sep: char)
    requires sep !in a && sep !in c && a + [sep] + b == c + [sep] + d
    ensures a == c && b == d
  {
    FirstIndexIs(a, b, sep);
    FirstIndexIs(c, d, sep);
    var s, t := a + [sep] + b, c + [sep] + d;
    assert a == s[..|a|] && c == t[..|c|];
    assert b == s[|a| + 1..] && d == t[|c| + 1..];
  }

  /** Text can be cut at its last separator in one way only. */
  lemma SplitAtLast(a: string, b: string, c: string, d: string, sep: char)
    requires sep !in b && sep !in d && a + [sep] + b == c + [sep] + d
    ensures a == c && b == d
  {
    LastDistanceIs(a, b, sep);
    LastDistanceIs(c, d, sep);
    var s, t := a + [sep] + b, c + [sep] + d;
    assert |a| == |c|;
    assert a == s[..|a|] && c == t[..|c|];
    assert b == s[|a| + 1..] && d == t[|c| + 1..];
  }

  predicate Parts(xs: seq<string>, sep: char) {
    forall i | 0 <= i < |xs| :: xs[i] != "" && sep !in xs[i]
  }

  lemma JoinUsesSeparator(xs: seq<string>, sep: char)
    requires Parts(xs, sep)
    ensures sep in Join(xs, [sep]) <==> |xs| >= 2
    ensures Join(xs, [sep]) == "" <==> xs == []
  {
    if |xs| >= 2 {
      assert Join(xs, [sep])[|xs[0]|] == sep;
    }
  }

  /** Joining is injective on lists of non-empty parts free of the separator. */
  lemma {:induction false} JoinInjective(xs: seq<string>, ys: seq<string>, sep: char)
    requires Parts(xs, sep) && Parts(ys, sep) && Join(xs, [sep]) == Join(ys, [sep])
    ensures xs == ys
  {
    JoinUsesSeparator(xs, sep);
    JoinUsesSeparator(ys, sep);
    if |xs| >= 2 {
      SplitAtFirst(xs[0], Join(xs[1..], [sep]), ys[0], Join(ys[1..], [sep]), sep);
      JoinInjective(xs[1..], ys[1..], sep);
      assert xs == [xs[0]] + xs[1..] && ys == [ys[0]] + ys[1..];
    } else if |xs| == 1 {
      assert xs == [xs[0]] && ys == [ys[0]];
    }
  }
}
