/** The java.lang.String operations the bot relies on, over `seq<char>`. */
module Strings {

  import opened Wrappers

  predicate StartsWith(s: string, p: string) {
    |p| <= |s| && s[..|p|] == p
  }

  predicate EndsWith(s: string, p: string) {
    |p| <= |s| && s[|s| - |p|..] == p
  }

  /** `String.join` / `Collectors.joining(sep)`. */
  function Join(parts: seq<string>, sep: string): string
  {
    if |parts| == 0 then ""
    else if |parts| == 1 then parts[0]
    else parts[0] + sep + Join(parts[1..], sep)
  }

  /** `s.contains(p)`. */
  predicate Contains(s: string, p: string)
    decreases |s|
  {
    StartsWith(s, p) || (|s| > 0 && Contains(s[1..], p))
  }

  lemma {:induction false} ContainsAfter(a: string, b: string, p: string)
    requires Contains(b, p)
    ensures Contains(a + b, p)
  {
    if |a| > 0 {
      ContainsAfter(a[1..], b, p);
      assert (a + b)[1..] == a[1..] + b;
    } else {
      assert a + b == b;
    }
  }

  lemma ContainsStart(p: string, b: string)
    ensures Contains(p + b, p)
  {
    assert (p + b)[..|p|] == p;
  }

  /** Every piece that is joined occurs inside the joined text. */
  lemma {:induction false} JoinContains(parts: seq<string>, sep: string, i: nat)
    requires i < |parts|
    ensures Contains(Join(parts, sep), parts[i])
  {
    if |parts| == 1 {
      ContainsStart(parts[0], "");
      assert parts[0] + "" == parts[0];
    } else if i == 0 {
      ContainsStart(parts[0], sep + Join(parts[1..], sep));
      assert Join(parts, sep) == parts[0] + (sep + Join(parts[1..], sep));
    } else {
      JoinContains(parts[1..], sep, i - 1);
      ContainsAfter(parts[0] + sep, Join(parts[1..], sep), parts[i]);
    }
  }

  // ---------------------------------------------------------------------
  // String.split("-") : a one-character separator, limit 0

  /** All pieces between occurrences of `c`, empty ones included. */
  function SplitAll(s: string, c: char): (r: seq<string>)
    ensures |r| >= 1
    ensures forall i :: 0 <= i < |r| ==> c !in r[i]
  {
    if |s| == 0 then [""]
    else
      var rest := SplitAll(s[1..], c);
      if s[0] == c then [""] + rest else [[s[0]] + rest[0]] + rest[1..]
  }

  /** Splitting and joining back with the separator gives the text again. */
  lemma {:induction false} JoinSplitAll(s: string, c: char)
    ensures Join(SplitAll(s, c), [c]) == s
  {
    if |s| > 0 {
      JoinSplitAll(s[1..], c);
      var rest := SplitAll(s[1..], c);
      if s[0] == c {
        assert SplitAll(s, c) == [""] + rest;
        assert s == [c] + s[1..];
      } else {
        var r := SplitAll(s, c);
        assert r == [[s[0]] + rest[0]] + rest[1..];
        if |rest| == 1 {
          assert s == [s[0]] + s[1..];
        } else {
          assert rest == [rest[0]] + rest[1..];
          assert Join(rest, [c]) == rest[0] + [c] + Join(rest[1..], [c]);
          assert r[1..] == rest[1..];
          assert s == [s[0]] + s[1..];
        }
      }
    }
  }

  /** Splitting a joined list of separator-free pieces gives the pieces back. */
  lemma {:induction false} SplitAllJoin(parts: seq<string>, c: char)
    requires |parts| >= 1
    requires forall i :: 0 <= i < |parts| ==> c !in parts[i]
    ensures SplitAll(Join(parts, [c]), c) == parts
  {
    if |parts| == 1 {
      SplitAllNoSeparator(parts[0], c);
    } else {
      SplitAllJoin(parts[1..], c);
      SplitAllPrefix(parts[0], Join(parts[1..], [c]), c);
      assert parts == [parts[0]] + parts[1..];
    }
  }

  lemma {:induction false} SplitAllNoSeparator(s: string, c: char)
    requires c !in s
    ensures SplitAll(s, c) == [s]
  {
    if |s| > 0 {
      assert c !in s[1..] by { assert forall x :: x in s[1..] ==> x in s; }
      SplitAllNoSeparator(s[1..], c);
      assert [s[0]] + s[1..] == s;
    }
  }

  lemma {:induction false} SplitAllPrefix(p: string, t: string, c: char)
    requires c !in p
    ensures SplitAll(p + [c] + t, c) == [p] + SplitAll(t, c)
  {
    if |p| == 0 {
      assert p + [c] + t == [c] + t;
      assert ([c] + t)[1..] == t;
    } else {
      assert c !in p[1..] by { assert forall x :: x in p[1..] ==> x in p; }
      SplitAllPrefix(p[1..], t, c);
      assert (p + [c] + t)[1..] == p[1..] + [c] + t;
      assert [p[0]] + p[1..] == p;
    }
  }

  /** Removes the trailing empty strings, as `String.split` with limit 0 does. */
  function DropTrailingEmpty(ps: seq<string>): (r: seq<string>)
    ensures |r| <= |ps| && r == ps[..|r|]
    ensures |r| == 0 || r[|r| - 1] != ""
    ensures forall i :: |r| <= i < |ps| ==> ps[i] == ""
  {
    if |ps| == 0 then []
    else if ps[|ps| - 1] == "" then DropTrailingEmpty(ps[..|ps| - 1])
    else ps
  }

  /** `s.split(regex)` for a one-character literal regex: a text without the
      separator gives itself (even when empty); otherwise all pieces with the
      trailing empty ones removed, so "-" gives no piece at all. */
  function JavaSplit(s: string, c: char): (r: seq<string>)
    ensures forall i :: 0 <= i < |r| ==> c !in r[i]
    ensures c !in s ==> r == [s]
    ensures c in s ==> |r| == 0 || r[|r| - 1] != ""
  {
    if c !in s then [s] else DropTrailingEmpty(SplitAll(s, c))
  }

  /** Splitting names joined by the separator gives back the names, provided
      none contains the separator and the last one is not empty (a single
      name may be empty). */
  lemma JavaSplitJoin(parts: seq<string>, c: char)
    requires |parts| >= 1
    requires forall i :: 0 <= i < |parts| ==> c !in parts[i]
    requires |parts| > 1 ==> parts[|parts| - 1] != ""
    ensures JavaSplit(Join(parts, [c]), c) == parts
  {
    SplitAllJoin(parts, c);
    if |parts| == 1 {
      assert Join(parts, [c]) == parts[0];
    } else {
      assert Join(parts, [c]) == parts[0] + [c] + Join(parts[1..], [c]);
      assert c in Join(parts, [c]) by { assert Join(parts, [c])[|parts[0]|] == c; }
    }
  }

  /** `k` empty strings. */
  function Empties(k: nat): (r: seq<string>)
    ensures |r| == k && forall i :: 0 <= i < k ==> r[i] == ""
  {
    if k == 0 then [] else Empties(k - 1) + [""]
  }

  lemma {:induction false} DropTrailingEmpties(parts: seq<string>, k: nat)
    requires |parts| == 0 || parts[|parts| - 1] != ""
    ensures DropTrailingEmpty(parts + Empties(k)) == parts
  {
    if k == 0 {
      assert parts + Empties(0) == parts;
    } else {
      var ps := parts + Empties(k);
      assert ps[|ps| - 1] == "";
      assert ps[..|ps| - 1] == parts + Empties(k - 1);
      DropTrailingEmpties(parts, k - 1);
    }
  }

  /** Trailing separators are dropped: names followed by one or more empty
      names split back to the names alone, so "a-b-" gives ["a", "b"] and a
      lone "-" gives no name at all. */
  lemma JavaSplitTrailing(parts: seq<string>, c: char, k: nat)
    requires k >= 1 && |parts| + k >= 2
    requires forall i :: 0 <= i < |parts| ==> c !in parts[i]
    requires |parts| == 0 || parts[|parts| - 1] != ""
    ensures JavaSplit(Join(parts + Empties(k), [c]), c) == parts
  {
    var all := parts + Empties(k);
    forall i | 0 <= i < |all|
      ensures c !in all[i]
    {
      if i < |parts| {
        assert all[i] == parts[i];
      } else {
        assert all[i] == "";
      }
    }
    SplitAllJoin(all, c);
    assert Join(all, [c]) == all[0] + [c] + Join(all[1..], [c]);
    assert c in Join(all, [c]) by { assert Join(all, [c])[|all[0]|] == c; }
    DropTrailingEmpties(parts, k);
  }

  // ---------------------------------------------------------------------
  // String.split("\\s+", 2)

  /** The characters of Java's regex class `\s`. */
  predicate IsWhitespace(ch: char) {
    ch == ' ' || ch == '\t' || ch == '\n' || ch == '\U{B}' || ch == '\U{C}' || ch == '\r'
  }

  predicate NoWhitespace(s: string) {
    forall i :: 0 <= i < |s| ==> !IsWhitespace(s[i])
  }

  predicate AllWhitespace(s: string) {
    forall i :: 0 <= i < |s| ==> IsWhitespace(s[i])
  }

  /** Index of the first whitespace character at or after `from`, or |s|. */
  function WhitespaceFrom(s: string, from: nat): (k: nat)
    requires from <= |s|
    ensures from <= k <= |s|
    ensures forall i :: from <= i < k ==> !IsWhitespace(s[i])
    ensures k < |s| ==> IsWhitespace(s[k])
    decreases |s| - from
  {
    if from == |s| || IsWhitespace(s[from]) then from else WhitespaceFrom(s, from + 1)
  }

  /** End of the whitespace run that starts at `from`. */
  function RunEnd(s: string, from: nat): (k: nat)
    requires from <= |s|
    ensures from <= k <= |s|
    ensures forall i :: from <= i < k ==> IsWhitespace(s[i])
    ensures k < |s| ==> !IsWhitespace(s[k])
    decreases |s| - from
  {
    if from == |s| || !IsWhitespace(s[from]) then from else RunEnd(s, from + 1)
  }

  /** `s.split("\\s+", 2)`: the text before the first whitespace run and,
      when there is one, everything after that (greedy) run, verbatim. */
  function SplitFirstWhitespace(s: string): (r: seq<string>)
    ensures 1 <= |r| <= 2
    ensures NoWhitespace(r[0])
    ensures |r| == 1 ==> r[0] == s
    ensures |r| == 2 ==> exists w :: |w| > 0 && AllWhitespace(w) && s == r[0] + w + r[1]
    ensures |r| == 2 ==> r[1] == "" || !IsWhitespace(r[1][0])
  {
    var k := WhitespaceFrom(s, 0);
    if k == |s| then
      assert s[..k] == s;
      [s]
    else
      var e := RunEnd(s, k);
      assert e > k;
      assert s == s[..k] + s[k..e] + s[e..];
      [s[..k], s[e..]]
  }

  /** `prefix`-free texts: a token, one whitespace run and the rest split back
      into the token and the rest. */
  lemma SplitFirstWhitespaceOf(token: string, w: string, rest: string)
    requires NoWhitespace(token)
    requires |w| > 0 && AllWhitespace(w)
    requires rest == "" || !IsWhitespace(rest[0])
    ensures SplitFirstWhitespace(token + w + rest) == [token, rest]
  {
    var s := token + w + rest;
    assert forall i :: 0 <= i < |token| ==> s[i] == token[i];
    assert forall i :: 0 <= i < |w| ==> s[|token| + i] == w[i];
    assert IsWhitespace(s[|token|]);
    var k := WhitespaceFrom(s, 0);
    assert k == |token|;
    assert |token| + |w| < |s| ==> s[|token| + |w|] == rest[0];
    var e := RunEnd(s, k);
    assert e == |token| + |w|;
    assert s[..k] == token;
    assert s[e..] == rest;
  }

  lemma SplitFirstWhitespaceNone(s: string)
    requires NoWhitespace(s)
    ensures SplitFirstWhitespace(s) == [s]
  {
    assert WhitespaceFrom(s, 0) == |s|;
  }

  // ---------------------------------------------------------------------
  // Case and trimming

  function LowerChar(ch: char): char {
    if 'A' <= ch <= 'Z' then (ch as int + 32) as char else ch
  }

  /** `toLowerCase`, for the ASCII letters. */
  function ToLower(s: string): (r: string)
    ensures |r| == |s|
    ensures forall i :: 0 <= i < |s| ==> r[i] == LowerChar(s[i])
  {
    seq(|s|, i requires 0 <= i < |s| => LowerChar(s[i]))
  }

  /** `equalsIgnoreCase`, for the ASCII letters. */
  predicate EqualsIgnoreCase(a: string, b: string) {
    ToLower(a) == ToLower(b)
  }

  /** Characters `String.trim` removes: code point at most U+0020. */
  predicate IsTrimmed(ch: char) {
    ch <= ' '
  }

  /** `String.trim`: drops the leading and the trailing characters up to U+0020. */
  function Trim(s: string): (r: string)
    ensures |r| <= |s|
    ensures r == "" || (!IsTrimmed(r[0]) && !IsTrimmed(r[|r| - 1]))
    ensures exists a, b :: 0 <= a <= b <= |s| && r == s[a..b]
              && (forall i :: 0 <= i < a ==> IsTrimmed(s[i]))
              && (forall i :: b <= i < |s| ==> IsTrimmed(s[i]))
  {
    var a := TrimStart(s, 0);
    var b := TrimEnd(s, a, |s|);
    s[a..b]
  }

  function TrimStart(s: string, i: nat): (a: nat)
    requires i <= |s|
    requires forall j :: 0 <= j < i ==> IsTrimmed(s[j])
    ensures i <= a <= |s|
    ensures forall j :: 0 <= j < a ==> IsTrimmed(s[j])
    ensures a < |s| ==> !IsTrimmed(s[a])
    decreases |s| - i
  {
    if i < |s| && IsTrimmed(s[i]) then TrimStart(s, i + 1) else i
  }

  function TrimEnd(s: string, a: nat, b: nat): (e: nat)
    requires a <= b <= |s|
    requires a < |s| ==> !IsTrimmed(s[a])
    requires forall j :: b <= j < |s| ==> IsTrimmed(s[j])
    ensures a <= e <= b
    ensures forall j :: e <= j < |s| ==> IsTrimmed(s[j])
    ensures e > a ==> !IsTrimmed(s[e - 1])
    ensures e == a ==> a == |s| || b == a
    decreases b - a
  {
    if b > a && IsTrimmed(s[b - 1]) then TrimEnd(s, a, b - 1) else b
  }
}
