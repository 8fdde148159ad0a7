/**
 * The Python string operations the scripts rely on (str.strip, str.startswith,
 * str.endswith, the `in` operator on strings, str.replace with an empty
 * replacement, str.lower) and the way a text-mode file is cut into lines.
 * Where Python consults the Unicode tables (whitespace, case), the model is
 * restricted to ASCII.
 */
module Text {

  /** str.isspace on ASCII: space, \t \n \v \f \r and the separators 0x1C..0x1F. */
  predicate IsSpace(c: char) {
    c == ' ' || 9 <= c as int <= 13 || 28 <= c as int <= 31
  }

  predicate AllSpace(s: string) {
    forall i :: 0 <= i < |s| ==> IsSpace(s[i])
  }

  /** A string that str.strip() returns unchanged. */
  predicate IsStripped(s: string) {
    s == [] || (!IsSpace(s[0]) && !IsSpace(s[|s| - 1]))
  }

  /** str.lstrip(): drops the leading whitespace and nothing else. */
  function TrimStart(s: string): (r: string)
    ensures |r| <= |s|
    ensures r == [] || !IsSpace(r[0])
  {
    if s != [] && IsSpace(s[0]) then TrimStart(s[1..]) else s
  }

  /** str.rstrip(): drops the trailing whitespace and nothing else. */
  function TrimEnd(s: string): (r: string)
    ensures |r| <= |s| && r == s[..|r|]
    ensures r == [] || !IsSpace(r[|r| - 1])
  {
    if s != [] && IsSpace(s[|s| - 1]) then TrimEnd(s[..|s| - 1]) else s
  }

  /** str.strip(). */
  function Strip(s: string): (r: string)
    ensures |r| <= |s|
    ensures IsStripped(r)
  {
    TrimEnd(TrimStart(s))
  }

  lemma {:induction false} TrimStartPadded(pre: string, s: string)
    requires AllSpace(pre)
    requires s == [] || !IsSpace(s[0])
    ensures TrimStart(pre + s) == s
  {
    if pre == [] {
      assert pre + s == s;
    } else {
      assert (pre + s)[1..] == pre[1..] + s;
      TrimStartPadded(pre[1..], s);
    }
  }

  lemma {:induction false} TrimEndPadded(s: string, post: string)
    requires AllSpace(post)
    requires s == [] || !IsSpace(s[|s| - 1])
    ensures TrimEnd(s + post) == s
  {
    if post == [] {
      assert s + post == s;
    } else {
      assert (s + post)[..|s + post| - 1] == s + post[..|post| - 1];
      TrimEndPadded(s, post[..|post| - 1]);
    }
  }

  /**
   * Strip removes exactly the surrounding whitespace: whatever whitespace
   * surrounds a stripped string, stripping gives that string back.
   */
  lemma StripPadded(pre: string, s: string, post: string)
    requires AllSpace(pre) && AllSpace(post)
    requires IsStripped(s)
    ensures Strip(pre + s + post) == s
  {
    if s == [] {
      assert pre + s + post == pre + post + s;
      assert AllSpace(pre + post);
      TrimStartPadded(pre + post, s);
    } else {
      assert pre + s + post == pre + (s + post);
      TrimStartPadded(pre, s + post);
      TrimEndPadded(s, post);
    }
  }

  predicate StartsWith(s: string, prefix: string) {
    |prefix| <= |s| && s[..|prefix|] == prefix
  }

  /** A text that differs from a prefix at position k does not start with it. */
  lemma NotStartsWith(s: string, prefix: string, k: nat)
    requires k < |prefix| && k < |s| && s[k] != prefix[k]
    ensures !StartsWith(s, prefix)
  {
    if |prefix| <= |s| {
      assert s[..|prefix|][k] == s[k];
    }
  }

  predicate EndsWith(s: string, suffix: string) {
    |suffix| <= |s| && s[|s| - |suffix|..] == suffix
  }

  /** Python's `w in s` on strings. */
  predicate Contains(s: string, w: string) {
    exists i | 0 <= i <= |s| :: StartsWith(s[i..], w)
  }

  lemma ContainsAt(s: string, w: string, i: nat)
    requires i + |w| <= |s| && s[i..i + |w|] == w
    ensures Contains(s, w)
  {
    assert StartsWith(s[i..], w);
  }

  /** An occurrence in a suffix is an occurrence in the whole string. */
  lemma ContainsInSuffix(a: string, b: string, w: string)
    requires Contains(b, w)
    ensures Contains(a + b, w)
  {
    var i :| 0 <= i <= |b| && StartsWith(b[i..], w);
    assert (a + b)[|a| + i..] == b[i..];
  }

  /**
   * s.replace(tag, ""): deletes the non-overlapping occurrences of tag,
   * scanning from the left. An empty tag leaves s unchanged, as in Python.
   */
  function RemoveAll(s: string, tag: string): (r: string)
    ensures |r| <= |s|
    decreases |s|
  {
    if tag == [] || s == [] then s
    else if StartsWith(s, tag) then RemoveAll(s[|tag|..], tag)
    else [s[0]] + RemoveAll(s[1..], tag)
  }

  /** Replacing a tag that does not occur changes nothing. */
  lemma {:induction false} RemoveAllAbsent(s: string, tag: string)
    requires !Contains(s, tag)
    ensures RemoveAll(s, tag) == s
    decreases |s|
  {
    if tag != [] && s != [] {
      assert s[0..] == s;
      assert !StartsWith(s, tag);
      forall i | 0 <= i <= |s[1..]|
        ensures !StartsWith(s[1..][i..], tag)
      {
        assert s[1..][i..] == s[i + 1..];
      }
      RemoveAllAbsent(s[1..], tag);
      assert [s[0]] + s[1..] == s;
    }
  }

  /** The ASCII part of str.lower(). */
  function LowerChar(c: char): char {
    if 'A' <= c <= 'Z' then (c as int + 32) as char else c
  }

  /** str.lower(), restricted to ASCII letters. */
  function Lower(s: string): (r: string)
    ensures |r| == |s|
    ensures forall i :: 0 <= i < |s| ==> r[i] == LowerChar(s[i])
  {
    if s == [] then [] else [LowerChar(s[0])] + Lower(s[1..])
  }

  lemma LowerAppend(a: string, b: string)
    ensures Lower(a + b) == Lower(a) + Lower(b)
  {
    var l, r := Lower(a + b), Lower(a) + Lower(b);
    forall i | 0 <= i < |a + b|
      ensures l[i] == r[i]
    {
      if i < |a| {
        assert (a + b)[i] == a[i];
      } else {
        assert (a + b)[i] == b[i - |a|];
      }
    }
    assert l == r;
  }

  /**
   * Text-mode reading with Python's default universal newlines: "\r\n" and a
   * lone "\r" both become "\n".
   */
  function UniversalNewlines(s: string): (r: string)
    ensures '\r' !in r
    ensures |r| <= |s|
  {
    if s == [] then []
    else if s[0] == '\r' then
      if |s| > 1 && s[1] == '\n' then "\n" + UniversalNewlines(s[2..])
      else "\n" + UniversalNewlines(s[1..])
    else [s[0]] + UniversalNewlines(s[1..])
  }

  /** Text without a carriage return is read back unchanged. */
  lemma {:induction false} UniversalNewlinesNoCR(s: string)
    requires '\r' !in s
    ensures UniversalNewlines(s) == s
  {
    if s != [] {
      assert '\r' !in s[1..] by {
        forall i | 0 <= i < |s[1..]| ensures s[1..][i] != '\r' {
          assert s[1..][i] == s[i + 1];
        }
      }
      UniversalNewlinesNoCR(s[1..]);
      assert [s[0]] + s[1..] == s;
    }
  }

  /** Length of the first line of a non-empty text, its '\n' included. */
  function LineLength(s: string): (n: nat)
    requires s != []
    ensures 0 < n <= |s|
    ensures '\n' !in s[..n - 1]
    ensures n < |s| ==> s[n - 1] == '\n'
  {
    if s[0] == '\n' || |s| == 1 then 1 else 1 + LineLength(s[1..])
  }

  /**
   * Iterating over a text file: the pieces ending just after each '\n', and
   * the unterminated remainder, if any.
   */
  function Lines(s: string): (lines: seq<string>)
    ensures |lines| <= |s|
    decreases |s|
  {
    if s == [] then [] else [s[..LineLength(s)]] + Lines(s[LineLength(s)..])
  }

  /** A line as the iteration yields it: text without '\n', then '\n'. */
  predicate IsLine(l: string) {
    l != [] && l[|l| - 1] == '\n' && '\n' !in l[..|l| - 1]
  }

  lemma LinesAppendLine(body: string, rest: string)
    requires '\n' !in body
    ensures Lines(body + "\n" + rest) == [body + "\n"] + Lines(rest)
  {
    var s := body + "\n" + rest;
    var n := LineLength(s);
    assert s[|body|] == '\n';
    assert forall i :: 0 <= i < |body| ==> s[i] == body[i];
    assert n == |body| + 1;
    assert s[..n] == body + "\n";
    assert s[n..] == rest;
  }

  lemma LinesOfLine(l: string, rest: string)
    requires IsLine(l)
    ensures Lines(l + rest) == [l] + Lines(rest)
  {
    var body := l[..|l| - 1];
    assert l == body + "\n";
    LinesAppendLine(body, rest);
  }

  /** Two lines and nothing after them. */
  lemma TwoLines(a: string, b: string)
    requires '\n' !in a && '\n' !in b
    ensures Lines(a + "\n" + (b + "\n")) == [a + "\n", b + "\n"]
  {
    var empty: string := [];
    LinesAppendLine(a, b + "\n");
    LinesAppendLine(b, empty);
    assert b + "\n" + empty == b + "\n";
  }

  /** The concatenation of a sequence of texts, in order. */
  function Concat(texts: seq<string>): string {
    if texts == [] then [] else texts[0] + Concat(texts[1..])
  }

  /** Appending one more text at the end: what a loop of writes produces. */
  lemma {:induction false} ConcatSnoc(texts: seq<string>, t: string)
    ensures Concat(texts + [t]) == Concat(texts) + t
  {
    if texts == [] {
      assert texts + [t] == [t];
    } else {
      assert (texts + [t])[1..] == texts[1..] + [t];
      ConcatSnoc(texts[1..], t);
    }
  }

  lemma ConsAppend<T>(xs: seq<T>, a: seq<T>, b: seq<T>, c: seq<T>)
    requires xs != []
    requires a == [xs[0]] + b && b == xs[1..] + c
    ensures a == xs + c
  {
    assert xs == [xs[0]] + xs[1..];
  }

  /** Writing whole lines one after another and reading them back yields the same lines. */
  lemma {:induction false} LinesOfConcat(lines: seq<string>, rest: string)
    requires forall i :: 0 <= i < |lines| ==> IsLine(lines[i])
    ensures Lines(Concat(lines) + rest) == lines + Lines(rest)
  {
    if lines == [] {
      assert Concat(lines) + rest == rest;
    } else {
      var l, tail := lines[0], lines[1..];
      var after := Concat(tail) + rest;
      assert Concat(lines) + rest == l + after;
      LinesOfLine(l, after);
      LinesOfConcat(tail, rest);
      ConsAppend(lines, Lines(Concat(lines) + rest), Lines(after), Lines(rest));
    }
  }

  lemma {:induction false} ConcatNoChar(texts: seq<string>, c: char)
    requires forall t :: t in texts ==> c !in t
    ensures c !in Concat(texts)
  {
    if texts != [] {
      assert texts[0] in texts;
      assert forall t :: t in texts[1..] ==> t in texts;
      ConcatNoChar(texts[1..], c);
    }
  }
}
