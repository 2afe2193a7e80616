/** The string operations the parsers share, over ASCII text. */
module Text {

  /** What `str.strip` and `\s` take for white space. */
  predicate Space(c: char) {
    c == ' ' || 9 <= c as int <= 13 || 28 <= c as int <= 31
  }

  function TrimEnd(s: string): (r: string)
    ensures r <= s && (r != "" ==> !Space(r[|r| - 1]))
  {
    if s != "" && Space(s[|s| - 1]) then TrimEnd(s[..|s| - 1]) else s
  }

  function TrimStart(s: string): (r: string)
    ensures |r| <= |s|
  {
    if s != "" && Space(s[0]) then TrimStart(s[1..]) else s
  }

  function Strip(s: string): string {
    TrimStart(TrimEnd(s))
  }

  predicate Bare(s: string) {
    s != "" && !Space(s[0]) && !Space(s[|s| - 1])
  }

  lemma StripBare(s: string)
    requires Bare(s)
    ensures Strip(s) == s
  {
  }

  predicate Blank(s: string) {
    forall i :: 0 <= i < |s| ==> Space(s[i])
  }

  /** The ASCII white space of `str.isspace`: blank, tab, the four line and page
      breaks, and the four separators 28 to 31. */
  lemma BlankMeans(s: string)
    ensures Blank(s) <==> forall c <- s ::
              c == ' ' || c == '\t' || c == '\n' || c == '\r' || c as int in {11, 12, 28, 29, 30, 31}
  {
    assert forall i :: 0 <= i < |s| ==> s[i] in s;
  }

  lemma {:induction false} TrimEndBlank(s: string, post: string)
    requires Blank(post)
    ensures TrimEnd(s + post) == TrimEnd(s)
    decreases |post|
  {
    if post == "" {
      assert s + post == s;
    } else {
      var n := |post| - 1;
      assert (s + post)[..|s + post| - 1] == s + post[..n];
      TrimEndBlank(s, post[..n]);
    }
  }

  lemma {:induction false} TrimStartBlank(pre: string, s: string)
    requires Blank(pre)
    ensures TrimStart(pre + s) == TrimStart(s)
    decreases |pre|
  {
    if pre == "" {
      assert pre + s == s;
    } else {
      assert (pre + s)[1..] == pre[1..] + s;
      TrimStartBlank(pre[1..], s);
    }
  }

  /** Blanks on either side go, however many. */
  lemma StripBlanks(pre: string, s: string, post: string)
    requires Blank(pre) && Blank(post) && Bare(s)
    ensures Strip(pre + s + post) == s
  {
    TrimEndBlank(pre + s, post);
    assert (pre + s)[|pre + s| - 1] == s[|s| - 1];
    TrimStartBlank(pre, s);
  }

  lemma {:induction false} TrimmedEnd(s: string) returns (post: string)
    ensures s == TrimEnd(s) + post && Blank(post)
    decreases |s|
  {
    if s != "" && Space(s[|s| - 1]) {
      var n := |s| - 1;
      var rest := TrimmedEnd(s[..n]);
      post := rest + [s[n]];
    } else {
      post := "";
    }
  }

  lemma {:induction false} TrimmedStart(s: string) returns (pre: string)
    ensures s == pre + TrimStart(s) && Blank(pre) && (TrimStart(s) != "" ==> !Space(TrimStart(s)[0]))
    decreases |s|
  {
    if s != "" && Space(s[0]) {
      var rest := TrimmedStart(s[1..]);
      pre := [s[0]] + rest;
    } else {
      pre := "";
    }
  }

  /** What was stripped was blank. */
  lemma StrippedParts(s: string) returns (pre: string, post: string)
    ensures s == pre + Strip(s) + post && Blank(pre) && Blank(post)
    ensures Strip(s) == "" || Bare(Strip(s))
  {
    post := TrimmedEnd(s);
    pre := TrimmedStart(TrimEnd(s));
    var t := TrimStart(TrimEnd(s));
    if t != "" {
      assert TrimEnd(s)[|TrimEnd(s)| - 1] == t[|t| - 1];
    }
  }

  /** One space on either side goes. */
  lemma StripSpaced(s: string)
    requires Bare(s)
    ensures Strip(" " + s + " ") == s && Strip(" " + s) == s
  {
    var u := " " + s;
    var t := u + " ";
    assert t[..|t| - 1] == u && t[|t| - 1] == ' ';
    assert u[|u| - 1] == s[|s| - 1];
    assert TrimEnd(t) == TrimEnd(u) == u;
    assert u[0] == ' ' && u[1..] == s;
    assert TrimStart(u) == TrimStart(s) == s;
  }

  function TrimCharEnd(s: string, c: char): string {
    if s != "" && s[|s| - 1] == c then TrimCharEnd(s[..|s| - 1], c) else s
  }

  function TrimCharStart(s: string, c: char): string {
    if s != "" && s[0] == c then TrimCharStart(s[1..], c) else s
  }

  /** `s.strip(c)`. */
  function StripChar(s: string, c: char): string {
    TrimCharStart(TrimCharEnd(s, c), c)
  }

  lemma StripCharOnce(s: string, c: char)
    requires s != "" && s[0] != c && s[|s| - 1] != c
    ensures StripChar([c] + s + [c], c) == s
  {
    var u := [c] + s;
    var t := u + [c];
    assert t[..|t| - 1] == u && t[|t| - 1] == c;
    assert u[|u| - 1] == s[|s| - 1];
    assert TrimCharEnd(t, c) == TrimCharEnd(u, c) == u;
    assert u[0] == c && u[1..] == s;
    assert TrimCharStart(u, c) == TrimCharStart(s, c) == s;
  }

  predicate StartsWith(s: string, prefix: string) {
    prefix <= s
  }

  function Lower(c: char): char {
    if 'A' <= c <= 'Z' then (c as int + 32) as char else c
  }

  function LowerAll(s: string): string {
    seq(|s|, i requires 0 <= i < |s| => Lower(s[i]))
  }

  /** `s.split(c)`. */
  function SplitOn(s: string, c: char): (parts: seq<string>)
    ensures parts != []
    decreases |s|
  {
    if s == "" then [""]
    else if s[0] == c then [""] + SplitOn(s[1..], c)
    else
      var rest := SplitOn(s[1..], c);
      [[s[0]] + rest[0]] + rest[1..]
  }

  lemma {:induction false} SplitNone(s: string, c: char)
    requires c !in s
    ensures SplitOn(s, c) == [s]
    decreases |s|
  {
    if s != "" {
      SplitNone(s[1..], c);
      assert s == [s[0]] + s[1..];
    }
  }

  lemma {:induction false} SplitFirst(a: string, b: string, c: char)
    requires c !in a
    ensures SplitOn(a + [c] + b, c) == [a] + SplitOn(b, c)
    decreases |a|
  {
    var s := a + [c] + b;
    if a == "" {
      assert s[1..] == b;
    } else {
      assert s[1..] == a[1..] + [c] + b;
      SplitFirst(a[1..], b, c);
      assert a == [a[0]] + a[1..];
    }
  }

  /** `splitlines`: a final newline ends the last line rather than opening an
      empty one. */
  function Lines(text: string): seq<string> {
    var parts := SplitOn(text, '\n');
    if parts[|parts| - 1] == "" then parts[..|parts| - 1] else parts
  }

  function Join(lines: seq<string>): string {
    if lines == [] then "" else lines[0] + "\n" + Join(lines[1..])
  }

  predicate SingleLines(lines: seq<string>) {
    forall i :: 0 <= i < |lines| ==> '\n' !in lines[i]
  }

  lemma {:induction false} SplitJoin(lines: seq<string>)
    requires SingleLines(lines)
    ensures SplitOn(Join(lines), '\n') == lines + [""]
  {
    if lines != [] {
      SplitFirst(lines[0], Join(lines[1..]), '\n');
      SplitJoin(lines[1..]);
      assert lines[0] + "\n" + Join(lines[1..]) == lines[0] + ['\n'] + Join(lines[1..]);
      assert lines == [lines[0]] + lines[1..];
    }
  }

  lemma LinesOfJoin(lines: seq<string>)
    requires SingleLines(lines)
    ensures Lines(Join(lines)) == lines
  {
    SplitJoin(lines);
  }

  lemma {:induction false} JoinConcat(xs: seq<string>, ys: seq<string>)
    ensures Join(xs + ys) == Join(xs) + Join(ys)
  {
    if xs == [] {
      assert xs + ys == ys;
    } else {
      assert (xs + ys)[1..] == xs[1..] + ys;
      JoinConcat(xs[1..], ys);
      assert (xs[0] + "\n" + Join(xs[1..])) + Join(ys) == xs[0] + "\n" + (Join(xs[1..]) + Join(ys));
    }
  }

  // ----- characters that were never there --------------------------------------------

  lemma {:induction false} SplitSeparates(s: string, c: char)
    ensures forall i :: 0 <= i < |SplitOn(s, c)| ==> c !in SplitOn(s, c)[i]
    decreases |s|
  {
    if s != "" {
      SplitSeparates(s[1..], c);
    }
  }

  lemma {:induction false} SplitInvents(s: string, c: char, x: char)
    requires x !in s
    ensures forall i :: 0 <= i < |SplitOn(s, c)| ==> x !in SplitOn(s, c)[i]
    decreases |s|
  {
    if s != "" {
      SplitInvents(s[1..], c, x);
    }
  }

  lemma {:induction false} TrimInvents(s: string, x: char)
    requires x !in s
    ensures x !in TrimEnd(s) && x !in TrimStart(s)
    decreases |s|
  {
    if s != "" {
      TrimInvents(s[1..], x);
    }
  }

  lemma StripInvents(s: string, x: char)
    requires x !in s
    ensures x !in Strip(s)
  {
    TrimInvents(s, x);
    TrimInvents(TrimEnd(s), x);
  }

  lemma {:induction false} TrimCharInvents(s: string, c: char, x: char)
    requires x !in s
    ensures x !in TrimCharEnd(s, c) && x !in TrimCharStart(s, c)
    decreases |s|
  {
    if s != "" {
      TrimCharInvents(s[1..], c, x);
      TrimCharInvents(s[..|s| - 1], c, x);
    }
  }

  lemma StripCharInvents(s: string, c: char, x: char)
    requires x !in s
    ensures x !in StripChar(s, c)
  {
    TrimCharInvents(s, c, x);
    TrimCharInvents(TrimCharEnd(s, c), c, x);
  }

  lemma LinesAreSingle(text: string)
    ensures SingleLines(Lines(text))
  {
    SplitSeparates(text, '\n');
  }
}
