/** The string operations of the runner's standard library that it uses on lines. */
module TextLines {
  function LowerChar(c: char): char {
    if 'A' <= c <= 'Z' then (c as int - 'A' as int + 'a' as int) as char else c
  }

  /** ASCII lower case. */
  function Lower(s: string): (r: string)
    ensures |r| == |s|
  {
    seq(|s|, i requires 0 <= i < |s| => LowerChar(s[i]))
  }

  /** Unicode white space. */
  predicate IsSpace(c: char) {
    var n := c as int;
    || 9 <= n <= 13 || n == 0x20 || n == 0x85 || n == 0xA0 || n == 0x1680 || 0x2000 <= n <= 0x200A
    || n == 0x2028 || n == 0x2029 || n == 0x202F || n == 0x205F || n == 0x3000
  }

  function TrimStart(s: string): (t: string)
    ensures |t| <= |s|
    ensures t != "" ==> !IsSpace(t[0])
  {
    if s != "" && IsSpace(s[0]) then TrimStart(s[1..]) else s
  }

  function TrimEnd(s: string): (t: string)
    ensures t <= s
    ensures t != "" ==> !IsSpace(t[|t| - 1])
    ensures forall i :: |t| <= i < |s| ==> IsSpace(s[i])
  {
    if s != "" && IsSpace(s[|s| - 1]) then TrimEnd(s[..|s| - 1]) else s
  }

  function Trim(s: string): (t: string)
    ensures |t| <= |s|
  {
    TrimEnd(TrimStart(s))
  }

  /** The position of the first line feed, or the length. */
  function LineEnd(s: string): (n: nat)
    ensures n <= |s|
  {
    if s == "" || s[0] == '\n' then 0 else 1 + LineEnd(s[1..])
  }

  predicate OneLine(s: string) {
    forall i :: 0 <= i < |s| ==> s[i] != '\n'
  }

  lemma {:induction false} LineEndIsFirst(s: string)
    ensures OneLine(s[..LineEnd(s)]) && (LineEnd(s) < |s| ==> s[LineEnd(s)] == '\n')
  {
    if s != "" && s[0] != '\n' {
      LineEndIsFirst(s[1..]);
      assert s[..LineEnd(s)] == [s[0]] + s[1..][..LineEnd(s[1..])];
    }
  }

  lemma {:induction false} LineEndAt(line: string, rest: string)
    requires OneLine(line)
    ensures LineEnd(line + "\n" + rest) == |line| && LineEnd(line) == |line|
  {
    var text := line + "\n" + rest;
    if line != "" {
      LineEndAt(line[1..], rest);
      assert text[1..] == line[1..] + "\n" + rest;
    }
  }

  lemma Pieces(line: string, rest: string)
    ensures var text := line + "\n" + rest;
            text[..|line|] == line && text[|line| + 1..] == rest
  {
  }

  /** A text with a line feed is its first line, the line feed and the rest. */
  lemma SplitLine(s: string)
    requires LineEnd(s) < |s|
    ensures OneLine(s[..LineEnd(s)]) && s == s[..LineEnd(s)] + "\n" + s[LineEnd(s) + 1..]
  {
    LineEndIsFirst(s);
    SplitAt(s, LineEnd(s));
  }

  lemma SplitAt(s: string, n: nat)
    requires n < |s|
    ensures s == s[..n] + [s[n]] + s[n + 1..]
  {
  }

  function StripReturn(s: string): string {
    if s != "" && s[|s| - 1] == '\r' then s[..|s| - 1] else s
  }

  /** The lines of a text, without their terminators. */
  function Lines(s: string): (lines: seq<string>)
    decreases |s|
  {
    if s == "" then []
    else
      var n := LineEnd(s);
      if n == |s| then [s] else [StripReturn(s[..n])] + Lines(s[n + 1..])
  }

  lemma {:induction false} LinesShorter(s: string, k: nat)
    requires k < |Lines(s)|
    ensures |Lines(s)[k]| <= |s|
    decreases |s|
  {
    var n := LineEnd(s);
    if n < |s| && k > 0 {
      LinesShorter(s[n + 1..], k - 1);
    }
  }

  /** What is trimmed off is white space, and what is left neither starts nor ends with it. */
  lemma TrimIs(s: string) returns (n: nat)
    ensures n + |Trim(s)| <= |s| && Trim(s) == s[n..n + |Trim(s)|]
    ensures forall i :: 0 <= i < n || n + |Trim(s)| <= i < |s| ==> IsSpace(s[i])
    ensures Trim(s) != "" ==> !IsSpace(Trim(s)[0]) && !IsSpace(Trim(s)[|Trim(s)| - 1])
  {
    n := TrimStartIs(s);
    var t := TrimStart(s);
    assert Trim(s) <= t && t == s[n..];
    forall i | n + |Trim(s)| <= i < |s| ensures IsSpace(s[i]) { assert s[i] == t[i - n]; }
  }

  lemma {:induction false} TrimStartIs(s: string) returns (n: nat)
    ensures n <= |s| && TrimStart(s) == s[n..] && forall i :: 0 <= i < n ==> IsSpace(s[i])
  {
    n := 0;
    if s != "" && IsSpace(s[0]) {
      n := TrimStartIs(s[1..]);
      n := n + 1;
    }
  }

  /** Each line with its terminator. */
  function Terminated(lines: seq<string>): string {
    if lines == [] then "" else lines[0] + "\n" + Terminated(lines[1..])
  }

  /** Lines that were written are read back. */
  lemma {:induction false} LinesRoundTrip(lines: seq<string>)
    requires forall i :: 0 <= i < |lines| ==> OneLine(lines[i]) && StripReturn(lines[i]) == lines[i]
    ensures Lines(Terminated(lines)) == lines
  {
    if lines != [] {
      var rest := Terminated(lines[1..]);
      LineEndAt(lines[0], rest);
      Pieces(lines[0], rest);
      LinesRoundTrip(lines[1..]);
    }
  }

  /** A carriage return before the line feed is no part of the line. */
  lemma ReturnsDropped(line: string, rest: string)
    requires OneLine(line)
    ensures Lines(line + "\r" + "\n" + rest) == [line] + Lines(rest)
  {
    var s := line + "\r";
    LineEndAt(s, rest);
    Pieces(s, rest);
    assert s[..|s| - 1] == line;
  }
}
