/**
 * The few Python string operations the core relies on: `str.split(sep)`
 * with a one-character separator, `sep.join(parts)` and `str.rstrip()`.
 */
module Text {

  /** Number of occurrences of `c` in `s`. */
  function Count(s: string, c: char): nat
  {
    if s == [] then 0 else (if s[0] == c then 1 else 0) + Count(s[1..], c)
  }

  /** `sep.join(parts)`: the parts with one `sep` between neighbours. */
  function Join(parts: seq<string>, sep: char): string
  {
    if |parts| == 0 then ""
    else if |parts| == 1 then parts[0]
    else parts[0] + [sep] + Join(parts[1..], sep)
  }

  /**
   * `s.split(sep)`: the maximal pieces between occurrences of `sep`. There is
   * always one more piece than separators, so `"".split(",") == [""]` and
   * `"a,,b".split(",") == ["a", "", "b"]`.
   */
  function Split(s: string, sep: char): (parts: seq<string>)
    ensures |parts| == Count(s, sep) + 1
    ensures forall i :: 0 <= i < |parts| ==> sep !in parts[i]
    ensures Join(parts, sep) == s
  {
    if s == [] then [""]
    else
      var rest := Split(s[1..], sep);
      if s[0] == sep then
        [""] + rest
      else
        assert s == [s[0]] + s[1..];
        [[s[0]] + rest[0]] + rest[1..]
  }

  /** Splitting undoes joining, when no part contains the separator. */
  lemma {:induction false} SplitJoin(parts: seq<string>, sep: char)
    requires |parts| >= 1
    requires forall i :: 0 <= i < |parts| ==> sep !in parts[i]
    ensures Split(Join(parts, sep), sep) == parts
  {
    if |parts| == 1 {
      SplitPiece(parts[0], sep);
    } else {
      var tail := parts[1..];
      SplitJoin(tail, sep);
      SplitPieceThenSep(parts[0], sep, Join(tail, sep));
    }
  }

  lemma {:induction false} SplitPiece(p: string, sep: char)
    requires sep !in p
    ensures Split(p, sep) == [p]
  {
    if p != [] {
      SplitPiece(p[1..], sep);
    }
  }

  lemma {:induction false} SplitPieceThenSep(p: string, sep: char, rest: string)
    requires sep !in p
    ensures Split(p + [sep] + rest, sep) == [p] + Split(rest, sep)
  {
    if p == [] {
      assert p + [sep] + rest == [sep] + rest;
      assert ([sep] + rest)[1..] == rest;
    } else {
      var s := p + [sep] + rest;
      assert s[1..] == p[1..] + [sep] + rest;
      SplitPieceThenSep(p[1..], sep, rest);
      assert [p[0]] + p[1..] == p;
    }
  }

  /** Splitting two separator-free pieces joined by `sep`. */
  lemma SplitTwo(p1: string, p2: string, sep: char)
    requires sep !in p1 && sep !in p2
    ensures Split(p1 + [sep] + p2, sep) == [p1, p2]
  {
    SplitPieceThenSep(p1, sep, p2);
    SplitPiece(p2, sep);
  }

  /** Splitting three separator-free pieces joined by `sep`. */
  lemma SplitThree(p1: string, p2: string, p3: string, sep: char)
    requires sep !in p1 && sep !in p2 && sep !in p3
    ensures Split(p1 + [sep] + p2 + [sep] + p3, sep) == [p1, p2, p3]
  {
    var tail := p2 + [sep] + p3;
    assert p1 + [sep] + p2 + [sep] + p3 == p1 + [sep] + tail;
    assert Split(tail, sep) == [p2, p3] by {
      SplitTwo(p2, p3, sep);
    }
    assert Split(p1 + [sep] + tail, sep) == [p1] + [p2, p3] by {
      SplitPieceThenSep(p1, sep, tail);
    }
  }

  /** The characters Python's `str.isspace()` accepts. */
  predicate IsSpace(c: char)
  {
    || '\t' <= c <= '\r'
    || '\U{1C}' <= c <= ' '
    || c == '\U{85}' || c == '\U{A0}' || c == '\U{1680}'
    || '\U{2000}' <= c <= '\U{200A}'
    || c == '\U{2028}' || c == '\U{2029}' || c == '\U{202F}' || c == '\U{205F}' || c == '\U{3000}'
  }

  /**
   * `s.rstrip()`: `s` without its trailing whitespace. The result is a prefix
   * of `s`, it does not end in whitespace, and everything cut off is whitespace.
   */
  function RStrip(s: string): (r: string)
    ensures |r| <= |s| && r == s[..|r|]
    ensures r == [] || !IsSpace(r[|r| - 1])
    ensures forall i :: |r| <= i < |s| ==> IsSpace(s[i])
  {
    if |s| > 0 && IsSpace(s[|s| - 1]) then RStrip(s[..|s| - 1]) else s
  }

  /** `[line.rstrip() for line in lines]`. */
  function StripAll(lines: seq<string>): seq<string>
  {
    if lines == [] then [] else [RStrip(lines[0])] + StripAll(lines[1..])
  }

  /** Stripping a list line by line distributes over concatenation. */
  lemma {:induction false} StripAllAppend(a: seq<string>, b: seq<string>)
    ensures StripAll(a + b) == StripAll(a) + StripAll(b)
  {
    if a == [] {
      assert a + b == b;
    } else {
      assert (a + b)[0] == a[0];
      assert (a + b)[1..] == a[1..] + b;
      StripAllAppend(a[1..], b);
    }
  }

  /** Extending the stripped prefix by one line. */
  lemma StripAllSnoc(lines: seq<string>, i: nat)
    requires i < |lines|
    ensures StripAll(lines[..i + 1]) == StripAll(lines[..i]) + [RStrip(lines[i])]
  {
    assert lines[..i + 1] == lines[..i] + [lines[i]];
    StripAllAppend(lines[..i], [lines[i]]);
  }
}
