/**
 * The string operations of Rust's standard library that the builder relies
 * on: `str::repeat`, `[String]::join` and, as the inverse of joining,
 * splitting a string at a separator character.
 */
module Text {

  /** Every character of `s` is `c`. */
  predicate AllChars(s: string, c: char) {
    forall i :: 0 <= i < |s| ==> s[i] == c
  }

  /** `c.repeat(n)`: `n` copies of `c`. */
  function Repeat(c: char, n: nat): (r: string)
    ensures |r| == n && AllChars(r, c)
  {
    seq(n, _ => c)
  }

  /**
   * `lines.join(sep)`: the lines with `sep` between neighbours and nowhere
   * else, so nothing is added before the first line or after the last one.
   */
  function Join(lines: seq<string>, sep: string): string {
    if lines == [] then []
    else if |lines| == 1 then lines[0]
    else lines[0] + sep + Join(lines[1..], sep)
  }

  /** An empty list joins to the empty string, and a single line to itself. */
  lemma JoinEmptyOrSingle(lines: seq<string>, sep: string)
    requires |lines| <= 1
    ensures Join(lines, sep) == if lines == [] then [] else lines[0]
  {
  }

  /** The joined text ends with the last line: no separator is added after it. */
  lemma {:induction false} JoinEndsWithLast(lines: seq<string>, sep: string)
    requires lines != []
    ensures var r, last := Join(lines, sep), lines[|lines| - 1];
            |last| <= |r| && r[|r| - |last|..] == last
  {
    if |lines| > 1 {
      JoinEndsWithLast(lines[1..], sep);
      var rest := Join(lines[1..], sep);
      var r := lines[0] + sep + rest;
      assert r[|r| - |rest|..] == rest;
    }
  }

  /** The joined text starts with the first line: no separator is added before it. */
  lemma JoinStartsWithFirst(lines: seq<string>, sep: string)
    requires lines != []
    ensures |lines[0]| <= |Join(lines, sep)| && Join(lines, sep)[..|lines[0]|] == lines[0]
  {
  }

  /** Splits `s` at every occurrence of `sep`; there is always at least one piece. */
  function Split(s: string, sep: char): (r: seq<string>)
    ensures |r| >= 1
    ensures forall i :: 0 <= i < |r| ==> sep !in r[i]
  {
    if s == [] then [[]]
    else
      var rest := Split(s[1..], sep);
      if s[0] == sep then [[]] + rest
      else [[s[0]] + rest[0]] + rest[1..]
  }

  /** A piece without a separator is left whole. */
  lemma {:induction false} SplitWithoutSeparator(x: string, sep: char)
    requires sep !in x
    ensures Split(x, sep) == [x]
  {
    if x != [] {
      SplitWithoutSeparator(x[1..], sep);
      assert [x[0]] + x[1..] == x;
    }
  }

  /** Splitting peels off the text before the first separator. */
  lemma {:induction false} SplitAfterPiece(x: string, sep: char, t: string)
    requires sep !in x
    ensures Split(x + [sep] + t, sep) == [x] + Split(t, sep)
  {
    if x == [] {
      assert x + [sep] + t == [sep] + t;
      assert ([sep] + t)[1..] == t;
    } else {
      var s := x + [sep] + t;
      assert s[0] == x[0];
      assert s[1..] == x[1..] + [sep] + t;
      SplitAfterPiece(x[1..], sep, t);
      assert [x[0]] + x[1..] == x;
    }
  }

  /** Splitting the joined lines gives the lines back, when no line holds the separator. */
  lemma {:induction false} SplitJoin(lines: seq<string>, sep: char)
    requires lines != []
    requires forall i :: 0 <= i < |lines| ==> sep !in lines[i]
    ensures Split(Join(lines, [sep]), sep) == lines
  {
    if |lines| == 1 {
      SplitWithoutSeparator(lines[0], sep);
    } else {
      SplitJoin(lines[1..], sep);
      SplitAfterPiece(lines[0], sep, Join(lines[1..], [sep]));
      assert [lines[0]] + lines[1..] == lines;
    }
  }

  /** Joining the pieces of a split gives the string back. */
  lemma {:induction false} JoinSplit(s: string, sep: char)
    ensures Join(Split(s, sep), [sep]) == s
  {
    if s != [] {
      var rest := Split(s[1..], sep);
      JoinSplit(s[1..], sep);
      assert Join(rest, [sep]) == s[1..];
      assert s == [s[0]] + s[1..];
      if s[0] == sep {
        JoinCons([], rest, [sep]);
      } else if |rest| == 1 {
        assert Split(s, sep) == [[s[0]] + rest[0]];
      } else {
        JoinCons(rest[0], rest[1..], [sep]);
        assert [rest[0]] + rest[1..] == rest;
        JoinCons([s[0]] + rest[0], rest[1..], [sep]);
      }
    }
  }

  /** Joining a line in front of a non-empty list. */
  lemma JoinCons(line: string, lines: seq<string>, sep: string)
    requires lines != []
    ensures Join([line] + lines, sep) == line + sep + Join(lines, sep)
  {
    assert ([line] + lines)[1..] == lines;
  }

  /** Appending a line to a non-empty list adds one separator and the line. */
  lemma {:induction false} JoinAppend(lines: seq<string>, line: string, sep: string)
    requires lines != []
    ensures Join(lines + [line], sep) == Join(lines, sep) + sep + line
  {
    if |lines| == 1 {
      JoinCons(lines[0], [line], sep);
      assert lines + [line] == [lines[0]] + [line];
    } else {
      JoinAppend(lines[1..], line, sep);
      assert lines + [line] == [lines[0]] + (lines[1..] + [line]);
      JoinCons(lines[0], lines[1..] + [line], sep);
      assert lines == [lines[0]] + lines[1..];
      JoinCons(lines[0], lines[1..], sep);
    }
  }
}
