/** The pieces of JavaScript's string library that the log formatter uses:
    `"*".repeat(n)`, `split("\n")`, `map` and `join("\n")`, with the laws
    that connect them. */
module Strings {

  /** `c.repeat(n)` for a one-character string `c`. */
  function Repeat(c: char, n: nat): (r: string)
    ensures |r| == n
    ensures forall i :: 0 <= i < n ==> r[i] == c
  {
    if n == 0 then [] else Repeat(c, n - 1) + [c]
  }

  /** `s.split(sep)` for a one-character separator: the maximal pieces of `s`
      between separators, so always at least one piece (`"".split` is `[""]`). */
  function Split(s: string, sep: char): (r: seq<string>)
    ensures |r| > 0
    ensures forall i :: 0 <= i < |r| ==> sep !in r[i]
    decreases |s|
  {
    if |s| == 0 then [""]
    else if s[0] == sep then [""] + Split(s[1..], sep)
    else
      var rest := Split(s[1..], sep);
      [[s[0]] + rest[0]] + rest[1..]
  }

  /** `xs.join(sep)`: the pieces with one separator between neighbours. */
  function Join(xs: seq<string>, sep: char): (r: string)
    ensures |xs| == 0 ==> r == ""
    ensures |xs| == 1 ==> r == xs[0]
    ensures |xs| > 0 ==> |r| >= |xs[0]| && r[..|xs[0]|] == xs[0]
  {
    if |xs| == 0 then "" else xs[0] + JoinTail(xs[1..], sep)
  }

  /** Each remaining piece preceded by its separator. */
  function JoinTail(ys: seq<string>, sep: char): string
  {
    if |ys| == 0 then "" else [sep] + ys[0] + JoinTail(ys[1..], sep)
  }

  /** `xs.map(x => p + x)`. */
  function PrefixEach(p: string, xs: seq<string>): (r: seq<string>)
    ensures |r| == |xs|
    ensures forall i :: 0 <= i < |xs| ==> r[i] == p + xs[i]
  {
    if |xs| == 0 then [] else [p + xs[0]] + PrefixEach(p, xs[1..])
  }

  /** `s.split("\n").map(line => p + line).join("\n")`. */
  function PrefixLines(p: string, s: string): (r: string)
    ensures |r| >= |p| && r[..|p|] == p
  {
    var lines := PrefixEach(p, Split(s, '\n'));
    assert lines[0] == p + Split(s, '\n')[0];
    Join(lines, '\n')
  }

  /** Reference definition of line prefixing, independent of split and join:
      the text after every newline is preceded by `p`. */
  function AfterNewlines(p: string, s: string): (r: string)
  {
    if |s| == 0 then ""
    else if s[0] == '\n' then "\n" + p + AfterNewlines(p, s[1..])
    else [s[0]] + AfterNewlines(p, s[1..])
  }

  lemma JoinCons(x: string, ys: seq<string>, sep: char)
    requires |ys| > 0
    ensures Join([x] + ys, sep) == x + [sep] + Join(ys, sep)
  {
    assert ([x] + ys)[1..] == ys;
    assert JoinTail(ys, sep) == [sep] + ys[0] + JoinTail(ys[1..], sep);
  }

  /** Splitting then joining on the same separator gives back the text. */
  lemma {:induction false} JoinSplit(s: string, sep: char)
    ensures Join(Split(s, sep), sep) == s
    decreases |s|
  {
    if |s| == 0 {
    } else if s[0] == sep {
      JoinSplit(s[1..], sep);
      JoinCons("", Split(s[1..], sep), sep);
      assert s == [sep] + s[1..];
    } else {
      var rest := Split(s[1..], sep);
      JoinSplit(s[1..], sep);
      var xs := [[s[0]] + rest[0]] + rest[1..];
      assert xs[1..] == rest[1..];
      assert Join(xs, sep) == [s[0]] + rest[0] + JoinTail(rest[1..], sep);
      assert Join(rest, sep) == rest[0] + JoinTail(rest[1..], sep);
      assert s == [s[0]] + s[1..];
    }
  }

  /** One step of `Split` on a text that starts with `c`. */
  lemma SplitCons(c: char, t: string, sep: char)
    ensures Split([c] + t, sep)
            == if c == sep then [""] + Split(t, sep) else [[c] + Split(t, sep)[0]] + Split(t, sep)[1..]
  {
    assert ([c] + t)[1..] == t;
  }

  /** A separator splits the text into the pieces of either side. */
  lemma {:induction false} SplitAround(a: string, b: string, sep: char)
    ensures Split(a + [sep] + b, sep) == Split(a, sep) + Split(b, sep)
    decreases |a|
  {
    if |a| == 0 {
      assert a + [sep] + b == [sep] + b;
      SplitCons(sep, b, sep);
    } else {
      var c, t := a[0], a[1..];
      assert a == [c] + t;
      assert a + [sep] + b == [c] + (t + [sep] + b);
      SplitAround(t, b, sep);
      SplitCons(c, t + [sep] + b, sep);
      SplitCons(c, t, sep);
      PieceAppend(c, sep, Split(t, sep), Split(b, sep));
    }
  }

  /** Putting `c` in front of the first piece commutes with appending pieces. */
  lemma PieceAppend(c: char, sep: char, ra: seq<string>, rb: seq<string>)
    requires |ra| > 0
    ensures (if c == sep then [""] + (ra + rb) else [[c] + (ra + rb)[0]] + (ra + rb)[1..])
            == (if c == sep then [""] + ra else [[c] + ra[0]] + ra[1..]) + rb
  {
    if c != sep {
      assert (ra + rb)[0] == ra[0] && (ra + rb)[1..] == ra[1..] + rb;
    }
  }

  /** Text without a separator is a single piece. */
  lemma {:induction false} SplitNoSeparator(a: string, sep: char)
    requires sep !in a
    ensures Split(a, sep) == [a]
    decreases |a|
  {
    if |a| > 0 {
      assert a[0] != sep;
      assert sep !in a[1..] by {
        forall i | 0 <= i < |a[1..]| ensures a[1..][i] != sep {
          assert a[1..][i] == a[i + 1];
        }
      }
      SplitNoSeparator(a[1..], sep);
      assert a == [a[0]] + a[1..];
    }
  }

  /** Joining pieces free of the separator and splitting again recovers them. */
  lemma {:induction false} SplitJoin(xs: seq<string>, sep: char)
    requires |xs| > 0
    requires forall i :: 0 <= i < |xs| ==> sep !in xs[i]
    ensures Split(Join(xs, sep), sep) == xs
    decreases |xs|
  {
    if |xs| == 1 {
      assert Join(xs, sep) == xs[0];
      SplitNoSeparator(xs[0], sep);
    } else {
      var tail := xs[1..];
      assert xs == [xs[0]] + tail;
      JoinCons(xs[0], tail, sep);
      SplitJoin(tail, sep);
      SplitAround(xs[0], Join(tail, sep), sep);
      SplitNoSeparator(xs[0], sep);
    }
  }

  /** What follows the first `p`: the first line, then each further line
      preceded by a newline and `p`. */
  lemma {:induction false} LinesAfterFirst(p: string, s: string)
    ensures Split(s, '\n')[0] + JoinTail(PrefixEach(p, Split(s, '\n')[1..]), '\n')
            == AfterNewlines(p, s)
    decreases |s|
  {
    if |s| > 0 {
      var rest := Split(s[1..], '\n');
      LinesAfterFirst(p, s[1..]);
      if s[0] == '\n' {
        assert Split(s, '\n')[1..] == rest;
        var ys := PrefixEach(p, rest);
        assert ys[1..] == PrefixEach(p, rest[1..]);
        assert JoinTail(ys, '\n') == "\n" + (p + rest[0]) + JoinTail(ys[1..], '\n');
      } else {
        assert Split(s, '\n')[0] == [s[0]] + rest[0];
        assert Split(s, '\n')[1..] == rest[1..];
      }
    }
  }

  /** The split/map/join pipeline agrees with the reference definition:
      `p` in front of the first line and after every newline. */
  lemma PrefixLinesAfterNewlines(p: string, s: string)
    ensures PrefixLines(p, s) == p + AfterNewlines(p, s)
  {
    var lines := Split(s, '\n');
    var tail := JoinTail(PrefixEach(p, lines[1..]), '\n');
    assert PrefixLines(p, s) == (p + lines[0]) + tail by {
      var xs := PrefixEach(p, lines);
      assert xs[0] == p + lines[0] && xs[1..] == PrefixEach(p, lines[1..]);
    }
    assert (p + lines[0]) + tail == p + (lines[0] + tail);
    LinesAfterFirst(p, s);
  }
}
