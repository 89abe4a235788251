/** The string helpers the check rule relies on: case-insensitive equality and `String.join`. */
module StringUtils {

  /** ASCII lower-casing of one character; every other character is left alone. */
  function LowerAscii(c: char): char {
    if 'A' <= c <= 'Z' then ((c as int) + 32) as char else c
  }

  /** The case-folded form of a string, character by character. */
  function Fold(s: string): (f: string)
    ensures |f| == |s|
    ensures forall i :: 0 <= i < |s| ==> f[i] == LowerAscii(s[i])
  {
    seq(|s|, i requires 0 <= i < |s| => LowerAscii(s[i]))
  }

  /**
   * `equalsIgnoreCase` on two non-null strings: same length and, position by
   * position, characters that agree after case folding.
   */
  function EqualsIgnoreCase(a: string, b: string): bool
    decreases |a|
  {
    if a == [] || b == [] then a == b
    else LowerAscii(a[0]) == LowerAscii(b[0]) && EqualsIgnoreCase(a[1..], b[1..])
  }

  /** The character-by-character comparison is equality of the folded forms. */
  lemma {:induction false} EqualsIgnoreCaseIffFoldsEqual(a: string, b: string)
    ensures EqualsIgnoreCase(a, b) <==> Fold(a) == Fold(b)
    decreases |a|
  {
    if a != [] && b != [] {
      EqualsIgnoreCaseIffFoldsEqual(a[1..], b[1..]);
      assert Fold(a) == [LowerAscii(a[0])] + Fold(a[1..]);
      assert Fold(b) == [LowerAscii(b[0])] + Fold(b[1..]);
    }
  }

  lemma EqualsIgnoreCaseReflexive(a: string)
    ensures EqualsIgnoreCase(a, a)
  {
    EqualsIgnoreCaseIffFoldsEqual(a, a);
  }

  lemma EqualsIgnoreCaseSymmetric(a: string, b: string)
    requires EqualsIgnoreCase(a, b)
    ensures EqualsIgnoreCase(b, a)
  {
    EqualsIgnoreCaseIffFoldsEqual(a, b);
    EqualsIgnoreCaseIffFoldsEqual(b, a);
  }

  lemma EqualsIgnoreCaseTransitive(a: string, b: string, c: string)
    requires EqualsIgnoreCase(a, b) && EqualsIgnoreCase(b, c)
    ensures EqualsIgnoreCase(a, c)
  {
    EqualsIgnoreCaseIffFoldsEqual(a, b);
    EqualsIgnoreCaseIffFoldsEqual(b, c);
    EqualsIgnoreCaseIffFoldsEqual(a, c);
  }

  /** `String.join(sep, xs)`: the elements in order with `sep` between neighbours. */
  function Join(sep: string, xs: seq<string>): string
    decreases |xs|
  {
    if xs == [] then ""
    else if |xs| == 1 then xs[0]
    else xs[0] + sep + Join(sep, xs[1..])
  }

  /** Splitting at every occurrence of `sep`, keeping empty pieces: the inverse of `Join`. */
  function Split(s: string, sep: char): (pieces: seq<string>)
    ensures |pieces| >= 1
    decreases |s|
  {
    if s == [] then [""]
    else
      var rest := Split(s[1..], sep);
      if s[0] == sep then [""] + rest else [[s[0]] + rest[0]] + rest[1..]
  }

  lemma {:induction false} SplitWithoutSeparator(a: string, sep: char, tail: string)
    requires sep !in a
    ensures Split(a + tail, sep) == [a + Split(tail, sep)[0]] + Split(tail, sep)[1..]
    decreases |a|
  {
    if a != [] {
      assert (a + tail)[1..] == a[1..] + tail;
      SplitWithoutSeparator(a[1..], sep, tail);
      assert [a[0]] + (a[1..] + Split(tail, sep)[0]) == a + Split(tail, sep)[0];
    } else {
      var t := Split(tail, sep);
      assert a + tail == tail;
      assert a + t[0] == t[0];
      assert [t[0]] + t[1..] == t;
    }
  }

  /** Splitting a join at a one-character separator gives the elements back when none contains it. */
  lemma {:induction false} SplitJoin(sep: char, xs: seq<string>)
    requires |xs| >= 1
    requires forall i :: 0 <= i < |xs| ==> sep !in xs[i]
    ensures Split(Join([sep], xs), sep) == xs
    decreases |xs|
  {
    if |xs| == 1 {
      SplitWithoutSeparator(xs[0], sep, "");
      assert xs[0] + "" == xs[0];
    } else {
      var rest := Join([sep], xs[1..]);
      SplitJoin(sep, xs[1..]);
      assert Join([sep], xs) == xs[0] + ([sep] + rest);
      SplitWithoutSeparator(xs[0], sep, [sep] + rest);
      assert ([sep] + rest)[1..] == rest;
      assert Split([sep] + rest, sep) == [""] + xs[1..];
      assert xs[0] + "" == xs[0];
      assert xs == [xs[0]] + xs[1..];
    }
  }
}
