/** Go's strings.Split and strings.Join, restricted to the one-character
    separator ("-") the provider uses. */
module GoStrings {

  /** strings.Join: the elements with the separator between each pair. The
      result starts with the first element, followed by the separator when
      more elements follow. */
  function Join(elems: seq<string>, sep: char): (r: string)
    ensures |elems| >= 1 ==> |elems[0]| <= |r| && r[..|elems[0]|] == elems[0]
    ensures |elems| >= 2 ==> |elems[0]| < |r| && r[|elems[0]|] == sep
  {
    if |elems| == 0 then ""
    else if |elems| == 1 then elems[0]
    else elems[0] + [sep] + Join(elems[1..], sep)
  }

  /** strings.Split: the substrings between the separators. There is always at
      least one, no substring holds the separator, there is exactly one iff the
      separator does not occur, and joining them back gives the input. */
  function Split(s: string, sep: char): (parts: seq<string>)
    ensures |parts| >= 1
    ensures |parts| == 1 <==> sep !in s
    ensures forall i :: 0 <= i < |parts| ==> sep !in parts[i]
    ensures Join(parts, sep) == s
    decreases |s|
  {
    if |s| == 0 then [""]
    else
      var rest := Split(s[1..], sep);
      assert s == [s[0]] + s[1..];
      if s[0] == sep then
        JoinAfterEmpty(rest, sep);
        [""] + rest
      else
        JoinAfterChar(s[0], rest, sep);
        [[s[0]] + rest[0]] + rest[1..]
  }

  /** Joining after an empty first element puts a separator in front. */
  lemma JoinAfterEmpty(rest: seq<string>, sep: char)
    requires |rest| >= 1
    ensures Join([""] + rest, sep) == [sep] + Join(rest, sep)
  {
    assert ([""] + rest)[1..] == rest;
  }

  /** Prefixing a character to the first element prefixes it to the join. */
  lemma JoinAfterChar(c: char, rest: seq<string>, sep: char)
    requires |rest| >= 1
    ensures Join([[c] + rest[0]] + rest[1..], sep) == [c] + Join(rest, sep)
  {
    var parts := [[c] + rest[0]] + rest[1..];
    assert parts[1..] == rest[1..];
  }

  /** A string without the separator splits into itself. */
  lemma {:induction false} SplitWithoutSeparator(s: string, sep: char)
    requires sep !in s
    ensures Split(s, sep) == [s]
  {
  }

  /** Splitting a separator-free prefix off: the prefix is the first part and
      the rest splits on its own. */
  lemma {:induction false} SplitAfterSeparator(a: string, b: string, sep: char)
    requires sep !in a
    ensures Split(a + [sep] + b, sep) == [a] + Split(b, sep)
    decreases |a|
  {
    var s := a + [sep] + b;
    if |a| == 0 {
      assert s[0] == sep && s[1..] == b;
    } else {
      assert s[0] == a[0] && s[1..] == a[1..] + [sep] + b;
      assert a == [a[0]] + a[1..];
      SplitAfterSeparator(a[1..], b, sep);
    }
  }

  /** Split undoes Join when no element holds the separator. */
  lemma {:induction false} SplitJoin(elems: seq<string>, sep: char)
    requires |elems| >= 1
    requires forall i :: 0 <= i < |elems| ==> sep !in elems[i]
    ensures Split(Join(elems, sep), sep) == elems
    decreases |elems|
  {
    if |elems| == 1 {
      SplitWithoutSeparator(elems[0], sep);
    } else {
      SplitJoin(elems[1..], sep);
      SplitAfterSeparator(elems[0], Join(elems[1..], sep), sep);
      assert elems == [elems[0]] + elems[1..];
    }
  }

  /** A join of two or more elements begins with the first two joined by the
      separator, followed by nothing or by the separator. */
  lemma JoinStartsWithFirstTwo(elems: seq<string>, sep: char)
    requires |elems| >= 2
    ensures var p := elems[0] + [sep] + elems[1]; var j := Join(elems, sep);
      |p| <= |j| && j[..|p|] == p && (|p| == |j| || j[|p|] == sep)
  {
    var p := elems[0] + [sep] + elems[1];
    var rest := elems[1..];
    assert Join(elems, sep) == elems[0] + [sep] + Join(rest, sep);
    if |elems| > 2 {
      assert rest[1..] == elems[2..];
      assert Join(elems, sep) == p + [sep] + Join(elems[2..], sep);
    }
  }
}
