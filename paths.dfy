/** Path strings: Go's strings.Split and strings.Join with the separator ".",
    as the query evaluator uses them to peel off the first segment of a path
    and to rebuild the rest. */
module Paths {

  /** The segment separator. */
  const Dot: char := '.'

  /** strings.Split(s, "."): the pieces of `s` between separators, in order.
      Like Go's, it never returns an empty list: the empty string splits into
      one empty segment, and neighbouring dots give empty segments. */
  function Split(s: string): (parts: seq<string>)
    ensures |parts| >= 1
    ensures forall i :: 0 <= i < |parts| ==> Dot !in parts[i]
  {
    if s == [] then [[]]
    else if s[0] == Dot then [[]] + Split(s[1..])
    else
      var tail := Split(s[1..]);
      [[s[0]] + tail[0]] + tail[1..]
  }

  /** strings.Join(parts, "."): the segments with one separator between each
      two; the empty list joins to the empty string. */
  function Join(parts: seq<string>): string
  {
    if |parts| == 0 then []
    else if |parts| == 1 then parts[0]
    else parts[0] + [Dot] + Join(parts[1..])
  }

  /** Joining what was split gives back the original string. */
  lemma {:induction false} JoinSplit(s: string)
    ensures Join(Split(s)) == s
  {
    if s == [] {
    } else if s[0] == Dot {
      JoinSplit(s[1..]);
      assert Split(s) == [[]] + Split(s[1..]);
      assert Split(s)[1..] == Split(s[1..]);
    } else {
      var tail := Split(s[1..]);
      JoinSplit(s[1..]);
      var parts := [[s[0]] + tail[0]] + tail[1..];
      assert Split(s) == parts;
      if |tail| == 1 {
        assert Join(parts) == [s[0]] + tail[0];
      } else {
        assert parts[1..] == tail[1..];
        assert Join(tail) == tail[0] + [Dot] + Join(tail[1..]);
        assert Join(parts) == [s[0]] + tail[0] + [Dot] + Join(tail[1..]);
      }
      assert [s[0]] + s[1..] == s;
    }
  }

  /** A dot-free word in front of `s` becomes part of the first segment of `s`. */
  lemma {:induction false} SplitAfterWord(w: string, s: string)
    requires Dot !in w
    ensures Split(w + s) == [w + Split(s)[0]] + Split(s)[1..]
  {
    if w == [] {
      assert w + s == s;
      assert w + Split(s)[0] == Split(s)[0];
      assert Split(s) == [Split(s)[0]] + Split(s)[1..];
    } else {
      SplitAfterWord(w[1..], s);
      assert (w + s)[1..] == w[1..] + s;
      assert (w + s)[0] == w[0];
      assert [w[0]] + (w[1..] + Split(s)[0]) == w + Split(s)[0];
    }
  }

  /** A string without a dot is a single segment. */
  lemma SplitWord(w: string)
    requires Dot !in w
    ensures Split(w) == [w]
  {
    SplitAfterWord(w, []);
    assert w + [] == w;
  }

  /** A dot-free word followed by a dot is the first segment; the remainder
      splits on its own. */
  lemma SplitFirst(w: string, rest: string)
    requires Dot !in w
    ensures Split(w + [Dot] + rest) == [w] + Split(rest)
  {
    SplitAfterWord(w, [Dot] + rest);
    assert w + [Dot] + rest == w + ([Dot] + rest);
    assert ([Dot] + rest)[1..] == rest;
    assert w + [] == w;
  }

  /** Splitting what was joined gives back the segments, provided there is at
      least one and none contains the separator. */
  lemma {:induction false} SplitJoin(parts: seq<string>)
    requires |parts| >= 1
    requires forall i :: 0 <= i < |parts| ==> Dot !in parts[i]
    ensures Split(Join(parts)) == parts
  {
    if |parts| == 1 {
      SplitWord(parts[0]);
    } else {
      SplitJoin(parts[1..]);
      SplitFirst(parts[0], Join(parts[1..]));
    }
  }

  /** The path rebuilt from the segments after the first is strictly shorter
      than the path itself: the recursion on the rest of a query ends. */
  lemma TailShorter(q: string)
    ensures q != [] ==> |Join(Split(q)[1..])| < |q|
  {
    JoinSplit(q);
    var parts := Split(q);
    if |parts| > 1 {
      assert Join(parts) == parts[0] + [Dot] + Join(parts[1..]);
    } else {
      assert parts[1..] == [];
    }
  }
}
