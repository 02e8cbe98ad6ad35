/** Splitting a dotted, fully qualified name into an owner path and a leaf
    name, the way `split_name` does it with `str.split` and `str.join`. */
module Names {

  /** The separator used in qualified names. */
  const Dot: char := '.'

  /** Python's `s.split(sep)`: the runs of `s` between occurrences of `sep`.
      There is always at least one part, and an empty string gives `[""]`. */
  function Split(s: string, sep: char): (parts: seq<string>)
    ensures |parts| >= 1
    ensures forall i :: 0 <= i < |parts| ==> sep !in parts[i]
    ensures sep !in s ==> parts == [s]
    ensures sep in s ==> |parts| >= 2
    decreases |s|
  {
    if |s| == 0 then [""]
    else
      var rest := Split(s[1..], sep);
      if s[0] == sep then [""] + rest
      else
        assert s == [s[0]] + s[1..];
        [[s[0]] + rest[0]] + rest[1..]
  }

  /** Python's `sep.join(parts)`. */
  function Join(parts: seq<string>, sep: char): string
  {
    if |parts| == 0 then ""
    else if |parts| == 1 then parts[0]
    else parts[0] + [sep] + Join(parts[1..], sep)
  }

  /** Putting a character in front of the first part puts it in front of
      the join. */
  lemma JoinPrepend(c: char, parts: seq<string>, sep: char)
    requires |parts| >= 1
    ensures Join([[c] + parts[0]] + parts[1..], sep) == [c] + Join(parts, sep)
  {

  }

  /** Joining the parts of a split gives back the original string. */
  lemma {:induction false} JoinSplit(s: string, sep: char)
    ensures Join(Split(s, sep), sep) == s
    decreases |s|
  {
    if |s| > 0 {
      var rest := Split(s[1..], sep);
      JoinSplit(s[1..], sep);
      assert s == [s[0]] + s[1..];
      if s[0] == sep {
        assert ([""] + rest)[1..] == rest;
      } else {
        JoinPrepend(s[0], rest, sep);
      }
    }
  }

  /** A join of two or more parts ends with the separator and the last part. */
  lemma {:induction false} JoinSnoc(parts: seq<string>, sep: char)
    requires |parts| >= 2
    ensures Join(parts, sep) == Join(parts[..|parts| - 1], sep) + [sep] + parts[|parts| - 1]
    decreases |parts|
  {
    var n := |parts|;
    if n > 2 {
      JoinSnoc(parts[1..], sep);
      assert parts[1..][..n - 2] == parts[..n - 1][1..];
      assert parts[1..][n - 2] == parts[n - 1];
    } else {
      assert parts[..1] == [parts[0]];
      assert parts[1..] == [parts[1]];
    }
  }

  /** The `(class_name, sphinx_name)` pair of `split_name`: the leaf is the
      last dot-separated segment and the owner is the segments before it,
      joined by dots. */
  function SplitName(name: string): (r: (string, string))
    ensures Dot !in r.1
    ensures Dot !in name ==> r == ("", name)
    ensures Dot in name ==> name == r.0 + [Dot] + r.1
  {
    var parts := Split(name, Dot);
    var owner := Join(parts[..|parts| - 1], Dot);
    var leaf := parts[|parts| - 1];
    JoinSplit(name, Dot);
    if |parts| >= 2 then JoinSnoc(parts, Dot); (owner, leaf)
    else (owner, leaf)
  }

  /** Two ways of writing a string as a prefix, a dot and a dot-free suffix
      agree on the length of the suffix: both end at the last dot. */
  lemma DotFreeSuffixLength(a: string, x: string, b: string, y: string)
    requires Dot !in x && Dot !in y
    requires a + [Dot] + x == b + [Dot] + y
    ensures |x| == |y|
  {
    var s := a + [Dot] + x;
    assert forall k :: |s| - |x| <= k < |s| ==> s[k] == x[k - (|s| - |x|)];
    assert forall k :: |s| - |y| <= k < |s| ==> s[k] == y[k - (|s| - |y|)];
    assert s[|s| - |x| - 1] == Dot;
    assert s[|s| - |y| - 1] == Dot;
  }

  /** The split is the only one whose leaf has no dot: whatever owner and
      dot-free leaf a name is built from, `SplitName` recovers them. */
  lemma SplitNameUnique(owner: string, leaf: string)
    requires Dot !in leaf
    ensures SplitName(owner + [Dot] + leaf) == (owner, leaf)
  {
    var name := owner + [Dot] + leaf;
    assert name[|owner|] == Dot;
    var (o, l) := SplitName(name);
    assert name == o + [Dot] + l;
    DotFreeSuffixLength(owner, leaf, o, l);
    assert l == name[|name| - |l|..] == leaf;
    assert o == name[..|o|] == owner;
  }
}
