/** The paths `createDir` walks: a path split on the platform separator, and
    each left-to-right prefix of its pieces joined back. */
module Paths {
  import opened JsStrings

  /** The set of the elements of a sequence. */
  function Elems<T>(s: seq<T>): set<T> {
    set x | x in s
  }

  /** No piece of the split path is empty: no leading, trailing or doubled separator. */
  predicate NoEmptySegment(parts: seq<string>) {
    forall i :: 0 <= i < |parts| ==> parts[i] != ""
  }

  /** `part.slice(0, i).join(sep)` for i = 1 .. part.length, in that order. */
  function PrefixPaths(dir: string, sep: char): (ps: seq<string>)
    ensures |ps| == |Split(dir, sep)| >= 1
    ensures ps[|ps| - 1] == dir
  {
    var parts := Split(dir, sep);
    JoinSplit(dir, sep);
    assert parts[..|parts|] == parts;
    seq(|parts|, i requires 0 <= i < |parts| => Join(parts[..i + 1], sep))
  }

  /** `path.join(a, b)` for a path and one more piece, without the
      normalisation of ".", ".." and doubled separators that Node performs.
      Two empty pieces join to ".", the current directory. */
  function PathJoin(a: string, b: string, sep: char): (r: string)
    ensures a != "" && b != "" ==> Split(r, sep) == Split(a, sep) + Split(b, sep)
    ensures a == "" && b != "" ==> r == b
    ensures a != "" && b == "" ==> r == a
    ensures a == "" && b == "" ==> r == "."
  {
    if a == "" && b == "" then "."
    else if a == "" then b
    else if b == "" then a
    else
      SplitAppend(a, b, sep);
      a + [sep] + b
  }

  /** The prefixes of a path are its ancestors: each but the last is the
      path cut just before one of its separators, every such cut is one of
      them, and they come shortest first. */
  lemma PrefixPathsAreAncestors(dir: string, sep: char)
    ensures var ps := PrefixPaths(dir, sep);
      && |ps| == |Split(dir, sep)| >= 1
      && ps[|ps| - 1] == dir
      && (forall i :: 0 <= i < |ps| - 1 ==>
           |ps[i]| < |dir| && ps[i] == dir[..|ps[i]|] && dir[|ps[i]|] == sep)
      && (forall k :: 0 <= k < |dir| && dir[k] == sep ==> dir[..k] in ps)
      && (forall i :: 0 <= i < |ps| - 1 ==> |ps[i]| < |ps[i + 1]|)
  {
    var parts := Split(dir, sep);
    var ps := PrefixPaths(dir, sep);
    JoinSplit(dir, sep);
    forall i | 0 <= i < |ps| - 1
      ensures |ps[i]| < |dir| && ps[i] == dir[..|ps[i]|] && dir[|ps[i]|] == sep
      ensures |ps[i]| < |ps[i + 1]|
    {
      assert parts == parts[..i + 1] + parts[i + 1..];
      JoinAppend(parts[..i + 1], parts[i + 1..], sep);
      assert parts[..i + 2] == parts[..i + 1] + [parts[i + 1]];
      JoinAppend(parts[..i + 1], [parts[i + 1]], sep);
    }
    forall k | 0 <= k < |dir| && dir[k] == sep
      ensures dir[..k] in ps
    {
      CutIsPrefixPath(dir, sep, k);
    }
  }

  /** The path cut just before a separator is the prefix path that ends
      with the pieces before that separator. */
  lemma CutIsPrefixPath(dir: string, sep: char, k: nat)
    requires k < |dir| && dir[k] == sep
    ensures var ps := PrefixPaths(dir, sep);
      var m := |Split(dir[..k], sep)|;
      m < |ps| && ps[m - 1] == dir[..k]
  {
    var parts := Split(dir, sep);
    var left := Split(dir[..k], sep);
    assert dir == dir[..k] + [sep] + dir[k + 1..];
    SplitAppend(dir[..k], dir[k + 1..], sep);
    assert parts[..|left|] == left;
    JoinSplit(dir[..k], sep);
  }

  /** Joining one more piece onto a path of non-empty pieces keeps every piece non-empty. */
  lemma PathJoinSegments(a: string, b: string, sep: char)
    requires NoEmptySegment(Split(a, sep))
    requires b == "" || NoEmptySegment(Split(b, sep))
    ensures NoEmptySegment(Split(PathJoin(a, b, sep), sep))
  {
  }
}
