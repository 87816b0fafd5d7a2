/** `String.prototype.split` with a one-character separator and
    `Array.prototype.join`, as the script uses them on paths. */
module JsStrings {

  /** `s.split(sep)`: the pieces between separators, in order. There is
      always at least one piece, and a piece may be empty. */
  function Split(s: string, sep: char): (parts: seq<string>)
    ensures |parts| >= 1
    ensures forall i :: 0 <= i < |parts| ==> sep !in parts[i]
    decreases |s|
  {
    if s == [] then [""]
    else
      var rest := Split(s[1..], sep);
      if s[0] == sep then [""] + rest else [[s[0]] + rest[0]] + rest[1..]
  }

  /** `parts.join(sep)` */
  function Join(parts: seq<string>, sep: char): (r: string)
    ensures |parts| >= 1 ==> parts[0] <= r
  {
    if |parts| == 0 then ""
    else if |parts| == 1 then parts[0]
    else parts[0] + [sep] + Join(parts[1..], sep)
  }

  /** Joining the pieces of a split gives back the string. */
  lemma {:induction false} JoinSplit(s: string, sep: char)
    ensures Join(Split(s, sep), sep) == s
    decreases |s|
  {
    if s != [] {
      var rest := Split(s[1..], sep);
      JoinSplit(s[1..], sep);
      if s[0] == sep {
        assert Split(s, sep) == [""] + rest;
        assert ([""] + rest)[1..] == rest;
      } else {
        var parts := [[s[0]] + rest[0]] + rest[1..];
        assert Split(s, sep) == parts;
        if |rest| == 1 {
          assert parts == [[s[0]] + rest[0]];
        } else {
          assert parts[1..] == rest[1..];
          assert Join(rest, sep) == rest[0] + [sep] + Join(rest[1..], sep);
        }
        assert [s[0]] + s[1..] == s;
      }
    }
  }

  /** Splitting a string at a separator it contains splits each side. */
  lemma {:induction false} SplitAppend(a: string, b: string, sep: char)
    ensures Split(a + [sep] + b, sep) == Split(a, sep) + Split(b, sep)
    decreases |a|
  {
    var s := a + [sep] + b;
    if a == [] {
      assert s == [sep] + b;
      assert s[1..] == b;
      assert Split(s, sep) == [""] + Split(b, sep);
    } else {
      var tail := a[1..] + [sep] + b;
      assert s == [a[0]] + tail;
      assert s[0] == a[0] && s[1..] == tail;
      SplitAppend(a[1..], b, sep);
      var x := Split(a[1..], sep);
      var rest := Split(tail, sep);
      assert rest == x + Split(b, sep);
      if a[0] == sep {
        assert Split(s, sep) == [""] + rest;
        assert Split(a, sep) == [""] + x;
      } else {
        assert rest[0] == x[0];
        assert rest[1..] == x[1..] + Split(b, sep);
        assert Split(s, sep) == [[a[0]] + rest[0]] + rest[1..];
        assert Split(a, sep) == [[a[0]] + x[0]] + x[1..];
        assert [[a[0]] + x[0]] + (x[1..] + Split(b, sep)) == ([[a[0]] + x[0]] + x[1..]) + Split(b, sep);
      }
    }
  }

  /** A string without the separator is one piece. */
  lemma {:induction false} SplitWithoutSeparator(s: string, sep: char)
    requires sep !in s
    ensures Split(s, sep) == [s]
    decreases |s|
  {
    if s != [] {
      assert s[0] == s[0] && s[0] != sep;
      assert sep !in s[1..];
      SplitWithoutSeparator(s[1..], sep);
      assert [s[0]] + s[1..] == s;
    }
  }

  /** Joining a concatenation of two non-empty lists puts one separator between the two joins. */
  lemma {:induction false} JoinAppend(a: seq<string>, b: seq<string>, sep: char)
    requires |a| >= 1 && |b| >= 1
    ensures Join(a + b, sep) == Join(a, sep) + [sep] + Join(b, sep)
    decreases |a|
  {
    if |a| == 1 {
      assert (a + b)[1..] == b;
    } else {
      assert (a + b)[1..] == a[1..] + b;
      JoinAppend(a[1..], b, sep);
    }
  }
}
