/** `createDir`: creates every missing left-to-right prefix of a path, on a
    file system seen as the set of paths that exist. */
module Directories {
  import opened JsStrings
  import opened Paths

  /** The directories on disk, by path. */
  class FileSystem {
    var entries: set<string>

    constructor (initial: set<string>)
      ensures entries == initial
    {
      entries := initial;
    }

    /** `fs.existsSync(p)` */
    predicate Exists(p: string)
      reads this
    {
      p in entries
    }

    /** `fs.mkdirSync(p)`: it throws for the empty path and for a path that
        exists, so its callers must rule both out. */
    method MkDir(p: string)
      requires p != "" && p !in entries
      modifies this
      ensures entries == old(entries) + {p}
    {
      entries := entries + {p};
    }
  }

  /** `createDir(dir)`: afterwards every prefix of `dir` exists, what existed
      still exists, and nothing else was added; a call on a path whose
      prefixes all exist changes nothing. A leading separator makes the
      first prefix '' and `mkdirSync('')` throw; a doubled or trailing
      separator is harmless in the script ("a/" names the directory "a"),
      but the set of path strings here tells "a/" from "a", so every piece
      must be non-empty. */
  method CreateDir(fs: FileSystem, dir: string, sep: char)
    requires NoEmptySegment(Split(dir, sep))
    modifies fs
    ensures fs.entries == old(fs.entries) + Elems(PrefixPaths(dir, sep))
    ensures dir in fs.entries
    ensures Elems(PrefixPaths(dir, sep)) <= old(fs.entries) ==> fs.entries == old(fs.entries)
  {
    var part := Split(dir, sep);
    ghost var ps := PrefixPaths(dir, sep);
    for i := 1 to |part| + 1
      invariant fs.entries == old(fs.entries) + Elems(ps[..i - 1])
    {
      var current := Join(part[..i], sep);
      assert current == ps[i - 1];
      assert part[..i][0] == part[0] != "";
      if !fs.Exists(current) {
        fs.MkDir(current);
      }
      assert ps[..i] == ps[..i - 1] + [current];
    }
    assert ps[..|part|] == ps;
    PrefixPathsAreAncestors(dir, sep);
  }
}
