/**
 * The four `System.IO.Path` functions the application relies on, for Windows
 * paths: `Combine`, `GetFileName`, `GetExtension` and `GetDirectoryName`.
 * They are defined here on plain strings, following the way .NET scans a path
 * from its end, and simplified where noted.
 */
module Paths {
  import opened Wrappers

  /** The directory separators `\` and `/`. */
  predicate IsSeparator(c: char) {
    c == '\\' || c == '/'
  }

  /** Where a file name ends when a path is scanned from its end: a directory separator or the volume separator `:`. */
  predicate IsBoundary(c: char) {
    IsSeparator(c) || c == ':'
  }

  /** A single path component: non-empty and free of separators. */
  predicate IsPlainName(name: string) {
    name != [] && forall i :: 0 <= i < |name| ==> !IsBoundary(name[i])
  }

  /** A rooted path: it starts with a separator or with a drive (`C:`). */
  predicate IsRooted(path: string) {
    (|path| >= 1 && IsSeparator(path[0])) || (|path| >= 2 && path[1] == ':')
  }

  /**
   * `Path.Combine(first, second)`: an empty part or a rooted second part wins,
   * otherwise the parts are joined with `\` unless one of them already has a
   * separator at the join.
   */
  function Combine(first: string, second: string): (path: string)
    ensures IsPlainName(second) && first != [] && !IsSeparator(first[|first| - 1]) ==>
              path == first + ['\\'] + second
  {
    if first == [] then second
    else if second == [] then first
    else if IsRooted(second) then second
    else if IsSeparator(first[|first| - 1]) || IsSeparator(second[0]) then first + second
    else first + ['\\'] + second
  }

  /**
   * `Path.GetFileName(path)`: the characters after the last separator (or after
   * the drive's `:`).
   */
  function FileName(path: string): (name: string)
    ensures |name| <= |path|
    ensures path != [] && IsBoundary(path[|path| - 1]) ==> name == []
    decreases |path|
  {
    if path == [] || IsBoundary(path[|path| - 1]) then []
    else FileName(path[..|path| - 1]) + [path[|path| - 1]]
  }

  /**
   * The file name is the longest boundary-free suffix of the path: a suffix,
   * free of boundary characters, and preceded by a boundary when shorter than
   * the path.
   */
  lemma {:induction false} FileNameIsLastComponent(path: string)
    ensures var name := FileName(path);
            && |name| <= |path| && name == path[|path| - |name|..]
            && (forall i :: 0 <= i < |name| ==> !IsBoundary(name[i]))
            && (|name| < |path| ==> IsBoundary(path[|path| - |name| - 1]))
    decreases |path|
  {
    if path != [] && !IsBoundary(path[|path| - 1]) {
      var prefix := path[..|path| - 1];
      FileNameIsLastComponent(prefix);
      var init := FileName(prefix);
      assert FileName(path) == init + [path[|path| - 1]];
      assert prefix[|prefix| - |init|..] + [path[|path| - 1]] == path[|path| - |init| - 1..];
    }
  }

  /**
   * The tail of `path` that starts at its last `.`, provided no boundary
   * character comes after that dot; None when there is no such dot.
   */
  function DotTail(path: string): (tail: Option<string>)
    ensures tail.Some? ==> 1 <= |tail.value| <= |path| && tail.value == path[|path| - |tail.value|..]
    ensures tail.Some? ==> tail.value[0] == '.'
    ensures tail.Some? ==> forall i :: 1 <= i < |tail.value| ==> tail.value[i] != '.' && !IsBoundary(tail.value[i])
    decreases |path|
  {
    if path == [] || IsBoundary(path[|path| - 1]) then None
    else if path[|path| - 1] == '.' then Some(".")
    else match DotTail(path[..|path| - 1])
      case None => None
      case Some(t) => Some(t + [path[|path| - 1]])
  }

  /**
   * `Path.GetExtension(path)`: from the last `.` of the file name to the end,
   * dot included; empty when the name has no dot or ends with it. Whenever
   * the file name has a last dot that is not its final character, the
   * extension is the suffix from that dot.
   */
  function Extension(path: string): (ext: string)
    ensures ext == [] || (2 <= |ext| <= |path| && ext[0] == '.' && ext == path[|path| - |ext|..])
    ensures ext != [] ==> IsLastDot(path, |path| - |ext|)
    ensures forall i :: IsLastDot(path, i) && i < |path| - 1 ==> ext == path[i..]
  {
    LastDotGivesExtension(path);
    TailExtension(DotTail(path))
  }

  /**
   * `path[i]` is the dot the extension starts at: no dot and no boundary
   * character follows it.
   */
  predicate IsLastDot(path: string, i: int) {
    0 <= i < |path| && path[i] == '.' &&
    forall j :: i < j < |path| ==> path[j] != '.' && !IsBoundary(path[j])
  }

  /** The dot tail starts at the last dot of the file name. */
  lemma {:induction false} DotTailAtLastDot(path: string, i: int)
    requires IsLastDot(path, i)
    ensures DotTail(path) == Some(path[i..])
    decreases |path|
  {
    if i < |path| - 1 {
      var prefix := path[..|path| - 1];
      assert IsLastDot(prefix, i);
      DotTailAtLastDot(prefix, i);
      assert path[i..] == prefix[i..] + [path[|path| - 1]];
    }
  }

  /** Whatever dot tail is found starts at a last dot, and every last dot yields one. */
  lemma LastDotGivesExtension(path: string)
    ensures DotTail(path).Some? ==> IsLastDot(path, |path| - |DotTail(path).value|)
    ensures forall i :: IsLastDot(path, i) ==> DotTail(path) == Some(path[i..])
  {
    forall i | IsLastDot(path, i) ensures DotTail(path) == Some(path[i..]) {
      DotTailAtLastDot(path, i);
    }
    if DotTail(path).Some? {
      var t := DotTail(path).value;
      var k := |path| - |t|;
      forall j | k < j < |path| ensures path[j] != '.' && !IsBoundary(path[j]) {
        assert path[j] == t[j - k];
      }
    }
  }

  /** A dot tail of at least two characters is the extension; a lone dot or no dot gives none. */
  function TailExtension(tail: Option<string>): string {
    match tail
    case Some(t) => if |t| >= 2 then t else []
    case None => []
  }

  /**
   * `Path.GetDirectoryName(path)`: everything before the last separator, or
   * the empty string when there is none. (.NET keeps the separator of a root
   * directory such as `C:\` and returns null for a root itself; not modelled.)
   */
  function DirectoryName(path: string): (dir: string)
    ensures (exists i :: 0 <= i < |path| && IsSeparator(path[i])) ==>
              (|dir| < |path| && dir == path[..|dir|] && IsSeparator(path[|dir|]) &&
               forall i :: |dir| < i < |path| ==> !IsSeparator(path[i]))
    ensures (forall i :: 0 <= i < |path| ==> !IsSeparator(path[i])) ==> dir == []
    decreases |path|
  {
    if path == [] then []
    else if IsSeparator(path[|path| - 1]) then path[..|path| - 1]
    else DirectoryName(path[..|path| - 1])
  }

  /** The dot tail of a path lies inside its file name: both scans stop at the last boundary. */
  lemma {:induction false} DotTailOfFileName(path: string)
    ensures DotTail(FileName(path)) == DotTail(path)
    decreases |path|
  {
    if path == [] || IsBoundary(path[|path| - 1]) {
    } else {
      var prefix := path[..|path| - 1];
      DotTailOfFileName(prefix);
      var n := FileName(path);
      assert n[..|n| - 1] == FileName(prefix);
    }
  }

  /** Taking the file name keeps the extension. */
  lemma ExtensionOfFileName(path: string)
    ensures Extension(FileName(path)) == Extension(path)
  {
    DotTailOfFileName(path);
    assert Extension(FileName(path)) == TailExtension(DotTail(FileName(path)));
  }

  /** A plain name is its own file name. */
  lemma {:induction false} FileNameOfPlainName(name: string)
    requires forall i :: 0 <= i < |name| ==> !IsBoundary(name[i])
    ensures FileName(name) == name
    decreases |name|
  {
    if name != [] {
      FileNameOfPlainName(name[..|name| - 1]);
      assert name == name[..|name| - 1] + [name[|name| - 1]];
    }
  }

  /** Combining a folder with a plain file name and taking the file name gives the name back. */
  lemma FileNameOfCombine(folder: string, name: string)
    requires IsPlainName(name)
    ensures FileName(Combine(folder, name)) == name
  {
    assert !IsRooted(name);
    if folder == [] {
      FileNameOfPlainName(name);
    } else if IsSeparator(folder[|folder| - 1]) || IsSeparator(name[0]) {
      var p := folder + name;
      assert p[|folder|..] == name;
      FileNameSuffix(p, |folder|);
    } else {
      var p := folder + ['\\'] + name;
      assert p[|folder| + 1..] == name;
      FileNameSuffix(p, |folder| + 1);
    }
  }

  /** If `path[k..]` is boundary-free and `path[k-1]` is a boundary (or k is 0), the file name is `path[k..]`. */
  lemma {:induction false} FileNameSuffix(path: string, k: nat)
    requires k <= |path|
    requires forall i :: k <= i < |path| ==> !IsBoundary(path[i])
    requires 0 < k ==> IsBoundary(path[k - 1])
    ensures FileName(path) == path[k..]
    decreases |path|
  {
    if |path| == k {
    } else {
      FileNameSuffix(path[..|path| - 1], k);
      assert path[k..] == path[..|path| - 1][k..] + [path[|path| - 1]];
    }
  }

  /** The extension of a combined path is the extension of its file-name part. */
  lemma ExtensionOfCombine(folder: string, name: string)
    requires IsPlainName(name)
    ensures Extension(Combine(folder, name)) == Extension(name)
  {
    FileNameOfCombine(folder, name);
    ExtensionOfFileName(Combine(folder, name));
    FileNameOfPlainName(name);
  }

  /** Splitting a combined path back into directory and name recovers the folder. */
  lemma DirectoryNameOfCombine(folder: string, name: string)
    requires IsPlainName(name) && folder != [] && !IsSeparator(folder[|folder| - 1])
    ensures DirectoryName(Combine(folder, name)) == folder
  {
    var p := Combine(folder, name);
    var d := DirectoryName(p);
    assert p == folder + ['\\'] + name;
    assert IsSeparator(p[|folder|]);
    assert forall i :: |folder| < i < |p| ==> p[i] == name[i - |folder| - 1];
  }
}
