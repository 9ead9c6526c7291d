/**
 * `generate_wix_components`: lists the regular files of a build-output
 * directory and writes a WiX v4 fragment with one `<Component>` per file, in
 * sorted file-name order. The file system is a parameter: a map from a
 * directory path to what listing it yields.
 */
module WixComponents {
  import opened Wrappers

  /** One directory entry as `os.listdir` names it, with the answer of `os.path.isfile` for it. */
  datatype Entry = Entry(name: string, isFile: bool)

  /** A path that exists either cannot be listed (not a directory, no permission) or lists its entries. */
  datatype Directory = Unreadable | Listing(entries: seq<Entry>)

  const ConfigurationPlaceholder: string := "$(Configuration)"

  const WixNamespace: string := "http://wixtoolset.org/schemas/v4/wxs"

  const HeaderLines: seq<string> := [
    "<Wix xmlns=\"" + WixNamespace + "\">",
    "  <Fragment>",
    "    <ComponentGroup " + "Id=\"FrameResizerComponents\" " + "Directory=\"INSTALLFOLDER\">"
  ]

  const FooterLines: seq<string> := [
    "    </ComponentGroup>",
    "  </Fragment>",
    "</Wix>"
  ]

  // ---------------------------------------------------------------------------
  // Python's str.replace, for a non-empty pattern

  predicate StartsWith(s: string, prefix: string) {
    |prefix| <= |s| && s[..|prefix|] == prefix
  }

  /** `s.replace(pattern, replacement)`: every non-overlapping occurrence, scanned left to right, is replaced. */
  function ReplaceAll(s: string, pattern: string, replacement: string): (r: string)
    requires pattern != []
    ensures |replacement| == |pattern| ==> |r| == |s|
    ensures StartsWith(s, pattern) ==> StartsWith(r, replacement)
    ensures s != [] && !StartsWith(s, pattern) ==> r != [] && r[0] == s[0]
    decreases |s|
  {
    if s == [] then []
    else if StartsWith(s, pattern) then replacement + ReplaceAll(s[|pattern|..], pattern, replacement)
    else [s[0]] + ReplaceAll(s[1..], pattern, replacement)
  }

  /** A string without the pattern is left unchanged by the replacement. */
  lemma {:induction false} ReplaceAllWithoutPattern(s: string, pattern: string, replacement: string)
    requires pattern != []
    requires forall i :: 0 <= i <= |s| ==> !StartsWith(s[i..], pattern)
    ensures ReplaceAll(s, pattern, replacement) == s
    decreases |s|
  {
    if s != [] {
      assert s[0..] == s;
      forall i | 0 <= i <= |s[1..]| ensures !StartsWith(s[1..][i..], pattern) {
        assert s[1..][i..] == s[i + 1..];
      }
      ReplaceAllWithoutPattern(s[1..], pattern, replacement);
    }
  }

  // ---------------------------------------------------------------------------
  // Python's sorted() on str: lexicographic order of code points

  /** `a <= b` on Python strings. */
  predicate LexLe(a: string, b: string)
    ensures StartsWith(b, a) ==> LexLe(a, b)
    ensures LexLe(a, b) && a != [] ==> b != [] && a[0] <= b[0]
    decreases |a|
  {
    a == [] || (b != [] && (a[0] < b[0] || (a[0] == b[0] && LexLe(a[1..], b[1..]))))
  }

  lemma {:induction false} LexLeTotal(a: string, b: string)
    ensures LexLe(a, b) || LexLe(b, a)
    decreases |a|
  {
    if a != [] && b != [] && a[0] == b[0] {
      LexLeTotal(a[1..], b[1..]);
    }
  }

  lemma {:induction false} LexLeReflexive(a: string)
    ensures LexLe(a, a)
    decreases |a|
  {
    if a != [] {
      LexLeReflexive(a[1..]);
    }
  }

  lemma {:induction false} LexLeAntisymmetric(a: string, b: string)
    requires LexLe(a, b) && LexLe(b, a)
    ensures a == b
    decreases |a|
  {
    if a != [] {
      LexLeAntisymmetric(a[1..], b[1..]);
      assert a == [a[0]] + a[1..];
      assert b == [b[0]] + b[1..];
    }
  }

  lemma {:induction false} LexLeTransitive(a: string, b: string, c: string)
    requires LexLe(a, b) && LexLe(b, c)
    ensures LexLe(a, c)
    decreases |a|
  {
    if a != [] && a[0] == b[0] && b[0] == c[0] {
      LexLeTransitive(a[1..], b[1..], c[1..]);
    }
  }

  predicate Sorted(s: seq<string>) {
    forall i, j :: 0 <= i < j < |s| ==> LexLe(s[i], s[j])
  }

  /** Every element of `s` is at least `x`. */
  predicate AllAtLeast(x: string, s: seq<string>) {
    forall j :: 0 <= j < |s| ==> LexLe(x, s[j])
  }

  /** A lower bound of a sorted list can go in front of it. */
  lemma PrependSorted(x: string, s: seq<string>)
    requires Sorted(s) && AllAtLeast(x, s)
    ensures Sorted([x] + s)
  {
    forall i, j | 0 <= i < j < |[x] + s| ensures LexLe(([x] + s)[i], ([x] + s)[j]) {
      if i > 0 {
        assert ([x] + s)[i] == s[i - 1];
      }
      assert ([x] + s)[j] == s[j - 1];
    }
  }

  /** A lower bound of a list and of `x` bounds every rearrangement of the list with `x` added. */
  lemma LowerBoundKept(y: string, x: string, s: seq<string>, r: seq<string>)
    requires LexLe(y, x) && AllAtLeast(y, s)
    requires multiset(r) == multiset(s) + multiset{x}
    ensures AllAtLeast(y, r)
  {
    forall k | 0 <= k < |r| ensures LexLe(y, r[k]) {
      assert r[k] in multiset(r);
      if r[k] != x {
        assert r[k] in multiset(s);
        var j :| 0 <= j < |s| && s[j] == r[k];
      }
    }
  }

  /** Insert `x` into a sorted list before the first element it is at most. */
  function Insert(x: string, s: seq<string>): (r: seq<string>)
    requires Sorted(s)
    ensures Sorted(r)
    ensures multiset(r) == multiset(s) + multiset{x}
    decreases |s|
  {
    if s == [] then [x]
    else if LexLe(x, s[0]) then
      assert AllAtLeast(x, s) by {
        forall j | 0 < j < |s| ensures LexLe(x, s[j]) { LexLeTransitive(x, s[0], s[j]); }
      }
      PrependSorted(x, s);
      [x] + s
    else
      LexLeTotal(x, s[0]);
      var rest := Insert(x, s[1..]);
      assert s == [s[0]] + s[1..];
      LowerBoundKept(s[0], x, s[1..], rest);
      PrependSorted(s[0], rest);
      [s[0]] + rest
  }

  /** `sorted(files)`: an insertion sort, ascending; Python's sort is stable but equal names cannot occur in one directory. */
  function Sort(s: seq<string>): (r: seq<string>)
    ensures Sorted(r)
    ensures multiset(r) == multiset(s)
    decreases |s|
  {
    if s == [] then []
    else
      assert s == s[..|s| - 1] + [s[|s| - 1]];
      Insert(s[|s| - 1], Sort(s[..|s| - 1]))
  }

  /** Two sorted arrangements of the same names are identical. */
  lemma {:induction false} SortedUnique(a: seq<string>, b: seq<string>)
    requires Sorted(a) && Sorted(b) && multiset(a) == multiset(b)
    ensures a == b
    decreases |a|
  {
    if a != [] {
      assert |b| == |multiset(b)| == |multiset(a)| == |a|;
      SortedHeadIsLeast(a, b[0]);
      SortedHeadIsLeast(b, a[0]);
      LexLeAntisymmetric(a[0], b[0]);
      SortedTail(a);
      SortedTail(b);
      SortedUnique(a[1..], b[1..]);
    }
  }

  /** The first element of a sorted list is at most any element of it. */
  lemma SortedHeadIsLeast(s: seq<string>, x: string)
    requires Sorted(s) && x in multiset(s)
    ensures LexLe(s[0], x)
  {
    var i :| 0 <= i < |s| && s[i] == x;
    LexLeReflexive(s[0]);
  }

  /** Dropping the head of a sorted list leaves a sorted list of the remaining names. */
  lemma SortedTail(s: seq<string>)
    requires Sorted(s) && s != []
    ensures Sorted(s[1..])
    ensures multiset(s[1..]) == multiset(s) - multiset{s[0]}
  {
    assert s == [s[0]] + s[1..];
  }

  /** The fragment does not depend on the order in which the directory lists its files. */
  lemma SortIgnoresListingOrder(a: seq<string>, b: seq<string>)
    requires multiset(a) == multiset(b)
    ensures Sort(a) == Sort(b)
  {
    SortedUnique(Sort(a), Sort(b));
  }

  // ---------------------------------------------------------------------------
  // '\n'.join and its inverse str.split('\n')

  predicate HasNoNewline(s: string) {
    '\n' !in s
  }

  /** `'\n'.join(lines)`. */
  function Join(lines: seq<string>): (text: string)
    ensures lines != [] ==> StartsWith(text, lines[0])
    ensures |lines| >= 2 ==> |text| > |lines[0]| && text[|lines[0]|] == '\n'
    decreases |lines|
  {
    if lines == [] then []
    else if |lines| == 1 then lines[0]
    else lines[0] + "\n" + Join(lines[1..])
  }

  /** `text.split('\n')`: always at least one piece. */
  function Split(text: string): (pieces: seq<string>)
    ensures |pieces| >= 1
    decreases |text|
  {
    if text == [] then [[]]
    else
      var rest := Split(text[1..]);
      if text[0] == '\n' then [[]] + rest
      else [[text[0]] + rest[0]] + rest[1..]
  }

  lemma {:induction false} SplitPlain(line: string)
    requires HasNoNewline(line)
    ensures Split(line) == [line]
    decreases |line|
  {
    if line != [] {
      SplitPlain(line[1..]);
      assert line == [line[0]] + line[1..];
    }
  }

  lemma {:induction false} SplitLineThenRest(line: string, rest: string)
    requires HasNoNewline(line)
    ensures Split(line + "\n" + rest) == [line] + Split(rest)
    decreases |line|
  {
    if line == [] {
      assert line + "\n" + rest == "\n" + rest;
      assert ("\n" + rest)[1..] == rest;
    } else {
      SplitLineThenRest(line[1..], rest);
      assert (line + "\n" + rest)[1..] == line[1..] + "\n" + rest;
      assert line == [line[0]] + line[1..];
    }
  }

  /** Splitting the joined text at newlines gives the lines back, when no line holds a newline itself. */
  lemma {:induction false} SplitJoin(lines: seq<string>)
    requires |lines| >= 1
    requires forall k :: 0 <= k < |lines| ==> HasNoNewline(lines[k])
    ensures Split(Join(lines)) == lines
    decreases |lines|
  {
    if |lines| == 1 {
      SplitPlain(lines[0]);
    } else {
      SplitJoin(lines[1..]);
      SplitLineThenRest(lines[0], Join(lines[1..]));
      assert lines == [lines[0]] + lines[1..];
    }
  }

  /** Text joined from lines ends with the last line, so no newline follows it. */
  lemma {:induction false} JoinEndsWithLastLine(lines: seq<string>)
    requires |lines| >= 1
    ensures |Join(lines)| >= |lines[|lines| - 1]|
    ensures Join(lines)[|Join(lines)| - |lines[|lines| - 1]|..] == lines[|lines| - 1]
    decreases |lines|
  {
    if |lines| > 1 {
      JoinEndsWithLastLine(lines[1..]);
    }
  }

  // ---------------------------------------------------------------------------
  // The fragment

  /** The three lines of one `<Component>`: the `Source` path is the directory as given, `$(Configuration)` included. */
  function ComponentLines(directoryPath: string, fileName: string): seq<string> {
    [ComponentOpen, FileLine(directoryPath, fileName), ComponentClose]
  }

  const ComponentOpen: string := "      <Component>"
  const ComponentClose: string := "      </Component>"

  /** `<File Source="{directory_path}\{file_name}" />`, indented. */
  function FileLine(directoryPath: string, fileName: string): string {
    "        <File Source=\"" + directoryPath + "\\" + fileName + "\" />"
  }

  /** The component blocks of `files`, in the order given. */
  function Components(directoryPath: string, files: seq<string>): (lines: seq<string>)
    ensures |lines| == 3 * |files|
    decreases |files|
  {
    if files == [] then []
    else Components(directoryPath, files[..|files| - 1]) + ComponentLines(directoryPath, files[|files| - 1])
  }

  lemma FixedLinesHaveNoNewline()
    ensures forall k :: 0 <= k < 3 ==> HasNoNewline(HeaderLines[k]) && HasNoNewline(FooterLines[k])
  {
    HeaderLinesHaveNoNewline();
    FooterLinesHaveNoNewline();
  }

  lemma HeaderLinesHaveNoNewline()
    ensures HasNoNewline(HeaderLines[0]) && HasNoNewline(HeaderLines[1]) && HasNoNewline(HeaderLines[2])
  {
    WixLineHasNoNewline();
    ComponentGroupLineHasNoNewline();
  }

  lemma WixLineHasNoNewline()
    ensures HasNoNewline("<Wix xmlns=\"" + WixNamespace + "\">")
  {
    assert '\n' !in WixNamespace;
    assert '\n' !in "<Wix xmlns=\"" && '\n' !in "\">";
  }

  lemma ComponentGroupLineHasNoNewline()
    ensures HasNoNewline("    <ComponentGroup " + "Id=\"FrameResizerComponents\" " + "Directory=\"INSTALLFOLDER\">")
  {
    assert '\n' !in "    <ComponentGroup " && '\n' !in "Id=\"FrameResizerComponents\" ";
    assert '\n' !in "Directory=\"INSTALLFOLDER\">";
  }

  lemma FooterLinesHaveNoNewline()
    ensures HasNoNewline(FooterLines[0]) && HasNoNewline(FooterLines[1]) && HasNoNewline(FooterLines[2])
  {
  }

  lemma ComponentLinesHaveNoNewline(directoryPath: string, fileName: string)
    requires HasNoNewline(directoryPath) && HasNoNewline(fileName)
    ensures forall k :: 0 <= k < 3 ==> HasNoNewline(ComponentLines(directoryPath, fileName)[k])
  {
    assert HasNoNewline(ComponentOpen) && HasNoNewline(ComponentClose);
    assert HasNoNewline(FileLine(directoryPath, fileName));
  }

  /** Component block `k` is the block of file `k`. */
  lemma {:induction false} ComponentsAt(directoryPath: string, files: seq<string>, k: nat)
    requires k < |files|
    ensures Components(directoryPath, files)[3 * k..3 * k + 3] == ComponentLines(directoryPath, files[k])
    decreases |files|
  {
    var init := Components(directoryPath, files[..|files| - 1]);
    if k < |files| - 1 {
      ComponentsAt(directoryPath, files[..|files| - 1], k);
      assert Components(directoryPath, files)[3 * k..3 * k + 3] == init[3 * k..3 * k + 3];
    }
  }

  /** All lines of the fragment for an already sorted list of files. */
  function FragmentLines(directoryPath: string, sortedFiles: seq<string>): seq<string> {
    HeaderLines + Components(directoryPath, sortedFiles) + FooterLines
  }

  /** The names the listing keeps: entries for which `os.path.isfile` holds, in listing order. */
  function RegularFiles(entries: seq<Entry>): (files: seq<string>)
    ensures |files| <= |entries|
    ensures forall n :: n in files <==> Entry(n, true) in entries
    decreases |entries|
  {
    if entries == [] then []
    else
      var init := RegularFiles(entries[..|entries| - 1]);
      var last := entries[|entries| - 1];
      assert entries == entries[..|entries| - 1] + [last];
      if last.isFile then init + [last.name] else init
  }

  /** What `generate_wix_components` returns, as a function of its inputs and the file system. */
  function Fragment(directoryPath: string, configuration: string, fileSystem: map<string, Directory>): (xml: Option<string>)
    ensures var actualPath := ReplaceAll(directoryPath, ConfigurationPlaceholder, configuration);
            xml.Some? ==> actualPath in fileSystem && fileSystem[actualPath].Listing?
    ensures xml.Some? ==> StartsWith(xml.value, HeaderLines[0])
    ensures xml.Some? ==> |xml.value| >= 6 && xml.value[|xml.value| - 6..] == "</Wix>"
  {
    var actualPath := ReplaceAll(directoryPath, ConfigurationPlaceholder, configuration);
    if actualPath !in fileSystem || fileSystem[actualPath].Unreadable? then None
    else
      var files := RegularFiles(fileSystem[actualPath].entries);
      if files == [] then None
      else
        var lines := FragmentLines(directoryPath, Sort(files));
        JoinEndsWithLastLine(lines);
        assert lines[|lines| - 1] == FooterLines[2];
        Some(Join(lines))
  }

  /**
   * The XML-building part of `generate_wix_components`: the lines are
   * appended one by one, three per file in the order given.
   */
  method BuildFragmentLines(directoryPath: string, sortedFiles: seq<string>) returns (xmlLines: seq<string>)
    ensures xmlLines == FragmentLines(directoryPath, sortedFiles)
  {
    xmlLines := [];
    xmlLines := xmlLines + [HeaderLines[0]];
    xmlLines := xmlLines + [HeaderLines[1]];
    xmlLines := xmlLines + [HeaderLines[2]];
    var i := 0;
    while i < |sortedFiles|
      invariant 0 <= i <= |sortedFiles|
      invariant xmlLines == HeaderLines + Components(directoryPath, sortedFiles[..i])
    {
      assert sortedFiles[..i + 1][..i] == sortedFiles[..i];
      xmlLines := xmlLines + [ComponentOpen];
      xmlLines := xmlLines + [FileLine(directoryPath, sortedFiles[i])];
      xmlLines := xmlLines + [ComponentClose];
      i := i + 1;
    }
    assert sortedFiles[..i] == sortedFiles;
    xmlLines := xmlLines + [FooterLines[0]];
    xmlLines := xmlLines + [FooterLines[1]];
    xmlLines := xmlLines + [FooterLines[2]];
  }

  /**
   * `generate_wix_components(directory_path, configuration)`: the lookup uses
   * the path with `$(Configuration)` substituted; the lines are joined with
   * newlines.
   */
  method GenerateWixComponents(directoryPath: string, configuration: string, fileSystem: map<string, Directory>)
    returns (xml: Option<string>)
    ensures xml == Fragment(directoryPath, configuration, fileSystem)
  {
    var actualPath := ReplaceAll(directoryPath, ConfigurationPlaceholder, configuration);
    if actualPath !in fileSystem || fileSystem[actualPath].Unreadable? {
      return None;
    }
    var files := RegularFiles(fileSystem[actualPath].entries);
    if files == [] {
      return None;
    }
    var xmlLines := BuildFragmentLines(directoryPath, Sort(files));
    xml := Some(Join(xmlLines));
  }

  /** None exactly when the substituted path is missing or unreadable, or it holds no regular file. */
  lemma FragmentNoneCases(directoryPath: string, configuration: string, fileSystem: map<string, Directory>)
    ensures var actualPath := ReplaceAll(directoryPath, ConfigurationPlaceholder, configuration);
            Fragment(directoryPath, configuration, fileSystem).None? <==>
              (actualPath !in fileSystem || fileSystem[actualPath].Unreadable? ||
               forall e :: e in fileSystem[actualPath].entries ==> !e.isFile)
  {
    var actualPath := ReplaceAll(directoryPath, ConfigurationPlaceholder, configuration);
    if actualPath in fileSystem && fileSystem[actualPath].Listing? {
      var entries := fileSystem[actualPath].entries;
      var files := RegularFiles(entries);
      if files != [] {
        assert files[0] in files;
        assert Entry(files[0], true) in entries;
      } else {
        forall e | e in entries ensures !e.isFile {
          assert !e.isFile || e == Entry(e.name, true);
        }
      }
    }
  }

  /** The fragment's lines: three opening lines, three per file in the given order, three closing lines. */
  lemma FragmentLinesShape(directoryPath: string, files: seq<string>)
    ensures var lines := FragmentLines(directoryPath, files);
            && |lines| == 6 + 3 * |files|
            && lines[..3] == HeaderLines
            && lines[|lines| - 3..] == FooterLines
            && forall k :: 0 <= k < |files| ==> lines[3 + 3 * k..6 + 3 * k] == ComponentLines(directoryPath, files[k])
  {
    var lines := FragmentLines(directoryPath, files);
    var components := Components(directoryPath, files);
    forall k | 0 <= k < |files| ensures lines[3 + 3 * k..6 + 3 * k] == ComponentLines(directoryPath, files[k]) {
      ComponentsAt(directoryPath, files, k);
      assert lines[3 + 3 * k..6 + 3 * k] == components[3 * k..3 * k + 3];
    }
  }

  /** No line of the fragment holds a newline when the directory path and the file names hold none. */
  lemma FragmentLinesHaveNoNewline(directoryPath: string, files: seq<string>)
    requires HasNoNewline(directoryPath)
    requires forall k :: 0 <= k < |files| ==> HasNoNewline(files[k])
    ensures forall k :: 0 <= k < |FragmentLines(directoryPath, files)| ==> HasNoNewline(FragmentLines(directoryPath, files)[k])
  {
    var lines := FragmentLines(directoryPath, files);
    FragmentLinesShape(directoryPath, files);
    forall k | 0 <= k < |lines| ensures HasNoNewline(lines[k]) {
      if 3 <= k < |lines| - 3 {
        var f := (k - 3) / 3;
        assert lines[3 + 3 * f..6 + 3 * f] == ComponentLines(directoryPath, files[f]);
        assert lines[k] == ComponentLines(directoryPath, files[f])[k - 3 - 3 * f];
        ComponentLinesHaveNoNewline(directoryPath, files[f]);
      } else if k < 3 {
        assert lines[k] == HeaderLines[k];
        FixedLinesHaveNoNewline();
      } else {
        assert lines[k] == FooterLines[k - (|lines| - 3)];
        FixedLinesHaveNoNewline();
      }
    }
  }

  /**
   * The text itself: when the directory path and the file names hold no
   * newline, splitting it at newlines gives `6 + 3 * n` lines for `n` files,
   * the fixed opening lines, one component per file in sorted order (whose
   * `Source` is the unsubstituted directory path, a backslash and the name)
   * and the fixed closing lines; the text ends with `</Wix>`, with no newline
   * after it.
   */
  lemma FragmentText(directoryPath: string, sortedFiles: seq<string>)
    requires HasNoNewline(directoryPath)
    requires forall k :: 0 <= k < |sortedFiles| ==> HasNoNewline(sortedFiles[k])
    ensures var text := Join(FragmentLines(directoryPath, sortedFiles));
            var lines := Split(text);
            && |lines| == 6 + 3 * |sortedFiles|
            && lines[..3] == HeaderLines
            && lines[|lines| - 3..] == FooterLines
            && (forall k :: 0 <= k < |sortedFiles| ==>
                  lines[3 + 3 * k..6 + 3 * k] == ComponentLines(directoryPath, sortedFiles[k]))
            && |text| >= 6 && text[|text| - 6..] == "</Wix>"
  {
    var fragment := FragmentLines(directoryPath, sortedFiles);
    FragmentLinesShape(directoryPath, sortedFiles);
    FragmentLinesHaveNoNewline(directoryPath, sortedFiles);
    SplitJoin(fragment);
    JoinEndsWithLastLine(fragment);
  }

  /** A fragment that is produced lists the sorted regular files of the substituted path. */
  lemma FragmentContents(directoryPath: string, configuration: string, fileSystem: map<string, Directory>)
    requires Fragment(directoryPath, configuration, fileSystem).Some?
    ensures var actualPath := ReplaceAll(directoryPath, ConfigurationPlaceholder, configuration);
            var files := Sort(RegularFiles(fileSystem[actualPath].entries));
            && files != []
            && Sorted(files)
            && (forall n :: n in files <==> Entry(n, true) in fileSystem[actualPath].entries)
            && Fragment(directoryPath, configuration, fileSystem).value == Join(FragmentLines(directoryPath, files))
  {
    var actualPath := ReplaceAll(directoryPath, ConfigurationPlaceholder, configuration);
    var regular := RegularFiles(fileSystem[actualPath].entries);
    var files := Sort(regular);
    forall n ensures n in files <==> n in regular {
      assert n in files <==> n in multiset(files);
      assert n in regular <==> n in multiset(regular);
    }
    assert |files| == |multiset(files)| == |multiset(regular)| == |regular|;
  }

  /** The fragment is the same whatever order the directory listing comes in. */
  lemma FragmentIgnoresListingOrder(directoryPath: string, configuration: string,
                                    entries1: seq<Entry>, entries2: seq<Entry>, fileSystem: map<string, Directory>)
    requires multiset(RegularFiles(entries1)) == multiset(RegularFiles(entries2))
    ensures var actualPath := ReplaceAll(directoryPath, ConfigurationPlaceholder, configuration);
            Fragment(directoryPath, configuration, fileSystem[actualPath := Listing(entries1)]) ==
            Fragment(directoryPath, configuration, fileSystem[actualPath := Listing(entries2)])
  {
    SortIgnoresListingOrder(RegularFiles(entries1), RegularFiles(entries2));
  }

  /** Replacement leaves a prefix in which no occurrence starts untouched. */
  lemma {:induction false} ReplaceAllSkipsPrefix(prefix: string, rest: string, pattern: string, replacement: string)
    requires pattern != []
    requires forall i :: 0 <= i < |prefix| ==> !StartsWith((prefix + rest)[i..], pattern)
    ensures ReplaceAll(prefix + rest, pattern, replacement) == prefix + ReplaceAll(rest, pattern, replacement)
    decreases |prefix|
  {
    if prefix != [] {
      var s := prefix + rest;
      assert s[0..] == s;
      assert !StartsWith(s, pattern);
      assert s[1..] == prefix[1..] + rest;
      assert prefix == [prefix[0]] + prefix[1..];
      forall i | 0 <= i < |prefix[1..]| ensures !StartsWith((prefix[1..] + rest)[i..], pattern) {
        assert (prefix[1..] + rest)[i..] == s[i + 1..];
      }
      ReplaceAllSkipsPrefix(prefix[1..], rest, pattern, replacement);
      assert ReplaceAll(s, pattern, replacement) == [s[0]] + ReplaceAll(s[1..], pattern, replacement);
      assert s[0] == prefix[0];
      assert [prefix[0]] + (prefix[1..] + ReplaceAll(rest, pattern, replacement)) ==
             prefix + ReplaceAll(rest, pattern, replacement);
    } else {
      assert prefix + rest == rest;
    }
  }

  /**
   * A directory path holding the placeholder once, with no other occurrence,
   * is looked up with the configuration in its place.
   */
  lemma SinglePlaceholderSubstituted(before: string, after: string, configuration: string)
    requires forall i :: 0 <= i < |before| ==> !StartsWith((before + ConfigurationPlaceholder + after)[i..], ConfigurationPlaceholder)
    requires forall i :: 0 <= i <= |after| ==> !StartsWith(after[i..], ConfigurationPlaceholder)
    ensures ReplaceAll(before + ConfigurationPlaceholder + after, ConfigurationPlaceholder, configuration) ==
            before + configuration + after
  {
    var p := ConfigurationPlaceholder;
    assert before + p + after == before + (p + after);
    ReplaceAllSkipsPrefix(before, p + after, p, configuration);
    assert StartsWith(p + after, p);
    assert (p + after)[|p|..] == after;
    ReplaceAllWithoutPattern(after, p, configuration);
  }
}
