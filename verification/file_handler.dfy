/**
 * FileHandler: where directories and files go under the data root, and which file
 * names and types are accepted. Paths are `pathlib` paths in parsed form; the data
 * root is a parameter.
 */
module Files {
  import opened Results
  import opened Seqs

  /** A parsed path: whether it is absolute, and its names in order. */
  datatype Path = Path(absolute: bool, parts: seq<string>)

  /** A name pathlib keeps: not empty, not ".", no separator. */
  predicate IsName(x: string) { x != "" && x != "." && '/' !in x }

  predicate WellFormed(p: Path) { forall i :: 0 <= i < |p.parts| ==> IsName(p.parts[i]) }

  /** `s` cut at every '/'. */
  function Segments(s: string): (r: seq<string>)
    ensures |r| >= 1
    ensures forall i :: 0 <= i < |r| ==> '/' !in r[i]
    decreases |s|
  {
    if '/' !in s then [s]
    else
      var k := FirstIndex(s, '/');
      FirstIndexBefore(s, '/');
      assert '/' !in s[..k];
      [s[..k]] + Segments(s[k + 1..])
  }

  /** Text that pathlib reads as an absolute path. */
  predicate Rooted(s: string) { |s| > 0 && s[0] == '/' }

  /** `Path(s)`: a leading '/' makes it absolute; empty and "." segments are dropped. */
  function ParsePath(s: string): (p: Path)
    ensures WellFormed(p)
    ensures p.absolute <==> Rooted(s)
  {
    var parts := Filter(Segments(s), IsNameSegment);
    FilterMembers(Segments(s), IsNameSegment);
    assert forall i :: 0 <= i < |parts| ==> parts[i] in parts;
    Path(Rooted(s), parts)
  }

  function IsNameSegment(x: string): bool { x != "" && x != "." }

  /** Names joined with '/'. */
  function JoinNames(parts: seq<string>): string {
    if |parts| == 0 then "" else if |parts| == 1 then parts[0] else parts[0] + "/" + JoinNames(parts[1..])
  }

  /** `str(p)`, except that an empty relative path renders as "" rather than ".". */
  function Render(p: Path): string {
    (if p.absolute then "/" else "") + JoinNames(p.parts)
  }

  /** A separator-free head is the first segment. */
  lemma SegmentsOfConcat(a: string, b: string)
    requires '/' !in a
    ensures Segments(a + "/" + b) == [a] + Segments(b)
  {
    var s := a + "/" + b;
    var k := |a|;
    assert s[k] == '/';
    forall j | 0 <= j < k
      ensures s[j] != '/'
    {
      assert s[j] == a[j];
      assert a[j] in a;
    }
    FirstIndexIsFirst(s, '/', k);
    assert s[..k] == a;
    assert s[k + 1..] == b;
  }

  lemma {:induction false} SegmentsOfJoin(parts: seq<string>)
    requires |parts| >= 1
    requires forall i :: 0 <= i < |parts| ==> '/' !in parts[i]
    ensures Segments(JoinNames(parts)) == parts
  {
    if |parts| > 1 {
      assert JoinNames(parts) == parts[0] + "/" + JoinNames(parts[1..]);
      SegmentsOfConcat(parts[0], JoinNames(parts[1..]));
      SegmentsOfJoin(parts[1..]);
      assert parts == [parts[0]] + parts[1..];
    }
  }

  lemma {:induction false} FilterKeepsAll(s: seq<string>)
    requires forall i :: 0 <= i < |s| ==> IsName(s[i])
    ensures Filter(s, IsNameSegment) == s
  {
    if s != [] {
      FilterKeepsAll(s[1..]);
    }
  }

  /** A leading '/' contributes one empty segment. */
  lemma SegmentsAfterSlash(j: string)
    ensures Segments("/" + j) == [""] + Segments(j)
  {
    var s := "/" + j;
    assert FirstIndex(s, '/') == 0;
    assert s[..0] == "" && s[1..] == j;
  }

  /** Parsing drops an empty segment. */
  lemma DropEmptyHead(rest: seq<string>)
    ensures Filter([""] + rest, IsNameSegment) == Filter(rest, IsNameSegment)
  {
    FilterConcat([""], rest, IsNameSegment);
    assert [""][1..] == [];
  }

  /** The empty path, relative or absolute, parses back from its rendering. */
  lemma ParseRenderEmpty(absolute: bool)
    ensures ParsePath(Render(Path(absolute, []))) == Path(absolute, [])
  {
    assert Segments("") == [""];
    DropEmptyHead([]);
    if absolute {
      assert Render(Path(absolute, [])) == "/" + "";
      SegmentsAfterSlash("");
      DropEmptyHead([""]);
    } else {
      assert Render(Path(absolute, [])) == "";
    }
  }

  /** A path with names parses back from its rendering. */
  lemma ParseRenderNames(p: Path)
    requires WellFormed(p) && p.parts != []
    ensures ParsePath(Render(p)) == p
  {
    var j := JoinNames(p.parts);
    FilterKeepsAll(p.parts);
    SegmentsOfJoin(p.parts);
    if p.absolute {
      assert Render(p) == "/" + j;
      SegmentsAfterSlash(j);
      DropEmptyHead(p.parts);
    } else {
      assert Render(p) == j;
    }
  }

  /** `Path(str(p)) == p` for every path pathlib can produce. */
  lemma ParseRender(p: Path)
    requires WellFormed(p)
    ensures ParsePath(Render(p)) == p
  {
    if p.parts == [] {
      ParseRenderEmpty(p.absolute);
    } else {
      ParseRenderNames(p);
    }
  }

  /** `base / s`: an absolute right operand replaces the base. */
  function JoinPath(base: Path, s: string): (r: Path)
    ensures var q := ParsePath(s); q.absolute ==> r == q
    ensures var q := ParsePath(s); !q.absolute ==> r == Path(base.absolute, base.parts + q.parts)
  {
    var q := ParsePath(s);
    if q.absolute then q else Path(base.absolute, base.parts + q.parts)
  }

  /** `base.joinpath(*paths)`: the components joined one after another. */
  function JoinAll(base: Path, paths: seq<string>): Path
    decreases |paths|
  {
    if paths == [] then base else JoinAll(JoinPath(base, paths[0]), paths[1..])
  }

  /** All names of the components, in order. */
  function NamesOf(paths: seq<string>): seq<string> {
    if paths == [] then [] else ParsePath(paths[0]).parts + NamesOf(paths[1..])
  }

  /** Joining relative components appends all their names in order. */
  lemma {:induction false} JoinAllRelative(base: Path, paths: seq<string>)
    requires forall i :: 0 <= i < |paths| ==> !Rooted(paths[i])
    ensures JoinAll(base, paths) == Path(base.absolute, base.parts + NamesOf(paths))
    decreases |paths|
  {
    if paths != [] {
      var rest := paths[1..];
      var first := ParsePath(paths[0]).parts;
      var next := JoinPath(base, paths[0]);
      assert next == Path(base.absolute, base.parts + first);
      forall i | 0 <= i < |rest|
        ensures !Rooted(rest[i])
      {
        assert rest[i] == paths[i + 1];
      }
      JoinAllRelative(next, rest);
      assert JoinAll(base, paths) == JoinAll(next, rest);
      assert NamesOf(paths) == first + NamesOf(rest);
      assert (base.parts + first) + NamesOf(rest) == base.parts + NamesOf(paths);
    }
  }

  /**
   * `get_directory_path(*paths)`: IndexError without components; an absolute first
   * component is returned as it is and the others are ignored; otherwise all of them
   * are joined under the data root.
   */
  function GetDirectoryPath(root: Path, paths: seq<string>): (r: Result<Path>)
    ensures paths == [] <==> r == Err(IndexError)
    ensures r.Err? ==> r.error == IndexError
    ensures paths != [] && Rooted(paths[0]) ==> r == Ok(ParsePath(paths[0]))
    ensures (paths != [] && forall i :: 0 <= i < |paths| ==> !Rooted(paths[i])) ==>
      r == Ok(Path(root.absolute, root.parts + NamesOf(paths)))
  {
    if paths == [] then Err(IndexError)
    else
      var first := ParsePath(paths[0]);
      if first.absolute then Ok(first)
      else
        assert (forall i :: 0 <= i < |paths| ==> !Rooted(paths[i])) ==>
          JoinAll(root, paths) == Path(root.absolute, root.parts + NamesOf(paths)) by {
          if forall i :: 0 <= i < |paths| ==> !Rooted(paths[i]) {
            JoinAllRelative(root, paths);
          }
        }
        Ok(JoinAll(root, paths))
  }

  /** `get_file_path(*paths)`: the same rule as `get_directory_path`. */
  function GetFilePath(root: Path, paths: seq<string>): (r: Result<Path>)
    ensures paths == [] <==> r == Err(IndexError)
    ensures paths != [] && Rooted(paths[0]) ==> r == Ok(ParsePath(paths[0]))
    ensures (paths != [] && forall i :: 0 <= i < |paths| ==> !Rooted(paths[i])) ==>
      r == Ok(Path(root.absolute, root.parts + NamesOf(paths)))
  {
    GetDirectoryPath(root, paths)
  }

  /** `Path(name)` for a single name. */
  lemma ParseName(x: string)
    requires IsName(x)
    ensures ParsePath(x) == Path(x[0] == '/', [x])
  {
    assert Segments(x) == [x];
    assert [x][1..] == [];
  }

  /** Joining a single name appends it to the base. */
  lemma JoinName(base: Path, x: string)
    requires IsName(x)
    ensures JoinPath(base, x) == Path(base.absolute, base.parts + [x])
  {
    ParseName(x);
    assert x[0] in x;
  }

  lemma ParseRooted(x: string)
    requires IsName(x)
    ensures ParsePath("/" + x) == Path(true, [x])
  {
    var s := "/" + x;
    assert FirstIndex(s, '/') == 0;
    assert s[..0] == "" && s[1..] == x;
    assert Segments(s) == [""] + Segments(x);
    assert Segments(x) == [x];
    FilterConcat([""], [x], IsNameSegment);
    assert [""][1..] == [] && [x][1..] == [];
  }

  lemma ParseTwoNames(x: string, y: string)
    requires IsName(x) && IsName(y)
    ensures ParsePath(x + "/" + y) == Path(false, [x, y])
  {
    SegmentsOfJoin([x, y]);
    assert JoinNames([x, y]) == x + "/" + y by {
      assert [x, y][1..] == [y];
    }
    FilterKeepsAll([x, y]);
  }

  /** Creating a relative `x/y` places both names under the data root. */
  lemma CreateNested(root: Path, x: string, y: string)
    requires IsName(x) && IsName(y)
    ensures CreateDirectory(root, x + "/" + y) == Path(root.absolute, root.parts + [x, y])
  {
    ParseTwoNames(x, y);
  }

  /** A later absolute component (not the first) still resets the join, as pathlib does. */
  lemma LaterAbsoluteResets(root: Path, a: string, x: string, b: string)
    requires IsName(a) && IsName(x) && IsName(b)
    ensures GetDirectoryPath(root, [a, "/" + x, b]) == Ok(Path(true, [x, b]))
  {
    var paths := [a, "/" + x, b];
    JoinName(root, a);
    ParseRooted(x);
    var p1 := JoinPath(root, a);
    var p2 := JoinPath(p1, "/" + x);
    assert p2 == Path(true, [x]);
    JoinName(p2, b);
    assert !Rooted(a) by { assert a[0] in a; }
    assert paths[1..] == ["/" + x, b] && paths[1..][1..] == [b];
    assert JoinAll(p2, [b]) == JoinAll(Path(true, [x, b]), []);
    assert JoinAll(p1, paths[1..]) == JoinAll(p2, [b]);
    assert JoinAll(root, paths) == JoinAll(p1, paths[1..]);
  }

  /** A component holding a separator contributes each of its names. */
  lemma NestedComponent(root: Path, a: string, b: string, c: string)
    requires IsName(a) && IsName(b) && IsName(c)
    ensures GetDirectoryPath(root, [a, b + "/" + c]) == Ok(Path(root.absolute, root.parts + [a, b, c]))
  {
    var bc := b + "/" + c;
    var paths := [a, bc];
    ParseName(a);
    ParseTwoNames(b, c);
    assert !Rooted(a) by { assert a[0] in a; }
    assert !Rooted(bc) by { assert bc[0] == b[0] && b[0] in b; }
    assert paths[1..] == [bc] && paths[1..][1..] == [];
    assert NamesOf([bc]) == [b, c] + NamesOf([]);
    assert NamesOf(paths) == [a] + NamesOf([bc]);
    assert [b, c] + [] == [b, c] && [a] + [b, c] == [a, b, c];
    assert NamesOf(paths) == [a, b, c];
    assert forall i :: 0 <= i < |paths| ==> !Rooted(paths[i]);
    assert GetDirectoryPath(root, paths) == Ok(Path(root.absolute, root.parts + NamesOf(paths)));
  }

  /** The directory `create_directory(path)` makes: an absolute path as given, else under the data root. */
  function CreateDirectory(root: Path, path: string): (r: Path)
    ensures ParsePath(path).absolute ==> r == ParsePath(path)
    ensures !ParsePath(path).absolute ==> r == Path(root.absolute, root.parts + ParsePath(path).parts)
  {
    JoinPath(root, path)
  }

  predicate IsNameChar(c: char) {
    'A' <= c <= 'Z' || 'a' <= c <= 'z' || '0' <= c <= '9' || c == '_' || c == '-'
  }

  predicate IsAlnum(c: char) {
    'A' <= c <= 'Z' || 'a' <= c <= 'z' || '0' <= c <= '9'
  }

  /** A full match of `[A-Za-z0-9_-]+`. */
  predicate ValidFileName(s: string) {
    |s| > 0 && forall i :: 0 <= i < |s| ==> IsNameChar(s[i])
  }

  /** A full match of `[A-Za-z0-9]+`. */
  predicate ValidFileType(s: string) {
    |s| > 0 && forall i :: 0 <= i < |s| ==> IsAlnum(s[i])
  }

  /**
   * `re.match(r'^[A-Za-z0-9_-]+$', s)` as written: `$` also matches just before a
   * final newline, so one trailing "\n" is accepted.
   */
  predicate FileNameMatchesAsWritten(s: string) {
    ValidFileName(s) || (|s| > 1 && s[|s| - 1] == '\n' && ValidFileName(s[..|s| - 1]))
  }

  /** `not file_type or not re.match(r'^[A-Za-z0-9]+$', file_type)` negated, as written. */
  predicate FileTypeMatchesAsWritten(s: string) {
    ValidFileType(s) || (|s| > 1 && s[|s| - 1] == '\n' && ValidFileType(s[..|s| - 1]))
  }

  function LowerChar(c: char): char {
    if 'A' <= c <= 'Z' then (c as int + 32) as char else c
  }

  /** `str.lower()` on ASCII text. */
  function AsciiLower(s: string): (r: string)
    ensures |r| == |s|
    ensures forall i :: 0 <= i < |s| ==> r[i] == LowerChar(s[i])
  {
    if s == [] then [] else [LowerChar(s[0])] + AsciiLower(s[1..])
  }

  /** The path `create_file` makes, with the validation exactly as written. */
  function CreateFileAsWritten(root: Path, directory: string, fileName: string, fileType: string): (r: Result<Path>)
    ensures r.Ok? <==> FileNameMatchesAsWritten(fileName) && FileTypeMatchesAsWritten(fileType)
  {
    if !FileNameMatchesAsWritten(fileName) then Err(ValueError(InvalidFileName))
    else if !FileTypeMatchesAsWritten(fileType) then Err(ValueError(InvalidFileType))
    else
      var dir := CreateDirectory(root, directory);
      Ok(Path(dir.absolute, dir.parts + [fileName + "." + AsciiLower(fileType)]))
  }

  /** As written, a name ending in a newline passes both checks, and the created file's name holds the newline. */
  lemma TrailingNewlineAccepted(root: Path)
    ensures FileNameMatchesAsWritten("report\n") && !ValidFileName("report\n")
    ensures FileTypeMatchesAsWritten("txt\n") && !ValidFileType("txt\n")
    ensures CreateFileAsWritten(root, "reports", "report\n", "txt").Ok?
    ensures var p := CreateFileAsWritten(root, "reports", "report\n", "txt").value;
      '\n' in p.parts[|p.parts| - 1]
  {
    assert "report\n"[..6] == "report";
    assert !IsNameChar("report\n"[6]);
    assert "txt\n"[..3] == "txt";
    assert !IsAlnum("txt\n"[3]);
    var p := CreateFileAsWritten(root, "reports", "report\n", "txt").value;
    var last := "report\n" + "." + AsciiLower("txt");
    assert p.parts[|p.parts| - 1] == last;
    assert last[6] == '\n';
  }

  /** The file name `name.type` with the type lower-cased: name characters, a point, then lower-case letters and digits. */
  lemma StoredName(fileName: string, fileType: string)
    requires ValidFileName(fileName) && ValidFileType(fileType)
    ensures var last := fileName + "." + AsciiLower(fileType);
      && |last| == |fileName| + 1 + |fileType|
      && (forall i :: 0 <= i < |fileName| ==> IsNameChar(last[i]))
      && last[|fileName|] == '.'
      && (forall i :: |fileName| < i < |last| ==> ('a' <= last[i] <= 'z' || '0' <= last[i] <= '9'))
  {
    var lower := AsciiLower(fileType);
    var last := fileName + "." + lower;
    forall i | 0 <= i < |fileName|
      ensures IsNameChar(last[i])
    {
      assert last[i] == fileName[i];
    }
    forall i | |fileName| < i < |last|
      ensures 'a' <= last[i] <= 'z' || '0' <= last[i] <= '9'
    {
      var k := i - |fileName| - 1;
      assert last[i] == lower[k] == LowerChar(fileType[k]);
      assert IsAlnum(fileType[k]);
    }
  }

  /**
   * `create_file` with the intended full-match validation: ValueError for a bad name
   * (checked first) or a bad type; otherwise the file `name.type` (type lower-cased)
   * inside the directory `create_directory` resolves.
   */
  function CreateFile(root: Path, directory: string, fileName: string, fileType: string): (r: Result<Path>)
    ensures !ValidFileName(fileName) ==> r == Err(ValueError(InvalidFileName))
    ensures ValidFileName(fileName) && !ValidFileType(fileType) ==> r == Err(ValueError(InvalidFileType))
    ensures r.Ok? <==> ValidFileName(fileName) && ValidFileType(fileType)
    ensures r.Ok? ==> |r.value.parts| >= 1
    ensures r.Ok? ==> r.value.parts[..|r.value.parts| - 1] == CreateDirectory(root, directory).parts
    ensures r.Ok? ==> r.value.absolute == CreateDirectory(root, directory).absolute
    ensures r.Ok? ==> var last := r.value.parts[|r.value.parts| - 1];
      && last == fileName + "." + AsciiLower(fileType)
      && |last| == |fileName| + 1 + |fileType|
      && (forall i :: 0 <= i < |fileName| ==> IsNameChar(last[i]))
      && last[|fileName|] == '.'
      && (forall i :: |fileName| < i < |last| ==> ('a' <= last[i] <= 'z' || '0' <= last[i] <= '9'))
  {
    if !ValidFileName(fileName) then Err(ValueError(InvalidFileName))
    else if !ValidFileType(fileType) then Err(ValueError(InvalidFileType))
    else
      var dir := CreateDirectory(root, directory);
      var last := fileName + "." + AsciiLower(fileType);
      StoredName(fileName, fileType);
      var parts := dir.parts + [last];
      assert parts[..|parts| - 1] == dir.parts && parts[|parts| - 1] == last;
      Ok(Path(dir.absolute, parts))
  }

  /** Where intended and as-written validation agree: names without a trailing newline. */
  lemma AsWrittenAgreesWithoutNewline(root: Path, directory: string, fileName: string, fileType: string)
    requires |fileName| > 0 && fileName[|fileName| - 1] != '\n'
    requires |fileType| > 0 && fileType[|fileType| - 1] != '\n'
    ensures CreateFileAsWritten(root, directory, fileName, fileType) == CreateFile(root, directory, fileName, fileType)
  {
  }
}
