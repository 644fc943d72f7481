/**
 * FileDownloadController.downloadFile: a chain of guards from a requested file name to a
 * markdown attachment or an error status. Paths are modelled as java.nio paths on a Unix file
 * system: a root flag and a sequence of name elements.
 */
module Download {
  import opened JavaStrings

  datatype Path = Path(absolute: bool, names: seq<string>)

  /** The application's temporary directory, `Paths.get("temp")`: a relative path. */
  const TEMP_DIR := Path(false, ["temp"])

  /** Path.resolve with a single name element (the name holds no separator). */
  function Resolve(p: Path, name: string): Path {
    if name == "" then p else Path(p.absolute, p.names + [name])
  }

  /**
   * Path.normalize: "." elements vanish and ".." cancels the element before it; a ".." that
   * has nothing to cancel stays in a relative path and vanishes at a root.
   */
  function Normalize(p: Path): (r: Path)
    ensures r.absolute == p.absolute
  {
    Path(p.absolute, NormalizeNames(p.absolute, [], p.names))
  }

  function NormalizeNames(absolute: bool, done: seq<string>, rest: seq<string>): seq<string>
    decreases |rest|
  {
    if rest == [] then done
    else if rest[0] == "." then NormalizeNames(absolute, done, rest[1..])
    else if rest[0] == ".." && done != [] && done[|done| - 1] != ".." then
      NormalizeNames(absolute, done[..|done| - 1], rest[1..])
    else if rest[0] == ".." && absolute && done == [] then NormalizeNames(absolute, done, rest[1..])
    else NormalizeNames(absolute, done + [rest[0]], rest[1..])
  }

  /** Path.toAbsolutePath against the working directory's name elements. */
  function ToAbsolutePath(p: Path, cwd: seq<string>): (r: Path)
    ensures r.absolute
  {
    if p.absolute then p else Path(true, cwd + p.names)
  }

  /** Path.startsWith(Path): the same kind of root, and the other's elements are a prefix of this one's. */
  predicate PathStartsWith(p: Path, other: Path) {
    p.absolute == other.absolute && |other.names| <= |p.names| && p.names[..|other.names|] == other.names
  }

  /** Characters of `\w`, `-` and `.`. */
  predicate SafeChar(c: char) {
    ('a' <= c <= 'z') || ('A' <= c <= 'Z') || ('0' <= c <= '9') || c == '_' || c == '-' || c == '.'
  }

  /** The pattern `^[\w\-.]+$` matched against the whole name, and no "..". */
  predicate ValidName(filename: string) {
    filename != [] && (forall i | 0 <= i < |filename| :: SafeChar(filename[i])) && !Contains(filename, "..")
  }

  predicate MarkdownName(filename: string) {
    EndsWith(ToLower(filename), ".md")
  }

  datatype HttpStatus = BAD_REQUEST | NOT_FOUND | INTERNAL_SERVER_ERROR

  datatype Response =
    | Ok(contentType: string, contentDisposition: string, file: Path)
    | Rejected(status: HttpStatus, reason: string)

  const INVALID_FORMAT := "Invalid filename format."
  const NOT_MARKDOWN := "Only .md files can be downloaded."
  const INVALID_PATH := "Invalid file path."
  const NOT_READABLE := "File not found or cannot be read."
  const DOWNLOAD_ERROR := "An error occurred while downloading the file."

  /**
   * The steps after the containment check: an existing readable file becomes a markdown
   * attachment named after the file, anything else NOT_FOUND; a failure while the resource is
   * examined (`resourceFails`) becomes INTERNAL_SERVER_ERROR.
   */
  function Serve(filename: string, file: Path, cwd: seq<string>, readable: set<Path>, resourceFails: bool): (r: Response)
    ensures r.Ok? <==> !resourceFails && ToAbsolutePath(file, cwd) in readable
    ensures r.Ok? ==> (&& r.contentType == "text/markdown"
                       && r.contentDisposition == "attachment; filename=\"" + filename + "\""
                       && r.file == ToAbsolutePath(file, cwd))
    ensures r.Rejected? ==> r.status != BAD_REQUEST
  {
    if resourceFails then Rejected(INTERNAL_SERVER_ERROR, DOWNLOAD_ERROR)
    else if ToAbsolutePath(file, cwd) in readable then
      Ok("text/markdown", "attachment; filename=\"" + filename + "\"", ToAbsolutePath(file, cwd))
    else Rejected(NOT_FOUND, NOT_READABLE)
  }

  /** downloadFile as written: the resolved relative path is compared with the absolute temp directory. */
  function DownloadFile(filename: string, cwd: seq<string>, readable: set<Path>, resourceFails: bool): (r: Response)
    ensures !ValidName(filename) ==> r == Rejected(BAD_REQUEST, INVALID_FORMAT)
    ensures ValidName(filename) && !MarkdownName(filename) ==> r == Rejected(BAD_REQUEST, NOT_MARKDOWN)
  {
    if !ValidName(filename) then Rejected(BAD_REQUEST, INVALID_FORMAT)
    else if !MarkdownName(filename) then Rejected(BAD_REQUEST, NOT_MARKDOWN)
    else
      var file := Normalize(Resolve(TEMP_DIR, filename));
      if !PathStartsWith(file, ToAbsolutePath(TEMP_DIR, cwd)) then Rejected(BAD_REQUEST, INVALID_PATH)
      else Serve(filename, file, cwd, readable, resourceFails)
  }

  /** Both name checks come before any path is built: their verdicts depend on the name alone. */
  lemma NameChecksComeFirst(filename: string, cwd1: seq<string>, cwd2: seq<string>,
                            readable1: set<Path>, readable2: set<Path>, fails1: bool, fails2: bool)
    requires !ValidName(filename) || !MarkdownName(filename)
    ensures DownloadFile(filename, cwd1, readable1, fails1) == DownloadFile(filename, cwd2, readable2, fails2)
    ensures DownloadFile(filename, cwd1, readable1, fails1).Rejected?
    ensures DownloadFile(filename, cwd1, readable1, fails1).status == BAD_REQUEST
  {
  }

  /** A relative path never starts with an absolute one. */
  lemma RelativeNeverStartsWithAbsolute(p: Path, q: Path)
    requires !p.absolute && q.absolute
    ensures !PathStartsWith(p, q)
  {
  }

  /**
   * As written, every name that passes both checks is refused as a path traversal: no file can
   * ever be downloaded, whatever the working directory and whatever files exist.
   */
  lemma DownloadAlwaysRefused(filename: string, cwd: seq<string>, readable: set<Path>, resourceFails: bool)
    requires ValidName(filename) && MarkdownName(filename)
    ensures DownloadFile(filename, cwd, readable, resourceFails) == Rejected(BAD_REQUEST, INVALID_PATH)
  {
    var file := Normalize(Resolve(TEMP_DIR, filename));
    RelativeNeverStartsWithAbsolute(file, ToAbsolutePath(TEMP_DIR, cwd));
  }

  /** A concrete request for an artifact the service writes. */
  lemma ExistingFileIsRefused()
    ensures DownloadFile("a.md", ["srv"], {Path(true, ["srv", "temp", "a.md"])}, false) == Rejected(BAD_REQUEST, INVALID_PATH)
  {
    var name := "a.md";
    assert ToLower(name) == name;
    assert forall i | 0 <= i < |name| :: SafeChar(name[i]);
    assert !Contains(name, "..") by {
      assert NoPair(name, '.', '.');
      NoDotDot(name);
    }
    DownloadAlwaysRefused(name, ["srv"], {Path(true, ["srv", "temp", name])}, false);
  }

  /** A string with no two adjacent dots does not contain "..". */
  lemma {:induction false} NoDotDot(s: string)
    requires NoPair(s, '.', '.')
    ensures !Contains(s, "..")
  {
    if s != [] {
      assert !StartsWith(s, "..") by {
        if |s| >= 2 {
          assert !(s[0] == '.' && s[1] == '.');
          assert s[..2][0] == s[0] && s[..2][1] == s[1];
        }
      }
      NoPairInfix(s, 1, |s|, '.', '.');
      NoDotDot(s[1..]);
    }
  }

  /** A valid name resolves inside the temp directory: it is one plain element, never "." or "..". */
  lemma ValidNameStaysInside(filename: string)
    requires ValidName(filename) && MarkdownName(filename)
    ensures Normalize(Resolve(TEMP_DIR, filename)) == Path(false, ["temp", filename])
  {
    assert filename != "." by {
      assert |ToLower(".")| == 1;
    }
    assert filename != ".." by {
      assert StartsWith("..", "..");
    }
    var rest := ["temp", filename];
    assert rest[1..] == [filename];
    assert [] + ["temp"] == ["temp"] && ["temp"] + [filename] == rest;
    assert NormalizeNames(false, [], rest) == NormalizeNames(false, ["temp"], [filename]);
    assert [filename][1..] == [];
    assert NormalizeNames(false, ["temp"], [filename]) == NormalizeNames(false, ["temp", filename], []);
  }

  /**
   * downloadFile as evidently intended: the containment check compares the absolute, normalised
   * file with the absolute temp directory.
   */
  function DownloadFileCorrected(filename: string, cwd: seq<string>, readable: set<Path>, resourceFails: bool): (r: Response)
    ensures !ValidName(filename) ==> r == Rejected(BAD_REQUEST, INVALID_FORMAT)
    ensures ValidName(filename) && !MarkdownName(filename) ==> r == Rejected(BAD_REQUEST, NOT_MARKDOWN)
  {
    if !ValidName(filename) then Rejected(BAD_REQUEST, INVALID_FORMAT)
    else if !MarkdownName(filename) then Rejected(BAD_REQUEST, NOT_MARKDOWN)
    else
      var file := Normalize(ToAbsolutePath(Resolve(TEMP_DIR, filename), cwd));
      if !PathStartsWith(file, ToAbsolutePath(TEMP_DIR, cwd)) then Rejected(BAD_REQUEST, INVALID_PATH)
      else Serve(filename, file, cwd, readable, resourceFails)
  }

  /** A working directory in normal form, as the JVM reports it. */
  predicate NormalDirectory(cwd: seq<string>) {
    forall i | 0 <= i < |cwd| :: cwd[i] != "." && cwd[i] != ".." && cwd[i] != ""
  }

  lemma {:induction false} NormalizeNamesPlain(done: seq<string>, rest: seq<string>)
    requires forall i | 0 <= i < |rest| :: rest[i] != "." && rest[i] != ".."
    ensures NormalizeNames(true, done, rest) == done + rest
    decreases |rest|
  {
    if rest != [] {
      NormalizeNamesPlain(done + [rest[0]], rest[1..]);
      assert done + [rest[0]] + rest[1..] == done + rest;
    }
  }

  /**
   * With the check corrected, a valid markdown name is always inside the temp directory and the
   * request is served exactly when the file there exists and is readable.
   */
  lemma CorrectedServesTempFiles(filename: string, cwd: seq<string>, readable: set<Path>, resourceFails: bool)
    requires ValidName(filename) && MarkdownName(filename) && NormalDirectory(cwd)
    ensures var r := DownloadFileCorrected(filename, cwd, readable, resourceFails);
            var target := Path(true, cwd + ["temp", filename]);
            && (r.Ok? <==> !resourceFails && target in readable)
            && (r.Ok? ==> r.file == target)
            && (r.Rejected? ==> r.status != BAD_REQUEST)
  {
    ValidNameStaysInside(filename);
    assert filename != "." && filename != "..";
    var names := cwd + ["temp", filename];
    forall i | 0 <= i < |names|
      ensures names[i] != "." && names[i] != ".."
    {
      if i < |cwd| {
        assert names[i] == cwd[i];
      } else if i == |cwd| {
        assert names[i] == "temp";
      } else {
        assert names[i] == filename;
      }
    }
    assert Resolve(TEMP_DIR, filename) == Path(false, ["temp", filename]);
    NormalizeNamesPlain([], names);
    assert [] + names == names;
    var file := Normalize(ToAbsolutePath(Resolve(TEMP_DIR, filename), cwd));
    assert file == Path(true, names);
    assert names[..|cwd| + 1] == cwd + ["temp"];
  }
}
