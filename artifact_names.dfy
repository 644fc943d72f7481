/**
 * The pure part of the task service's file naming (service/TaskManagementService.java):
 * sanitizeFilename, a chain of regular-expression rewrites with a length cap, and the names
 * and contents of the four markdown artifacts a run writes into the temp directory.
 */
module ArtifactNames {
  import opened JavaStrings
  import opened RegexReplace
  import Download

  const UNTITLED := "untitled"
  const MAX_FILENAME_LENGTH := 100

  /** The class `[\w\-.]` the sanitizer keeps: the same characters a downloadable name may hold. */
  predicate NameChar(c: char) {
    Download.SafeChar(c)
  }

  /** `replaceAll("^_|_$", "")` on its first alternative: one leading underscore goes. */
  function DropLeadingUnderscore(s: string): (r: string)
    ensures r == s || "_" + r == s
    ensures r != s <==> s != [] && s[0] == '_'
  {
    if s != [] && s[0] == '_' then s[1..] else s
  }

  /** `replaceAll("_$", "")`, and the second alternative of "^_|_$": one trailing underscore goes. */
  function DropTrailingUnderscore(s: string): (r: string)
    ensures r == s || r + "_" == s
    ensures r != s <==> s != [] && s[|s| - 1] == '_'
  {
    if s != [] && s[|s| - 1] == '_' then s[..|s| - 1] else s
  }

  /** The three rewrites before the length cap. */
  function Cleaned(name: string): string {
    var replaced := CollapseOutside(name, NameChar, '_', false);
    var single := CapRuns(replaced, '_', 1);
    DropTrailingUnderscore(DropLeadingUnderscore(single))
  }

  /** The cap: the first 100 characters, then one trailing underscore removed. */
  function Capped(s: string): (r: string)
    ensures |s| <= MAX_FILENAME_LENGTH ==> r == s
    ensures |s| > MAX_FILENAME_LENGTH ==> MAX_FILENAME_LENGTH - 1 <= |r| <= MAX_FILENAME_LENGTH
    ensures r == s[..|r|]
  {
    if |s| > MAX_FILENAME_LENGTH then DropTrailingUnderscore(s[..MAX_FILENAME_LENGTH]) else s
  }

  /**
   * sanitizeFilename: "untitled" for a name without text; otherwise every run of unsafe
   * characters becomes one underscore, runs of underscores shrink to one, one underscore goes
   * at each end, the result is cut to 100 characters, and "untitled" replaces an empty result.
   */
  function SanitizeFilename(originalName: string): (r: string)
    ensures !HasText(originalName) ==> r == UNTITLED
    ensures r != [] && |r| <= MAX_FILENAME_LENGTH
  {
    if !HasText(originalName) then UNTITLED
    else
      var capped := Capped(Cleaned(originalName));
      if capped == [] then UNTITLED else capped
  }

  /** The shape every sanitized name has. */
  predicate SafeFilename(r: string) {
    && r != []
    && |r| <= MAX_FILENAME_LENGTH
    && (forall i | 0 <= i < |r| :: NameChar(r[i]))
    && NoPair(r, '_', '_')
    && r[0] != '_' && r[|r| - 1] != '_'
  }

  /** Dropping one underscore at each end keeps the characters and the pairs, and leaves none at the ends. */
  lemma DropUnderscoresShape(single: string)
    requires AllNameChars(single) && NoPair(single, '_', '_')
    ensures var c := DropTrailingUnderscore(DropLeadingUnderscore(single));
            && AllNameChars(c)
            && NoPair(c, '_', '_')
            && (c != [] ==> c[0] != '_' && c[|c| - 1] != '_')
  {
    var lead := DropLeadingUnderscore(single);
    var i := if single != [] && single[0] == '_' then 1 else 0;
    assert lead == single[i..];
    var c := DropTrailingUnderscore(lead);
    var j := if lead != [] && lead[|lead| - 1] == '_' then |single| - 1 else |single|;
    assert c == single[i..j];
    NoPairInfix(single, i, j, '_', '_');
    forall k | 0 <= k < |c|
      ensures NameChar(c[k])
    {
      assert c[k] == single[i + k];
    }
    if c != [] {
      assert c[0] == single[i] && c[|c| - 1] == single[j - 1];
    }
  }

  /** The two regular-expression rewrites leave only name characters and no two underscores together. */
  lemma CollapsedSingles(name: string)
    ensures var single := CapRuns(CollapseOutside(name, NameChar, '_', false), '_', 1);
            AllNameChars(single) && NoPair(single, '_', '_')
  {
    var replaced := CollapseOutside(name, NameChar, '_', false);
    var single := CapRuns(replaced, '_', 1);
    CollapseOutsideChars(name, NameChar, '_', false);
    CapRunsFromInput(replaced, '_', 1, 0);
    forall k | 0 <= k < |single|
      ensures NameChar(single[k])
    {
      assert single[k] in single;
    }
    CapRunsHasNoLongRun(replaced, '_', 1);
    RunsAtMostOneNoPair(single, '_');
  }

  /** The rewrites leave only name characters, no two underscores together and none at the ends. */
  lemma CleanedShape(name: string)
    ensures var c := Cleaned(name);
            && (forall i | 0 <= i < |c| :: NameChar(c[i]))
            && NoPair(c, '_', '_')
            && (c != [] ==> c[0] != '_' && c[|c| - 1] != '_')
  {
    CollapsedSingles(name);
    DropUnderscoresShape(CapRuns(CollapseOutside(name, NameChar, '_', false), '_', 1));
  }

  /**
   * The sanitized name is never empty, has at most 100 characters, all from [A-Za-z0-9_.-],
   * never two underscores in a row and no underscore at either end.
   */
  lemma SanitizeFilenameShape(name: string)
    ensures SafeFilename(SanitizeFilename(name))
  {
    if SanitizeFilename(name) == UNTITLED {
      UntitledIsSafe();
    } else {
      CleanedShape(name);
      CappedShape(Cleaned(name));
    }
  }

  lemma UntitledIsSafe()
    ensures SafeFilename(UNTITLED)
  {
    assert forall i | 0 <= i < |UNTITLED| :: 'a' <= UNTITLED[i] <= 'z';
  }

  /** The length cap keeps the shape of a cleaned name and bounds its length. */
  lemma CappedShape(c: string)
    requires AllNameChars(c) && NoPair(c, '_', '_') && (c != [] ==> c[0] != '_' && c[|c| - 1] != '_')
    ensures var r := Capped(c);
            && |r| <= MAX_FILENAME_LENGTH
            && AllNameChars(r)
            && NoPair(r, '_', '_')
            && (r != [] ==> r[0] != '_' && r[|r| - 1] != '_')
  {
    if |c| > MAX_FILENAME_LENGTH {
      var p := c[..MAX_FILENAME_LENGTH];
      var r := DropTrailingUnderscore(p);
      assert r == p[..|r|];
      forall k | 0 <= k < |r|
        ensures NameChar(r[k])
      {
        assert r[k] == c[k];
      }
      NoPairInfix(c, 0, |r|, '_', '_');
      assert c[..|r|] == r;
      assert r[0] == c[0];
      if |r| == |p| - 1 {
        assert p[|p| - 1] == '_';
        assert r[|r| - 1] == c[|r| - 1];
      }
    }
  }

  /** A name of only unsafe characters (a title in Chinese, say) becomes "untitled". */
  lemma UnsafeNameIsUntitled(name: string)
    requires forall i | 0 <= i < |name| :: !NameChar(name[i])
    ensures SanitizeFilename(name) == UNTITLED
  {
    if HasText(name) {
      CollapseOutsideNoKept(name, NameChar, '_', false);
      assert CollapseOutside(name, NameChar, '_', false) == "_";
      assert CapRuns("_", '_', 1) == "_";
    }
  }

  /** Rewriting a string that is all name characters leaves it as it is. */
  lemma {:induction false} CollapseKeepsNameChars(s: string, inRun: bool)
    requires forall i | 0 <= i < |s| :: NameChar(s[i])
    ensures CollapseOutside(s, NameChar, '_', inRun) == s
  {
    if s != [] {
      CollapseKeepsNameChars(s[1..], false);
    }
  }

  /** Capping runs of underscores at one is the identity on a string without two in a row. */
  lemma {:induction false} CapRunsKeepsSingles(s: string, run: nat)
    requires NoPair(s, '_', '_') && run <= 1
    requires run == 1 ==> s == [] || s[0] != '_'
    ensures CapRunsFrom(s, '_', 1, run) == s
  {
    if s != [] {
      var next := if s[0] == '_' then 1 else 0;
      assert NoPair(s[1..], '_', '_') by {
        NoPairInfix(s, 1, |s|, '_', '_');
      }
      if next == 1 && |s| > 1 {
        assert !(s[0] == '_' && s[1] == '_');
      }
      CapRunsKeepsSingles(s[1..], next);
    }
  }

  /** A name already in the sanitized shape is left as it is. */
  lemma SafeNameIsKept(r: string)
    requires SafeFilename(r)
    ensures SanitizeFilename(r) == r
  {
    SafeNameHasText(r);
    CleanedKeepsSafeName(r);
  }

  lemma SafeNameHasText(r: string)
    requires SafeFilename(r)
    ensures HasText(r)
  {
    assert NameChar(r[0]);
    HasTextAt(r, 0);
  }

  lemma CleanedKeepsSafeName(r: string)
    requires SafeFilename(r)
    ensures Cleaned(r) == r
  {
    CollapseKeepsNameChars(r, false);
    CapRunsKeepsSingles(r, 0);
  }

  /** A sanitized name is left as it is: sanitizing is idempotent. */
  lemma SanitizeIdempotent(name: string)
    ensures SanitizeFilename(SanitizeFilename(name)) == SanitizeFilename(name)
  {
    SanitizeFilenameShape(name);
    SafeNameIsKept(SanitizeFilename(name));
  }

  /** Integer.toString of a length, for the message of String.substring(0, 6). */
  function SubstringMessage(length: nat): string {
    "begin 0, end 6, length " + NatToString(length)
  }

  /**
   * `String.format("<kind>_%s_%s.md", safeTitle, taskId.substring(0, 6))`; substring throws
   * StringIndexOutOfBoundsException on an id shorter than six characters.
   */
  function ArtifactName(kind: string, safeTitle: string, taskId: string): (r: Result<string, string>)
    ensures r.Success? <==> |taskId| >= 6
    ensures r.Failure? ==> r.error == SubstringMessage(|taskId|)
    ensures r.Success? ==> StartsWith(r.value, kind + "_" + safeTitle + "_") && EndsWith(r.value, ".md")
    ensures r.Success? ==> |r.value| == |kind| + |safeTitle| + 11 && r.value[|r.value| - 9..|r.value| - 3] == taskId[..6]
  {
    if |taskId| < 6 then Failure(SubstringMessage(|taskId|))
    else
      var r := kind + "_" + safeTitle + "_" + taskId[..6] + ".md";
      assert r[..|kind + "_" + safeTitle + "_"|] == kind + "_" + safeTitle + "_";
      Success(r)
  }

  /** `TEMP_DIR.resolve(name).toString()` for the relative directory "temp". */
  function InTemp(name: string): string {
    "temp/" + name
  }

  /** The raw transcript and the summary files: the text, a blank line and the source URL. */
  function WithSource(text: string, url: string): string {
    text + "\n\nsource: " + url + "\n"
  }

  /** `String.format("# %s\n\n%s\n\nsource: %s\n", title, body, url)`. */
  function Document(title: string, body: string, url: string): string {
    "# " + title + "\n\n" + body + "\n\nsource: " + url + "\n"
  }

  /** The four kinds of artifact. */
  const KINDS: seq<string> := ["raw", "transcript", "translation", "summary"]

  /** No character of s is `a`. */
  predicate Avoids(s: string, a: char) {
    forall i | 0 <= i < |s| :: s[i] != a
  }

  /** Every character of s is a name character. */
  predicate AllNameChars(s: string) {
    forall i | 0 <= i < |s| :: NameChar(s[i])
  }

  /** Gluing two strings of name characters with no ".." and no '.' at the seam. */
  lemma GlueNamePieces(x: string, y: string)
    requires AllNameChars(x) && AllNameChars(y) && NoPair(x, '.', '.') && NoPair(y, '.', '.')
    requires x != [] && y != [] ==> x[|x| - 1] != '.' || y[0] != '.'
    ensures AllNameChars(x + y) && NoPair(x + y, '.', '.')
  {
    NoPairConcat(x, y, '.', '.');
    forall i | 0 <= i < |x + y|
      ensures NameChar((x + y)[i])
    {
      if i >= |x| {
        assert (x + y)[i] == y[i - |x|];
      }
    }
  }

  /** The name ends in ".md", whatever the case of the rest. */
  lemma MdSuffixIsMarkdown(c: string)
    ensures Download.MarkdownName(c + ".md")
  {
    var name := c + ".md";
    var low := ToLower(name);
    assert name[|name| - 3..] == ".md";
    assert low[|low| - 3..] == ".md" by {
      assert forall i | |name| - 3 <= i < |name| :: LowerChar(name[i]) == name[i];
    }
  }

  /** Each kind followed by its underscore is made of name characters and holds no dot. */
  lemma KindHeads(k: nat)
    requires k < |KINDS|
    ensures var head := KINDS[k] + "_";
            AllNameChars(head) && Avoids(head, '.') && NoPair(head, '.', '.')
  {
  }

  /** An artifact's name before ".md": head, title, '_' and the six id characters. */
  lemma ArtifactStemShape(head: string, safe: string, id6: string)
    requires AllNameChars(head) && NoPair(head, '.', '.') && head != [] && head[|head| - 1] == '_'
    requires AllNameChars(safe) && NoPair(safe, '.', '.')
    requires |id6| == 6 && AllNameChars(id6) && Avoids(id6, '.')
    ensures var c := head + safe + "_" + id6;
            AllNameChars(c) && NoPair(c, '.', '.') && c[|c| - 1] != '.'
  {
    GlueNamePieces(head, safe);
    var a := head + safe;
    assert a[|a| - 1] == head[|head| - 1] || a[|a| - 1] == safe[|safe| - 1];
    GlueNamePieces(a, "_");
    var b := a + "_";
    assert NoPair(id6, '.', '.');
    GlueNamePieces(b, id6);
    var c := b + id6;
    assert c[|c| - 1] == id6[5];
  }

  /** A stem of name characters with no ".." and no final '.', followed by ".md", is a valid markdown name. */
  lemma MdNameIsValid(c: string)
    requires AllNameChars(c) && NoPair(c, '.', '.') && (c != [] ==> c[|c| - 1] != '.')
    ensures Download.ValidName(c + ".md") && Download.MarkdownName(c + ".md")
  {
    assert AllNameChars(".md") && NoPair(".md", '.', '.');
    GlueNamePieces(c, ".md");
    Download.NoDotDot(c + ".md");
    MdSuffixIsMarkdown(c);
  }

  /**
   * With a title free of "..", and an id whose first six characters are name characters other
   * than '.', such as a UUID's hex digits, every artifact's name passes the download
   * controller's name and extension checks.
   */
  lemma ArtifactNamesAreDownloadable(k: nat, title: string, taskId: string)
    requires k < |KINDS| && |taskId| >= 6
    requires forall i | 0 <= i < 6 :: NameChar(taskId[i]) && taskId[i] != '.'
    requires NoPair(SanitizeFilename(title), '.', '.')
    ensures var r := ArtifactName(KINDS[k], SanitizeFilename(title), taskId);
            r.Success? && Download.ValidName(r.value) && Download.MarkdownName(r.value)
  {
    var safe := SanitizeFilename(title);
    SanitizeFilenameShape(title);
    KindHeads(k);
    var head := KINDS[k] + "_";
    var id6 := taskId[..6];
    ArtifactStemShape(head, safe, id6);
    var c := head + safe + "_" + id6;
    MdNameIsValid(c);
    assert ArtifactName(KINDS[k], safe, taskId) == Success(c + ".md");
  }

  /** "a..b" is already in the sanitized shape. */
  lemma DottedTitleIsSafe()
    ensures SafeFilename("a..b")
  {
    var t := "a..b";
    assert forall i | 0 <= i < |t| :: NameChar(t[i]);
    assert forall i | 0 <= i < |t| :: t[i] != '_';
  }

  /** "raw_a..b_abcdef.md" holds "..". */
  lemma DottedArtifactNameHasDotDot()
    ensures Contains("raw_a..b_abcdef.md", "..")
  {
    var n := "raw_a..b_abcdef.md";
    assert n[5..][..2] == "..";
    ContainsAt(n, "..", 5);
  }

  /** A title with two dots in a row keeps them, and the artifact cannot be downloaded by name. */
  lemma DottedTitleIsNotDownloadable()
    ensures SanitizeFilename("a..b") == "a..b"
    ensures !Download.ValidName("raw_a..b_abcdef.md")
  {
    DottedTitleIsSafe();
    SafeNameIsKept("a..b");
    DottedArtifactNameHasDotDot();
  }

  /** s contains t when t starts at position i. */
  lemma {:induction false} ContainsAt(s: string, t: string, i: nat)
    requires i <= |s| && StartsWith(s[i..], t)
    ensures Contains(s, t)
  {
    if i > 0 {
      assert s[1..][i - 1..] == s[i..];
      ContainsAt(s[1..], t, i - 1);
    }
  }
}
