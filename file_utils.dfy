/**
 * FileUtils: writing a string to a file (null content written as empty), and finding the first
 * file in a directory listing whose name has a given prefix and one of several extensions.
 * The file system is abstract: a map from path to contents, a set of paths that cannot be
 * written, and a directory listing given as a value.
 */
module Files {
  import opened JavaStrings

  /** Why a write failed. */
  datatype IoError = IoError(path: string)

  class FileStore {
    var files: map<string, string>
    const unwritable: set<string>

    constructor (initial: map<string, string>, unwritable: set<string>)
      ensures files == initial && this.unwritable == unwritable
    {
      files := initial;
      this.unwritable := unwritable;
    }

    /**
     * saveStringToFile: a null content is written as the empty string; a failing write raises
     * the IOException again and leaves the files as they were.
     */
    method SaveStringToFile(content: Option<string>, path: string) returns (r: Result<(), IoError>)
      modifies this`files
      ensures path in unwritable ==> r == Failure(IoError(path)) && files == old(files)
      ensures path !in unwritable ==> r.Success? && files == old(files)[path := content.GetOr("")]
    {
      var text := content;
      if text.None? {
        text := Some("");
      }
      if path in unwritable {
        return Failure(IoError(path));
      }
      files := files[path := text.value];
      return Success(());
    }
  }

  /** One entry of a directory listing: its file name and whether it is a regular file. */
  datatype Entry = Entry(name: string, regular: bool)

  /** Files.isDirectory failing, Files.list throwing, or the entries in listing order. */
  datatype Listing = NotADirectory | ListFailed | Entries(entries: seq<Entry>)

  /** The name starts with the prefix and ends with at least one of the extensions. */
  predicate NameMatches(name: string, prefix: string, extensions: seq<string>) {
    StartsWith(name, prefix) && exists k | 0 <= k < |extensions| :: EndsWith(name, extensions[k])
  }

  /** The filter lambda: the prefix test, then a loop over the extensions that stops at the first that fits. */
  method MatchesName(name: string, prefix: string, extensions: seq<string>) returns (b: bool)
    ensures b <==> NameMatches(name, prefix, extensions)
  {
    if !StartsWith(name, prefix) {
      return false;
    }
    for k := 0 to |extensions|
      invariant forall j | 0 <= j < k :: !EndsWith(name, extensions[j])
    {
      if EndsWith(name, extensions[k]) {
        return true;
      }
    }
    return false;
  }

  /** Both filters of the stream. */
  predicate Accepted(e: Entry, prefix: string, extensions: seq<string>) {
    e.regular && NameMatches(e.name, prefix, extensions)
  }

  /** findFirst on the filtered stream: the position of the first accepted entry. */
  function FirstAccepted(es: seq<Entry>, prefix: string, extensions: seq<string>): (r: Option<nat>)
    ensures r.Some? ==> r.value < |es| && Accepted(es[r.value], prefix, extensions)
    ensures r.Some? ==> forall j | 0 <= j < r.value :: !Accepted(es[j], prefix, extensions)
    ensures r.None? ==> forall j | 0 <= j < |es| :: !Accepted(es[j], prefix, extensions)
  {
    if es == [] then None
    else if Accepted(es[0], prefix, extensions) then Some(0)
    else match FirstAccepted(es[1..], prefix, extensions)
      case None => None
      case Some(i) => Some(i + 1)
  }

  /**
   * Path.resolve of an entry name against the listed directory: the name becomes the last
   * component, after one separator (none is added to an empty path or after the root "/").
   */
  function Resolve(directory: string, name: string): (r: string)
    ensures StartsWith(r, directory) && EndsWith(r, name)
    ensures directory == "" ==> r == name
    ensures directory != "" ==> |r| > |name| && r[|r| - |name| - 1] == '/'
    ensures directory != "" ==> |r| == |directory| + |name| + (if directory[|directory| - 1] == '/' then 0 else 1)
  {
    if directory == "" || directory[|directory| - 1] == '/' then directory + name
    else directory + "/" + name
  }

  /**
   * findFileByPrefixAndExtension: the path, inside the directory, of the first regular file in
   * listing order whose name fits; null when there is none, when the path is not a directory and
   * when listing fails.
   */
  function FindFileByPrefixAndExtension(directory: string, listing: Listing, prefix: string, extensions: seq<string>): (r: Option<string>)
    ensures !listing.Entries? ==> r.None?
    ensures listing.Entries? && r.Some? ==>
              exists i | 0 <= i < |listing.entries| :: r.value == Resolve(directory, listing.entries[i].name)
                && Accepted(listing.entries[i], prefix, extensions)
                && forall j | 0 <= j < i :: !Accepted(listing.entries[j], prefix, extensions)
    ensures listing.Entries? && r.None? ==>
              forall j | 0 <= j < |listing.entries| :: !Accepted(listing.entries[j], prefix, extensions)
  {
    match listing
    case NotADirectory => None
    case ListFailed => None
    case Entries(es) =>
      match FirstAccepted(es, prefix, extensions)
      case None => None
      case Some(i) => Some(Resolve(directory, es[i].name))
  }

  /** A non-regular entry is never returned, even when its name is the only one that fits. */
  lemma DirectoriesAreSkipped(directory: string, name: string, prefix: string, ext: string)
    requires StartsWith(name, prefix) && EndsWith(name, ext)
    ensures FindFileByPrefixAndExtension(directory, Entries([Entry(name, false)]), prefix, [ext]).None?
    ensures FindFileByPrefixAndExtension(directory, Entries([Entry(name, false), Entry(name, true)]), prefix, [ext])
              == Some(Resolve(directory, name))
  {
    var es := [Entry(name, false), Entry(name, true)];
    assert EndsWith(name, [ext][0]);
    assert Accepted(es[1], prefix, [ext]);
    assert es[1..] == [Entry(name, true)];
    assert FirstAccepted(es, prefix, [ext]) == Some(1);
  }
}
