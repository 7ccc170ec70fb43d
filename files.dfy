/**
 * Reading a small local text file and trimming it (pulumi/config/readFile.ts and the
 * readFileVersion helper that the image components define).
 */
module Files {
  import opened Wrappers
  import opened Text

  /**
   * The local file system as the declaration pass sees it: the decoded text of every
   * readable path, and the message Node's fs error carries for a path that cannot be read.
   */
  datatype FileSystem = FileSystem(files: map<string, string>, errorMessage: string -> string)

  /** Reads `path`, trims it, or fails with `what` + path + ": " + the fs error message. */
  function ReadTrimmed(fs: FileSystem, path: string, what: string): (r: Result<string, string>)
    ensures r.Success? <==> path in fs.files
    ensures r.Success? ==> IsTrimOf(r.value, fs.files[path])
    ensures r.Failure? ==> r.error == what + path + ": " + fs.errorMessage(path)
  {
    if path in fs.files then Success(Trim(fs.files[path]))
    else Failure(what + path + ": " + fs.errorMessage(path))
  }

  /** readFile: the trimmed content, or an error naming the path. */
  function ReadFile(fs: FileSystem, path: string): (r: Result<string, string>)
    ensures r.Success? <==> path in fs.files
    ensures r.Success? ==> IsTrimOf(r.value, fs.files[path])
    ensures r.Failure? ==> r.error == "Failed to read content from " + path + ": " + fs.errorMessage(path)
  {
    ReadTrimmed(fs, path, "Failed to read content from ")
  }

  /** readFileVersion: the trimmed version string, or an error naming the path. */
  function ReadFileVersion(fs: FileSystem, path: string): (r: Result<string, string>)
    ensures r.Success? <==> path in fs.files
    ensures r.Success? ==> IsTrimOf(r.value, fs.files[path])
    ensures r.Failure? ==> r.error == "Failed to read version from " + path + ": " + fs.errorMessage(path)
  {
    ReadTrimmed(fs, path, "Failed to read version from ")
  }

  /** The value read is trimmed, and content that is already trimmed comes back as it is. */
  lemma {:induction false} ReadValueIsTrimmed(fs: FileSystem, path: string)
    requires path in fs.files
    ensures ReadFile(fs, path).Success? && Trimmed(ReadFile(fs, path).value)
    ensures ReadFileVersion(fs, path) == ReadFile(fs, path)
    ensures Trimmed(fs.files[path]) ==> ReadFile(fs, path).value == fs.files[path]
  {
    var c := fs.files[path];
    var lo, hi :| 0 <= lo <= hi <= |c| && Trim(c) == c[lo..hi] &&
      AllWhite(c[..lo]) && AllWhite(c[hi..]) && Trimmed(Trim(c));
    if Trimmed(c) { TrimOfTrimmed(c); }
  }

  /** A file holding "1.2.3\n" is read as "1.2.3". */
  lemma {:induction false} ReadVersionLine(fs: FileSystem, path: string)
    requires path in fs.files && fs.files[path] == "1.2.3\n"
    ensures ReadFileVersion(fs, path) == Success("1.2.3")
  {
    TrimVersionLine();
  }
}
