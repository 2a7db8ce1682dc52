/**
 * `find_files`: the argument checks it makes before it runs `find`, and how it turns
 * the captured standard output of `find` into the list of paths it returns.
 *
 * The `find` process itself is not modelled. What it prints, once decoded as UTF-8,
 * is an input (`FindOutput`), and so is the answer of `os.path.isdir`.
 */
module Discovery {
  import opened Wrappers
  import opened PyText

  /** The line separator `find_files` splits on. */
  const NEWLINE: char := '\n'

  /**
   * The exceptions that the argument checks of `find_files` and its UTF-8 decoding
   * raise, in the order it checks for them.
   */
  datatype FindError =
    | DirectoryMissing     // ValueError "Directory path is missing"
    | PatternMissing       // ValueError "File pattern is missing"
    | NotADirectory        // ValueError "Directory does not exist or is not readable"
    | OutputNotUtf8        // UnicodeDecodeError from `decode("utf-8")`

  /** The standard output of `find`: decodable as UTF-8 (and then its text) or not. */
  datatype FindOutput = Decoded(text: string) | NotUtf8

  /** An argument that is `None` or the empty string, which `find_files` rejects. */
  predicate Missing(arg: Option<string>)
  {
    arg == None || arg == Some([])
  }

  /**
   * `find_files(parent_dir, file_pattern)`, where `isDir` is what `os.path.isdir`
   * answers for `parent_dir` and `output` is what `find` printed.
   */
  function FindFiles(parentDir: Option<string>, filePattern: Option<string>, isDir: bool,
                     output: FindOutput): (r: Result<seq<string>, FindError>)
    ensures r == Failure(DirectoryMissing) <==> Missing(parentDir)
    ensures r == Failure(PatternMissing) <==> !Missing(parentDir) && Missing(filePattern)
    ensures r == Failure(NotADirectory) <==>
      !Missing(parentDir) && !Missing(filePattern) && !isDir
    ensures r.Success? <==>
      !Missing(parentDir) && !Missing(filePattern) && isDir && output.Decoded?
    ensures r.Success? ==> r.value != [] && Join(r.value, NEWLINE) == output.text
  {
    if Missing(parentDir) then Failure(DirectoryMissing)
    else if Missing(filePattern) then Failure(PatternMissing)
    else if !isDir then Failure(NotADirectory)
    else match output
      case NotUtf8 => Failure(OutputNotUtf8)
      case Decoded(text) =>
        JoinSplit(text, NEWLINE);
        Success(Split(text, NEWLINE))
  }

  /**
   * The checks run in a fixed order, and `find` is consulted only when all three
   * pass: a missing directory is reported whatever the pattern, an empty pattern
   * before the directory is looked at, and neither they nor a directory that does
   * not exist depend on what `find` would have printed.
   */
  lemma ValidationOrder(parentDir: Option<string>, filePattern: Option<string>, isDir: bool,
                        output: FindOutput, otherPattern: Option<string>, otherIsDir: bool,
                        otherOutput: FindOutput)
    ensures Missing(parentDir) ==>
      FindFiles(parentDir, otherPattern, otherIsDir, otherOutput) == Failure(DirectoryMissing)
    ensures !Missing(parentDir) && Missing(filePattern) ==>
      FindFiles(parentDir, filePattern, otherIsDir, otherOutput) == Failure(PatternMissing)
    ensures FindFiles(parentDir, filePattern, isDir, output).Failure? &&
            FindFiles(parentDir, filePattern, isDir, output).error != OutputNotUtf8 ==>
      FindFiles(parentDir, filePattern, isDir, otherOutput) ==
      FindFiles(parentDir, filePattern, isDir, output)
  {
  }

  /**
   * The list `find_files` returns is never empty: it has one entry more than the
   * output has newlines, it is exactly `split('\n')` of the output, and empty output
   * gives `['']`.
   */
  lemma ListingShape(parentDir: Option<string>, filePattern: Option<string>,
                     isDir: bool, output: FindOutput)
    requires FindFiles(parentDir, filePattern, isDir, output).Success?
    ensures var files := FindFiles(parentDir, filePattern, isDir, output).value;
      && |files| == Count(output.text, NEWLINE) + 1
      && (forall k :: 0 <= k < |files| ==> NEWLINE !in files[k])
      && (output.text == [] ==> files == [[]])
      && files == Split(output.text, NEWLINE)
  {
  }

  /** What `find` prints for a list of paths: each one followed by a newline. */
  function Terminated(paths: seq<string>): string
  {
    if paths == [] then [] else paths[0] + [NEWLINE] + Terminated(paths[1..])
  }

  /** Splitting newline-terminated paths gives the paths and one trailing empty entry. */
  lemma {:induction false} SplitTerminated(paths: seq<string>)
    requires forall k :: 0 <= k < |paths| ==> NEWLINE !in paths[k]
    ensures Split(Terminated(paths), NEWLINE) == paths + [[]]
    decreases |paths|
  {
    if paths != [] {
      var rest := Terminated(paths[1..]);
      SplitTerminated(paths[1..]);
      assert Terminated(paths) == paths[0] + ([NEWLINE] + rest);
      SplitPrepend(paths[0], [NEWLINE] + rest, NEWLINE);
      assert ([NEWLINE] + rest)[1..] == rest;
      assert Split([NEWLINE] + rest, NEWLINE) == [[]] + (paths[1..] + [[]]);
      assert paths[0] + [] == paths[0];
      assert paths == [paths[0]] + paths[1..];
    }
  }

  /**
   * Every path `find` reports reaches the batch loop, in order, followed by an
   * empty entry that stands for no file.
   */
  lemma TrailingEmptyEntry(parentDir: Option<string>, filePattern: Option<string>,
                           paths: seq<string>)
    requires !Missing(parentDir) && !Missing(filePattern)
    requires forall k :: 0 <= k < |paths| ==> NEWLINE !in paths[k]
    ensures FindFiles(parentDir, filePattern, true, Decoded(Terminated(paths))) ==
      Success(paths + [[]])
  {
    SplitTerminated(paths);
  }

  /**
   * The lines of a text, as `splitlines` gives them for `\n`: the pieces between
   * newlines, without the empty piece after a final newline.
   */
  function Lines(text: string): (lines: seq<string>)
    ensures forall k :: 0 <= k < |lines| ==> NEWLINE !in lines[k]
  {
    var parts := Split(text, NEWLINE);
    if parts[|parts| - 1] == [] then parts[..|parts| - 1] else parts
  }

  /** `Lines` recovers exactly the paths `find` printed. */
  lemma LinesTerminated(paths: seq<string>)
    requires forall k :: 0 <= k < |paths| ==> NEWLINE !in paths[k]
    ensures Lines(Terminated(paths)) == paths
  {
    SplitTerminated(paths);
    assert (paths + [[]])[..|paths|] == paths;
  }

  /** `Lines` is empty exactly when `find` printed nothing. */
  lemma LinesEmpty(text: string)
    ensures Lines(text) == [] <==> text == []
  {
    var parts := Split(text, NEWLINE);
    if Lines(text) == [] {
      assert |parts| == 1 && parts[0] == [];
      JoinSplit(text, NEWLINE);
    }
  }

  /**
   * `find_files` with the evidently intended result: the same checks, then one
   * entry per line `find` printed, so that no matches give an empty list.
   */
  function FindFilesIntended(parentDir: Option<string>, filePattern: Option<string>,
                             isDir: bool, output: FindOutput): (r: Result<seq<string>, FindError>)
    ensures r.Failure? <==> FindFiles(parentDir, filePattern, isDir, output).Failure?
    ensures r.Failure? ==> r == FindFiles(parentDir, filePattern, isDir, output)
    ensures r.Success? ==> (r.value == [] <==> output.text == [])
    ensures r.Success? ==> forall k :: 0 <= k < |r.value| ==> NEWLINE !in r.value[k]
  {
    match FindFiles(parentDir, filePattern, isDir, output)
    case Failure(e) => Failure(e)
    case Success(_) =>
      LinesEmpty(output.text);
      Success(Lines(output.text))
  }
}
