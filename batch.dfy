/**
 * The `__main__` block: discover the files, exit with -3 when the list is empty,
 * then recover the files one by one and stop at the first one whose recovery
 * returns `False`, exiting with -2; otherwise exit with 0.
 *
 * The codes are the arguments the program passes to `exit`/`sys.exit`.
 */
module Batch {
  import opened Wrappers
  import opened Discovery
  import opened Recovery

  const SUCCESS_EXIT: int := 0
  const RECOVERY_FAILED_EXIT: int := -2
  const NO_FILES_EXIT: int := -3

  /** How the program ends: with an exit code, or with an exception from `find_files`. */
  datatype Termination = Exited(code: int) | Raised(error: FindError)

  /**
   * The recovery loop: `recover(f, passphrase, effect(f))` is what `recover_file` does
   * with file `f`, where `effect(f)` is what the tool run and the removal of its output
   * did for `f`. Files are processed in order; a `None` result never stops the loop or
   * changes the code, and the first `False` sets the code to -2 and ends it.
   * `processed` holds the result of every file tried, so the files tried are a prefix
   * of the list that ends at the first `False`.
   */
  method RecoverAll(files: seq<string>, passphrase: Option<string>,
                    effect: string -> ToolEffect,
                    recover: (string, Option<string>, ToolEffect) -> Recovery)
    returns (code: int, processed: seq<Recovery>)
    ensures |processed| <= |files|
    ensures forall k :: 0 <= k < |processed| ==>
      processed[k] == recover(files[k], passphrase, effect(files[k]))
    ensures forall k :: 0 <= k < |processed| - 1 ==> processed[k].returned != PyFalse
    ensures code == SUCCESS_EXIT || code == RECOVERY_FAILED_EXIT
    ensures code == SUCCESS_EXIT <==>
      forall k :: 0 <= k < |files| ==>
        recover(files[k], passphrase, effect(files[k])).returned != PyFalse
    ensures code == SUCCESS_EXIT ==> |processed| == |files|
    ensures code == RECOVERY_FAILED_EXIT ==>
      processed != [] && processed[|processed| - 1].returned == PyFalse
  {
    code := SUCCESS_EXIT;
    processed := [];
    var i := 0;
    while i < |files|
      invariant 0 <= i <= |files|
      invariant |processed| == i
      invariant forall k :: 0 <= k < i ==>
        processed[k] == recover(files[k], passphrase, effect(files[k]))
      invariant forall k :: 0 <= k < i ==> processed[k].returned != PyFalse
      invariant code == SUCCESS_EXIT
    {
      var result := recover(files[i], passphrase, effect(files[i]));
      processed := processed + [result];
      if result.returned == PyFalse {
        code := RECOVERY_FAILED_EXIT;
        break;
      }
      i := i + 1;
    }
  }

  /**
   * The program from `find_files` on. `isDir` and `output` stand for `os.path.isdir`
   * and what `find` printed, and `effect(f)` for what the tool run and the removal
   * of its output did for file `f`. An exception from `find_files` ends the program.
   * As written, the list is never empty, so the program never exits with -3. Every
   * entry is skipped without running the tool, so the program exits with 0 after
   * trying every entry.
   */
  method RunProgram(parentDir: Option<string>, filePattern: Option<string>, isDir: bool,
                    output: FindOutput, passphrase: Option<string>,
                    effect: string -> ToolEffect)
    returns (status: Termination, processed: seq<Recovery>)
    ensures FindFiles(parentDir, filePattern, isDir, output).Failure? ==>
      status == Raised(FindFiles(parentDir, filePattern, isDir, output).error) && processed == []
    ensures status != Exited(NO_FILES_EXIT)
    ensures FindFiles(parentDir, filePattern, isDir, output).Success? ==>
      && status == Exited(SUCCESS_EXIT)
      && |processed| == |FindFiles(parentDir, filePattern, isDir, output).value|
      && forall k :: 0 <= k < |processed| ==> processed[k] == Recovery(None, PyNone)
  {
    var found := FindFiles(parentDir, filePattern, isDir, output);
    match found {
      case Failure(e) =>
        status, processed := Raised(e), [];
      case Success(fileList) =>
        if fileList == [] {
          status, processed := Exited(NO_FILES_EXIT), [];
        } else {
          var code;
          code, processed := RecoverAll(fileList, passphrase, effect, RecoverFile);
          status := Exited(code);
        }
    }
  }

  /**
   * The recovery loop over a listing with the intended `recover_file`: the code is -2
   * exactly when some listed file is a database file whose recovered output is
   * missing, and the loop stops at the first such file; otherwise every file is tried
   * and the code is 0.
   */
  method RecoverListedIntended(files: seq<string>, passphrase: Option<string>,
                               effect: string -> ToolEffect)
    returns (code: int, processed: seq<Recovery>)
    ensures |processed| <= |files|
    ensures forall k {:trigger RecoverFileIntended(files[k], passphrase, effect(files[k]))} ::
      0 <= k < |processed| ==>
        processed[k] == RecoverFileIntended(files[k], passphrase, effect(files[k]))
    ensures forall k :: 0 <= k < |processed| - 1 ==> processed[k].returned != PyFalse
    ensures code == SUCCESS_EXIT || code == RECOVERY_FAILED_EXIT
    ensures code == SUCCESS_EXIT ==> |processed| == |files|
    ensures code == RECOVERY_FAILED_EXIT ==>
      processed != [] && processed[|processed| - 1].returned == PyFalse
    ensures code == RECOVERY_FAILED_EXIT <==>
      exists k :: 0 <= k < |files| && RecoveryFails(files[k], effect(files[k]))
  {
    code, processed := RecoverAll(files, passphrase, effect, RecoverFileIntended);
  }

  /**
   * The program with the intended `find_files` and `recover_file`: an exception from
   * `find_files` ends it before any recovery; it exits with -3, trying nothing,
   * exactly when `find` printed nothing; with -2 exactly when some listed file is a
   * database file whose recovered output is missing, after trying the files up to
   * the first such one; and with 0 after trying every file otherwise.
   */
  method RunProgramIntended(parentDir: Option<string>, filePattern: Option<string>,
                            isDir: bool, output: FindOutput, passphrase: Option<string>,
                            effect: string -> ToolEffect)
    returns (status: Termination, processed: seq<Recovery>)
    ensures status.Raised? <==> FindFilesIntended(parentDir, filePattern, isDir, output).Failure?
    ensures FindFilesIntended(parentDir, filePattern, isDir, output).Failure? ==>
      status == Raised(FindFilesIntended(parentDir, filePattern, isDir, output).error)
      && processed == []
    ensures status == Exited(NO_FILES_EXIT) ==> processed == []
    ensures FindFilesIntended(parentDir, filePattern, isDir, output).Success? ==>
      (status == Exited(NO_FILES_EXIT) <==> output.text == [])
    ensures forall k :: 0 <= k < |processed| - 1 ==> processed[k].returned != PyFalse
    ensures status == Exited(RECOVERY_FAILED_EXIT) ==>
      processed != [] && processed[|processed| - 1].returned == PyFalse
    ensures FindFilesIntended(parentDir, filePattern, isDir, output).Success? ==>
      var files := FindFilesIntended(parentDir, filePattern, isDir, output).value;
      && |processed| <= |files|
      && (status == Exited(SUCCESS_EXIT) ==> |processed| == |files|)
      && forall k :: 0 <= k < |processed| ==>
           processed[k] == RecoverFileIntended(files[k], passphrase, effect(files[k]))
    ensures status == Exited(SUCCESS_EXIT) <==>
      && FindFilesIntended(parentDir, filePattern, isDir, output).Success?
      && output.text != []
      && var files := FindFilesIntended(parentDir, filePattern, isDir, output).value;
         forall k :: 0 <= k < |files| ==> !RecoveryFails(files[k], effect(files[k]))
    ensures status == Exited(RECOVERY_FAILED_EXIT) <==>
      && FindFilesIntended(parentDir, filePattern, isDir, output).Success?
      && var files := FindFilesIntended(parentDir, filePattern, isDir, output).value;
         exists k :: 0 <= k < |files| && RecoveryFails(files[k], effect(files[k]))
  {
    match FindFilesIntended(parentDir, filePattern, isDir, output) {
      case Failure(e) =>
        status, processed := Raised(e), [];
      case Success(fileList) =>
        if fileList == [] {
          status, processed := Exited(NO_FILES_EXIT), [];
        } else {
          var code;
          code, processed := RecoverListedIntended(fileList, passphrase, effect);
          status := Exited(code);
        }
    }
  }
}
