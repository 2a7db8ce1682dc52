/**
 * `recover_file`: the extension check on the file name, the output path it hands to
 * FMDeveloperTool, and how the outcome of removing that output file becomes the
 * function's return value.
 *
 * The tool run and the removal are not modelled as processes or filesystem calls.
 * Their outcomes, the tool's return code and whether `os.remove` succeeded, are
 * one input (`ToolEffect`).
 */
module Recovery {
  import opened Wrappers
  import opened PyText

  /** The FileMaker database extension. */
  const EXTENSION: string := ".fmp12"

  /** What the extension is replaced by in the output path. */
  const RECOVERED_EXTENSION: string := "_recovered.fmp12"

  /** How many trailing characters of the file name the extension check looks at. */
  const CHECKED_TAIL: nat := 4

  /** The value `recover_file` hands back to its caller: `None` or `False`. */
  datatype Returned = PyNone | PyFalse

  /** The arguments of one FMDeveloperTool `--recover` run. */
  datatype ToolCall = ToolCall(source: string, target: string, encryptionKey: Option<string>)

  /** What the environment did on one attempt: the tool's exit code, the removal's success. */
  datatype ToolEffect = ToolEffect(returnCode: int, outputRemoved: bool)

  /** One call of `recover_file`: the tool run it started, if any, and what it returned. */
  datatype Recovery = Recovery(call: Option<ToolCall>, returned: Returned)

  /**
   * The extension check as written: `file_name[-4:]` is compared with the
   * six-character `'.fmp12'`, so it never holds.
   */
  function ExtensionMatches(fileName: string): (matches: bool)
    ensures !matches
  {
    TailSlice(fileName, CHECKED_TAIL) == EXTENSION
  }

  /** Even a FileMaker file name fails the check as written. */
  lemma ExtensionRejectsDatabaseName()
    ensures EndsWith("a.fmp12", EXTENSION) && !ExtensionMatches("a.fmp12")
  {
  }

  /**
   * The output path: the first `.fmp12` anywhere in the path becomes
   * `_recovered.fmp12`; a path without `.fmp12` is its own output path.
   */
  function OutputPath(filePath: string): (out: string)
    ensures (forall j: nat :: !OccursAt(filePath, EXTENSION, j)) ==> out == filePath
    ensures forall i: nat :: IsFirstOccurrence(filePath, EXTENSION, i) ==>
      out == filePath[..i] + RECOVERED_EXTENSION + filePath[i + |EXTENSION|..]
  {
    ReplaceFirst(filePath, EXTENSION, RECOVERED_EXTENSION)
  }

  /**
   * A path without `.fmp12` is its own output path. Otherwise everything before the
   * first `.fmp12` is kept, that occurrence becomes `_recovered.fmp12`, everything
   * after it (later occurrences included) is kept, and the path grows by 10.
   */
  lemma OutputPathShape(filePath: string)
    ensures (forall j: nat :: !OccursAt(filePath, EXTENSION, j)) ==> OutputPath(filePath) == filePath
    ensures forall i: nat :: IsFirstOccurrence(filePath, EXTENSION, i) ==>
      && OutputPath(filePath)[..i] == filePath[..i]
      && OutputPath(filePath)[i..i + |RECOVERED_EXTENSION|] == RECOVERED_EXTENSION
      && OutputPath(filePath)[i + |RECOVERED_EXTENSION|..] == filePath[i + |EXTENSION|..]
      && |OutputPath(filePath)| == |filePath| + 10
  {
  }

  /**
   * Whatever follows it, the first `.fmp12` after a prefix without a dot is the one
   * rewritten. So a directory named like a database file is renamed in the output
   * path and the file in it is not: `a.fmp12/b.fmp12` (prefix `a`, rest `/b.fmp12`)
   * gets the output path `a_recovered.fmp12/b.fmp12`.
   */
  lemma OutputPathRewritesDirectory(dir: string, rest: string)
    requires '.' !in dir
    ensures OutputPath(dir + EXTENSION + rest) == dir + RECOVERED_EXTENSION + rest
  {
    var p := dir + EXTENSION + rest;
    var i := |dir|;
    assert p[..i] == dir;
    assert p[i..i + |EXTENSION|] == EXTENSION;
    assert p[i + |EXTENSION|..] == rest;
    forall j: nat | j < i
      ensures !OccursAt(p, EXTENSION, j)
    {
      assert p[j] == dir[j];
    }
    OutputPathAt(p, i);
  }

  /** One instance of `OutputPath`'s contract, for a known first occurrence. */
  lemma OutputPathAt(filePath: string, i: nat)
    requires IsFirstOccurrence(filePath, EXTENSION, i)
    ensures OutputPath(filePath) == filePath[..i] + RECOVERED_EXTENSION + filePath[i + |EXTENSION|..]
  {
  }

  /**
   * The part of `recover_file` after the extension check: run the tool on the path
   * with the given output path and passphrase, then remove the output file. A failed
   * removal means no output was produced and the result is `False`; otherwise the
   * function falls off its end and returns `None`, since the `returncode == 0` branch
   * does nothing.
   */
  function Attempt(filePath: string, outputPath: string, passphrase: Option<string>,
                   effect: ToolEffect): (r: Recovery)
    ensures r.call == Some(ToolCall(filePath, outputPath, passphrase))
    ensures r.returned == PyFalse <==> !effect.outputRemoved
  {
    var call := ToolCall(filePath, outputPath, passphrase);
    if !effect.outputRemoved then Recovery(Some(call), PyFalse)
    else Recovery(Some(call), PyNone)
  }

  /** The tool's return code never changes what `Attempt` does. */
  lemma OutcomeMapping(filePath: string, outputPath: string, passphrase: Option<string>,
                       effect: ToolEffect, otherReturnCode: int)
    ensures Attempt(filePath, outputPath, passphrase, effect) ==
      Attempt(filePath, outputPath, passphrase, ToolEffect(otherReturnCode, effect.outputRemoved))
  {
  }

  /**
   * `recover_file(file_path, passphrase)` as written: the name check fails for every
   * path, so every file is skipped with `None` and the tool is never run.
   */
  function RecoverFile(filePath: string, passphrase: Option<string>, effect: ToolEffect)
    : (r: Recovery)
    ensures r == Recovery(None, PyNone)
  {
    var fileName := BaseName(filePath);
    if !ExtensionMatches(fileName) then Recovery(None, PyNone)
    else Attempt(filePath, OutputPath(filePath), passphrase, effect)
  }

  /** The extension check the code evidently intends: the name ends with `.fmp12`. */
  function HasDatabaseExtension(fileName: string): (matches: bool)
    ensures matches <==> EndsWith(fileName, EXTENSION)
  {
    TailSlice(fileName, |EXTENSION|) == EXTENSION
  }

  /** The output path the code evidently intends: only a trailing `.fmp12` is replaced. */
  function AnchoredOutputPath(filePath: string): (out: string)
    ensures EndsWith(filePath, EXTENSION) ==>
      && |out| == |filePath| + 10
      && out[..|filePath| - |EXTENSION|] == filePath[..|filePath| - |EXTENSION|]
      && EndsWith(out, RECOVERED_EXTENSION)
    ensures !EndsWith(filePath, EXTENSION) ==> out == filePath
  {
    if EndsWith(filePath, EXTENSION)
    then filePath[..|filePath| - |EXTENSION|] + RECOVERED_EXTENSION
    else filePath
  }

  /** Where `.fmp12` occurs only at the end of a path, both output paths agree. */
  lemma OutputPathsAgree(filePath: string)
    requires EndsWith(filePath, EXTENSION)
    requires forall j: nat :: j < |filePath| - |EXTENSION| ==> !OccursAt(filePath, EXTENSION, j)
    ensures OutputPath(filePath) == AnchoredOutputPath(filePath)
  {
    var i := |filePath| - |EXTENSION|;
    assert OccursAt(filePath, EXTENSION, i);
    assert IsFirstOccurrence(filePath, EXTENSION, i);
    assert filePath[i + |EXTENSION|..] == [];
  }

  /** The anchored path keeps a directory named like a database file. */
  lemma AnchoredOutputPathKeepsDirectory()
    ensures AnchoredOutputPath("a.fmp12/b.fmp12") == "a.fmp12/b_recovered.fmp12"
  {
    assert EndsWith("a.fmp12/b.fmp12", EXTENSION);
  }

  /**
   * With the intended check, the recovery of `filePath` returns `False`: it is named
   * like a database file, and its recovered output could not be removed.
   */
  predicate RecoveryFails(filePath: string, effect: ToolEffect)
  {
    EndsWith(BaseName(filePath), EXTENSION) && !effect.outputRemoved
  }

  /**
   * `recover_file` with the intended check and output path: a file whose name ends
   * with `.fmp12` is recovered to the anchored path, the others are skipped, and
   * the result is `False` exactly for a database file whose output file is missing.
   */
  function RecoverFileIntended(filePath: string, passphrase: Option<string>, effect: ToolEffect)
    : (r: Recovery)
    ensures r.call.None? <==> !EndsWith(BaseName(filePath), EXTENSION)
    ensures r.call.Some? ==>
      r.call.value == ToolCall(filePath, AnchoredOutputPath(filePath), passphrase)
    ensures r.returned == PyFalse <==> RecoveryFails(filePath, effect)
  {
    var fileName := BaseName(filePath);
    if !HasDatabaseExtension(fileName) then Recovery(None, PyNone)
    else Attempt(filePath, AnchoredOutputPath(filePath), passphrase, effect)
  }
}
