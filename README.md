# FileMaker Recovery Check: a Dafny model of its decision core

`filemaker_recovery_check.py` is a command-line tool. It lists the FileMaker database files in a directory with `find`. It then runs `FMDeveloperTool --recover` on each file and deletes the recovered copy that the tool writes. It reports per file, and ends with an exit code for the whole batch. This project models the decisions the script makes around those two external programs. It then proves what those decisions add up to, as the script is written.

- **`find_files`** (module `Discovery`, file `discovery.dfy`). Three argument checks run in a fixed order, and each raises `ValueError`. After them, the decoded output of `find` is split on `'\n'`. The answer of `os.path.isdir` is an input. So is the output of `find`, either as decoded text or as "not valid UTF-8", which raises `UnicodeDecodeError`.
- **`recover_file`** (module `Recovery`, file `recovery.dfy`). Three pieces:
  - the extension check on the file's base name;
  - the output path given to the tool;
  - the mapping from "could the output file be removed" to the return value.
  The tool's return code and the removal's success are one input per file (`ToolEffect`). The tool run is recorded as the arguments it would be given (`ToolCall`).
- **`__main__`** (module `Batch`, file `batch.dfy`). The `-3` exit for an empty list. The fail-fast loop, which sets the code to `-2` on the first `False` and stops. The final exit code. The codes are the values the script passes to `exit`/`sys.exit`.
- **Python's string operations** (module `PyText`, file `pytext.dfy`). `split`/`join` on one character, `count`, `find`, `replace(..., 1)`, the slice `s[-n:]` and POSIX `os.path.basename`. Each is written out and proved: for example, `split` is the only separator-free cutting that joins back to the text.

Main consequences proved about the code as written:
- `file_name[-4:]` has at most four characters and is compared with the six-character `'.fmp12'`. So every file is skipped and returns `None`, and the tool never runs (`Recovery.RecoverFile`).
- `split('\n')` never returns `[]`. So the `-3` exit is unreachable (`Batch.RunProgram`). A listing from `find` always ends in an extra empty entry (`Discovery.TrailingEmptyEntry`).
- Every run that gets past `find_files` exits with `0` after trying every entry (`Batch.RunProgram`).

Where the docstring of `find_files` or the TODO at line 130 disagrees with the code, the model follows the code.
- For no matching files, `find_files` returns `['']`, not an empty list of matching paths.
- The TODO asks for a replacement anchored at the end of the string. The code replaces the first `.fmp12` anywhere in the path.

One input follows the help text rather than the code. `--passphrase` ("EAR passphrase") is declared as a boolean switch at line 106. The model takes it as an opaque optional string, passed through to the tool call (see "## Left out").

The evidently intended behaviour is modelled beside the as-written one, with its own proofs (see "## Findings"). The batch itself is generic over what `recover_file` does (`Batch.RecoverAll`). `Batch.RunProgram` runs it with the as-written functions. `Batch.RunProgramIntended` runs it with the corrected ones.

## Model

| member | source | states |
|---|---|---|
| PyText.Split | filemaker_recovery_check.py:46 | `split('\n')` gives exactly one more piece than there are separators, so never an empty list, and no piece holds a separator |
| PyText.JoinSplit | filemaker_recovery_check.py:46 | joining the pieces of `split` with the separator gives back the text exactly |
| PyText.SplitJoin | filemaker_recovery_check.py:46 | any list of separator-free pieces that joins into a text is what `split` returns for it, so `split` is pinned down by the join round trip |
| PyText.FindFirst | filemaker_recovery_check.py:131 | the index `find` gives is an occurrence with no earlier one; no index means no occurrence anywhere |
| PyText.ReplaceFirst | filemaker_recovery_check.py:131 | `replace(old, new, 1)` leaves a text without `old` unchanged; otherwise it rewrites the first occurrence of `old` and keeps the text before and after it |
| PyText.TailSlice | filemaker_recovery_check.py:126 | `s[-n:]` is the suffix of `s` of length `n`, or all of `s` when it is shorter |
| PyText.AfterLastSlash | filemaker_recovery_check.py:123 | the base name starts at the index after the last `/`: nothing from there on is a `/`, and the character before it is one |
| PyText.BaseName | filemaker_recovery_check.py:123 | the base name holds no `/` |
| PyText.BaseNameShape | filemaker_recovery_check.py:123 | the base name is a suffix of the path, preceded by a `/` unless it is the whole path, so it is the longest `/`-free suffix |
| Discovery.FindFiles | filemaker_recovery_check.py:19-46 | a missing or empty directory fails first; then a missing or empty pattern; then a non-directory; otherwise a non-empty list that joins back into `find`'s output |
| Discovery.ValidationOrder | filemaker_recovery_check.py:25-32 | the directory check ignores the pattern, the pattern check ignores the directory test, and no check's failure depends on what `find` prints, so `find` runs only once all pass |
| Discovery.ListingShape | filemaker_recovery_check.py:46 | the returned list has (number of newlines) + 1 entries, none with a newline; it is the split of the output; empty output gives `['']` |
| Discovery.SplitTerminated | filemaker_recovery_check.py:46 | splitting newline-terminated paths gives the paths followed by one empty entry |
| Discovery.TrailingEmptyEntry | filemaker_recovery_check.py:38-46 | when `find` prints paths one per line, `find_files` returns them in order plus a trailing `''` |
| Discovery.Lines | filemaker_recovery_check.py:46 | the intended line split gives entries without a newline |
| Discovery.LinesTerminated | filemaker_recovery_check.py:46 | the intended line split returns exactly the paths `find` printed |
| Discovery.LinesEmpty | filemaker_recovery_check.py:195-199 | the intended line split is empty exactly when `find` printed nothing |
| Discovery.FindFilesIntended | filemaker_recovery_check.py:19-46 | same failures as `find_files`; on success the list is empty exactly when `find` printed nothing |
| Recovery.ExtensionMatches | filemaker_recovery_check.py:126 | comparing `file_name[-4:]` with `'.fmp12'` is false for every name |
| Recovery.ExtensionRejectsDatabaseName | filemaker_recovery_check.py:126-128 | `a.fmp12` ends with `.fmp12` yet fails the check as written |
| Recovery.OutputPath | filemaker_recovery_check.py:131 | a path without `.fmp12` is its own output path; otherwise only the first `.fmp12` becomes `_recovered.fmp12`, with the text before and after it kept |
| Recovery.OutputPathShape | filemaker_recovery_check.py:130-131 | without `.fmp12` the output path is the input; otherwise the text before the first occurrence is kept, it becomes `_recovered.fmp12`, everything after it is kept, and the path grows by 10 |
| Recovery.OutputPathRewritesDirectory | filemaker_recovery_check.py:130-131 | after a prefix without a dot, the first `.fmp12` is rewritten whatever follows it; so `a.fmp12/b.fmp12` gets the output path `a_recovered.fmp12/b.fmp12`, which renames the directory and not the file |
| Recovery.Attempt | filemaker_recovery_check.py:138-169 | past the check, the tool gets the path, the output path and the passphrase; the result is `False` exactly when removing the output file fails, and `None` otherwise |
| Recovery.OutcomeMapping | filemaker_recovery_check.py:161-169 | the tool's return code changes neither the tool call nor the result, since the `returncode == 0` branch does nothing |
| Recovery.RecoverFile | filemaker_recovery_check.py:114-169 | every file is skipped and returns `None` without the tool being run |
| Recovery.HasDatabaseExtension | filemaker_recovery_check.py:126 | the intended check holds exactly when the name ends with `.fmp12` |
| Recovery.AnchoredOutputPath | filemaker_recovery_check.py:130-131 | the intended output path keeps everything before a trailing `.fmp12`, ends with `_recovered.fmp12` and is 10 longer; other paths are unchanged |
| Recovery.OutputPathsAgree | filemaker_recovery_check.py:130-131 | when `.fmp12` occurs only at the end, the as-written and intended output paths are equal |
| Recovery.AnchoredOutputPathKeepsDirectory | filemaker_recovery_check.py:130-131 | the intended output path of `a.fmp12/b.fmp12` is `a.fmp12/b_recovered.fmp12` |
| Recovery.RecoverFileIntended | filemaker_recovery_check.py:114-169 | with the intended check, the tool runs exactly for names ending in `.fmp12`, on the anchored output path; the result is `False` exactly for such a file whose output cannot be removed |
| Batch.RecoverAll | filemaker_recovery_check.py:210-215 | for any `recover_file`, files are tried in order, as a prefix of the list ending at the first `False`; the code is 0 exactly when no file returns `False` (then all were tried), otherwise -2; `None` never stops the loop |
| Batch.RunProgram | filemaker_recovery_check.py:195-215 | a `find_files` exception ends the run before any recovery; the -3 exit never happens; otherwise every entry is tried, skipped, and the exit code is 0 |
| Batch.RecoverListedIntended | filemaker_recovery_check.py:210-215 | with the intended `recover_file`, each tried file gets its intended result, in order, up to the first `False`; the code is -2 exactly when some listed database file has no output to remove, and 0 only after every file was tried |
| Batch.RunProgramIntended | filemaker_recovery_check.py:195-215 | with the intended functions: an exception from `find_files` ends the run before any recovery and happens exactly when `find_files` fails; the run exits -3, trying nothing, exactly when `find` printed nothing; -2 exactly when some listed database file has no output to remove, after trying the files up to the first `False`; 0 exactly when the listing is non-empty and no file fails, after trying every file |

## Left out

- `find_newest_dir` (lines 49-73) and the `--newest` branch in `__main__` (lines 190-191). The function reads an undefined name and never sets its result. Its logic rests on filesystem modification times. The model starts from the directory path it is given.
- `find_newest_files` (lines 76-91): a stub whose platform logic is commented out.
- Argument parsing: `create_argparser`, the global `ARGPARSER` and `parse_args` (lines 94-108, 179-188). The directory, pattern and passphrase are inputs. The `--passphrase` switch is declared with `action="store_true"` (line 106), so the program only ever passes `False` or `True`, never `None`. The test `passphrase == None` at line 138 therefore never holds, and the call without a key (lines 139-145) is dead code; the model's `None` passphrase stands for that unreachable branch. The model treats the passphrase as an optional opaque value passed to the tool call. It does not capture that the keyed call (lines 148-155) never reaches the tool: building its argument list raises `NameError` at the free name `parent_dir` (line 150), and even without that, `subprocess.run` would raise `TypeError` on the `bool` in the list.
- The `find` and `FMDeveloperTool` processes (lines 38-44, 138-155). Their glob matching, depth limit, standard error and exit status of `find`, and the tool's work and log are not modelled. Only the decoded standard output of `find`, the tool's return code and the success of `os.remove` are inputs. The exact argument vectors are not built. The `OSError` that `subprocess.run` raises when either program cannot be started (lines 38, 139, 148) is not modelled.
- The free name `parent_dir` in the tool's argument lists (lines 141, 150) would raise `NameError`. The model records the tool call without it. As written, that code is unreachable, because no file passes the extension check.
- `os.path.isdir`, `os.path.dirname` and the unused `file_dir`. The `isdir` answer is an input; the directory name is never used.
- The removal of `Recover.log` before the loop (lines 204-207). Its failure is ignored, so it cannot change the outcome.
- All `print` output.
- Batch.RunProgram: the effect of the tool and the removal is a function of the file path, so two attempts on the same path are assumed to behave alike. `find` does not print a path twice.
- Batch.RunProgram: the exit code is the value passed to `exit`, not the process status the operating system reports (`-2` reaches the shell as 254, `-3` as 253). An uncaught exception from `find_files` is reported as the exception, not as status 1.

## Findings

| source | as written | input that shows it | evidently intended | confidence | as-written member | corrected member |
|---|---|---|---|---|---|---|
| filemaker_recovery_check.py:126 | the last 4 characters of the file name are compared with the 6-character `.fmp12`, so no name matches | the file `a.fmp12` is reported as not a FileMaker file and skipped | the name ends with `.fmp12` (compare the last 6 characters) | high; not executed | Recovery.ExtensionMatches, Recovery.ExtensionRejectsDatabaseName, Recovery.RecoverFile | Recovery.HasDatabaseExtension, Recovery.RecoverFileIntended |
| filemaker_recovery_check.py:46 | `split('\n')` never yields `[]`, so the test for no matching files at line 197 never fires; every listing carries a trailing empty entry | `find` prints nothing: the list is `['']`, the empty entry is skipped and the exit code is 0, not -3 | one entry per printed line, empty when nothing matched, so that -3 signals no matches | high; not executed | Discovery.ListingShape, Discovery.TrailingEmptyEntry, Batch.RunProgram | Discovery.Lines, Discovery.LinesEmpty, Discovery.FindFilesIntended, Batch.RunProgramIntended |
| filemaker_recovery_check.py:131 | the first `.fmp12` anywhere in the path is replaced, not the trailing extension | `a.fmp12/b.fmp12` gives `a_recovered.fmp12/b.fmp12`, a file in a directory that does not exist | replace only the trailing `.fmp12` | high; not executed | Recovery.OutputPath, Recovery.OutputPathRewritesDirectory | Recovery.AnchoredOutputPath, Recovery.OutputPathsAgree, Recovery.AnchoredOutputPathKeepsDirectory |
