# case-check-vivado: a verified model of the per-project Vivado pipeline

`check.py` walks the directories next to it. For each folder that has an
`rtl/ori` directory, it does the following:

- It reads the top-module name from the first `.v` file of `netlist/`.
- It writes a Vivado batch script, `run.tcl`, for that module and the fixed
  FPGA part `xcau15p-ffvb676-1-i`.
- It runs Vivado on the script and judges the run by the word `ERROR` in the
  captured output.
- It removes what Vivado left behind (`VIVADO`, `.Xil`, `vivado.jou`,
  `vivado.log`).
- It checks that `sdc/` holds `timing.sdc` and removes every other file there.

Each project path ends up in some of four lists: `non_standard_cases`,
`non_standard_sdc_cases`, `synth_success_cases` and `synth_fail_cases`.

This project models that pipeline over an abstract filesystem and an abstract
toolchain. It has one module per concern.

- `Text` (text.dfy): lines, line ends, and substring search.
- `FileSystem` (filesystem.dfy):
  - a directory entry is a plain file or a project folder;
  - a project folder is given by whether `rtl/ori` exists, its optional
    `netlist` listing (files with their lines), its optional `sdc` file set,
    and its other top-level entries;
  - `os.path.join` on POSIX.
- `Netlist` (netlist.dfy): `find_netlist_and_top_module`.
  - A hand-written matcher for the anchored pattern `\s*module\s+(\w+)\s*\(`.
  - It is proved equal to a declarative reading of the pattern.
  - Also the first-match search over a file's lines, and the choice of the
    first `.v` file.
- `Constraints` (constraints.dfy): the three-way `sdc` decision, and the
  folder it leaves.
- `RunScript` (runscript.dfy): the exact text of `run.tcl`, as 43 lines.
  - The lines that name the directories, the part, the top module, the
    synthesis steps and the project are located.
  - The text is proved to read back as its lines.
  - The text is proved to determine the path, part and module it was built
    from.
- `Toolchain` (toolchain.dfy): a run's outcome.
  - The outcome is a launch failure, a non-zero exit, or the two captured
    streams.
  - A run fails on either error path, or when `ERROR` occurs in
    `stdout + stderr`.
  - `re.findall(r"Deleted: (.+)", output)` is modelled and proved to invert
    the script's `  Deleted: <file>` log lines.
- `Artifacts` (artifacts.dfy): the cleanup of generated items.
- `PipelineSpec` (pipelinespec.dfy): what one pass means, as functions of the
  directory. It gives:
  - the outcome of an entry;
  - the lists after a listing has been processed in order (`RunFrom`);
  - each folder after processing (`ProcessedRoot`).
  It proves two properties of the lists:
  - bucket exclusivity: a path is in at most one of non-standard, success and
    failure, and exactly where its outcome says;
  - the lists are append-only, in listing order.
  It also proves that a second pass, when the toolchain behaves as in the
  first pass, changes nothing and sorts every entry the same way.
- `Orchestrator` (workspace.dfy): the script's mutable state as class
  `Workspace`.
  - Fields: the directory map and the four lists.
  - One method per function of the script, with the loops of
    `check_and_clean_sdc_folder`, `delete_vivado_generated_items` and
    `process_subdirectories`.
  - Each method is proved to produce exactly the state that `PipelineSpec`
    describes.

The toolchain is a parameter, `tc: string -> Invocation`: for each project
path, it gives how the run ended and the top-level entries the run left in the
folder. The order in which `os.listdir` returns the directory's entries is
also a parameter.

## Model

| member | source | states |
|---|---|---|
| `Netlist.MatchModuleLine` | check.py:45-47 | a captured name is a non-empty run of word characters |
| `Netlist.MatchModuleLineSound` | check.py:45-47 | every accepted line splits as blanks, `module`, at least one blank, the captured word run, blanks, `(` |
| `Netlist.MatchModuleLineComplete` | check.py:45-47 | every line of that shape is accepted, and the group captured is its word run |
| `Netlist.MatchModuleLineCorrect` | check.py:45-47 | the matcher returns `name` if and only if the line declares module `name` in the pattern's sense |
| `Netlist.FirstModuleName` | check.py:43-50 | `None` exactly when no line matches; a returned name is a valid module name |
| `Netlist.FirstModuleNameIsFirstMatch` | check.py:44-48 | the result is the capture of the first matching line, whatever the later lines hold |
| `Netlist.IsVerilog` | check.py:36 | `f.endswith(".v")`: the name's last two characters are `.v`; `Netlist.VerilogFiles` keeps exactly such files |
| `Netlist.VerilogFiles` | check.py:36 | `v_files` holds exactly the listed files whose names end in `.v` |
| `Netlist.FindTopModule` | check.py:31-50 | no `netlist` folder, or no `.v` file in it, gives `None`; a found name is a valid module name |
| `Netlist.OnlyFirstVerilogFileRead` | check.py:36-40 | only `v_files[0]` is read: non-`.v` files before it and any files after it do not affect the result |
| `FileSystem.PathJoin` | check.py:205 | joining a relative name adds at most one separator |
| `FileSystem.PathJoinParts` | check.py:205 | a joined path starts with the directory, ends with the name, and has `/` between them when the directory lacks one |
| `FileSystem.PathJoinInjective` | check.py:204-205 | different entry names of one directory give different project paths |
| `Text.HasSubstring` | check.py:153 | `"ERROR" in output`; its meaning is given by `Text.HasSubstringCorrect` |
| `Text.HasSubstringCorrect` | check.py:153 | the search for `"ERROR" in output` succeeds exactly when the marker occurs at some position |
| `Text.SplitLinesUnlines` | check.py:134-135 | text written as lines, none holding a line feed, reads back as those lines |
| `Toolchain.Failed` | check.py:148-177 | a run fails exactly when it did not launch, exited non-zero, or `ERROR` occurs at some position of `stdout + stderr` |
| `Toolchain.MarkerOnEitherStreamFails` | check.py:152-153 | `ERROR` on standard output or on standard error fails the run |
| `Toolchain.MarkerAcrossStreamsFails` | check.py:152-153 | the converse of `MarkerOnEitherStreamFails` fails: some runs fail with the marker on neither stream, since the streams are searched as one text (`ERR` ending stdout and `OR` starting stderr) |
| `Toolchain.DeletedFiles` | check.py:161 | each extracted name is non-empty and holds no line feed |
| `Toolchain.DeletedFilesAppend` | check.py:161 | output that ends a line can be scanned piecewise: the names found in `a + b` are those in `a` followed by those in `b` |
| `Toolchain.DeletionLogLine` | check.py:122 | the line `  Deleted: <file>` the script prints per deleted file; `Toolchain.DeletedFilesOfLogLine` shows the extraction recovers the name from it |
| `Toolchain.DeletedFilesOfLogLine` | check.py:122 | the script's log line for one deleted file yields exactly that file name |
| `Toolchain.DeletedFilesOfLog` | check.py:161 | the extraction recovers, in order, every name in a deletion log, for names without line feeds |
| `Toolchain.DeletedFilesInOutput` | check.py:152-161 | the same holds for a log embedded in a run's output, when the surrounding text reports no deletion |
| `RunScript.RunTclLines` | check.py:88-131 | the 43 lines of the f-string, with the path, part and module interpolated; the key lines are located by the `RunTcl...Line(s)` lemmas below |
| `RunScript.RunTcl` | check.py:88-131 | the text written to `run.tcl`: each line followed by a line feed; `RunScript.RunTclReadsBack` and `RunScript.RunTclDeterminesInputs` give its meaning |
| `RunScript.RunTclReadsBack` | check.py:88-131 | read back line by line, `run.tcl` gives exactly the 43 lines it was written from |
| `RunScript.RunTclLinesNoNewline` | check.py:88-131 | no interpolated value without line feeds can split or merge a line of the script |
| `RunScript.RunTclDeterminesInputs` | check.py:88-131 | equal scripts were built for the same project path, FPGA part and top module |
| `RunScript.RunTclDirLines` | check.py:85-91 | line 2 sets `project_dir` to `<sub>/VIVADO`; line 3 sets `rtl_dir` to `<sub>/rtl/ori` |
| `RunScript.RunTclPartLine` | check.py:96-97 | line 9 creates project `test` for the given FPGA part |
| `RunScript.RunTclTopLine` | check.py:102-103 | line 15 makes the given module the top of the design sources |
| `RunScript.RunTclStepLines` | check.py:111-114 | lines 24-26 run synthesis with the given top, then placement, then routing, each under `catch` |
| `RunScript.RunTclCompletionLine` | check.py:88-131 | the text opens with an empty line; its last line reports completion for the project path |
| `Constraints.SdcConforms` | check.py:61-71 | the folder exists and lists `timing.sdc`; `Orchestrator.Workspace.CheckAndCleanSdcFolder` reports the path exactly when this fails |
| `Constraints.SdcDeletions` | check.py:73-78 | a conforming folder loses every file except `timing.sdc`; a non-conforming one loses nothing |
| `Constraints.CleanedSdc` | check.py:61-78 | a conforming folder is left holding exactly `timing.sdc`; a missing or non-conforming one is unchanged; conformance is the same before and after |
| `Constraints.CleanedSdcIdempotent` | check.py:66-78 | a second check finds the folder as before and deletes nothing more |
| `Artifacts.GeneratedNames` | check.py:185-191 | the names removed are `VIVADO` and the three items of `vivado_generated_items`, and no others |
| `Artifacts.CleanedTop` | check.py:184-199 | after cleanup, no generated name is present, and every other entry is present and unchanged |
| `Artifacts.CleanedTopUnique` | check.py:184-199 | any folder state that lacks exactly the generated names, and is otherwise unchanged, is the cleaned state |
| `Artifacts.CleanedTopIdempotent` | check.py:184-199 | cleaning twice leaves what cleaning once leaves |
| `PipelineSpec.Admitted` | check.py:208 | the admission filter: a directory with an `rtl/ori` folder; `PipelineSpec.Classify` skips exactly the other entries |
| `PipelineSpec.Classify` | check.py:207-233 | the outcome is "skipped" exactly for non-admitted entries, and "no top module" exactly for admitted ones without a name; otherwise it carries whether the run failed and whether `sdc` conforms |
| `PipelineSpec.BuiltTop` | check.py:223-230 | after generate, run and clean: no generated name remains; `run.tcl` holds the script unless the run overwrote it; the run's other entries and untouched entries are kept; nothing else appears |
| `PipelineSpec.ProcessedEntry` | check.py:207-233 | an entry that is not synthesised is left as it was; a synthesised one gets the built top-level entries and the cleaned `sdc` folder; its outcome is unchanged |
| `PipelineSpec.ProcessedEntryWellFormed` | check.py:204-233 | in a folder the pass can process, it creates no plain file named `sdc` or `netlist` |
| `PipelineSpec.ProcessedEntryIdempotent` | check.py:207-233 | processing a processed entry again, with the same toolchain behaviour, changes nothing |
| `PipelineSpec.RebuildIdempotent` | check.py:184-199 | writing the script, adding the same leftovers and cleaning again gives the same entries |
| `PipelineSpec.Record` | check.py:207-233 | the appends of one iteration (check.py:63, 70, 155, 158, 172, 177, 215); `PipelineSpec.RecordCounts` gives the exact appends, and `PipelineSpec.RunFrom` that the lists only grow |
| `PipelineSpec.RecordCounts` | check.py:215 | recording an outcome adds its path once to each list the outcome calls for, and to no other list |
| `PipelineSpec.RunFrom` | check.py:204-233 | the lists only grow: each list after a run extends the same list before it |
| `PipelineSpec.RunFromAppend` | check.py:204 | entries are processed in listing order: processing a listing in two parts is processing it in one |
| `PipelineSpec.RunFromUnlisted` | check.py:204-233 | a path that is no listed entry's path is added to no list |
| `PipelineSpec.RunFromCounts` | check.py:204-233 | each listed entry's path occurs, starting from empty lists, exactly once in `non_standard_cases` when it has no top module, exactly once in either success or failure when synthesised, once in `non_standard_sdc_cases` exactly when its `sdc` does not conform, and nowhere otherwise |
| `PipelineSpec.RunFromOnlyListed` | check.py:204-205 | every path in the lists is the path of a listed entry |
| `PipelineSpec.ProcessedRoot` | check.py:204-233 | the pass keeps the directory's names and leaves every entry that is not synthesised unchanged |
| `PipelineSpec.RerunSameBuckets` | check.py:204-233 | a second pass over the processed directory sorts every entry into the same lists |
| `PipelineSpec.ProcessedRootIdempotent` | check.py:204-233 | a second pass with the same toolchain behaviour leaves the directory as the first left it |
| `PipelineSpec.StagesMakeProcessedEntry` | check.py:223-233 | running generate, run, clean and sdc check in that order yields the processed entry |
| `Orchestrator.Workspace.constructor` | check.py:8-18 | the state starts with the given directory and four empty lists; the script writer is `run.tcl`'s text for `fpga_part` |
| `Orchestrator.RemoveAllButTiming` | check.py:73-78 | the deletion loop removes every file except `timing.sdc`, leaving the folder `CleanedSdc` describes |
| `Orchestrator.Workspace.CheckAndCleanSdcFolder` | check.py:52-78 | the folder becomes `CleanedSdc` of itself; the path is appended to `non_standard_sdc_cases` exactly when the folder is missing or lacks `timing.sdc`; the other lists are unchanged |
| `Orchestrator.Workspace.CreateRunTcl` | check.py:80-136 | `<sub>/run.tcl` holds the script for the path and module; nothing else changes |
| `Orchestrator.Workspace.LoadVivadoAndRunTcl` | check.py:138-177 | the run's leftovers appear in the folder; the path is appended to exactly one of the failure and success lists, failure exactly when the run failed; the deleted names are those extracted from `stdout + stderr`, or none when the output was not read |
| `Orchestrator.Workspace.DeleteVivadoGeneratedItems` | check.py:179-199 | the folder becomes `CleanedTop` of itself; the lists are unchanged |
| `Orchestrator.Workspace.RunStages` | check.py:223-233 | the four stages, in the source's order, turn the entry into `ProcessedEntry` and record its outcome |
| `Orchestrator.Workspace.ProcessEntry` | check.py:205-233 | one iteration: the entry becomes `ProcessedEntry` of itself, and its outcome is recorded under its path |
| `Orchestrator.Workspace.ProcessSubdirectories` | check.py:200-233 | after the loop, the directory is `ProcessedRoot` of the old one, and the lists are `RunFrom` of the old lists over the listing |

## Left out

- The Vivado process, the shell command `module load vivado/2024.2 && vivado
  -mode batch -source run.tcl`, and the meaning of the Tcl script are not
  modelled. A run is given by its result and the entries it leaves at the top
  of the project folder. Anything it changes below the top level (for
  example in `rtl/ori`) is not modelled either.
- A run ends in one of three ways: a launch failure (`FileNotFoundError`), a
  non-zero exit (`CalledProcessError`), or exit with the captured streams.
  Any other exception in `subprocess.run` ends the whole script, because only
  those two are caught (check.py:169, check.py:174). That includes another
  `OSError`, or a decoding error of the output captured with `text=True`
  (check.py:148-149). Such an exception is not modelled.
- Real filesystem calls are replaced by the abstract directory map:
  `os.listdir`, `os.path.exists`, `os.path.isdir`, `open`, `os.remove` and
  `shutil.rmtree`. The `os.listdir` order of the scanned directory is an
  input sequence. The `sdc` folder is a set of names, because its deletion
  order affects nothing.
- File-kind rules:
  - Entries of `sdc` and `netlist` are plain files.
  - The `sdc` and `netlist` folders are described by fields of their own. A
    plain file under either name can still appear among a project's other
    top-level entries, and the model would read it as an absent folder. The
    script instead raises in `os.listdir` (check.py:36, check.py:66) and
    stops. `CanProcess` rules those states out (see below); `WellFormed`
    names the consistent projects, and `ProcessedEntryWellFormed` shows that
    the pass keeps them consistent.
  - Failures of `os.remove` are not modelled; each deletion succeeds.
- Every `print` and the final report (check.py:236-257) are left out, because
  they are output only.
- `base_dir` comes from `__file__` (check.py:8). Here it is a constructor
  parameter.
- `\s` and `\w` are the ASCII classes. Python's default Unicode classes are
  wider.
- The lines of a netlist file are given as a sequence. Python's
  universal-newline splitting and the decoding of the file's bytes are not
  modelled, and neither is a decoding error.
- `Orchestrator.Workspace.ProcessSubdirectories` requires `CanProcess` for
  every entry. That excludes the states in which the script raises and
  stops:
  - an admitted folder holds a plain file named `netlist` (check.py:36);
  - a synthesised folder holds a plain file named `sdc` (check.py:66);
  - `run.tcl` exists as a directory (`open(..., "w")` fails);
  - `VIVADO` is a plain file once the run is over (`shutil.rmtree` fails).
  The run after such an exception is not modelled. The same predicate also
  assumes that the toolchain creates no entry named `sdc` or `netlist` in a
  project folder, since the model has no way to merge such an entry into
  those folders' fields.
- `Orchestrator.Workspace.CreateRunTcl` requires that `run.tcl` is not a
  directory, for the same reason.
- `Orchestrator.Workspace.DeleteVivadoGeneratedItems` requires `SafeToClean`
  (`VIVADO`, when present, is a directory), for the same reason.
- `Orchestrator.Workspace.ProcessSubdirectories` takes the listing from the
  caller, with these requirements:
  - it names every entry of the directory;
  - its names are distinct;
  - its names hold no `/`.
  This is what `os.listdir` returns.
- The script's text is reached through the workspace's `scriptFor` field.
  The constructor fixes that field to `RunTclFor`, the text of `run.tcl` for
  `fpga_part`. The methods state their results in terms of `scriptFor`.
- `RunStages` and `ProcessEntry` are factorings of the loop body of
  `process_subdirectories`. They are not functions of the script.
- The deleted-file list that `load_vivado_and_run_tcl` extracts is only
  printed by the script. The model returns it from `LoadVivadoAndRunTcl`, and
  `ProcessEntry` discards it.
