/**
  The script's state and its per-project steps: the scanned directory and the
  four outcome lists the steps append to, with one method per function of the
  script.  `ProcessSubdirectories` is proved to follow the definitions of module
  `PipelineSpec`.
 */
module Orchestrator {
  import opened Wrappers
  import opened Text
  import opened FileSystem
  import opened Netlist
  import opened Constraints
  import opened RunScript
  import opened Toolchain
  import opened Artifacts
  import opened PipelineSpec

  class Workspace {
    /** `base_dir`: the directory whose entries are the candidate projects. */
    const baseDir: string
    /**
      `create_run_tcl`'s template: the text written for a project path and
      top module.  The constructor fixes it to `RunTclFor`, the script for
      `fpga_part`; the methods use it without looking inside.
     */
    const scriptFor: ScriptWriter
    /** The entries of `base_dir`, by name. */
    var root: map<string, RootEntry>
    /** `non_standard_cases`: admitted projects without a top module. */
    var nonStandardCases: seq<string>
    /** `non_standard_sdc_cases`: synthesised projects whose `sdc` folder does not conform. */
    var nonStandardSdcCases: seq<string>
    /** `synth_success_cases` */
    var synthSuccessCases: seq<string>
    /** `synth_fail_cases` */
    var synthFailCases: seq<string>

    /** The four lists together. */
    function Lists(): Buckets
      reads this
    {
      Buckets(nonStandardCases, nonStandardSdcCases, synthSuccessCases, synthFailCases)
    }

    /** `os.path.join(base_dir, name)` */
    function PathOf(name: string): string {
      PathJoin(baseDir, name)
    }

    /** The state at start-up: the given directory and four empty lists. */
    constructor (baseDir: string, root: map<string, RootEntry>)
      ensures this.baseDir == baseDir && this.root == root && Lists() == NoBuckets
      ensures scriptFor == RunTclFor
    {
      this.baseDir := baseDir;
      scriptFor := RunTclFor;
      this.root := root;
      nonStandardCases := [];
      nonStandardSdcCases := [];
      synthSuccessCases := [];
      synthFailCases := [];
    }

    /**
      `check_and_clean_sdc_folder`: a missing folder, or one without
      `timing.sdc`, is reported once and left alone; otherwise every other file
      is removed, one at a time, in listing order.
     */
    method CheckAndCleanSdcFolder(name: string)
      requires name in root && root[name].Folder?
      modifies this
      ensures var p := old(root)[name].project;
        root == old(root)[name := Folder(p.(sdc := CleanedSdc(p.sdc)))]
      ensures var p := old(root)[name].project;
        nonStandardSdcCases == old(nonStandardSdcCases) + (if SdcConforms(p.sdc) then [] else [PathOf(name)])
      ensures nonStandardCases == old(nonStandardCases)
      ensures synthSuccessCases == old(synthSuccessCases) && synthFailCases == old(synthFailCases)
    {
      var p := root[name].project;
      if p.sdc.None? {
        nonStandardSdcCases := nonStandardSdcCases + [PathOf(name)];
        return;
      }
      var files := p.sdc.value;
      if TimingSdc !in files {
        nonStandardSdcCases := nonStandardSdcCases + [PathOf(name)];
        return;
      }
      var kept := RemoveAllButTiming(files);
      root := root[name := Folder(p.(sdc := Some(kept)))];
    }

    /** `create_run_tcl`: writes the script for the project and its top module to `<sub>/run.tcl`. */
    method CreateRunTcl(name: string, topModule: string)
      requires name in root && root[name].Folder?
      requires var top := root[name].project.top; !(RunTclName in top && top[RunTclName].Dir?)
      modifies this
      ensures var p := old(root)[name].project;
        root == old(root)[name := Folder(p.(top := p.top[RunTclName := File(scriptFor(PathOf(name), topModule))]))]
      ensures Lists() == old(Lists())
    {
      var p := root[name].project;
      root := root[name := Folder(p.(top := p.top[RunTclName := File(scriptFor(PathOf(name), topModule))]))];
    }

    /**
      `load_vivado_and_run_tcl`, given what the toolchain does: its leftovers
      appear in the project folder, the path is appended to exactly one of the
      failure and success lists, and the names the script logged as deleted are
      returned when the output was read.
     */
    method LoadVivadoAndRunTcl(name: string, inv: Invocation) returns (deletedFiles: seq<string>)
      requires name in root && root[name].Folder?
      modifies this
      ensures var p := old(root)[name].project;
        root == old(root)[name := Folder(p.(top := p.top + inv.artifacts))]
      ensures Failed(inv.result) ==> synthFailCases == old(synthFailCases) + [PathOf(name)] && synthSuccessCases == old(synthSuccessCases)
      ensures !Failed(inv.result) ==> synthSuccessCases == old(synthSuccessCases) + [PathOf(name)] && synthFailCases == old(synthFailCases)
      ensures nonStandardCases == old(nonStandardCases) && nonStandardSdcCases == old(nonStandardSdcCases)
      ensures inv.result.Exited? ==> deletedFiles == DeletedFiles(inv.result.stdout + inv.result.stderr)
      ensures !inv.result.Exited? ==> deletedFiles == []
    {
      var p := root[name].project;
      root := root[name := Folder(p.(top := p.top + inv.artifacts))];
      match inv.result
      case Exited(out, err) =>
        var output := out + err;
        if HasSubstring(output, ErrorMarker) {
          synthFailCases := synthFailCases + [PathOf(name)];
        } else {
          synthSuccessCases := synthSuccessCases + [PathOf(name)];
        }
        deletedFiles := DeletedFiles(output);
      case _ =>
        // the shell exited non-zero, or could not be started: the output is never read
        synthFailCases := synthFailCases + [PathOf(name)];
        deletedFiles := [];
    }

    /**
      `delete_vivado_generated_items`: removes `VIVADO` and then each generated
      item that is present, directory or file; absent items are skipped.
     */
    method DeleteVivadoGeneratedItems(name: string)
      requires name in root && root[name].Folder? && SafeToClean(root[name].project.top)
      modifies this
      ensures var p := old(root)[name].project;
        root == old(root)[name := Folder(p.(top := CleanedTop(p.top)))]
      ensures Lists() == old(Lists())
    {
      var p := root[name].project;
      var top := p.top;
      assert Folder(p.(top := top)) == root[name];
      if VivadoDir in top {
        UpdateTwice(old(root), name, Folder(p.(top := top)), Folder(p.(top := top - {VivadoDir})));
        top := top - {VivadoDir};
        root := root[name := Folder(p.(top := top))];
      }
      for i := 0 to |VivadoGeneratedItems|
        invariant forall n :: n in top <==> n in p.top && n != VivadoDir && n !in VivadoGeneratedItems[..i]
        invariant forall n :: n in top ==> top[n] == p.top[n]
        invariant root == old(root)[name := Folder(p.(top := top))]
        invariant Lists() == old(Lists())
      {
        var item := VivadoGeneratedItems[i];
        if item in top {
          UpdateTwice(old(root), name, Folder(p.(top := top)), Folder(p.(top := top - {item})));
          top := top - {item};
          root := root[name := Folder(p.(top := top))];
        }
      }
      assert VivadoGeneratedItems[..|VivadoGeneratedItems|] == VivadoGeneratedItems;
      CleanedTopUnique(p.top, top);
    }

    /**
      The stages run for an admitted project with a top module, in the order
      of the loop body of `process_subdirectories`: generate `run.tcl`, run the
      toolchain, remove its leftovers, check the `sdc` folder.
     */
    method RunStages(name: string, topModule: string, inv: Invocation)
      requires name in root && root[name].Folder? && root[name].project.hasRtlOri
      requires FindTopModule(root[name].project.netlist) == Some(topModule)
      requires CanProcess(root[name], PathOf(name), inv, scriptFor)
      modifies this
      ensures root == old(root)[name := ProcessedEntry(old(root)[name], PathOf(name), inv, scriptFor)]
      ensures Lists() == Record(old(Lists()), PathOf(name), Classify(old(root)[name], inv))
    {
      ghost var before := root;
      ghost var entry := root[name];
      ghost var p := entry.project;
      CreateRunTcl(name, topModule);
      ghost var p1 := p.(top := p.top[RunTclName := File(scriptFor(PathOf(name), topModule))]);
      var _ := LoadVivadoAndRunTcl(name, inv);
      ghost var p2 := p1.(top := p1.top + inv.artifacts);
      UpdateTwice(before, name, Folder(p1), Folder(p2));
      DeleteVivadoGeneratedItems(name);
      ghost var p3 := p2.(top := CleanedTop(p2.top));
      UpdateTwice(before, name, Folder(p2), Folder(p3));
      CheckAndCleanSdcFolder(name);
      ghost var p4 := p3.(sdc := CleanedSdc(p3.sdc));
      UpdateTwice(before, name, Folder(p3), Folder(p4));
      StagesMakeProcessedEntry(entry, PathOf(name), inv, scriptFor);
    }

    /**
      One iteration of `process_subdirectories`: an entry that is not a folder
      with `rtl/ori` is passed over; an admitted one without a top module is
      reported; any other is taken through the stages.
     */
    method ProcessEntry(name: string, inv: Invocation)
      requires name in root && CanProcess(root[name], PathOf(name), inv, scriptFor)
      modifies this
      ensures root == old(root)[name := ProcessedEntry(old(root)[name], PathOf(name), inv, scriptFor)]
      ensures Lists() == Record(old(Lists()), PathOf(name), Classify(old(root)[name], inv))
    {
      var entry := root[name];
      if entry.Folder? && entry.project.hasRtlOri {
        var topModule := FindTopModule(entry.project.netlist);
        if topModule.None? {
          nonStandardCases := nonStandardCases + [PathOf(name)];
          UnchangedEntry(root, name, inv, scriptFor);
          return;
        }
        RunStages(name, topModule.value, inv);
      } else {
        UnchangedEntry(root, name, inv, scriptFor);
      }
    }

    /**
      `process_subdirectories`, over the directory listed in the given order:
      each admitted entry without a top module is reported and skipped; each
      other admitted entry is taken through generate, run, clean and sdc check.
     */
    method ProcessSubdirectories(listing: seq<string>, tc: ToolRunner)
      requires Listed(listing, root) && Distinct(listing)
      requires forall k :: 0 <= k < |listing| ==> PlainName(listing[k])
      requires forall n :: n in root ==> n in listing
      requires forall n :: n in root ==> CanProcess(root[n], PathOf(n), tc(PathOf(n)), scriptFor)
      modifies this
      ensures root == ProcessedRoot(baseDir, old(root), tc, scriptFor)
      ensures Lists() == RunFrom(old(Lists()), baseDir, listing, old(root), tc)
    {
      assert listing[..|listing|] == listing;
      ghost var target := ProcessedRoot(baseDir, old(root), tc, scriptFor);
      for i := 0 to |listing|
        invariant PartlyProcessed(old(root), root, listing[..i], target)
        invariant Lists() == RunFrom(old(Lists()), baseDir, listing[..i], old(root), tc)
      {
        var name := listing[i];
        assert name !in listing[..i];
        ghost var before := root;
        ghost var lists := Lists();
        ProcessEntry(name, tc(PathOf(name)));
        LoopStep(baseDir, old(root), before, root, old(Lists()), lists, Lists(), listing, i, tc, scriptFor);
      }
      PartlyProcessedAll(old(root), root, listing, target);
    }
  }

  /**
    The deletion loop of `check_and_clean_sdc_folder`: every listed file other
    than `timing.sdc` is removed, one per iteration; what remains is the
    folder as `CleanedSdc` describes it.
   */
  method RemoveAllButTiming(files: set<string>) returns (kept: set<string>)
    requires TimingSdc in files
    ensures kept == files - SdcDeletions(Some(files))
    ensures Some(kept) == CleanedSdc(Some(files))
  {
    var pending := files;
    kept := files;
    while pending != {}
      invariant pending <= files
      invariant kept == pending + {TimingSdc}
      decreases |pending|
    {
      var f :| f in pending;
      pending := pending - {f};
      if f != TimingSdc {
        kept := kept - {f};
      }
    }
    assert kept == {TimingSdc};
  }

  /** Updating a key twice keeps the second value. */
  lemma UpdateTwice<K, V>(m: map<K, V>, k: K, a: V, b: V)
    ensures m[k := a][k := b] == m[k := b]
  {
  }
}
