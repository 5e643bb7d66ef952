/**
  What one pass of `process_subdirectories` does, stated as functions of the
  scanned directory: which bucket each entry lands in, and what each project
  folder looks like afterwards.  The class in module `Orchestrator` is proved
  to follow these definitions.
 */
module PipelineSpec {
  import opened Wrappers
  import opened FileSystem
  import opened Netlist
  import opened Constraints
  import opened RunScript
  import opened Toolchain
  import opened Artifacts

  /**
    One invocation of the toolchain in a project folder: how it ended, and the
    top-level entries it created or overwrote there (`VIVADO`, `.Xil`, logs, ...).
   */
  datatype Invocation = Invocation(result: ToolResult, artifacts: map<string, Entry>)

  /** The toolchain as seen by the pipeline: what it does when run for a project path. */
  type ToolRunner = string -> Invocation

  /** What `create_run_tcl` writes for a project path and a top module. */
  type ScriptWriter = (string, string) -> string

  /** The writer of the script: the `run.tcl` text for the configured FPGA part. */
  function RunTclFor(path: string, topModule: string): string {
    RunTcl(path, FpgaPart, topModule)
  }

  /** An entry is processed only when it is a directory with an `rtl/ori` folder. */
  predicate Admitted(e: RootEntry) {
    e.Folder? && e.project.hasRtlOri
  }

  /** How an entry fares: not admitted, admitted without a top module, or synthesised. */
  datatype Outcome = Skipped | NoTopModule | Synthesized(failed: bool, sdcConforms: bool)

  /** The outcome of one entry, given what the toolchain does for it. */
  function Classify(e: RootEntry, inv: Invocation): (o: Outcome)
    ensures o.Skipped? <==> !Admitted(e)
    ensures o.NoTopModule? <==> Admitted(e) && FindTopModule(e.project.netlist).None?
    ensures o.Synthesized? ==> o.failed == Failed(inv.result) && o.sdcConforms == SdcConforms(e.project.sdc)
  {
    if !Admitted(e) then Skipped
    else if FindTopModule(e.project.netlist).None? then NoTopModule
    else Synthesized(Failed(inv.result), SdcConforms(e.project.sdc))
  }

  /** The top-level entries after `run.tcl` is written, the toolchain has run and its leftovers are removed. */
  function BuiltTop(top: map<string, Entry>, script: string, inv: Invocation): (r: map<string, Entry>)
    ensures forall n :: n in GeneratedNames() ==> n !in r
    ensures RunTclName !in inv.artifacts ==> RunTclName in r && r[RunTclName] == File(script)
    ensures forall n :: n in inv.artifacts && n !in GeneratedNames() ==> n in r && r[n] == inv.artifacts[n]
    ensures forall n :: n in top && n !in inv.artifacts && n != RunTclName && n !in GeneratedNames() ==> n in r && r[n] == top[n]
    ensures forall n :: n in r ==> n in top || n in inv.artifacts || n == RunTclName
  {
    CleanedTop(top[RunTclName := File(script)] + inv.artifacts)
  }

  /** An entry after the pass: a synthesised project is rebuilt and cleaned, every other entry is left as it was. */
  function ProcessedEntry(e: RootEntry, path: string, inv: Invocation, write: ScriptWriter): (r: RootEntry)
    ensures !Classify(e, inv).Synthesized? ==> r == e
    ensures Classify(e, inv).Synthesized? ==>
      && r.Folder?
      && r.project == e.project.(
           top := BuiltTop(e.project.top, write(path, FindTopModule(e.project.netlist).value), inv),
           sdc := CleanedSdc(e.project.sdc))
    ensures Classify(r, inv) == Classify(e, inv)
  {
    match Classify(e, inv)
    case Synthesized(_, _) =>
      var p := e.project;
      Folder(p.(top := BuiltTop(p.top, write(path, FindTopModule(p.netlist).value), inv), sdc := CleanedSdc(p.sdc)))
    case _ => e
  }

  /**
    The pass can run to its end for this entry without an unhandled exception:
    - an admitted folder has no plain file named `netlist` (`os.listdir` raises on it);
    - a synthesised one has no plain file named `sdc`, and the toolchain creates
      neither name (the `sdc` check lists that folder after the run);
    - `run.tcl` is not a directory (`open(..., "w")` raises);
    - `VIVADO` is not a plain file once the run is over (`shutil.rmtree` raises).
   */
  predicate CanProcess(e: RootEntry, path: string, inv: Invocation, write: ScriptWriter) {
    && (Admitted(e) ==> NetlistFolder !in e.project.top)
    && (Classify(e, inv).Synthesized? ==>
      && SdcFolder !in e.project.top
      && SdcFolder !in inv.artifacts && NetlistFolder !in inv.artifacts
      && !(RunTclName in e.project.top && e.project.top[RunTclName].Dir?)
      && SafeToClean(e.project.top[RunTclName := File(write(path, FindTopModule(e.project.netlist).value))] + inv.artifacts))
  }

  /** The pass creates no plain file named `sdc` or `netlist` in a folder it can process. */
  lemma ProcessedEntryWellFormed(e: RootEntry, path: string, inv: Invocation, write: ScriptWriter)
    requires e.Folder? && WellFormed(e.project) && CanProcess(e, path, inv, write)
    ensures var r := ProcessedEntry(e, path, inv, write);
      r.Folder? && WellFormed(r.project)
  {
  }

  /** Processing a processed entry again, with the same toolchain behaviour, changes nothing. */
  lemma ProcessedEntryIdempotent(e: RootEntry, path: string, inv: Invocation, write: ScriptWriter)
    ensures ProcessedEntry(ProcessedEntry(e, path, inv, write), path, inv, write) == ProcessedEntry(e, path, inv, write)
  {
    if Classify(e, inv).Synthesized? {
      var p := e.project;
      var script := File(write(path, FindTopModule(p.netlist).value));
      RebuildIdempotent(p.top, script, inv.artifacts);
      CleanedSdcIdempotent(p.sdc);
    }
  }

  /** Writing the script, adding the same leftovers and cleaning a second time gives the same entries. */
  lemma RebuildIdempotent(top: map<string, Entry>, script: Entry, artifacts: map<string, Entry>)
    ensures var once := CleanedTop(top[RunTclName := script] + artifacts);
      CleanedTop(once[RunTclName := script] + artifacts) == once
  {
    var once := CleanedTop(top[RunTclName := script] + artifacts);
    var twice := CleanedTop(once[RunTclName := script] + artifacts);
    assert twice.Keys == once.Keys;
  }

  /** The four outcome lists of the script. */
  datatype Buckets = Buckets(
    nonStandard: seq<string>,
    nonStandardSdc: seq<string>,
    success: seq<string>,
    fail: seq<string>)

  const NoBuckets: Buckets := Buckets([], [], [], [])

  /** `b` is what `c` held earlier: each list of `c` extends the same list of `b`. */
  predicate Extends(b: Buckets, c: Buckets) {
    && b.nonStandard <= c.nonStandard && b.nonStandardSdc <= c.nonStandardSdc
    && b.success <= c.success && b.fail <= c.fail
  }

  /** The lists after one entry with the given path and outcome has been processed. */
  function Record(b: Buckets, path: string, o: Outcome): Buckets {
    match o
    case Skipped => b
    case NoTopModule => b.(nonStandard := b.nonStandard + [path])
    case Synthesized(failed, conforms) =>
      var b1 := if failed then b.(fail := b.fail + [path]) else b.(success := b.success + [path]);
      if conforms then b1 else b1.(nonStandardSdc := b1.nonStandardSdc + [path])
  }

  /** Recording an outcome adds its path once to each list the outcome calls for, and nothing else. */
  lemma RecordCounts(b: Buckets, path: string, o: Outcome, p: string)
    ensures var r := Record(b, path, o);
      var hit := if p == path then 1 else 0;
      && multiset(r.nonStandard)[p] == multiset(b.nonStandard)[p] + (if o.NoTopModule? then hit else 0)
      && multiset(r.success)[p] == multiset(b.success)[p] + (if o.Synthesized? && !o.failed then hit else 0)
      && multiset(r.fail)[p] == multiset(b.fail)[p] + (if o.Synthesized? && o.failed then hit else 0)
      && multiset(r.nonStandardSdc)[p] == multiset(b.nonStandardSdc)[p] + (if o.Synthesized? && !o.sdcConforms then hit else 0)
  {
  }

  /** Every name of the listing is an entry of the directory. */
  predicate Listed(listing: seq<string>, root: map<string, RootEntry>) {
    forall k :: 0 <= k < |listing| ==> listing[k] in root
  }

  /** The lists after the entries of `listing` have been processed in order, starting from `b`. */
  function RunFrom(b: Buckets, base: string, listing: seq<string>, root: map<string, RootEntry>, tc: ToolRunner): (r: Buckets)
    requires Listed(listing, root)
    ensures Extends(b, r)
    decreases |listing|
  {
    if listing == [] then b
    else
      var n := listing[|listing| - 1];
      var path := PathJoin(base, n);
      Record(RunFrom(b, base, listing[..|listing| - 1], root, tc), path, Classify(root[n], tc(path)))
  }

  /** Processing the listing in two parts is processing it in one: the lists grow in listing order. */
  lemma {:induction false} RunFromAppend(b: Buckets, base: string, l1: seq<string>, l2: seq<string>, root: map<string, RootEntry>, tc: ToolRunner)
    requires Listed(l1, root) && Listed(l2, root)
    ensures Listed(l1 + l2, root)
    ensures RunFrom(b, base, l1 + l2, root, tc) == RunFrom(RunFrom(b, base, l1, root, tc), base, l2, root, tc)
    decreases |l2|
  {
    assert Listed(l1 + l2, root) by {
      forall k | 0 <= k < |l1 + l2| ensures (l1 + l2)[k] in root {
        if k < |l1| { assert (l1 + l2)[k] == l1[k]; } else { assert (l1 + l2)[k] == l2[k - |l1|]; }
      }
    }
    if l2 != [] {
      var l := l1 + l2;
      assert l[..|l| - 1] == l1 + l2[..|l2| - 1];
      assert l[|l| - 1] == l2[|l2| - 1];
      RunFromAppend(b, base, l1, l2[..|l2| - 1], root, tc);
    } else {
      assert l1 + l2 == l1;
    }
  }

  /** A path that names no listed entry is added to no list. */
  lemma {:induction false} RunFromUnlisted(b: Buckets, base: string, listing: seq<string>, root: map<string, RootEntry>, tc: ToolRunner, p: string)
    requires Listed(listing, root)
    requires forall k :: 0 <= k < |listing| ==> PathJoin(base, listing[k]) != p
    ensures var r := RunFrom(b, base, listing, root, tc);
      && multiset(r.nonStandard)[p] == multiset(b.nonStandard)[p]
      && multiset(r.nonStandardSdc)[p] == multiset(b.nonStandardSdc)[p]
      && multiset(r.success)[p] == multiset(b.success)[p]
      && multiset(r.fail)[p] == multiset(b.fail)[p]
    decreases |listing|
  {
    if listing != [] {
      var n := listing[|listing| - 1];
      var path := PathJoin(base, n);
      RunFromUnlisted(b, base, listing[..|listing| - 1], root, tc, p);
      RecordCounts(RunFrom(b, base, listing[..|listing| - 1], root, tc), path, Classify(root[n], tc(path)), p);
    }
  }

  /** The names of a listing are pairwise different. */
  predicate Distinct(listing: seq<string>) {
    forall i, j :: 0 <= i < j < |listing| ==> listing[i] != listing[j]
  }

  /**
    Starting from empty lists, the path of a listed entry is in exactly the
    lists its outcome calls for, once: in none when it is not admitted, in
    `non_standard_cases` alone without a top module, and otherwise in exactly
    one of the success and failure lists, and in `non_standard_sdc_cases`
    exactly when its `sdc` folder does not conform.
   */
  lemma {:induction false} RunFromCounts(base: string, listing: seq<string>, root: map<string, RootEntry>, tc: ToolRunner, i: nat)
    requires Listed(listing, root) && Distinct(listing)
    requires forall k :: 0 <= k < |listing| ==> PlainName(listing[k])
    requires i < |listing|
    ensures var p := PathJoin(base, listing[i]);
      var o := Classify(root[listing[i]], tc(p));
      var r := RunFrom(NoBuckets, base, listing, root, tc);
      && multiset(r.nonStandard)[p] == (if o.NoTopModule? then 1 else 0)
      && multiset(r.success)[p] == (if o.Synthesized? && !o.failed then 1 else 0)
      && multiset(r.fail)[p] == (if o.Synthesized? && o.failed then 1 else 0)
      && multiset(r.nonStandardSdc)[p] == (if o.Synthesized? && !o.sdcConforms then 1 else 0)
    decreases |listing|
  {
    var last := |listing| - 1;
    if i == last {
      RunFromCountsLast(base, listing, root, tc);
    } else {
      var p := PathJoin(base, listing[i]);
      var init := listing[..last];
      assert init[i] == listing[i];
      RunFromCounts(base, init, root, tc, i);
      var lastPath := PathJoin(base, listing[last]);
      assert lastPath != p by {
        if lastPath == p {
          PathJoinInjective(base, listing[last], listing[i]);
        }
      }
      var b := RunFrom(NoBuckets, base, init, root, tc);
      assert RunFrom(NoBuckets, base, listing, root, tc) == Record(b, lastPath, Classify(root[listing[last]], tc(lastPath)));
      RecordKeepsCounts(b, lastPath, Classify(root[listing[last]], tc(lastPath)), p, Classify(root[listing[i]], tc(p)));
    }
  }

  /** Recording another path leaves the counts of `p` as they were. */
  lemma RecordKeepsCounts(b: Buckets, path: string, o: Outcome, p: string, q: Outcome)
    requires p != path
    requires && multiset(b.nonStandard)[p] == (if q.NoTopModule? then 1 else 0)
      && multiset(b.success)[p] == (if q.Synthesized? && !q.failed then 1 else 0)
      && multiset(b.fail)[p] == (if q.Synthesized? && q.failed then 1 else 0)
      && multiset(b.nonStandardSdc)[p] == (if q.Synthesized? && !q.sdcConforms then 1 else 0)
    ensures var r := Record(b, path, o);
      && multiset(r.nonStandard)[p] == (if q.NoTopModule? then 1 else 0)
      && multiset(r.success)[p] == (if q.Synthesized? && !q.failed then 1 else 0)
      && multiset(r.fail)[p] == (if q.Synthesized? && q.failed then 1 else 0)
      && multiset(r.nonStandardSdc)[p] == (if q.Synthesized? && !q.sdcConforms then 1 else 0)
  {
    RecordCounts(b, path, o, p);
  }

  /** The case of `RunFromCounts` for the last entry: the entries before it never touch its path. */
  lemma RunFromCountsLast(base: string, listing: seq<string>, root: map<string, RootEntry>, tc: ToolRunner)
    requires Listed(listing, root) && Distinct(listing)
    requires forall k :: 0 <= k < |listing| ==> PlainName(listing[k])
    requires listing != []
    ensures var n := listing[|listing| - 1];
      var p := PathJoin(base, n);
      var o := Classify(root[n], tc(p));
      var r := RunFrom(NoBuckets, base, listing, root, tc);
      && multiset(r.nonStandard)[p] == (if o.NoTopModule? then 1 else 0)
      && multiset(r.success)[p] == (if o.Synthesized? && !o.failed then 1 else 0)
      && multiset(r.fail)[p] == (if o.Synthesized? && o.failed then 1 else 0)
      && multiset(r.nonStandardSdc)[p] == (if o.Synthesized? && !o.sdcConforms then 1 else 0)
  {
    var last := |listing| - 1;
    var p := PathJoin(base, listing[last]);
    var init := listing[..last];
    forall k | 0 <= k < |init| ensures PathJoin(base, init[k]) != p {
      if PathJoin(base, init[k]) == p {
        PathJoinInjective(base, init[k], listing[last]);
      }
    }
    RunFromUnlisted(NoBuckets, base, init, root, tc, p);
    RecordCounts(RunFrom(NoBuckets, base, init, root, tc), p, Classify(root[listing[last]], tc(p)), p);
  }

  /** Every path in the lists is the path of a listed entry. */
  lemma RunFromOnlyListed(base: string, listing: seq<string>, root: map<string, RootEntry>, tc: ToolRunner, p: string)
    requires Listed(listing, root)
    ensures var r := RunFrom(NoBuckets, base, listing, root, tc);
      p in r.nonStandard || p in r.nonStandardSdc || p in r.success || p in r.fail ==>
        exists k :: 0 <= k < |listing| && PathJoin(base, listing[k]) == p
  {
    if forall k :: 0 <= k < |listing| ==> PathJoin(base, listing[k]) != p {
      RunFromUnlisted(NoBuckets, base, listing, root, tc, p);
    }
  }

  /** The directory after the pass: every entry processed with the toolchain's behaviour for its path. */
  function ProcessedRoot(base: string, root: map<string, RootEntry>, tc: ToolRunner, write: ScriptWriter): (r: map<string, RootEntry>)
    ensures r.Keys == root.Keys
    ensures forall n :: n in root && !Classify(root[n], tc(PathJoin(base, n))).Synthesized? ==> r[n] == root[n]
  {
    map n | n in root :: ProcessedEntry(root[n], PathJoin(base, n), tc(PathJoin(base, n)), write)
  }

  /** A second pass over the processed directory sorts every entry into the same lists. */
  lemma {:induction false} RerunSameBuckets(b: Buckets, base: string, listing: seq<string>, root: map<string, RootEntry>, tc: ToolRunner, write: ScriptWriter)
    requires Listed(listing, root)
    ensures Listed(listing, ProcessedRoot(base, root, tc, write))
    ensures RunFrom(b, base, listing, ProcessedRoot(base, root, tc, write), tc) == RunFrom(b, base, listing, root, tc)
    decreases |listing|
  {
    if listing != [] {
      RerunSameBuckets(b, base, listing[..|listing| - 1], root, tc, write);
    }
  }

  /** A second pass, with the toolchain behaving as in the first, leaves the directory as the first left it. */
  lemma ProcessedRootIdempotent(base: string, root: map<string, RootEntry>, tc: ToolRunner, write: ScriptWriter)
    ensures ProcessedRoot(base, ProcessedRoot(base, root, tc, write), tc, write) == ProcessedRoot(base, root, tc, write)
  {
    var once := ProcessedRoot(base, root, tc, write);
    forall n | n in once
      ensures ProcessedEntry(once[n], PathJoin(base, n), tc(PathJoin(base, n)), write) == once[n]
    {
      ProcessedEntryIdempotent(root[n], PathJoin(base, n), tc(PathJoin(base, n)), write);
    }
  }

  /** `cur` is `orig` with exactly the entries named in `done` replaced by their entries in `target`. */
  ghost predicate PartlyProcessed(orig: map<string, RootEntry>, cur: map<string, RootEntry>, done: seq<string>, target: map<string, RootEntry>) {
    && cur.Keys == orig.Keys && target.Keys == orig.Keys
    && forall n :: n in cur ==> cur[n] == (if n in done then target[n] else orig[n])
  }

  /** Replacing the next listed entry extends the replaced part by that entry. */
  lemma PartlyProcessedStep(orig: map<string, RootEntry>, cur: map<string, RootEntry>, listing: seq<string>, i: nat, target: map<string, RootEntry>)
    requires Listed(listing, orig) && Distinct(listing) && i < |listing|
    requires PartlyProcessed(orig, cur, listing[..i], target)
    ensures PartlyProcessed(orig, cur[listing[i] := target[listing[i]]], listing[..i + 1], target)
  {
    assert listing[..i + 1] == listing[..i] + [listing[i]];
  }

  /** Once every entry is listed and replaced, the directory is the target. */
  lemma PartlyProcessedAll(orig: map<string, RootEntry>, cur: map<string, RootEntry>, listing: seq<string>, target: map<string, RootEntry>)
    requires forall n :: n in orig ==> n in listing
    requires PartlyProcessed(orig, cur, listing, target)
    ensures cur == target
  {
  }

  /** The lists after one more entry of the listing. */
  lemma RunFromStep(b: Buckets, base: string, listing: seq<string>, i: nat, root: map<string, RootEntry>, tc: ToolRunner)
    requires Listed(listing, root) && i < |listing|
    ensures Listed(listing[..i], root) && Listed(listing[..i + 1], root)
    ensures var path := PathJoin(base, listing[i]);
      RunFrom(b, base, listing[..i + 1], root, tc)
        == Record(RunFrom(b, base, listing[..i], root, tc), path, Classify(root[listing[i]], tc(path)))
  {
    assert listing[..i + 1][..i] == listing[..i];
  }

  /**
    The stages in the script's order — write `run.tcl`, run the toolchain,
    remove its leftovers, check the `sdc` folder — build the processed entry.
   */
  lemma StagesMakeProcessedEntry(e: RootEntry, path: string, inv: Invocation, write: ScriptWriter)
    requires Classify(e, inv).Synthesized?
    ensures var p := e.project;
      var p1 := p.(top := p.top[RunTclName := File(write(path, FindTopModule(p.netlist).value))]);
      var p2 := p1.(top := p1.top + inv.artifacts);
      var p3 := p2.(top := CleanedTop(p2.top));
      Folder(p3.(sdc := CleanedSdc(p3.sdc))) == ProcessedEntry(e, path, inv, write)
  {
  }

  /** An entry that is not synthesised is left as it is. */
  lemma UnchangedEntry(root: map<string, RootEntry>, n: string, inv: Invocation, write: ScriptWriter)
    requires n in root && !Classify(root[n], inv).Synthesized?
    ensures forall path :: root[n := ProcessedEntry(root[n], path, inv, write)] == root
  {
  }

  /** One iteration of the pass: the next listed entry processed, its outcome recorded. */
  lemma LoopStep(base: string, orig: map<string, RootEntry>, before: map<string, RootEntry>, after: map<string, RootEntry>,
                 b0: Buckets, lists: Buckets, newLists: Buckets, listing: seq<string>, i: nat, tc: ToolRunner, write: ScriptWriter)
    requires Listed(listing, orig) && Distinct(listing) && i < |listing|
    requires PartlyProcessed(orig, before, listing[..i], ProcessedRoot(base, orig, tc, write))
    requires lists == RunFrom(b0, base, listing[..i], orig, tc)
    requires var n := listing[i]; var path := PathJoin(base, n);
      && after == before[n := ProcessedEntry(orig[n], path, tc(path), write)]
      && newLists == Record(lists, path, Classify(orig[n], tc(path)))
    ensures Listed(listing[..i + 1], orig)
    ensures PartlyProcessed(orig, after, listing[..i + 1], ProcessedRoot(base, orig, tc, write))
    ensures newLists == RunFrom(b0, base, listing[..i + 1], orig, tc)
  {
    var target := ProcessedRoot(base, orig, tc, write);
    PartlyProcessedStep(orig, before, listing, i, target);
    RunFromStep(b0, base, listing, i, orig, tc);
  }
}
