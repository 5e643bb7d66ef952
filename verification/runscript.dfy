/**
  The build script (`create_run_tcl`): the text of `run.tcl`, built from the
  project path, the FPGA part and the top-module name.
 */
module RunScript {
  import opened Text
  import opened FileSystem
  import Toolchain

  /** The FPGA part the Vivado project targets. */
  const FpgaPart: string := "xcau15p-ffvb676-1-i"

  /** The name of the generated script inside the project folder. */
  const RunTclName: string := "run.tcl"

  /** `<sub>/VIVADO`: the Vivado project directory. */
  function VivadoDirOf(sub: string): string {
    PathJoin(sub, "VIVADO")
  }

  /** `<sub>/rtl/ori`: the directory whose files become design sources. */
  function RtlDirOf(sub: string): string {
    PathJoin(PathJoin(sub, "rtl"), "ori")
  }

  /** A section of the script: a comment line, its commands, then a blank line. */
  function Section(comment: string, commands: seq<string>): seq<string> {
    [comment] + commands + [""]
  }

  // The sections of the script, in order.  Literal lines longer than forty
  // characters are written as concatenations of shorter literals, which keeps
  // their characters visible to the verifier.

  function DirsSection(projectDir: string, rtlDir: string): seq<string> {
    Section("# Define project and rtl directories",
      [ "set project_dir \"" + projectDir + "\"",
        "set rtl_dir \"" + rtlDir + "\"" ])
  }

  function MkdirSection(): seq<string> {
    Section("# Create the VIVADO project directory", [ "file mkdir $project_dir" ])
  }

  function ProjectSection(fpgaPart: string): seq<string> {
    Section("# Create a new Vivado " + "project named 'test'",
      [ "create_project test $project_dir -part " + fpgaPart ])
  }

  function SourcesSection(): seq<string> {
    Section("# Add all source files " + "in the rtl/ori directory",
      [ "add_files -fileset sources_1 " + "[glob -directory $rtl_dir *]" ])
  }

  function TopSection(top: string): seq<string> {
    Section("# Set the top module for the project",
      [ "set_property top " + top + " [current_fileset]" ])
  }

  function OrderSection(): seq<string> {
    Section("# Update the compile order " + "for the fileset",
      [ "update_compile_order -fileset sources_1" ])
  }

  function UnrefSection(): seq<string> {
    Section("# Get unreferenced files " + "(before running synthesis)",
      [ "set unref_files [get_files -of " + "[get_filesets sources_1] " + "-filter {IS_AUTO_DISABLED}]" ])
  }

  function StepsSection(top: string): seq<string> {
    Section("# Run synthesis and implementation",
      [ "catch { synth_design -top " + top + " }",
        "catch { place_design }",
        "catch { route_design }" ])
  }

  function DeleteSection(): seq<string> {
    Section("# Delete unreferenced files " + "after synthesis and implementation",
      DeleteIfBranch() + DeleteElseBranch())
  }

  /** The branch that deletes each unreferenced file that exists and logs it. */
  function DeleteIfBranch(): seq<string> {
    [ "if {[llength $unref_files] > 0} {",
      "    puts \"Deleting unreferenced files:\"",
      "    foreach file $unref_files {",
      "        if {[file exists $file]} {",
      "            file delete -force $file",
      "            puts \"" + "  " + Toolchain.DeletedTag + "$file\"",
      "        }",
      "    }" ]
  }

  function DeleteElseBranch(): seq<string> {
    [ "} else {",
      "    puts \"No unreferenced " + "files to delete.\"",
      "}" ]
  }

  function DoneSection(sub: string): seq<string> {
    [ "# Print completion message",
      "puts \"Synthesis and Implementation " + "completed for project: " + sub + "\"" ]
  }

  /** The script's lines; the text opens with an empty line. */
  function RunTclLines(sub: string, fpgaPart: string, top: string): seq<string> {
    [""] + DirsSection(VivadoDirOf(sub), RtlDirOf(sub)) + MkdirSection() + ProjectSection(fpgaPart) + SourcesSection()
    + TopSection(top) + OrderSection() + UnrefSection() + StepsSection(top) + DeleteSection()
    + DoneSection(sub)
  }

  /** The text written to `<sub>/run.tcl`. */
  function RunTcl(sub: string, fpgaPart: string, top: string): string {
    Unlines(RunTclLines(sub, fpgaPart, top))
  }

  lemma NoNewlineConcat(a: string, b: string)
    requires NoNewline(a) && NoNewline(b)
    ensures NoNewline(a + b)
  {
    assert forall k :: |a| <= k < |a + b| ==> (a + b)[k] == b[k - |a|];
  }

  lemma NoNewlinePathJoin(a: string, b: string)
    requires NoNewline(a) && NoNewline(b)
    ensures NoNewline(PathJoin(a, b))
  {
    if !(b != [] && b[0] == '/') && !(a == [] || a[|a| - 1] == '/') {
      NoNewlineConcat(a, "/");
      NoNewlineConcat(a + "/", b);
    } else if !(b != [] && b[0] == '/') {
      NoNewlineConcat(a, b);
    }
  }

  /**
    Read back line by line, the script yields the lines it was written from:
    no interpolated value can split a line or merge two.
   */
  lemma RunTclReadsBack(sub: string, fpgaPart: string, top: string)
    requires NoNewline(sub) && NoNewline(fpgaPart) && NoNewline(top)
    ensures SplitLines(RunTcl(sub, fpgaPart, top)) == RunTclLines(sub, fpgaPart, top)
  {
    RunTclLinesNoNewline(sub, fpgaPart, top);
    SplitLinesUnlines(RunTclLines(sub, fpgaPart, top));
  }

  // Where the key lines sit: the sections before `Project`, `Top`, `Steps` and
  // `Done` hold 8, 14, 23 and 41 lines.

  /** The script sets the project directory to `<sub>/VIVADO` and the rtl directory to `<sub>/rtl/ori`. */
  lemma RunTclDirLines(sub: string, fpgaPart: string, top: string)
    ensures var ls := RunTclLines(sub, fpgaPart, top);
      && |ls| == 43
      && ls[2] == "set project_dir \"" + VivadoDirOf(sub) + "\""
      && ls[3] == "set rtl_dir \"" + RtlDirOf(sub) + "\""
  {
    SectionLengths(sub, fpgaPart, top);
    Layout([""], DirsSection(VivadoDirOf(sub), RtlDirOf(sub)), MkdirSection(), ProjectSection(fpgaPart), SourcesSection(),
      TopSection(top), OrderSection(), UnrefSection(), StepsSection(top), DeleteSection(), DoneSection(sub));
    DirsSectionLines(VivadoDirOf(sub), RtlDirOf(sub));
  }

  /** The script creates the project for the given FPGA part. */
  lemma RunTclPartLine(sub: string, fpgaPart: string, top: string)
    ensures var ls := RunTclLines(sub, fpgaPart, top);
      && |ls| == 43
      && ls[9] == "create_project test $project_dir -part " + fpgaPart
  {
    SectionLengths(sub, fpgaPart, top);
    Layout([""], DirsSection(VivadoDirOf(sub), RtlDirOf(sub)), MkdirSection(), ProjectSection(fpgaPart), SourcesSection(),
      TopSection(top), OrderSection(), UnrefSection(), StepsSection(top), DeleteSection(), DoneSection(sub));
    ProjectSectionLine(fpgaPart);
  }

  /** The script makes the given module the top of the design sources. */
  lemma RunTclTopLine(sub: string, fpgaPart: string, top: string)
    ensures var ls := RunTclLines(sub, fpgaPart, top);
      && |ls| == 43
      && ls[15] == "set_property top " + top + " [current_fileset]"
  {
    SectionLengths(sub, fpgaPart, top);
    Layout([""], DirsSection(VivadoDirOf(sub), RtlDirOf(sub)), MkdirSection(), ProjectSection(fpgaPart), SourcesSection(),
      TopSection(top), OrderSection(), UnrefSection(), StepsSection(top), DeleteSection(), DoneSection(sub));
    TopSectionLine(top);
  }

  /** The script synthesises with the given top module, then places and routes. */
  lemma RunTclStepLines(sub: string, fpgaPart: string, top: string)
    ensures var ls := RunTclLines(sub, fpgaPart, top);
      && |ls| == 43
      && ls[24] == "catch { synth_design -top " + top + " }"
      && ls[25] == "catch { place_design }" && ls[26] == "catch { route_design }"
  {
    SectionLengths(sub, fpgaPart, top);
    Layout([""], DirsSection(VivadoDirOf(sub), RtlDirOf(sub)), MkdirSection(), ProjectSection(fpgaPart), SourcesSection(),
      TopSection(top), OrderSection(), UnrefSection(), StepsSection(top), DeleteSection(), DoneSection(sub));
    StepsSectionLines(top);
  }

  /** The script opens with an empty line and closes by reporting the project it built. */
  lemma RunTclCompletionLine(sub: string, fpgaPart: string, top: string)
    ensures var ls := RunTclLines(sub, fpgaPart, top);
      && |ls| == 43 && ls[0] == ""
      && ls[42] == "puts \"Synthesis and Implementation " + "completed for project: " + sub + "\""
  {
    SectionLengths(sub, fpgaPart, top);
    Layout([""], DirsSection(VivadoDirOf(sub), RtlDirOf(sub)), MkdirSection(), ProjectSection(fpgaPart), SourcesSection(),
      TopSection(top), OrderSection(), UnrefSection(), StepsSection(top), DeleteSection(), DoneSection(sub));
  }

  lemma SectionLengths(sub: string, fpgaPart: string, top: string)
    ensures |DirsSection(VivadoDirOf(sub), RtlDirOf(sub))| == 4 && |MkdirSection()| == 3 && |ProjectSection(fpgaPart)| == 3
    ensures |SourcesSection()| == 3 && |TopSection(top)| == 3 && |OrderSection()| == 3
    ensures |UnrefSection()| == 3 && |StepsSection(top)| == 5 && |DeleteSection()| == 13
    ensures |DoneSection(sub)| == 2
  {
  }

  lemma DirsSectionLines(projectDir: string, rtlDir: string)
    ensures DirsSection(projectDir, rtlDir)[1] == "set project_dir \"" + projectDir + "\""
    ensures DirsSection(projectDir, rtlDir)[2] == "set rtl_dir \"" + rtlDir + "\""
  {
  }

  lemma ProjectSectionLine(fpgaPart: string)
    ensures ProjectSection(fpgaPart)[1] == "create_project test $project_dir -part " + fpgaPart
  {
  }

  lemma TopSectionLine(top: string)
    ensures TopSection(top)[1] == "set_property top " + top + " [current_fileset]"
  {
  }

  lemma StepsSectionLines(top: string)
    ensures StepsSection(top)[1] == "catch { synth_design -top " + top + " }"
    ensures StepsSection(top)[2] == "catch { place_design }" && StepsSection(top)[3] == "catch { route_design }"
  {
  }

  /**
    Where the lines of eleven consecutive sections of the script's lengths
    land: stated over arbitrary sequences, so that the line text plays no part.
   */
  lemma Layout(s0: seq<string>, s1: seq<string>, s2: seq<string>, s3: seq<string>, s4: seq<string>,
               s5: seq<string>, s6: seq<string>, s7: seq<string>, s8: seq<string>, s9: seq<string>,
               s10: seq<string>)
    requires |s0| == 1 && |s1| == 4 && |s2| == 3 && |s3| == 3 && |s4| == 3 && |s5| == 3
    requires |s6| == 3 && |s7| == 3 && |s8| == 5 && |s9| == 13 && |s10| == 2
    ensures var ls := s0 + s1 + s2 + s3 + s4 + s5 + s6 + s7 + s8 + s9 + s10;
      && |ls| == 43 && ls[0] == s0[0] && ls[2] == s1[1] && ls[3] == s1[2] && ls[9] == s3[1]
      && ls[15] == s5[1] && ls[24] == s8[1] && ls[25] == s8[2] && ls[26] == s8[3] && ls[42] == s10[1]
  {
  }

  predicate AllNoNewline(lines: seq<string>) {
    forall i :: 0 <= i < |lines| ==> NoNewline(lines[i])
  }

  lemma AllNoNewlineAppend(a: seq<string>, b: seq<string>)
    requires AllNoNewline(a) && AllNoNewline(b)
    ensures AllNoNewline(a + b)
  {
    assert forall i :: |a| <= i < |a + b| ==> (a + b)[i] == b[i - |a|];
  }

  lemma SectionNoNewline(comment: string, commands: seq<string>)
    requires NoNewline(comment) && AllNoNewline(commands)
    ensures AllNoNewline(Section(comment, commands))
  {
    AllNoNewlineAppend([comment], commands);
    AllNoNewlineAppend([comment] + commands, [""]);
  }

  lemma DirsSectionNoNewline(projectDir: string, rtlDir: string)
    requires NoNewline(projectDir) && NoNewline(rtlDir)
    ensures AllNoNewline(DirsSection(projectDir, rtlDir))
  {
    QuotedNoNewline("set project_dir \"", projectDir);
    QuotedNoNewline("set rtl_dir \"", rtlDir);
    SectionNoNewline("# Define project and rtl directories",
      [ "set project_dir \"" + projectDir + "\"", "set rtl_dir \"" + rtlDir + "\"" ]);
  }

  lemma DirsNoNewline(sub: string)
    requires NoNewline(sub)
    ensures NoNewline(VivadoDirOf(sub)) && NoNewline(RtlDirOf(sub))
  {
    NoNewlinePathJoin(sub, "VIVADO");
    NoNewlinePathJoin(sub, "rtl");
    NoNewlinePathJoin(PathJoin(sub, "rtl"), "ori");
  }

  lemma QuotedNoNewline(prefix: string, v: string)
    requires NoNewline(prefix) && NoNewline(v)
    ensures NoNewline(prefix + v + "\"")
  {
    NoNewlineConcat(prefix, v);
    NoNewlineConcat(prefix + v, "\"");
  }

  lemma MkdirSectionNoNewline()
    ensures AllNoNewline(MkdirSection())
  {
    SectionNoNewline("# Create the VIVADO project directory", [ "file mkdir $project_dir" ]);
  }

  lemma SourcesSectionNoNewline()
    ensures AllNoNewline(SourcesSection())
  {
    NoNewlineConcat("# Add all source files ", "in the rtl/ori directory");
    NoNewlineConcat("add_files -fileset sources_1 ", "[glob -directory $rtl_dir *]");
    SectionNoNewline("# Add all source files " + "in the rtl/ori directory",
      [ "add_files -fileset sources_1 " + "[glob -directory $rtl_dir *]" ]);
  }

  lemma OrderSectionNoNewline()
    ensures AllNoNewline(OrderSection())
  {
    NoNewlineConcat("# Update the compile order ", "for the fileset");
    SectionNoNewline("# Update the compile order " + "for the fileset", [ "update_compile_order -fileset sources_1" ]);
  }

  lemma UnrefSectionNoNewline()
    ensures AllNoNewline(UnrefSection())
  {
    NoNewlineConcat("# Get unreferenced files ", "(before running synthesis)");
    NoNewlineConcat("set unref_files [get_files -of ", "[get_filesets sources_1] ");
    NoNewlineConcat("set unref_files [get_files -of " + "[get_filesets sources_1] ", "-filter {IS_AUTO_DISABLED}]");
    SectionNoNewline("# Get unreferenced files " + "(before running synthesis)",
      [ "set unref_files [get_files -of " + "[get_filesets sources_1] " + "-filter {IS_AUTO_DISABLED}]" ]);
  }

  lemma ProjectSectionNoNewline(fpgaPart: string)
    requires NoNewline(fpgaPart)
    ensures AllNoNewline(ProjectSection(fpgaPart))
  {
    NoNewlineConcat("# Create a new Vivado ", "project named 'test'");
    NoNewlineConcat("create_project test $project_dir -part ", fpgaPart);
    SectionNoNewline("# Create a new Vivado " + "project named 'test'",
      [ "create_project test $project_dir -part " + fpgaPart ]);
  }

  lemma TopSectionNoNewline(top: string)
    requires NoNewline(top)
    ensures AllNoNewline(TopSection(top))
  {
    NoNewlineConcat("set_property top ", top);
    NoNewlineConcat("set_property top " + top, " [current_fileset]");
    SectionNoNewline("# Set the top module for the project", [ "set_property top " + top + " [current_fileset]" ]);
  }

  lemma StepsSectionNoNewline(top: string)
    requires NoNewline(top)
    ensures AllNoNewline(StepsSection(top))
  {
    NoNewlineConcat("catch { synth_design -top ", top);
    NoNewlineConcat("catch { synth_design -top " + top, " }");
    SectionNoNewline("# Run synthesis and implementation",
      [ "catch { synth_design -top " + top + " }", "catch { place_design }", "catch { route_design }" ]);
  }

  lemma DeleteIfBranchNoNewline()
    ensures AllNoNewline(DeleteIfBranch())
  {
    DeleteIfHeadNoNewline();
    DeleteIfBodyNoNewline();
  }

  lemma DeleteIfHeadNoNewline()
    ensures var ls := DeleteIfBranch();
      NoNewline(ls[0]) && NoNewline(ls[1]) && NoNewline(ls[2]) && NoNewline(ls[3])
  {
  }

  lemma DeleteIfBodyNoNewline()
    ensures var ls := DeleteIfBranch();
      NoNewline(ls[4]) && NoNewline(ls[5]) && NoNewline(ls[6]) && NoNewline(ls[7])
  {
    NoNewlineConcat("            puts \"" + "  ", Toolchain.DeletedTag);
    NoNewlineConcat("            puts \"" + "  " + Toolchain.DeletedTag, "$file\"");
  }

  lemma DeleteSectionNoNewline()
    ensures AllNoNewline(DeleteSection())
  {
    DeleteIfBranchNoNewline();
    NoNewlineConcat("    puts \"No unreferenced ", "files to delete.\"");
    AllNoNewlineAppend(DeleteIfBranch(), DeleteElseBranch());
    NoNewlineConcat("# Delete unreferenced files ", "after synthesis and implementation");
    SectionNoNewline("# Delete unreferenced files " + "after synthesis and implementation",
      DeleteIfBranch() + DeleteElseBranch());
  }

  lemma DoneSectionNoNewline(sub: string)
    requires NoNewline(sub)
    ensures AllNoNewline(DoneSection(sub))
  {
    NoNewlineConcat("puts \"Synthesis and Implementation ", "completed for project: ");
    NoNewlineConcat("puts \"Synthesis and Implementation " + "completed for project: ", sub);
    NoNewlineConcat("puts \"Synthesis and Implementation " + "completed for project: " + sub, "\"");
  }

  /** No line of the script holds a line feed when the interpolated values hold none. */
  lemma RunTclLinesNoNewline(sub: string, fpgaPart: string, top: string)
    requires NoNewline(sub) && NoNewline(fpgaPart) && NoNewline(top)
    ensures AllNoNewline(RunTclLines(sub, fpgaPart, top))
  {
    DirsNoNewline(sub);
    DirsSectionNoNewline(VivadoDirOf(sub), RtlDirOf(sub));
    MkdirSectionNoNewline();
    SourcesSectionNoNewline();
    OrderSectionNoNewline();
    UnrefSectionNoNewline();
    ProjectSectionNoNewline(fpgaPart);
    TopSectionNoNewline(top);
    StepsSectionNoNewline(top);
    DeleteSectionNoNewline();
    DoneSectionNoNewline(sub);
    var ls := [""];
    ls := ls + DirsSection(VivadoDirOf(sub), RtlDirOf(sub));
    AllNoNewlineAppend([""], DirsSection(VivadoDirOf(sub), RtlDirOf(sub)));
    AllNoNewlineAppend(ls, MkdirSection());
    ls := ls + MkdirSection();
    AllNoNewlineAppend(ls, ProjectSection(fpgaPart));
    ls := ls + ProjectSection(fpgaPart);
    AllNoNewlineAppend(ls, SourcesSection());
    ls := ls + SourcesSection();
    AllNoNewlineAppend(ls, TopSection(top));
    ls := ls + TopSection(top);
    AllNoNewlineAppend(ls, OrderSection());
    ls := ls + OrderSection();
    AllNoNewlineAppend(ls, UnrefSection());
    ls := ls + UnrefSection();
    AllNoNewlineAppend(ls, StepsSection(top));
    ls := ls + StepsSection(top);
    AllNoNewlineAppend(ls, DeleteSection());
    ls := ls + DeleteSection();
    AllNoNewlineAppend(ls, DoneSection(sub));
    ls := ls + DoneSection(sub);
    assert ls == RunTclLines(sub, fpgaPart, top);
  }

  /**
    The script determines what it was built from: two scripts that are equal
    were built for the same project path, part and top module.
   */
  lemma RunTclDeterminesInputs(sub1: string, part1: string, top1: string, sub2: string, part2: string, top2: string)
    requires NoNewline(sub1) && NoNewline(part1) && NoNewline(top1)
    requires NoNewline(sub2) && NoNewline(part2) && NoNewline(top2)
    requires RunTcl(sub1, part1, top1) == RunTcl(sub2, part2, top2)
    ensures sub1 == sub2 && part1 == part2 && top1 == top2
  {
    RunTclReadsBack(sub1, part1, top1);
    RunTclReadsBack(sub2, part2, top2);
    RunTclPartLine(sub1, part1, top1);
    RunTclTopLine(sub1, part1, top1);
    RunTclCompletionLine(sub1, part1, top1);
    RunTclPartLine(sub2, part2, top2);
    RunTclTopLine(sub2, part2, top2);
    RunTclCompletionLine(sub2, part2, top2);
    var ls := RunTclLines(sub1, part1, top1);
    var p9 := "create_project test $project_dir -part ";
    assert part1 == ls[9][|p9|..] == part2;
    var p15 := "set_property top ";
    var s15 := " [current_fileset]";
    assert top1 == ls[15][|p15|..|ls[15]| - |s15|] == top2;
    var p42 := "puts \"Synthesis and Implementation " + "completed for project: ";
    assert sub1 == ls[42][|p42|..|ls[42]| - 1] == sub2;
  }
}
