/**
  The abstract filesystem the pipeline works on.  The directory scanned by the
  script holds plain files and project folders; a project folder is described
  only by the parts the script looks at or changes.
 */
module FileSystem {
  import opened Wrappers

  /** A top-level entry of a project folder: a plain file with its text, or a directory. */
  datatype Entry = File(text: string) | Dir

  /** A file of the `netlist` folder, read as the sequence of its lines. */
  datatype NetlistFile = NetlistFile(name: string, lines: seq<string>)

  /**
    A project folder:
    - `hasRtlOri`: whether `rtl/ori` exists below it;
    - `netlist`: the listing of its `netlist` folder in directory order, if that folder exists;
    - `sdc`: the plain files of its `sdc` folder, if that folder exists;
    - `top`: every other top-level entry (`run.tcl`, `VIVADO`, `.Xil`, `vivado.log`, ...).
   */
  datatype Project = Project(
    hasRtlOri: bool,
    netlist: Option<seq<NetlistFile>>,
    sdc: Option<set<string>>,
    top: map<string, Entry>)

  /** The names of the two folders a project describes by fields of their own. */
  const SdcFolder: string := "sdc"
  const NetlistFolder: string := "netlist"

  /**
    The fields tell the whole story of `sdc` and `netlist`: neither name is
    also among the other top-level entries (as a plain file, say).
   */
  predicate WellFormed(p: Project) {
    SdcFolder !in p.top && NetlistFolder !in p.top
  }

  /** An entry of the scanned directory. */
  datatype RootEntry = PlainFile | Folder(project: Project)

  /** `os.path.join(a, b)` on POSIX: an absolute `b` replaces `a`, and a separator is added when `a` lacks one. */
  function PathJoin(a: string, b: string): (r: string)
    ensures (b == [] || b[0] != '/') ==> |a| + |b| <= |r| <= |a| + 1 + |b|
    ensures (b == [] || b[0] != '/') && a != [] && a[|a| - 1] != '/' ==> |r| == |a| + 1 + |b|
  {
    if b != [] && b[0] == '/' then b
    else if a == [] || a[|a| - 1] == '/' then a + b
    else a + "/" + b
  }

  /** A relative `b` is joined below `a`: the result starts with `a`, ends with `b`, and has a separator between them. */
  lemma PathJoinParts(a: string, b: string)
    requires b == [] || b[0] != '/'
    ensures var r := PathJoin(a, b);
      && r[..|a|] == a && r[|r| - |b|..] == b
      && (a != [] && a[|a| - 1] != '/' ==> r[|a|] == '/')
  {
    var r := PathJoin(a, b);
    if !(a == [] || a[|a| - 1] == '/') {
      assert r == a + "/" + b;
      assert r[..|a|] == a;
    }
  }

  /** A name as a directory listing returns it: non-empty and free of separators. */
  predicate PlainName(n: string) {
    n != [] && forall k :: 0 <= k < |n| ==> n[k] != '/'
  }

  /** Joining a fixed directory with two relative names gives two different paths. */
  lemma PathJoinInjective(a: string, b1: string, b2: string)
    requires b1 == [] || b1[0] != '/'
    requires b2 == [] || b2[0] != '/'
    requires PathJoin(a, b1) == PathJoin(a, b2)
    ensures b1 == b2
  {
    var sep := if a == [] || a[|a| - 1] == '/' then "" else "/";
    assert PathJoin(a, b1) == (a + sep) + b1;
    assert PathJoin(a, b2) == (a + sep) + b2;
    assert b1 == PathJoin(a, b1)[|a + sep|..];
    assert b2 == PathJoin(a, b2)[|a + sep|..];
  }
}
