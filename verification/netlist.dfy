/**
  Top-module extraction (`find_netlist_and_top_module`).  The script matches each
  line of the first `.v` file against the anchored pattern
  `\s*module\s+(\w+)\s*\(` and returns the first capture.  `\s` and `\w` are
  taken as their ASCII classes.
 */
module Netlist {
  import opened Wrappers
  import opened FileSystem

  /** `\s` in ASCII: space, tab, line feed, carriage return, vertical tab, form feed. */
  predicate IsSpace(c: char) {
    c == ' ' || c == '\t' || c == '\n' || c == '\r' || c == '\U{000B}' || c == '\U{000C}'
  }

  /** `\w` in ASCII: letters, digits and underscore. */
  predicate IsWordChar(c: char) {
    ('a' <= c <= 'z') || ('A' <= c <= 'Z') || ('0' <= c <= '9') || c == '_'
  }

  datatype CharClass = Space | Word

  predicate InClass(c: char, cls: CharClass) {
    match cls
    case Space => IsSpace(c)
    case Word => IsWordChar(c)
  }

  /** A non-empty run of word characters: what the capture group can hold. */
  predicate IsModuleName(name: string) {
    name != [] && forall k :: 0 <= k < |name| ==> IsWordChar(name[k])
  }

  /** The end of the longest run of `cls` characters starting at `i` (a greedy `\s*` or `\w*`). */
  function Span(s: string, i: nat, cls: CharClass): (j: nat)
    requires i <= |s|
    ensures i <= j <= |s|
    ensures forall k :: i <= k < j ==> InClass(s[k], cls)
    ensures j == |s| || !InClass(s[j], cls)
    decreases |s| - i
  {
    if i < |s| && InClass(s[i], cls) then Span(s, i + 1, cls) else i
  }

  /** The keyword the pattern requires after the leading blanks. */
  const Keyword: string := "module"

  /**
    `re.match(r'\s*module\s+(\w+)\s*\(', line)`: the captured module name, or
    `None` when the line does not start with a module declaration.
   */
  function MatchModuleLine(line: string): (r: Option<string>)
    ensures r.Some? ==> IsModuleName(r.value)
  {
    var a := Span(line, 0, Space);
    if !(a + |Keyword| <= |line| && line[a..a + |Keyword|] == Keyword) then None
    else
      var b := Span(line, a + |Keyword|, Space);
      if b == a + |Keyword| then None
      else
        var c := Span(line, b, Word);
        if c == b then None
        else
          var d := Span(line, c, Space);
          if d < |line| && line[d] == '(' then Some(line[b..c]) else None
  }

  /**
    The pattern read declaratively: the line splits as blanks, `module`, at least
    one blank, the word run `line[b..c]`, blanks, and `(` at index `d`.
   */
  ghost predicate Decomposes(line: string, a: int, b: int, c: int, d: int) {
    && 0 <= a && a + |Keyword| < b < c <= d < |line|
    && (forall k :: 0 <= k < a ==> IsSpace(line[k]))
    && line[a..a + |Keyword|] == Keyword
    && (forall k :: a + |Keyword| <= k < b ==> IsSpace(line[k]))
    && (forall k :: b <= k < c ==> IsWordChar(line[k]))
    && (forall k :: c <= k < d ==> IsSpace(line[k]))
    && line[d] == '('
  }

  ghost predicate DeclaresModule(line: string, name: string) {
    exists a, b, c, d :: Decomposes(line, a, b, c, d) && name == line[b..c]
  }

  /** A greedy span is determined by where the class stops. */
  lemma SpanAt(s: string, i: nat, j: nat, cls: CharClass)
    requires i <= j <= |s|
    requires forall k :: i <= k < j ==> InClass(s[k], cls)
    requires j == |s| || !InClass(s[j], cls)
    ensures Span(s, i, cls) == j
  {
  }

  /** Every line the matcher accepts is a module declaration whose group is the captured name. */
  lemma MatchModuleLineSound(line: string)
    requires MatchModuleLine(line).Some?
    ensures DeclaresModule(line, MatchModuleLine(line).value)
  {
    var a := Span(line, 0, Space);
    var b := Span(line, a + |Keyword|, Space);
    var c := Span(line, b, Word);
    var d := Span(line, c, Space);
    assert Decomposes(line, a, b, c, d);
  }

  /** Every module declaration is accepted, and its group is the one captured. */
  lemma MatchModuleLineComplete(line: string, a: int, b: int, c: int, d: int)
    requires Decomposes(line, a, b, c, d)
    ensures MatchModuleLine(line) == Some(line[b..c])
  {
    assert line[a] == 'm' by { assert line[a] == line[a..a + |Keyword|][0]; }
    SpanAt(line, 0, a, Space);
    assert IsWordChar(line[b]);
    SpanAt(line, a + |Keyword|, b, Space);
    assert !IsWordChar(line[c]) by { if c < d { assert IsSpace(line[c]); } }
    SpanAt(line, b, c, Word);
    SpanAt(line, c, d, Space);
  }

  /** The matcher accepts exactly the lines the pattern describes, and captures exactly its group. */
  lemma MatchModuleLineCorrect(line: string, name: string)
    ensures MatchModuleLine(line) == Some(name) <==> DeclaresModule(line, name)
  {
    if MatchModuleLine(line) == Some(name) {
      MatchModuleLineSound(line);
    }
    if DeclaresModule(line, name) {
      var a, b, c, d :| Decomposes(line, a, b, c, d) && name == line[b..c];
      MatchModuleLineComplete(line, a, b, c, d);
    }
  }

  /**
    The first line that declares a module, as the `for line in file` loop finds
    it: the search stops at the first match and ignores all later lines.
   */
  function FirstModuleName(lines: seq<string>): (r: Option<string>)
    ensures r.None? <==> forall i :: 0 <= i < |lines| ==> MatchModuleLine(lines[i]).None?
    ensures r.Some? ==> IsModuleName(r.value)
  {
    if lines == [] then None
    else
      match MatchModuleLine(lines[0])
      case Some(name) => Some(name)
      case None =>
        FirstModuleName(lines[1..])
  }

  /** The name comes from the first declaring line, whatever the lines after it say. */
  lemma {:induction false} FirstModuleNameIsFirstMatch(lines: seq<string>, i: nat)
    requires i < |lines| && MatchModuleLine(lines[i]).Some?
    requires forall j :: 0 <= j < i ==> MatchModuleLine(lines[j]).None?
    ensures FirstModuleName(lines) == MatchModuleLine(lines[i])
  {
    if i > 0 {
      FirstModuleNameIsFirstMatch(lines[1..], i - 1);
    }
  }

  /** The file's name ends in `.v` (`f.endswith(".v")`). */
  predicate IsVerilog(f: NetlistFile) {
    |f.name| >= 2 && f.name[|f.name| - 2..] == ".v"
  }

  /** `v_files`: the `.v` files of the listing, in listing order. */
  function VerilogFiles(listing: seq<NetlistFile>): (r: seq<NetlistFile>)
    ensures forall f :: f in r <==> f in listing && IsVerilog(f)
  {
    if listing == [] then []
    else (if IsVerilog(listing[0]) then [listing[0]] else []) + VerilogFiles(listing[1..])
  }

  lemma {:induction false} VerilogFilesAppend(xs: seq<NetlistFile>, ys: seq<NetlistFile>)
    ensures VerilogFiles(xs + ys) == VerilogFiles(xs) + VerilogFiles(ys)
  {
    if xs == [] {
      assert xs + ys == ys;
    } else {
      assert (xs + ys)[1..] == xs[1..] + ys;
      VerilogFilesAppend(xs[1..], ys);
    }
  }

  lemma {:induction false} NoVerilogFiles(xs: seq<NetlistFile>)
    requires forall g :: g in xs ==> !IsVerilog(g)
    ensures VerilogFiles(xs) == []
  {
    if xs != [] {
      NoVerilogFiles(xs[1..]);
    }
  }

  /** The top module of a project whose `netlist` folder is `netlist` (absent when `None`). */
  function FindTopModule(netlist: Option<seq<NetlistFile>>): (r: Option<string>)
    ensures netlist.None? ==> r.None?
    ensures netlist.Some? && (forall f :: f in netlist.value ==> !IsVerilog(f)) ==> r.None?
    ensures r.Some? ==> IsModuleName(r.value)
  {
    if netlist.None? then None
    else
      var vFiles := VerilogFiles(netlist.value);
      if vFiles == [] then None
      else
        assert vFiles[0] in netlist.value;
        FirstModuleName(vFiles[0].lines)
  }

  /**
    Only the first `.v` file is read: whatever non-`.v` entries precede it and
    whatever follows it (other `.v` files included), the result is the first
    module declaration of that one file.
   */
  lemma {:induction false} OnlyFirstVerilogFileRead(before: seq<NetlistFile>, f: NetlistFile, after: seq<NetlistFile>)
    requires forall g :: g in before ==> !IsVerilog(g)
    requires IsVerilog(f)
    ensures FindTopModule(Some(before + [f] + after)) == FirstModuleName(f.lines)
  {
    VerilogFilesAppend(before + [f], after);
    VerilogFilesAppend(before, [f]);
    NoVerilogFiles(before);
    assert VerilogFiles([f]) == [f] by { assert [f][1..] == []; }
  }
}
