/**
  Classification of one toolchain run (`load_vivado_and_run_tcl`) and recovery of
  the file names the generated script reports as deleted.  The external process
  itself is not modelled: a run is given as its abstract result.
 */
module Toolchain {
  import opened Text

  /**
    What running `vivado -mode batch -source run.tcl` produced: the launch
    failed (`FileNotFoundError`), the shell exited with a non-zero status
    (`CalledProcessError`), or it exited cleanly with the captured text streams.
   */
  datatype ToolResult = LaunchFailed | NonZeroExit | Exited(stdout: string, stderr: string)

  /** The marker whose presence in the captured output means failure. */
  const ErrorMarker: string := "ERROR"

  /**
    A run fails when it did not launch, exited non-zero, or the marker occurs
    somewhere in the two streams read as one text.
   */
  function Failed(r: ToolResult): (failed: bool)
    ensures failed <==> !r.Exited? || exists i :: OccursAt(r.stdout + r.stderr, ErrorMarker, i)
  {
    match r
    case LaunchFailed => true
    case NonZeroExit => true
    case Exited(out, err) =>
      HasSubstringCorrect(out + err, ErrorMarker);
      HasSubstring(out + err, ErrorMarker)
  }

  /** The marker printed on either stream makes the run a failure. */
  lemma MarkerOnEitherStreamFails(out: string, err: string)
    requires HasSubstring(out, ErrorMarker) || HasSubstring(err, ErrorMarker)
    ensures Failed(Exited(out, err))
  {
    HasSubstringCorrect(out, ErrorMarker);
    HasSubstringCorrect(err, ErrorMarker);
    HasSubstringCorrect(out + err, ErrorMarker);
    var s := out + err;
    if HasSubstring(out, ErrorMarker) {
      var i :| OccursAt(out, ErrorMarker, i);
      assert s[i..i + |ErrorMarker|] == out[i..i + |ErrorMarker|];
      assert OccursAt(s, ErrorMarker, i);
    } else {
      var i :| OccursAt(err, ErrorMarker, i);
      assert s[|out| + i..|out| + i + |ErrorMarker|] == err[i..i + |ErrorMarker|];
      assert OccursAt(s, ErrorMarker, |out| + i);
    }
  }

  /**
    The converse of `MarkerOnEitherStreamFails` does not hold: the streams are
    searched as one text, so a marker split across the end of standard output
    and the start of standard error fails the run although neither stream
    holds it.
   */
  lemma MarkerAcrossStreamsFails()
    ensures exists out, err ::
      Failed(Exited(out, err)) && !HasSubstring(out, ErrorMarker) && !HasSubstring(err, ErrorMarker)
    ensures !HasSubstring("ERR", ErrorMarker) && !HasSubstring("OR", ErrorMarker)
    ensures Failed(Exited("ERR", "OR"))
  {
    assert ("ERR" + "OR")[..5] == ErrorMarker;
    assert Failed(Exited("ERR", "OR"));
  }

  /** The literal the extraction pattern `Deleted: (.+)` looks for. */
  const DeletedTag: string := "Deleted: "

  /**
    `re.findall(r"Deleted: (.+)", output)`: scanning left to right, every
    occurrence of the tag followed by at least one character other than a line
    feed yields the rest of its line; the scan resumes at the end of that line.
   */
  function DeletedFiles(output: string): (files: seq<string>)
    ensures forall k :: 0 <= k < |files| ==> files[k] != [] && NoNewline(files[k])
    decreases |output|
  {
    if |output| <= |DeletedTag| then []
    else if output[..|DeletedTag|] == DeletedTag && output[|DeletedTag|] != '\n' then
      var e := LineEnd(output, |DeletedTag|);
      [output[|DeletedTag|..e]] + DeletedFiles(output[e..])
    else DeletedFiles(output[1..])
  }

  /** The line the generated script prints for each unreferenced file it deletes. */
  function DeletionLogLine(file: string): string {
    "  " + DeletedTag + file + "\n"
  }

  /** The deletion log for a sequence of files, one line per file, in order. */
  function DeletionLog(files: seq<string>): string {
    if files == [] then "" else DeletionLogLine(files[0]) + DeletionLog(files[1..])
  }

  predicate EndsLine(s: string) {
    s == [] || s[|s| - 1] == '\n'
  }

  /**
    Output that ends at a line boundary can be scanned piecewise: the files
    found in `a + b` are those found in `a` followed by those found in `b`.
   */
  lemma {:induction false} DeletedFilesAppend(a: string, b: string)
    requires EndsLine(a)
    ensures DeletedFiles(a + b) == DeletedFiles(a) + DeletedFiles(b)
    decreases |a|, 1
  {
    if a == [] {
      assert a + b == b;
    } else if |a| > |DeletedTag| && a[..|DeletedTag|] == DeletedTag && a[|DeletedTag|] != '\n' {
      DeletedFilesAppendTagged(a, b);
    } else {
      DeletedFilesAppendUntagged(a, b);
    }
  }

  lemma {:induction false} DeletedFilesAppendTagged(a: string, b: string)
    requires EndsLine(a)
    requires |a| > |DeletedTag| && a[..|DeletedTag|] == DeletedTag && a[|DeletedTag|] != '\n'
    ensures DeletedFiles(a + b) == DeletedFiles(a) + DeletedFiles(b)
    decreases |a|, 0
  {
    var e := TagStep(a, b);
    DeletedFilesAppend(a[e..], b);
    Regroup([a[|DeletedTag|..e]], DeletedFiles(a[e..]), DeletedFiles(b));
  }

  lemma Regroup<T>(x: seq<T>, y: seq<T>, z: seq<T>)
    ensures x + (y + z) == (x + y) + z
  {
  }

  lemma {:induction false} DeletedFilesAppendUntagged(a: string, b: string)
    requires a != [] && EndsLine(a)
    requires !(|a| > |DeletedTag| && a[..|DeletedTag|] == DeletedTag && a[|DeletedTag|] != '\n')
    ensures DeletedFiles(a + b) == DeletedFiles(a) + DeletedFiles(b)
    decreases |a|, 0
  {
    NoTagStep(a, b);
    if |a| > 1 {
      DeletedFilesAppend(a[1..], b);
    }
  }

  /** A tagged first line of `a` is reported alike in `a` and in `a + b`, and both scans resume at its end. */
  lemma TagStep(a: string, b: string) returns (e: nat)
    requires EndsLine(a)
    requires |a| > |DeletedTag| && a[..|DeletedTag|] == DeletedTag && a[|DeletedTag|] != '\n'
    ensures |DeletedTag| < e < |a| && a[e] == '\n' && EndsLine(a[e..])
    ensures DeletedFiles(a) == [a[|DeletedTag|..e]] + DeletedFiles(a[e..])
    ensures DeletedFiles(a + b) == [a[|DeletedTag|..e]] + DeletedFiles(a[e..] + b)
  {
    var n := |DeletedTag|;
    var s := a + b;
    assert s[..n] == DeletedTag && s[n] == a[n];
    e := LineEnd(a, n);
    assert forall k :: n <= k < e ==> s[k] == a[k];
    LineEndAt(s, n, e);
    assert s[n..e] == a[n..e];
    assert s[e..] == a[e..] + b;
  }

  /** Without a tagged first line, both scans move on by one character. */
  lemma NoTagStep(a: string, b: string)
    requires a != [] && EndsLine(a)
    requires !(|a| > |DeletedTag| && a[..|DeletedTag|] == DeletedTag && a[|DeletedTag|] != '\n')
    ensures DeletedFiles(a + b) == if |a| == 1 then DeletedFiles(b) else DeletedFiles(a[1..] + b)
    ensures |a| > 1 ==> DeletedFiles(a) == DeletedFiles(a[1..]) && EndsLine(a[1..])
    ensures |a| == 1 ==> DeletedFiles(a) == []
  {
    NoTagAcrossLineEnd(a, b);
    var s := a + b;
    if |a| == 1 {
      assert s[1..] == b;
    } else {
      assert s[1..] == a[1..] + b;
    }
  }

  /** When `a` ends a line and the tag does not start `a` with a name after it, it does not start `a + b` either. */
  lemma NoTagAcrossLineEnd(a: string, b: string)
    requires a != [] && a[|a| - 1] == '\n'
    requires !(|a| > |DeletedTag| && a[..|DeletedTag|] == DeletedTag && a[|DeletedTag|] != '\n')
    ensures !(|a + b| > |DeletedTag| && (a + b)[..|DeletedTag|] == DeletedTag && (a + b)[|DeletedTag|] != '\n')
  {
    var n := |DeletedTag|;
    var s := a + b;
    if |a| > n {
      assert s[..n] == a[..n] && s[n] == a[n];
    } else if |s| > n {
      assert s[..n][|a| - 1] == '\n';
      assert DeletedTag[|a| - 1] != '\n';
    }
  }

  /** One log line yields exactly its file name. */
  lemma DeletedFilesOfLogLine(file: string)
    requires file != [] && NoNewline(file)
    ensures DeletedFiles(DeletionLogLine(file)) == [file]
  {
    var t := DeletedTag + file + "\n";
    var line := DeletionLogLine(file);
    assert line == " " + (" " + t);
    SkipBlank(" " + (" " + t));
    assert (" " + (" " + t))[1..] == " " + t;
    SkipBlank(" " + t);
    assert (" " + t)[1..] == t;
    TaggedLine(file);
  }

  /** A leading blank cannot start the tag, so the scan moves past it. */
  lemma SkipBlank(s: string)
    requires s != [] && s[0] == ' '
    ensures DeletedFiles(s) == DeletedFiles(s[1..])
  {
    if |s| > |DeletedTag| {
      assert s[..|DeletedTag|][0] == ' ';
    }
  }

  /** A line that starts with the tag yields the rest of the line. */
  lemma TaggedLine(file: string)
    requires file != [] && NoNewline(file)
    ensures DeletedFiles(DeletedTag + file + "\n") == [file]
  {
    var t := DeletedTag + file + "\n";
    var n := |DeletedTag|;
    assert t[..n] == DeletedTag && t[n] == file[0];
    LineEndAt(t, n, |t| - 1);
    assert t[n..|t| - 1] == file;
    assert t[|t| - 1..] == "\n";
  }

  /**
    Round trip with the script's log format: the extraction recovers, in order,
    every file name the script logged as deleted.
   */
  lemma {:induction false} DeletedFilesOfLog(files: seq<string>)
    requires forall k :: 0 <= k < |files| ==> files[k] != [] && NoNewline(files[k])
    ensures DeletedFiles(DeletionLog(files)) == files
  {
    if files != [] {
      DeletedFilesAppend(DeletionLogLine(files[0]), DeletionLog(files[1..]));
      DeletedFilesOfLogLine(files[0]);
      DeletedFilesOfLog(files[1..]);
    }
  }

  /**
    The same holds inside a whole run's output, when the text before and after
    the log, read on its own, reports no deletion.
   */
  lemma DeletedFilesInOutput(before: string, files: seq<string>, after: string)
    requires EndsLine(before) && DeletedFiles(before) == [] && DeletedFiles(after) == []
    requires forall k :: 0 <= k < |files| ==> files[k] != [] && NoNewline(files[k])
    ensures DeletedFiles(before + DeletionLog(files) + after) == files
  {
    var log := DeletionLog(files);
    assert EndsLine(log) by { LogEndsLine(files); }
    DeletedFilesAppend(before, log + after);
    DeletedFilesAppend(log, after);
    DeletedFilesOfLog(files);
    assert before + log + after == before + (log + after);
  }

  lemma {:induction false} LogEndsLine(files: seq<string>)
    ensures EndsLine(DeletionLog(files))
  {
    if files != [] {
      LogEndsLine(files[1..]);
    }
  }
}
