/**
  Text helpers shared by the script generator and the output classifier:
  newline-terminated lines and substring search.
 */
module Text {

  predicate NoNewline(s: string) {
    forall k :: 0 <= k < |s| ==> s[k] != '\n'
  }

  /** The index of the first line feed at or after `i`, or `|s|` when there is none. */
  function LineEnd(s: string, i: nat): (e: nat)
    requires i <= |s|
    ensures i <= e <= |s|
    ensures forall k :: i <= k < e ==> s[k] != '\n'
    ensures e == |s| || s[e] == '\n'
    decreases |s| - i
  {
    if i == |s| || s[i] == '\n' then i else LineEnd(s, i + 1)
  }

  /** The first line feed is where the line stops. */
  lemma LineEndAt(s: string, i: nat, j: nat)
    requires i <= j <= |s|
    requires forall k :: i <= k < j ==> s[k] != '\n'
    requires j == |s| || s[j] == '\n'
    ensures LineEnd(s, i) == j
  {
  }

  /** The text made of the given lines, each followed by a line feed. */
  function Unlines(lines: seq<string>): string {
    if lines == [] then "" else lines[0] + "\n" + Unlines(lines[1..])
  }

  /** The lines of a text, read as a file is read, without their line feeds. */
  function SplitLines(s: string): seq<string>
    decreases |s|
  {
    if s == [] then []
    else
      var e := LineEnd(s, 0);
      [s[..e]] + if e == |s| then [] else SplitLines(s[e + 1..])
  }

  /** Reading back the lines of a text written line by line gives the lines written. */
  lemma {:induction false} SplitLinesUnlines(lines: seq<string>)
    requires forall i :: 0 <= i < |lines| ==> NoNewline(lines[i])
    ensures SplitLines(Unlines(lines)) == lines
  {
    if lines != [] {
      var s := Unlines(lines);
      var rest := Unlines(lines[1..]);
      assert s == lines[0] + ("\n" + rest);
      assert s[|lines[0]|] == '\n';
      assert forall k :: 0 <= k < |lines[0]| ==> s[k] == lines[0][k];
      LineEndAt(s, 0, |lines[0]|);
      assert s[..|lines[0]|] == lines[0];
      assert s[|lines[0]| + 1..] == rest;
      SplitLinesUnlines(lines[1..]);
    }
  }

  /** `w in s` for strings: `w` occurs in `s` at some position. */
  function HasSubstring(s: string, w: string): bool
    decreases |s|
  {
    if |s| < |w| then false
    else s[..|w|] == w || HasSubstring(s[1..], w)
  }

  ghost predicate OccursAt(s: string, w: string, i: int) {
    0 <= i && i + |w| <= |s| && s[i..i + |w|] == w
  }

  /** The recursive search finds `w` exactly when it occurs somewhere in `s`. */
  lemma {:induction false} HasSubstringCorrect(s: string, w: string)
    ensures HasSubstring(s, w) <==> exists i :: OccursAt(s, w, i)
  {
    if |s| >= |w| && s[..|w|] == w {
      assert OccursAt(s, w, 0);
    } else if |s| >= |w| {
      HasSubstringCorrect(s[1..], w);
      if HasSubstring(s, w) {
        var i :| OccursAt(s[1..], w, i);
        assert s[i + 1..i + 1 + |w|] == s[1..][i..i + |w|];
        assert OccursAt(s, w, i + 1);
      }
      if exists i :: OccursAt(s, w, i) {
        var i :| OccursAt(s, w, i);
        if i > 0 {
          assert s[1..][i - 1..i - 1 + |w|] == s[i..i + |w|];
          assert OccursAt(s[1..], w, i - 1);
        }
      }
    }
  }
}
