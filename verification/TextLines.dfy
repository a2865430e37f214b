/** Python's `str.splitlines` and the text writer that must survive it. */
module TextLines {
  import opened Common

  /** The characters at which `splitlines` ends a line; the pair CR LF counts as one end. */
  predicate IsBreak(c: char) {
    c in {'\n', '\r', '\U{0B}', '\U{0C}', '\U{1C}', '\U{1D}', '\U{1E}', '\U{85}', '\U{2028}', '\U{2029}'}
  }

  ghost predicate BreakFree(s: string) { forall i :: 0 <= i < |s| ==> !IsBreak(s[i]) }

  /** The index of the first line break, or the length. */
  function FirstBreak(s: string): (i: nat)
    ensures i <= |s|
    ensures forall k :: 0 <= k < i ==> !IsBreak(s[k])
    ensures i < |s| ==> IsBreak(s[i])
  {
    if s == "" || IsBreak(s[0]) then 0 else 1 + FirstBreak(s[1..])
  }

  function AfterBreak(s: string, i: nat): (j: nat)
    requires i < |s|
    ensures i < j <= |s|
  {
    if s[i] == '\r' && i + 1 < |s| && s[i + 1] == '\n' then i + 2 else i + 1
  }

  function SplitLines(s: string): seq<string>
    decreases |s|
  {
    if s == "" then []
    else
      var i := FirstBreak(s);
      if i == |s| then [s] else [s[..i]] + SplitLines(s[AfterBreak(s, i)..])
  }

  lemma {:induction false} LinesBreakFree(s: string)
    ensures forall line :: line in SplitLines(s) ==> BreakFree(line)
    decreases |s|
  {
    if s != "" {
      var i := FirstBreak(s);
      if i < |s| { LinesBreakFree(s[AfterBreak(s, i)..]); }
    }
  }

  /** Every line followed by one newline, as the writers produce it. */
  function Unlines(lines: seq<string>): string {
    if lines == [] then "" else lines[0] + "\n" + Unlines(lines[1..])
  }

  lemma FirstBreakAt(line: string, rest: string)
    requires BreakFree(line)
    ensures FirstBreak(line + "\n" + rest) == |line|
  {
    var s := line + "\n" + rest;
    assert forall k :: 0 <= k < |line| ==> s[k] == line[k];
    assert s[|line|] == '\n';
  }

  /** Break-free lines are read back exactly as they were written. */
  lemma {:induction false} SplitUnlines(lines: seq<string>)
    requires forall i :: 0 <= i < |lines| ==> BreakFree(lines[i])
    ensures SplitLines(Unlines(lines)) == lines
  {
    if lines != [] {
      var rest := Unlines(lines[1..]);
      var s := lines[0] + "\n" + rest;
      FirstBreakAt(lines[0], rest);
      assert s[..|lines[0]|] == lines[0];
      assert s[|lines[0]| + 1..] == rest;
      assert s[|lines[0]|] == '\n';
      SplitUnlines(lines[1..]);
    }
  }

  // ---------------------------------------------------------------- "checksum  path" lines

  /** The index of the first two adjacent spaces, or the length. */
  function FirstGap(s: string): (i: nat)
    ensures i <= |s|
    ensures i < |s| ==> i + 1 < |s| && s[i] == s[i + 1] == ' '
    ensures forall k :: 0 <= k < i && k + 1 < |s| ==> !(s[k] == ' ' && s[k + 1] == ' ')
  {
    if |s| < 2 then |s|
    else if s[0] == ' ' && s[1] == ' ' then 0
    else 1 + FirstGap(s[1..])
  }

  /** `line.split("  ", maxsplit=1)`, unless it does not give two parts. */
  function SplitEntry(line: string): Option<(string, string)> {
    var i := FirstGap(line);
    if i < |line| then Some((line[..i], line[i + 2..])) else None
  }

  function EntryLine(checksum: string, path: string): string { checksum + "  " + path }

  /** A checksum without spaces is found again, whatever the path looks like. */
  lemma EntryReadBack(checksum: string, path: string)
    requires ' ' !in checksum
    ensures SplitEntry(EntryLine(checksum, path)) == Some((checksum, path))
  {
    var line := EntryLine(checksum, path);
    assert line[|checksum|] == ' ' && line[|checksum| + 1] == ' ';
    assert forall k :: 0 <= k < |checksum| ==> line[k] == checksum[k] && checksum[k] in checksum;
    assert line[..|checksum|] == checksum && line[|checksum| + 2..] == path;
  }

  lemma EntryPathBreakFree(line: string)
    requires BreakFree(line) && SplitEntry(line).Some?
    ensures BreakFree(SplitEntry(line).value.1)
  {
  }
}
