/** The status of a terminal from what its screen shows: a scan backwards from the last separator, so
    that older history cannot decide it. */
module StatusScan {
  import opened Common

  type Line = string

  datatype Status = Processing | WaitingUserAnswer | Completed | Idle | Error

  /** The two line patterns.  `separator` gives where the last separator of a line starts. */
  datatype Patterns = Patterns(spinner: Line -> bool, separator: Line -> Option<nat>)

  ghost predicate Proper(p: Patterns) {
    && !p.spinner("") && p.separator("").None?
    && forall line :: p.separator(line).Some? ==> p.separator(line).value < |line|
  }

  /** Everything else the screen is searched for: where the matches start, and which appear at all. */
  datatype Others = Others(processing: seq<nat>, idle: seq<nat>, responses: seq<nat>, waiting: bool, trust: bool, bypass: bool)

  // ---------------------------------------------------------------- what the scan looks at

  /** The index after the last line that holds a separator; 0 without one. */
  function SeparatorEnd(lines: seq<Line>, p: Patterns): (n: nat)
    ensures n <= |lines|
    ensures n > 0 ==> p.separator(lines[n - 1]).Some?
    ensures forall i :: n <= i < |lines| ==> p.separator(lines[i]).None?
  {
    if lines == [] then 0
    else if p.separator(lines[|lines| - 1]).Some? then |lines|
    else SeparatorEnd(lines[..|lines| - 1], p)
  }

  predicate HasSeparator(lines: seq<Line>, p: Patterns) { SeparatorEnd(lines, p) > 0 }

  /** The lines before the last separator; the last of them is what precedes it on its own line. */
  function BeforeLast(lines: seq<Line>, p: Patterns): seq<Line>
    requires Proper(p) && HasSeparator(lines, p)
  {
    var k := SeparatorEnd(lines, p) - 1;
    lines[..k] + [lines[k][..p.separator(lines[k]).value]]
  }

  /** `rstrip("\n")` of text that is given by its lines. */
  function StripEmptyTail(lines: seq<Line>): (r: seq<Line>)
    ensures lines != [] ==> r != []
  {
    if |lines| > 1 && lines[|lines| - 1] == "" then StripEmptyTail(lines[..|lines| - 1]) else lines
  }

  /** The backward loop: a spinner line ends it with true, a separator with false. */
  function ScanBack(lines: seq<Line>, p: Patterns): bool {
    if lines == [] then false
    else
      var line := lines[|lines| - 1];
      if p.spinner(line) then true
      else if p.separator(line).Some? then false
      else ScanBack(lines[..|lines| - 1], p)
  }

  function Last(starts: seq<nat>): Option<nat> {
    if starts == [] then None else Some(starts[|starts| - 1])
  }

  /** `get_status`; `output` is None for an empty screen. */
  function GetStatus(output: Option<seq<Line>>, p: Patterns, o: Others): Status
    requires Proper(p)
  {
    if output.None? then Error
    else if HasSeparator(output.value, p) && ScanBack(StripEmptyTail(BeforeLast(output.value, p)), p) then Processing
    else Fallback(HasSeparator(output.value, p), o)
  }

  /** What is decided when the scan did not find a running task. */
  function Fallback(separated: bool, o: Others): Status {
    var processing, idle := Last(o.processing), Last(o.idle);
    if processing.Some? && !separated && (idle.None? || processing.value > idle.value) then Processing
    else if o.waiting && !o.trust && !o.bypass then WaitingUserAnswer
    else if o.responses != [] && idle.Some? then Completed
    else if idle.Some? then Idle
    else Error
  }

  // ---------------------------------------------------------------- the provider's own loops

  method LastMatch(starts: seq<nat>) returns (last: Option<nat>)
    ensures last == Last(starts)
  {
    last := None;
    for i := 0 to |starts|
      invariant last == Last(starts[..i])
    {
      last := Some(starts[i]);
    }
    assert starts[..|starts|] == starts;
  }

  method Scan(lines: seq<Line>, p: Patterns) returns (running: bool)
    ensures running == ScanBack(lines, p)
  {
    var i := |lines|;
    assert lines[..i] == lines;
    while i > 0
      invariant 0 <= i <= |lines|
      invariant ScanBack(lines[..i], p) == ScanBack(lines, p)
    {
      var line := lines[i - 1];
      assert lines[..i][..i - 1] == lines[..i - 1];
      if p.spinner(line) { return true; }
      if p.separator(line).Some? { return false; }
      i := i - 1;
    }
    return false;
  }

  method ReadStatus(output: Option<seq<Line>>, p: Patterns, o: Others) returns (status: Status)
    requires Proper(p)
    ensures status == GetStatus(output, p, o)
  {
    if output.None? { return Error; }
    var separated := HasSeparator(output.value, p);
    if separated {
      var running := Scan(StripEmptyTail(BeforeLast(output.value, p)), p);
      if running { return Processing; }
    }
    var processing := LastMatch(o.processing);
    var idle := LastMatch(o.idle);
    var response := LastMatch(o.responses);
    if processing.Some? && !separated {
      if idle.None? || processing.value > idle.value { return Processing; }
    }
    if o.waiting && !o.trust && !o.bypass { return WaitingUserAnswer; }
    if response.Some? && idle.Some? { return Completed; }
    if idle.Some? { return Idle; }
    return Error;
  }

  // ---------------------------------------------------------------- what decides

  /** The line of the separator before the last one, or the first line without one. */
  function PreviousSeparator(before: seq<Line>, p: Patterns): nat {
    var n := SeparatorEnd(before, p);
    if n == 0 then 0 else n - 1
  }

  /** A spinner line from the previous separator's line on, and before the last separator. */
  ghost predicate SpinnerSince(before: seq<Line>, p: Patterns) {
    exists i :: PreviousSeparator(before, p) <= i < |before| && p.spinner(before[i])
  }

  lemma {:induction false} SeparatorEndShorter(lines: seq<Line>, p: Patterns)
    requires lines != [] && p.separator(lines[|lines| - 1]).None?
    ensures SeparatorEnd(lines, p) == SeparatorEnd(lines[..|lines| - 1], p)
  {
  }

  lemma {:induction false} ScanBackExactly(lines: seq<Line>, p: Patterns)
    ensures ScanBack(lines, p) <==> SpinnerSince(lines, p)
    decreases |lines|
  {
    if lines != [] {
      var n := |lines| - 1;
      var t := lines[..n];
      if p.spinner(lines[n]) {
        assert PreviousSeparator(lines, p) <= n;
      } else if p.separator(lines[n]).None? {
        ScanBackExactly(t, p);
        SeparatorEndShorter(lines, p);
        if SpinnerSince(t, p) {
          var i :| PreviousSeparator(t, p) <= i < |t| && p.spinner(t[i]);
          assert p.spinner(lines[i]);
        }
        if SpinnerSince(lines, p) {
          var i :| PreviousSeparator(lines, p) <= i < |lines| && p.spinner(lines[i]);
          assert p.spinner(t[i]);
        }
      }
    }
  }

  lemma {:induction false} EmptyTailIgnored(lines: seq<Line>, p: Patterns)
    requires Proper(p)
    ensures ScanBack(StripEmptyTail(lines), p) == ScanBack(lines, p)
    decreases |lines|
  {
    if |lines| > 1 && lines[|lines| - 1] == "" {
      EmptyTailIgnored(lines[..|lines| - 1], p);
    }
  }

  /** With a separator on the screen the status is Processing exactly when a spinner line lies at or
      after the previous separator's line and before the last separator. */
  lemma ProcessingExactly(lines: seq<Line>, p: Patterns, o: Others)
    requires Proper(p) && HasSeparator(lines, p)
    ensures GetStatus(Some(lines), p, o) == Processing <==> SpinnerSince(BeforeLast(lines, p), p)
  {
    EmptyTailIgnored(BeforeLast(lines, p), p);
    ScanBackExactly(BeforeLast(lines, p), p);
  }

  /** The last of some matches starts after every one of the others. */
  predicate StartsAfterAll(starts: seq<nat>, others: seq<nat>) {
    starts != [] && (others == [] || starts[|starts| - 1] > others[|others| - 1])
  }

  /** Without a separator it is Processing exactly when some spinner match lies behind the last prompt. */
  lemma EarlyProcessingExactly(lines: seq<Line>, p: Patterns, o: Others)
    requires Proper(p) && !HasSeparator(lines, p)
    ensures GetStatus(Some(lines), p, o) == Processing <==> StartsAfterAll(o.processing, o.idle)
  {
  }

  /** When no task is running, exactly what the screen has to show for each of the other answers: a
      selection footer that is no start-up prompt, a response with a prompt, a prompt alone, or nothing. */
  lemma SettledStatusExactly(output: Option<seq<Line>>, p: Patterns, o: Others)
    requires Proper(p) && GetStatus(output, p, o) != Processing
    ensures var s := GetStatus(output, p, o);
      var asked := output.Some? && o.waiting && !o.trust && !o.bypass;
      && (s == WaitingUserAnswer <==> asked)
      && (s == Completed <==> output.Some? && !asked && o.responses != [] && o.idle != [])
      && (s == Idle <==> output.Some? && !asked && o.responses == [] && o.idle != [])
      && (s == Error <==> output.None? || (!asked && o.idle == []))
  {
    hide ScanBack, HasSeparator;
  }

  // ---------------------------------------------------------------- older history

  lemma {:induction false} SeparatorEndAfter(history: seq<Line>, lines: seq<Line>, p: Patterns)
    requires HasSeparator(lines, p)
    ensures SeparatorEnd(history + lines, p) == |history| + SeparatorEnd(lines, p)
    decreases |lines|
  {
    var n := |lines| - 1;
    assert (history + lines)[..|history| + n] == history + lines[..n];
    assert (history + lines)[|history| + n] == lines[n];
    if p.separator(lines[n]).None? {
      SeparatorEndAfter(history, lines[..n], p);
    }
  }

  lemma BeforeLastAfter(history: seq<Line>, lines: seq<Line>, p: Patterns)
    requires Proper(p) && HasSeparator(lines, p)
    ensures HasSeparator(history + lines, p)
    ensures BeforeLast(history + lines, p) == history + BeforeLast(lines, p)
  {
    SeparatorEndAfter(history, lines, p);
    var k := SeparatorEnd(lines, p) - 1;
    assert (history + lines)[..|history| + k] == history + lines[..k];
  }

  /** A scan that ends inside the text does not see what comes before it. */
  lemma {:induction false} ScanStopsInside(history: seq<Line>, before: seq<Line>, p: Patterns)
    ensures HasSeparator(before, p) || ScanBack(before, p) ==> ScanBack(history + before, p) == ScanBack(before, p)
    ensures !HasSeparator(before, p) && !ScanBack(before, p) ==> ScanBack(history + before, p) == ScanBack(history, p)
    decreases |before|
  {
    if before == [] {
      assert history + before == history;
    } else {
      var n := |before| - 1;
      assert (history + before)[..|history| + n] == history + before[..n];
      assert (history + before)[|history| + n] == before[n];
      ScanStopsInside(history, before[..n], p);
    }
  }

  /** Two separators on different lines: older history of any kind never changes whether the agent
      is found running. */
  lemma OlderHistoryIgnored(history: seq<Line>, lines: seq<Line>, p: Patterns, o: Others, older: Others)
    requires Proper(p) && HasSeparator(lines, p)
    requires exists i, j :: 0 <= i < j < |lines| && p.separator(lines[i]).Some? && p.separator(lines[j]).Some?
    ensures GetStatus(Some(history + lines), p, older) == Processing <==> GetStatus(Some(lines), p, o) == Processing
  {
    var before := BeforeLast(lines, p);
    BeforeLastAfter(history, lines, p);
    EmptyTailIgnored(before, p);
    EmptyTailIgnored(history + before, p);
    var i, j :| 0 <= i < j < |lines| && p.separator(lines[i]).Some? && p.separator(lines[j]).Some?;
    assert i < SeparatorEnd(lines, p) - 1 && before[i] == lines[i];
    ScanStopsInside(history, before, p);
  }

  /** Exactly when no history can change it: the scan ends inside the text, at a spinner line or at a
      separator before the last one.  Otherwise one older spinner line does. */
  lemma HistoryIgnoredExactly(lines: seq<Line>, p: Patterns, o: Others, spinner: Line)
    requires Proper(p) && HasSeparator(lines, p) && p.spinner(spinner)
    ensures (forall history :: GetStatus(Some(history + lines), p, o) == GetStatus(Some(lines), p, o))
       <==> HasSeparator(BeforeLast(lines, p), p) || GetStatus(Some(lines), p, o) == Processing
  {
    var before := BeforeLast(lines, p);
    EmptyTailIgnored(before, p);
    forall history: seq<Line>
      ensures GetStatus(Some(history + lines), p, o)
        == if ScanBack(history + before, p) then Processing else Fallback(true, o)
    {
      BeforeLastAfter(history, lines, p);
      EmptyTailIgnored(history + before, p);
    }
    forall history: seq<Line>
      ensures HasSeparator(before, p) || ScanBack(before, p) ==> ScanBack(history + before, p) == ScanBack(before, p)
    {
      ScanStopsInside(history, before, p);
    }
    if !HasSeparator(before, p) && !ScanBack(before, p) {
      ScanStopsInside([spinner], before, p);
      assert ScanBack([spinner], p);
      assert GetStatus(Some([spinner] + lines), p, o) == Processing;
    }
  }
}
