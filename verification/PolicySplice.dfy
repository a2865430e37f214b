/** Splicing the managed policy block into an operator's policy file. */
module PolicySplice {
  import opened Common

  const BEGIN := "<!-- CAO.OPS.P1 BEGIN -->"
  const END := "<!-- CAO.OPS.P1 END -->"

  // ---------------------------------------------------------------- Python's string operations

  predicate IsSpace(c: char) {
    || '\t' <= c <= '\r' || '\U{1C}' <= c <= ' ' || c == '\U{85}' || c == '\U{A0}' || c == '\U{1680}'
    || '\U{2000}' <= c <= '\U{200A}' || c in {'\U{2028}', '\U{2029}', '\U{202F}', '\U{205F}', '\U{3000}'}
  }

  function RStrip(s: string): (r: string)
    ensures r <= s
    ensures r == "" || !IsSpace(r[|r| - 1])
    ensures forall k :: |r| <= k < |s| ==> IsSpace(s[k])
  {
    if s == "" || !IsSpace(s[|s| - 1]) then s else RStrip(s[..|s| - 1])
  }

  /** How many leading characters are spaces. */
  function Leading(s: string): (n: nat)
    ensures n <= |s| && forall k :: 0 <= k < n ==> IsSpace(s[k])
  {
    if s == "" || !IsSpace(s[0]) then 0 else 1 + Leading(s[1..])
  }

  function Strip(s: string): string { RStrip(s[Leading(s)..]) }

  predicate OccursAt(s: string, m: string, i: nat) {
    i + |m| <= |s| && s[i..i + |m|] == m
  }

  ghost predicate Absent(s: string, m: string) { forall i: nat :: !OccursAt(s, m, i) }

  /** `str.find` from position `i` on. */
  function FindFrom(s: string, m: string, i: nat): (r: Option<nat>)
    ensures r.Some? ==> i <= r.value && OccursAt(s, m, r.value) && forall k: nat :: i <= k < r.value ==> !OccursAt(s, m, k)
    ensures r.None? ==> forall k: nat :: i <= k ==> !OccursAt(s, m, k)
    decreases |s| - i
  {
    if i > |s| then None else if OccursAt(s, m, i) then Some(i) else FindFrom(s, m, i + 1)
  }

  function Find(s: string, m: string): Option<nat> { FindFrom(s, m, 0) }

  /** `str.count`: occurrences that do not overlap, from the left. */
  function Count(s: string, m: string): nat
    requires m != ""
    decreases |s|
  {
    var i := Find(s, m);
    if i.None? then 0 else 1 + Count(s[i.value + |m|..], m)
  }

  // ---------------------------------------------------------------- the splice

  datatype Failure = PolicyMarkerInvalid | NotEnoughValues

  function Block(source: string): string { BEGIN + "\n" + Strip(source) + "\n" + END }

  function Splice(policy: string, source: string): Result<string, Failure> {
    if Find(policy, BEGIN).Some? || Find(policy, END).Some? then
      if Count(policy, BEGIN) != 1 || Count(policy, END) != 1 then Err(PolicyMarkerInvalid)
      else
        var i := Find(policy, BEGIN).value;
        var before, remainder := policy[..i], policy[i + |BEGIN|..];
        var j := Find(remainder, END);
        if j.None? then Err(NotEnoughValues)
        else Ok(RStrip(before) + "\n\n" + Block(source) + remainder[j.value + |END|..])
    else Ok(RStrip(policy) + "\n\n" + Block(source) + "\n")
  }

  // ---------------------------------------------------------------- the two markers

  /** What the proofs need of a marker: it starts with its only '<', and holds no line break. */
  ghost predicate Marker(m: string) {
    && |m| > 17 && m[0] == '<' && m[|m| - 1] == '>'
    && (forall k :: 0 < k < |m| ==> m[k] != '<')
    && (forall k :: 0 <= k < |m| ==> m[k] != '\n')
  }

  lemma MarkerFacts()
    ensures Marker(BEGIN) && Marker(END) && BEGIN[16] == 'B' && END[16] == 'E'
  {
  }

  lemma CharAt(s: string, m: string, i: nat, k: nat)
    requires OccursAt(s, m, i) && k < |m|
    ensures s[i + k] == m[k]
  {
    assert s[i..i + |m|][k] == m[k];
  }

  lemma SliceOfSlice(s: string, lo: nat, hi: nat, a: nat, b: nat)
    requires lo <= hi <= |s| && a <= b <= hi - lo
    ensures s[lo..hi][a..b] == s[lo + a..lo + b]
  {
    var x, y := s[lo..hi][a..b], s[lo + a..lo + b];
    assert forall k :: 0 <= k < |x| ==> x[k] == s[lo + a + k] && y[k] == s[lo + a + k];
  }

  lemma OccursInPart(s: string, m: string, lo: nat, hi: nat, i: nat)
    requires lo <= hi <= |s| && lo <= i && i + |m| <= hi
    ensures OccursAt(s, m, i) <==> OccursAt(s[lo..hi], m, i - lo)
  {
    SliceOfSlice(s, lo, hi, i - lo, i - lo + |m|);
  }

  lemma OccursInRest(s: string, m: string, lo: nat, i: nat)
    requires lo <= |s| && lo <= i
    ensures OccursAt(s, m, i) <==> OccursAt(s[lo..], m, i - lo)
  {
    assert s[lo..] == s[lo..|s|];
    if i + |m| <= |s| { OccursInPart(s, m, lo, |s|, i); }
  }

  /** Two occurrences of a marker never overlap. */
  lemma NoOverlap(s: string, m: string, i: nat, j: nat)
    requires Marker(m) && OccursAt(s, m, i) && OccursAt(s, m, j) && i < j
    ensures i + |m| <= j
  {
    CharAt(s, m, j, 0);
    if j < i + |m| {
      CharAt(s, m, i, j - i);
    }
  }

  lemma CountZero(s: string, m: string)
    requires m != ""
    ensures Count(s, m) == 0 <==> Find(s, m).None?
  {
  }

  /** `str.count` is one exactly when a given occurrence is the only one. */
  lemma CountOneExactly(s: string, m: string, e: nat)
    requires Marker(m) && OccursAt(s, m, e)
    ensures Count(s, m) == 1 <==> forall i: nat :: OccursAt(s, m, i) ==> i == e
    ensures Count(s, m) == 1 ==> Find(s, m) == Some(e)
  {
    var f := Find(s, m).value;
    var lo := f + |m|;
    assert Count(s, m) == 1 + Count(s[lo..], m);
    CountZero(s[lo..], m);
    hide OccursAt;
    if Count(s, m) == 1 {
      assert Find(s[lo..], m).None?;
      forall i: nat | OccursAt(s, m, i) ensures i == f {
        if i > f {
          NoOverlap(s, m, f, i);
          OccursInRest(s, m, lo, i);
        }
      }
    } else {
      assert Find(s[lo..], m).Some?;
      OccursInRest(s, m, lo, lo + Find(s[lo..], m).value);
    }
  }

  // ---------------------------------------------------------------- the shape of a result

  function Assemble(pre: string, body: string, after: string): string {
    pre + "\n\n" + BEGIN + "\n" + body + "\n" + END + after
  }

  function BeginAt(pre: string): nat { |pre| + 2 }

  function BodyAt(pre: string): nat { |pre| + 3 + |BEGIN| }

  function EndAt(pre: string, body: string): nat { BodyAt(pre) + |body| + 1 }

  /** The characters of a result, region by region. */
  lemma Regions(pre: string, body: string, after: string)
    ensures var r := Assemble(pre, body, after);
      && |r| == EndAt(pre, body) + |END| + |after|
      && r[|pre|] == r[|pre| + 1] == r[BodyAt(pre) - 1] == r[EndAt(pre, body) - 1] == '\n'
      && r[..|pre|] == pre
      && r[BeginAt(pre)..BeginAt(pre) + |BEGIN|] == BEGIN
      && r[BodyAt(pre)..EndAt(pre, body) - 1] == body
      && r[EndAt(pre, body)..EndAt(pre, body) + |END|] == END
      && r[EndAt(pre, body) + |END|..] == after
  {
  }

  /** A marker that starts in a part followed by a line break ends in it. */
  lemma InsidePart(r: string, m: string, lo: nat, hi: nat, i: nat)
    requires Marker(m) && lo <= i < hi < |r| && r[hi] == '\n' && OccursAt(r, m, i)
    ensures OccursAt(r[lo..hi], m, i - lo)
  {
    if i + |m| > hi {
      CharAt(r, m, i, hi - i);
    } else {
      OccursInPart(r, m, lo, hi, i);
    }
  }

  lemma NotInPart(r: string, m: string, lo: nat, hi: nat)
    requires Marker(m) && lo <= hi < |r| && r[hi] == '\n' && Absent(r[lo..hi], m)
    ensures forall i: nat :: lo <= i < hi ==> !OccursAt(r, m, i)
  {
    forall i: nat | lo <= i < hi && OccursAt(r, m, i) ensures false { InsidePart(r, m, lo, hi, i); }
  }

  lemma NotInTail(r: string, m: string, lo: nat)
    requires lo <= |r| && Absent(r[lo..], m)
    ensures forall i: nat :: lo <= i ==> !OccursAt(r, m, i)
  {
    forall i: nat | lo <= i ensures !OccursAt(r, m, i) { OccursInRest(r, m, lo, i); }
  }

  /** Where a marker `own` stands, another occurrence can only start at its first character, and
      only of the same marker. */
  lemma InsideMarker(r: string, m: string, own: string, at: nat, i: nat)
    requires own in {BEGIN, END} && m in {BEGIN, END}
    requires at <= i < at + |own| && OccursAt(r, own, at) && OccursAt(r, m, i)
    ensures i == at && m == own
  {
    MarkerFacts();
    CharAt(r, own, at, i - at);
    CharAt(r, own, at, 16);
    CharAt(r, m, i, 0);
    CharAt(r, m, i, 16);
  }

  lemma OwnMarkers(pre: string, body: string, after: string)
    ensures OccursAt(Assemble(pre, body, after), BEGIN, BeginAt(pre))
    ensures OccursAt(Assemble(pre, body, after), END, EndAt(pre, body))
  {
    Regions(pre, body, after);
  }

  /** Every marker in a result is its own, or stands in the body. */
  lemma MarkersOfResult(pre: string, body: string, after: string, m: string, i: nat)
    requires m in {BEGIN, END} && Absent(pre, m) && Absent(after, m)
    requires OccursAt(Assemble(pre, body, after), m, i)
    ensures || (m == BEGIN && i == BeginAt(pre)) || (m == END && i == EndAt(pre, body))
            || (BodyAt(pre) <= i < EndAt(pre, body) - 1 && OccursAt(body, m, i - BodyAt(pre)))
  {
    var r := Assemble(pre, body, after);
    var e := EndAt(pre, body);
    Regions(pre, body, after);
    OwnMarkers(pre, body, after);
    MarkerFacts();
    hide Assemble;
    NotInPart(r, m, 0, |pre|);
    NotInTail(r, m, e + |END|);
    CharAt(r, m, i, 0);
    hide OccursAt, Absent;
    if BeginAt(pre) <= i < BodyAt(pre) - 1 {
      InsideMarker(r, m, BEGIN, BeginAt(pre), i);
    } else if BodyAt(pre) <= i < e - 1 {
      InsidePart(r, m, BodyAt(pre), e - 1, i);
    } else if e <= i < e + |END| {
      InsideMarker(r, m, END, e, i);
    }
  }

  ghost predicate Clean(body: string) { Absent(body, BEGIN) && Absent(body, END) }

  ghost predicate MarkedOnce(s: string) { Count(s, BEGIN) == 1 && Count(s, END) == 1 }

  lemma BodyMarkerCounts(pre: string, body: string, after: string, m: string, k: nat)
    requires m in {BEGIN, END} && OccursAt(body, m, k)
    ensures OccursAt(Assemble(pre, body, after), m, BodyAt(pre) + k)
  {
    var r := Assemble(pre, body, after);
    Regions(pre, body, after);
    hide Assemble;
    OccursInPart(r, m, BodyAt(pre), EndAt(pre, body) - 1, BodyAt(pre) + k);
  }

  lemma OnlyOwnMarkers(pre: string, body: string, after: string)
    requires Clean(pre) && Clean(after) && Clean(body)
    ensures forall i: nat :: OccursAt(Assemble(pre, body, after), BEGIN, i) ==> i == BeginAt(pre)
    ensures forall i: nat :: OccursAt(Assemble(pre, body, after), END, i) ==> i == EndAt(pre, body)
  {
    var r := Assemble(pre, body, after);
    MarkerFacts();
    hide Assemble, OccursAt;
    forall i: nat | OccursAt(r, BEGIN, i) ensures i == BeginAt(pre) { MarkersOfResult(pre, body, after, BEGIN, i); }
    forall i: nat | OccursAt(r, END, i) ensures i == EndAt(pre, body) { MarkersOfResult(pre, body, after, END, i); }
  }

  lemma MarkedOnceExactly(pre: string, body: string, after: string)
    requires Clean(pre) && Clean(after)
    ensures MarkedOnce(Assemble(pre, body, after)) <==> Clean(body)
    ensures Clean(body) ==> Find(Assemble(pre, body, after), BEGIN) == Some(BeginAt(pre))
  {
    var r := Assemble(pre, body, after);
    OwnMarkers(pre, body, after);
    MarkerFacts();
    CountOneExactly(r, BEGIN, BeginAt(pre));
    CountOneExactly(r, END, EndAt(pre, body));
    hide Assemble, OccursAt, Count, Find;
    if Clean(body) {
      OnlyOwnMarkers(pre, body, after);
    } else {
      var m, k: nat :| m in {BEGIN, END} && OccursAt(body, m, k);
      BodyMarkerCounts(pre, body, after, m, k);
      BodyMarkerInside(body, m, k);
    }
  }

  lemma BodyMarkerInside(body: string, m: string, k: nat)
    requires m in {BEGIN, END} && OccursAt(body, m, k)
    ensures k < |body|
  {
    MarkerFacts();
  }

  // ---------------------------------------------------------------- what the splice keeps

  ghost predicate AllSpace(s: string) { forall k :: 0 <= k < |s| ==> IsSpace(s[k]) }

  lemma {:induction false} RStripSpaces(s: string, spaces: string)
    requires RStrip(s) == s && AllSpace(spaces)
    ensures RStrip(s + spaces) == s
    decreases |spaces|
  {
    if spaces == "" {
      assert s + spaces == s;
    } else {
      assert (s + spaces)[..|s + spaces| - 1] == s + spaces[..|spaces| - 1];
      RStripSpaces(s, spaces[..|spaces| - 1]);
    }
  }

  lemma {:induction false} RStripTwice(s: string)
    ensures RStrip(RStrip(s)) == RStrip(s)
  {
  }

  /** Leaving out text at either end loses no absence. */
  lemma AbsentPart(s: string, m: string, lo: nat, hi: nat)
    requires Absent(s, m) && lo <= hi <= |s|
    ensures Absent(s[lo..hi], m)
  {
    forall i: nat ensures !OccursAt(s[lo..hi], m, i) {
      if i + |m| <= hi - lo { OccursInPart(s, m, lo, hi, lo + i); }
    }
  }

  /** Text that holds each marker once, the first before the second, falls apart cleanly. */
  lemma MarkedParts(policy: string, i: nat, j: nat)
    requires MarkedOnce(policy) && Find(policy, BEGIN) == Some(i)
    requires Find(policy[i + |BEGIN|..], END) == Some(j)
    ensures i + |BEGIN| + j + |END| <= |policy|
    ensures Clean(policy[..i]) && Clean(policy[i + |BEGIN| + j + |END|..])
  {
    hide Count, FindFrom, OccursAt, Marker, Absent;
    var e := i + |BEGIN| + j;
    MarkerFacts();
    FoundBoth(policy, i, j);
    CountOneExactly(policy, BEGIN, i);
    CountOneExactly(policy, END, e);
    OutsideOnly(policy, BEGIN, i, i, e + |END|);
    OutsideOnly(policy, END, e, i, e + |END|);
  }

  lemma FoundBoth(policy: string, i: nat, j: nat)
    requires Find(policy, BEGIN) == Some(i) && Find(policy[i + |BEGIN|..], END) == Some(j)
    ensures i + |BEGIN| + j + |END| <= |policy|
    ensures OccursAt(policy, BEGIN, i) && OccursAt(policy, END, i + |BEGIN| + j)
  {
    OccursInRest(policy, END, i + |BEGIN|, i + |BEGIN| + j);
  }

  /** A marker that stands only at `at` is absent before `lo` and after `hi`. */
  lemma OutsideOnly(s: string, m: string, at: nat, lo: nat, hi: nat)
    requires Marker(m) && lo <= at < hi <= |s| && forall k: nat :: OccursAt(s, m, k) ==> k == at
    ensures Absent(s[..lo], m) && Absent(s[hi..], m)
  {
    forall k: nat ensures !OccursAt(s[..lo], m, k) && !OccursAt(s[hi..], m, k) {
      OccursInRest(s, m, hi, hi + k);
      assert s[..lo] == s[0..lo];
      if k + |m| <= lo { OccursInPart(s, m, 0, lo, k); }
    }
  }

  // ---------------------------------------------------------------- the promises

  /** What a successful splice made of the policy: the text before the block up to its trailing white
      space, the block, and the text after it, which is a newline when there was no block. */
  ghost predicate SplicedFrom(policy: string, source: string, r: string) {
    exists pre, after ::
      && r == Assemble(pre, Strip(source), after)
      && RStrip(pre) == pre && Clean(pre) && Clean(after)
      && ((Clean(policy) && pre == RStrip(policy) && after == "\n")
          || exists before, inner :: pre == RStrip(before) && policy == before + BEGIN + inner + END + after)
  }

  lemma CleanRStripped(s: string)
    requires Clean(s)
    ensures Clean(RStrip(s)) && RStrip(RStrip(s)) == RStrip(s)
  {
    RStripTwice(s);
    AbsentPart(s, BEGIN, 0, |RStrip(s)|);
    AbsentPart(s, END, 0, |RStrip(s)|);
    assert s[0..|RStrip(s)|] == RStrip(s);
  }

  lemma NoMarkersClean(s: string)
    requires Find(s, BEGIN).None? && Find(s, END).None?
    ensures Clean(s)
  {
  }

  lemma Reassembled(policy: string, i: nat, j: nat)
    requires OccursAt(policy, BEGIN, i) && OccursAt(policy[i + |BEGIN|..], END, j)
    ensures i + |BEGIN| + j + |END| <= |policy|
    ensures policy[i + |BEGIN|..][j + |END|..] == policy[i + |BEGIN| + j + |END|..]
    ensures policy == policy[..i] + BEGIN + policy[i + |BEGIN|..][..j] + END + policy[i + |BEGIN| + j + |END|..]
  {
    var rest := policy[i + |BEGIN|..];
    CutAt(policy, BEGIN, i);
    CutAt(rest, END, j);
    hide OccursAt;
    Regroup(policy[..i] + BEGIN, rest[..j], END, rest[j + |END|..]);
  }

  lemma CutAt(s: string, m: string, i: nat)
    requires OccursAt(s, m, i)
    ensures s == s[..i] + m + s[i + |m|..]
  {
  }

  lemma Regroup(a: string, b: string, c: string, d: string)
    ensures a + (b + c + d) == a + b + c + d
  {
  }

  lemma ReplacedText(policy: string, source: string, i: nat, j: nat)
    requires MarkedOnce(policy) && Find(policy, BEGIN) == Some(i) && Find(policy[i + |BEGIN|..], END) == Some(j)
    ensures SplicedFrom(policy, source, RStrip(policy[..i]) + "\n\n" + Block(source) + policy[i + |BEGIN|..][j + |END|..])
  {
    var before, inner, after := policy[..i], policy[i + |BEGIN|..][..j], policy[i + |BEGIN| + j + |END|..];
    Reassembled(policy, i, j);
    MarkedParts(policy, i, j);
    CleanRStripped(before);
    hide Count, FindFrom, Strip, RStrip, Clean, Assemble, Block, OccursAt, Marker;
    AssembleBlock(RStrip(before), source, after);
    SplicedAround(policy, source, before, inner, after);
  }

  lemma SplicedAround(policy: string, source: string, before: string, inner: string, after: string)
    requires policy == before + BEGIN + inner + END + after
    requires RStrip(RStrip(before)) == RStrip(before) && Clean(RStrip(before)) && Clean(after)
    ensures SplicedFrom(policy, source, Assemble(RStrip(before), Strip(source), after))
  {
    hide RStrip, Strip, Clean, Assemble;
  }

  /** Everything outside the block is kept, but for white space before it. */
  lemma TextKept(policy: string, source: string)
    requires Splice(policy, source).Ok?
    ensures SplicedFrom(policy, source, Splice(policy, source).value)
  {
    if Find(policy, BEGIN).Some? || Find(policy, END).Some? {
      var i := Find(policy, BEGIN).value;
      ReplacedText(policy, source, i, Find(policy[i + |BEGIN|..], END).value);
    } else {
      NoMarkersClean(policy);
      CleanRStripped(policy);
      CleanNewline();
      AssembleBlock(RStrip(policy), source, "\n");
    }
  }

  lemma CleanNewline()
    ensures Clean("\n")
  {
    MarkerFacts();
  }

  lemma {:induction false} StripIsPart(s: string)
    ensures Leading(s) + |Strip(s)| <= |s| && Strip(s) == s[Leading(s)..Leading(s) + |Strip(s)|]
    ensures forall k :: Leading(s) + |Strip(s)| <= k < |s| ==> IsSpace(s[k])
  {
    var t := s[Leading(s)..];
    assert forall k :: Leading(s) + |Strip(s)| <= k < |s| ==> s[k] == t[k - Leading(s)];
  }

  /** A marker in the source lies inside what stripping leaves. */
  lemma MarkerSurvivesStrip(source: string, m: string, i: nat)
    requires m in {BEGIN, END} && OccursAt(source, m, i)
    ensures !Absent(Strip(source), m)
  {
    StripIsPart(source);
    MarkerFacts();
    var lo, hi := Leading(source), Leading(source) + |Strip(source)|;
    CharAt(source, m, i, 0);
    CharAt(source, m, i, |m| - 1);
    hide Strip, Leading, OccursAt;
    OccursInPart(source, m, lo, hi, i);
  }

  /** Stripping white space neither adds nor removes a marker. */
  lemma CleanStripped(source: string)
    ensures Clean(Strip(source)) <==> Clean(source)
  {
    StripIsPart(source);
    if Clean(source) {
      AbsentPart(source, BEGIN, Leading(source), Leading(source) + |Strip(source)|);
      AbsentPart(source, END, Leading(source), Leading(source) + |Strip(source)|);
    } else {
      var m, i: nat :| m in {BEGIN, END} && OccursAt(source, m, i);
      MarkerSurvivesStrip(source, m, i);
    }
  }

  /** The result holds exactly one BEGIN and one END if and only if the source holds neither. */
  lemma MarkersExactly(policy: string, source: string)
    requires Splice(policy, source).Ok?
    ensures MarkedOnce(Splice(policy, source).value) <==> Clean(source)
  {
    TextKept(policy, source);
    var r := Splice(policy, source).value;
    var pre, after :| r == Assemble(pre, Strip(source), after) && Clean(pre) && Clean(after);
    hide Splice, Assemble, SplicedFrom;
    MarkedOnceExactly(pre, Strip(source), after);
    CleanStripped(source);
  }

  /** Splicing again changes nothing if and only if the source holds neither marker; otherwise the
      second splice is refused. */
  lemma IdempotentExactly(policy: string, source: string)
    requires Splice(policy, source).Ok?
    ensures var r := Splice(policy, source).value;
      Splice(r, source) == if Clean(source) then Ok(r) else Err(PolicyMarkerInvalid)
  {
    TextKept(policy, source);
    var r := Splice(policy, source).value;
    var pre, after :| r == Assemble(pre, Strip(source), after) && RStrip(pre) == pre && Clean(pre) && Clean(after);
    hide Assemble, SplicedFrom;
    MarkedOnceExactly(pre, Strip(source), after);
    CleanStripped(source);
    OwnMarkers(pre, Strip(source), after);
    if Clean(source) {
      SpliceAssembled(pre, source, after);
    }
  }

  lemma SpliceMarked(policy: string, source: string, i: nat, j: nat)
    requires MarkedOnce(policy) && Find(policy, BEGIN) == Some(i) && Find(policy[i + |BEGIN|..], END) == Some(j)
    ensures Splice(policy, source)
         == Ok(RStrip(policy[..i]) + "\n\n" + Block(source) + policy[i + |BEGIN|..][j + |END|..])
  {
    hide Count, FindFrom, Block;
  }

  lemma SpliceAssembled(pre: string, source: string, after: string)
    requires RStrip(pre) == pre && Clean(pre) && Clean(after) && Clean(Strip(source))
    ensures Splice(Assemble(pre, Strip(source), after), source) == Ok(Assemble(pre, Strip(source), after))
  {
    hide Count, FindFrom, Strip, RStrip, OccursAt, Clean;
    var body := Strip(source);
    var r := Assemble(pre, body, after);
    var lo, e := BodyAt(pre) - 1, EndAt(pre, body);
    AssembleBlock(pre, source, after);
    Regions(pre, body, after);
    RStripSpaces(pre, "\n\n");
    assert r[..BeginAt(pre)] == pre + "\n\n";
    MarkedOnceExactly(pre, body, after);
    OnlyOwnMarkers(pre, body, after);
    OwnMarkers(pre, body, after);
    hide Assemble, Block;
    FindOnly(r, END, lo, e);
    SpliceMarked(r, source, BeginAt(pre), e - lo);
    SliceToEnd(r, lo, e - lo + |END|);
  }

  lemma SliceToEnd(s: string, lo: nat, k: nat)
    requires lo + k <= |s|
    ensures s[lo..][k..] == s[lo + k..]
  {
  }

  lemma FindOnly(r: string, m: string, lo: nat, e: nat)
    requires lo <= e && lo <= |r| && OccursAt(r, m, e) && forall i: nat :: OccursAt(r, m, i) ==> i == e
    ensures Find(r[lo..], m) == Some(e - lo)
  {
    OccursInRest(r, m, lo, e);
    var f := Find(r[lo..], m);
    if f.Some? { OccursInRest(r, m, lo, lo + f.value); }
  }

  lemma AssembleBlock(pre: string, source: string, after: string)
    ensures Assemble(pre, Strip(source), after) == pre + "\n\n" + Block(source) + after
  {
  }

  // ---------------------------------------------------------------- the script's own form

  ghost predicate EndFollowsBegin(s: string) {
    exists i: nat, j: nat :: OccursAt(s, BEGIN, i) && OccursAt(s, END, j) && i + |BEGIN| <= j
  }

  /** Which policies are refused, and why. */
  lemma RefusedExactly(policy: string, source: string)
    ensures Splice(policy, source) == Err(PolicyMarkerInvalid) <==> !Clean(policy) && !MarkedOnce(policy)
    ensures Splice(policy, source) == Err(NotEnoughValues) <==> MarkedOnce(policy) && !EndFollowsBegin(policy)
  {
    CountZero(policy, BEGIN);
    CountZero(policy, END);
    if Find(policy, BEGIN).None? && Find(policy, END).None? {
      NoMarkersClean(policy);
    } else if MarkedOnce(policy) {
      var i := Find(policy, BEGIN).value;
      BlockFound(policy, i);
    }
    hide Count, FindFrom, Block;
  }

  lemma BlockFound(policy: string, i: nat)
    requires MarkedOnce(policy) && Find(policy, BEGIN) == Some(i)
    ensures Find(policy[i + |BEGIN|..], END).Some? <==> EndFollowsBegin(policy)
  {
    MarkerFacts();
    var lo := i + |BEGIN|;
    var f := Find(policy[lo..], END);
    hide Count, OccursAt;
    if f.Some? {
      OccursInRest(policy, END, lo, lo + f.value);
      assert OccursAt(policy, BEGIN, i) && OccursAt(policy, END, lo + f.value);
    }
    if EndFollowsBegin(policy) {
      var b: nat, e: nat :| OccursAt(policy, BEGIN, b) && OccursAt(policy, END, e) && b + |BEGIN| <= e;
      CountOneExactly(policy, BEGIN, b);
      OccursInRest(policy, END, lo, e);
    }
  }

  /** What a result means: a policy is refused exactly when a marker is repeated, unpaired or out of order;
      otherwise the text outside the block is kept, the block holds the source, and the result is marked
      once, and unchanged by another splice, exactly when the source holds no marker. */
  ghost predicate Meant(text: string, source: string, r: Result<string, Failure>) {
    && (r.Ok? <==> Clean(text) || (MarkedOnce(text) && EndFollowsBegin(text)))
    && (r == Err(NotEnoughValues) <==> MarkedOnce(text) && !EndFollowsBegin(text))
    && (r.Ok? ==>
          && SplicedFrom(text, source, r.value) && (MarkedOnce(r.value) <==> Clean(source))
          && (Splice(r.value, source) == r <==> Clean(source)))
  }

  /** `policy` is rewritten in place. */
  method SplicePolicy(text: string, source: string) returns (r: Result<string, Failure>)
    ensures r == Splice(text, source)
    ensures Meant(text, source, r)
  {
    var policy := text;
    var block := BEGIN + "\n" + Strip(source) + "\n" + END;
    SpliceMeans(text, source);
    if Find(policy, BEGIN).Some? || Find(policy, END).Some? {
      if Count(policy, BEGIN) != 1 || Count(policy, END) != 1 { return Err(PolicyMarkerInvalid); }
      var i := Find(policy, BEGIN).value;
      var before, remainder := policy[..i], policy[i + |BEGIN|..];
      var j := Find(remainder, END);
      if j.None? { return Err(NotEnoughValues); }
      policy := RStrip(before) + "\n\n" + block + remainder[j.value + |END|..];
    } else {
      policy := RStrip(policy) + "\n\n" + block + "\n";
    }
    return Ok(policy);
  }

  lemma SpliceMeans(text: string, source: string)
    ensures Meant(text, source, Splice(text, source))
  {
    RefusedExactly(text, source);
    if Clean(text) { CleanNotMarked(text); }
    if Splice(text, source).Ok? {
      TextKept(text, source);
      MarkersExactly(text, source);
      IdempotentExactly(text, source);
    }
    hide Splice, Clean, MarkedOnce, EndFollowsBegin, SplicedFrom;
  }

  lemma CleanNotMarked(s: string)
    requires Clean(s)
    ensures !MarkedOnce(s)
  {
    CountZero(s, BEGIN);
  }
}
