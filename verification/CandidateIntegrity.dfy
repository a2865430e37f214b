/** The candidate's checksum file and manifest: the writer, the verifier and the independent reader of
    the release bundle, over any file tree and any digest. */
module CandidateIntegrity {
  import opened Common
  import opened TextLines
  import opened CandidateTrees

  datatype Entry = Entry(path: string, bytes: nat, sha256: string)

  /** `truthful`: the coverage declaration is the expected one. */
  datatype ManifestFile = ManifestFile(truthful: bool, files: seq<Entry>)

  /** A file as the checks see it: text, the manifest as parsed JSON, or any other bytes. */
  datatype Content = Text(text: string) | Json(manifest: ManifestFile) | Binary(bytes: seq<nat>)

  type Tree = map<Path, Content>

  datatype Hasher = Hasher(digest: Content -> string, size: Content -> nat)

  const SUMS: Path := ["SHA256SUMS"]
  const MANIFEST: Path := ["candidate-manifest.json"]
  const PRIVATE_PARTS := {"agents", "memory", "source-pack", ".git"}

  predicate HexDigit(c: char) { '0' <= c <= '9' || 'a' <= c <= 'f' }

  predicate IsDigest(s: string) { |s| == 64 && forall i :: 0 <= i < 64 ==> HexDigit(s[i]) }

  ghost predicate Proper(h: Hasher) { forall c :: IsDigest(h.digest(c)) }

  ghost predicate FileTree(t: Tree) { forall p :: p in t ==> Canonical(p) }

  predicate Private(rel: string) { exists c :: c in Components(rel) && c in PRIVATE_PARTS }

  // ---------------------------------------------------------------- the verifier's checksum section

  datatype Problem =
    | MalformedEntry | ChecksumMismatch(rel: string) | DuplicateEntry(rel: string) | InventoryIncomplete
    | CoverageUntruthful | ManifestInventory | PrivatePath(rel: string) | ManifestMismatch(rel: string)

  datatype Scanned = Scanned(problems: seq<Problem>, checksums: map<string, string>)

  predicate Matches(t: Tree, root: Path, h: Hasher, checksum: string, rel: string) {
    var p := RelativePath(root, rel);
    p.Some? && p.value in t && h.digest(t[p.value]) == checksum
  }

  function ScanLine(t: Tree, root: Path, h: Hasher, s: Scanned, line: string): Scanned {
    match SplitEntry(line)
    case None => s.(problems := s.problems + [MalformedEntry])
    case Some((checksum, rel)) =>
      Scanned(
        s.problems + (if Matches(t, root, h, checksum, rel) then [] else [ChecksumMismatch(rel)])
        + (if rel in s.checksums then [DuplicateEntry(rel)] else []),
        s.checksums[rel := checksum])
  }

  function Scan(t: Tree, root: Path, h: Hasher, lines: seq<string>): Scanned
    decreases |lines|
  {
    if lines == [] then Scanned([], map[])
    else ScanLine(t, root, h, Scan(t, root, h, lines[..|lines| - 1]), lines[|lines| - 1])
  }

  lemma ScanFrom(t: Tree, root: Path, h: Hasher, lines: seq<string>, i: nat)
    requires i <= |lines|
    ensures i == 0 ==> Scan(t, root, h, lines[..i]) == Scanned([], map[])
    ensures i < |lines| ==> Scan(t, root, h, lines[..i + 1]) == ScanLine(t, root, h, Scan(t, root, h, lines[..i]), lines[i])
  {
    if i < |lines| { assert lines[..i + 1][..i] == lines[..i]; }
    hide ScanLine;
  }

  function ExpectedPaths(t: Tree): set<string> {
    set p | p in t && p != SUMS :: Posix(p)
  }

  function ChecksumProblems(t: Tree, root: Path, h: Hasher): seq<Problem>
    requires SUMS in t && t[SUMS].Text?
  {
    var s := Scan(t, root, h, SplitLines(t[SUMS].text));
    s.problems + if s.checksums.Keys != ExpectedPaths(t) then [InventoryIncomplete] else []
  }

  /** The loop over the lines, and the comparison of the inventories. */
  method VerifyChecksums(t: Tree, root: Path, h: Hasher) returns (errors: seq<Problem>)
    requires SUMS in t && t[SUMS].Text?
    ensures errors == ChecksumProblems(t, root, h)
  {
    hide Scan, SplitEntry, SplitLines, Matches;
    errors := [];
    var checksums: map<string, string> := map[];
    var lines := SplitLines(t[SUMS].text);
    var i := 0;
    ScanFrom(t, root, h, lines, 0);
    while i < |lines|
      invariant 0 <= i <= |lines|
      invariant Scanned(errors, checksums) == Scan(t, root, h, lines[..i])
    {
      ScanFrom(t, root, h, lines, i);
      var entry := SplitEntry(lines[i]);
      i := i + 1;
      if entry.None? {
        errors := errors + [MalformedEntry];
        continue;
      }
      var (checksum, rel) := entry.value;
      if !Matches(t, root, h, checksum, rel) { errors := errors + [ChecksumMismatch(rel)]; }
      if rel in checksums { errors := errors + [DuplicateEntry(rel)]; }
      checksums := checksums[rel := checksum];
    }
    assert lines[..i] == lines;
    var expected := set p | p in t && p != SUMS :: Posix(p);
    if checksums.Keys != expected { errors := errors + [InventoryIncomplete]; }
  }

  // ---------------------------------------------------------------- what acceptance means

  /** What the lines alone say: the last checksum given for each path. */
  function Listed(lines: seq<string>): map<string, string>
    decreases |lines|
  {
    if lines == [] then map[]
    else
      var before := Listed(lines[..|lines| - 1]);
      match SplitEntry(lines[|lines| - 1])
      case None => before
      case Some((checksum, rel)) => before[rel := checksum]
  }

  ghost predicate AllMatch(t: Tree, root: Path, h: Hasher, m: map<string, string>) {
    forall rel :: rel in m ==> Matches(t, root, h, m[rel], rel)
  }

  lemma {:induction false} ScanAccepts(t: Tree, root: Path, h: Hasher, lines: seq<string>)
    ensures Scan(t, root, h, lines).checksums == Listed(lines)
    ensures Scan(t, root, h, lines).problems == [] ==> AllMatch(t, root, h, Listed(lines))
    decreases |lines|
  {
    if lines != [] { ScanAccepts(t, root, h, lines[..|lines| - 1]); }
  }

  /** The checksums are those of the tree, one for every file but the checksum file itself. */
  ghost predicate Records(m: map<string, string>, t: Tree, h: Hasher) {
    m.Keys == ExpectedPaths(t) && forall p :: p in t && p != SUMS ==> m[Posix(p)] == h.digest(t[p])
  }

  lemma InExpected(t: Tree, p: Path)
    requires p in t && p != SUMS
    ensures Posix(p) in ExpectedPaths(t)
  {
  }

  lemma AcceptedRecords(t: Tree, root: Path, h: Hasher)
    requires FileTree(t) && SUMS in t && t[SUMS].Text?
    requires ChecksumProblems(t, root, h) == []
    ensures Records(Listed(SplitLines(t[SUMS].text)), t, h)
  {
    var lines := SplitLines(t[SUMS].text);
    ScanAccepts(t, root, h, lines);
    forall p | p in t && p != SUMS ensures Listed(lines)[Posix(p)] == h.digest(t[p]) {
      InExpected(t, p);
      WrittenPathResolves(root, p);
    }
  }

  /** Tamper evidence: two accepted trees with the same checksum file hold the same paths, and equal
      contents wherever the digest does not collide. */
  lemma SameSumsSameTree(t: Tree, u: Tree, root: Path, base: Path, h: Hasher)
    requires FileTree(t) && SUMS in t && t[SUMS].Text? && ChecksumProblems(t, root, h) == []
    requires FileTree(u) && SUMS in u && u[SUMS] == t[SUMS] && ChecksumProblems(u, base, h) == []
    ensures t == u || exists p :: p in t && p in u && t[p] != u[p] && h.digest(t[p]) == h.digest(u[p])
    ensures t.Keys == u.Keys
  {
    AcceptedRecords(t, root, h);
    AcceptedRecords(u, base, h);
    SamePaths(t, u);
    SamePaths(u, t);
    var m := Listed(SplitLines(t[SUMS].text));
    forall p | p in t && p != SUMS ensures h.digest(t[p]) == h.digest(u[p]) {
      InExpected(t, p);
    }
  }

  lemma SamePaths(t: Tree, u: Tree)
    requires FileTree(t) && FileTree(u) && SUMS in u && ExpectedPaths(t) == ExpectedPaths(u)
    ensures t.Keys <= u.Keys
  {
    forall p | p in t ensures p in u {
      if p != SUMS {
        InExpected(t, p);
        var q :| q in u && q != SUMS && Posix(q) == Posix(p);
        PosixInjective(p, q);
      }
    }
  }

  // ---------------------------------------------------------------- the manifest section

  function LastEntries(files: seq<Entry>): map<string, Entry>
    decreases |files|
  {
    if files == [] then map[] else LastEntries(files[..|files| - 1])[files[|files| - 1].path := files[|files| - 1]]
  }

  function PayloadPaths(t: Tree): set<string> {
    set p | p in t && p != SUMS && p != MANIFEST :: Posix(p)
  }

  /** `actual.get(relative)`. */
  function Payload(t: Tree, rel: string): Option<Content> {
    var p := Components(rel);
    if p in t && p != SUMS && p != MANIFEST && Posix(p) == rel then Some(t[p]) else None
  }

  /** What one manifest entry is found guilty of. */
  function EntryProblems(t: Tree, h: Hasher, rel: string, e: Entry): seq<Problem> {
    var file := Payload(t, rel);
    (if Private(rel) then [PrivatePath(rel)] else [])
    + (if file.Some? && (e.bytes != h.size(file.value) || e.sha256 != h.digest(file.value))
       then [ManifestMismatch(rel)] else [])
  }

  ghost predicate ManifestClean(t: Tree, h: Hasher, m: ManifestFile) {
    && m.truthful
    && LastEntries(m.files).Keys == PayloadPaths(t)
    && forall rel :: rel in LastEntries(m.files) ==> EntryProblems(t, h, rel, LastEntries(m.files)[rel]) == []
  }

  /** The manifest part of the verifier; a dictionary is walked in some order of its keys. */
  method VerifyManifest(t: Tree, h: Hasher, m: ManifestFile) returns (errors: seq<Problem>)
    ensures errors == [] <==> ManifestClean(t, h, m)
  {
    errors := if m.truthful then [] else [CoverageUntruthful];
    var expected: map<string, Entry> := map[];
    var i := 0;
    while i < |m.files|
      invariant 0 <= i <= |m.files|
      invariant expected == LastEntries(m.files[..i])
    {
      assert m.files[..i + 1][..i] == m.files[..i];
      expected := expected[m.files[i].path := m.files[i]];
      i := i + 1;
    }
    assert m.files[..i] == m.files;
    var actual := set p | p in t && p != SUMS && p != MANIFEST :: Posix(p);
    if expected.Keys != actual { errors := errors + [ManifestInventory]; }
    var left := expected.Keys;
    while left != {}
      invariant left <= expected.Keys
      invariant errors == [] <==>
        && m.truthful && expected.Keys == PayloadPaths(t)
        && forall rel :: rel in expected.Keys - left ==> EntryProblems(t, h, rel, expected[rel]) == []
      decreases |left|
    {
      var rel :| rel in left;
      errors := errors + EntryProblems(t, h, rel, expected[rel]);
      left := left - {rel};
    }
  }

  // ---------------------------------------------------------------- the writer

  /** `listing` is a sorted walk over the tree: every file once.  An older checksum file may or may
      not still be there. */
  ghost predicate Lists(listing: seq<Path>, t: Tree) {
    Distinct(listing) && forall p :: p != SUMS ==> (p in listing <==> p in t)
  }

  function Entries(t: Tree, h: Hasher, listing: seq<Path>): seq<Entry>
    requires forall p :: p in listing && p != SUMS ==> p in t
    decreases |listing|
  {
    if listing == [] then []
    else
      var p := listing[|listing| - 1];
      var before := Entries(t, h, listing[..|listing| - 1]);
      if p == SUMS || p == MANIFEST then before else before + [Entry(Posix(p), h.size(t[p]), h.digest(t[p]))]
  }

  function SumLines(t: Tree, h: Hasher, listing: seq<Path>): seq<string>
    requires forall p :: p in listing && p != SUMS ==> p in t
    decreases |listing|
  {
    if listing == [] then []
    else
      var p := listing[|listing| - 1];
      var before := SumLines(t, h, listing[..|listing| - 1]);
      if p == SUMS then before else before + [EntryLine(h.digest(t[p]), Posix(p))]
  }

  /** What one call of the writer leaves behind. */
  ghost predicate Written(t: Tree, u: Tree, h: Hasher) {
    && SUMS in u && u[SUMS].Text? && MANIFEST in u && u[MANIFEST].Json?
    && (forall p :: p in u && p != SUMS && p != MANIFEST <==> p in t && p != SUMS && p != MANIFEST)
    && (forall p :: p in t && p != SUMS && p != MANIFEST ==> u[p] == t[p] && !Private(Posix(p)))
    && exists first, second ::
        && Lists(first, t) && Lists(second, u)
        && u[MANIFEST].manifest == ManifestFile(true, Entries(t, h, first))
        && u[SUMS].text == Unlines(SumLines(u, h, second))
  }

  predicate Refused(t: Tree) {
    exists p :: p in t && p != SUMS && p != MANIFEST && Private(Posix(p))
  }

  /** The payload inventory; a private path raises before anything is written. */
  method Inventoried(t: Tree, h: Hasher, first: seq<Path>) returns (payload: Option<seq<Entry>>)
    requires Lists(first, t)
    ensures payload.None? <==> Refused(t)
    ensures payload.Some? ==> payload.value == Entries(t, h, first)
  {
    var entries: seq<Entry> := [];
    var i := 0;
    while i < |first|
      invariant 0 <= i <= |first|
      invariant entries == Entries(t, h, first[..i])
      invariant forall k :: 0 <= k < i && first[k] != SUMS && first[k] != MANIFEST ==> !Private(Posix(first[k]))
    {
      assert first[..i + 1][..i] == first[..i];
      var p := first[i];
      i := i + 1;
      if p == SUMS || p == MANIFEST { continue; }
      assert p in first;
      if Private(Posix(p)) { return None; }
      entries := entries + [Entry(Posix(p), h.size(t[p]), h.digest(t[p]))];
    }
    assert first[..i] == first;
    return Some(entries);
  }

  method Summed(t: Tree, h: Hasher, second: seq<Path>) returns (lines: seq<string>)
    requires forall p :: p in second && p != SUMS ==> p in t
    ensures lines == SumLines(t, h, second)
  {
    lines := [];
    var i := 0;
    while i < |second|
      invariant 0 <= i <= |second|
      invariant lines == SumLines(t, h, second[..i])
    {
      assert second[..i + 1][..i] == second[..i];
      var p := second[i];
      i := i + 1;
      if p == SUMS { continue; }
      assert p in second;
      lines := lines + [EntryLine(h.digest(t[p]), Posix(p))];
    }
    assert second[..i] == second;
  }

  /** `write_metadata`: the manifest first, then the checksums of everything including the manifest. */
  method WriteMetadata(t: Tree, h: Hasher, first: seq<Path>, second: seq<Path>) returns (r: Option<Tree>)
    requires Lists(first, t) && Lists(second, t[MANIFEST := Binary([])])
    ensures r.None? <==> Refused(t)
    ensures r.Some? ==> Written(t, r.value, h)
  {
    hide Refused, Distinct;
    var payload := Inventoried(t, h, first);
    if payload.None? { return None; }
    var manifested := t[MANIFEST := Json(ManifestFile(true, payload.value))];
    var lines := Summed(manifested, h, second);
    var u := manifested[SUMS := Text(Unlines(lines))];
    WrittenByLoops(t, u, h, first, second);
    return Some(u);
  }

  lemma {:induction false} SumLinesFrame(t: Tree, u: Tree, h: Hasher, listing: seq<Path>)
    requires forall p :: p in listing && p != SUMS ==> p in t && p in u && t[p] == u[p]
    ensures SumLines(t, h, listing) == SumLines(u, h, listing)
    decreases |listing|
  {
    if listing != [] { SumLinesFrame(t, u, h, listing[..|listing| - 1]); }
  }

  lemma WrittenByLoops(t: Tree, u: Tree, h: Hasher, first: seq<Path>, second: seq<Path>)
    requires Lists(first, t) && Lists(second, t[MANIFEST := Binary([])]) && !Refused(t)
    requires var m := t[MANIFEST := Json(ManifestFile(true, Entries(t, h, first)))];
      u == m[SUMS := Text(Unlines(SumLines(m, h, second)))]
    ensures Written(t, u, h)
  {
    var m := t[MANIFEST := Json(ManifestFile(true, Entries(t, h, first)))];
    SumLinesFrame(m, u, h, second);
    assert Lists(second, u);
  }

  // ---------------------------------------------------------------- what is written is accepted

  /** No path has a character at which the reader would end a line. */
  ghost predicate PathsBreakFree(t: Tree) {
    forall p :: p in t && p != SUMS ==> BreakFree(Posix(p))
  }

  lemma DigestHasNoGap(s: string)
    requires IsDigest(s)
    ensures ' ' !in s && BreakFree(s)
  {
  }

  lemma InitAndLast(listing: seq<Path>)
    requires listing != []
    ensures var n := |listing| - 1;
      && (forall p :: p in listing <==> p in listing[..n] || p == listing[n])
      && (Distinct(listing) ==> Distinct(listing[..n]) && listing[n] !in listing[..n])
  {
  }

  /** The lines for a listing give the digest of every file in it. */
  lemma {:induction false} SumLinesCover(t: Tree, h: Hasher, listing: seq<Path>)
    requires Proper(h) && FileTree(t)
    requires forall p :: p in listing && p != SUMS ==> p in t
    ensures var m := Listed(SumLines(t, h, listing));
      forall p :: p in listing && p != SUMS ==> Posix(p) in m && m[Posix(p)] == h.digest(t[p])
    decreases |listing|
  {
    if listing != [] {
      var n := |listing| - 1;
      var p := listing[n];
      InitAndLast(listing);
      SumLinesCover(t, h, listing[..n]);
      if p != SUMS {
        var m := Listed(SumLines(t, h, listing[..n]));
        ListedSnoc(SumLines(t, h, listing[..n]), h.digest(t[p]), Posix(p));
        hide Listed, Posix, Canonical, IsDigest, EntryLine;
        forall q | q in listing && q != SUMS
          ensures Posix(q) in m[Posix(p) := h.digest(t[p])] && m[Posix(p) := h.digest(t[p])][Posix(q)] == h.digest(t[q])
        {
          if Posix(q) == Posix(p) { PosixInjective(p, q); }
        }
      }
    }
  }

  /** And they list nothing else. */
  lemma {:induction false} SumLinesOnly(t: Tree, h: Hasher, listing: seq<Path>, rel: string)
    requires Proper(h)
    requires forall p :: p in listing && p != SUMS ==> p in t
    requires rel in Listed(SumLines(t, h, listing))
    ensures exists p :: p in listing && p != SUMS && Posix(p) == rel
    decreases |listing|
  {
    if listing != [] {
      var n := |listing| - 1;
      InitAndLast(listing);
      if listing[n] != SUMS {
        ListedSnoc(SumLines(t, h, listing[..n]), h.digest(t[listing[n]]), Posix(listing[n]));
      }
      hide Listed, Posix, IsDigest, EntryLine;
      if listing[n] == SUMS || rel != Posix(listing[n]) {
        SumLinesOnly(t, h, listing[..n], rel);
      }
    }
  }

  lemma ListedSnoc(lines: seq<string>, checksum: string, rel: string)
    requires IsDigest(checksum)
    ensures Listed(lines + [EntryLine(checksum, rel)]) == Listed(lines)[rel := checksum]
  {
    DigestHasNoGap(checksum);
    EntryReadBack(checksum, rel);
    assert (lines + [EntryLine(checksum, rel)])[..|lines|] == lines;
  }

  lemma {:induction false} SumLinesBreakFree(t: Tree, h: Hasher, listing: seq<Path>)
    requires Proper(h) && PathsBreakFree(t)
    requires forall p :: p in listing && p != SUMS ==> p in t
    ensures forall i :: 0 <= i < |SumLines(t, h, listing)| ==> BreakFree(SumLines(t, h, listing)[i])
    decreases |listing|
  {
    if listing != [] {
      var p := listing[|listing| - 1];
      SumLinesBreakFree(t, h, listing[..|listing| - 1]);
      if p != SUMS {
        DigestHasNoGap(h.digest(t[p]));
      }
    }
  }

  /** Scanning the written lines over the written tree finds nothing wrong. */
  lemma {:induction false} ScanOfWritten(t: Tree, root: Path, h: Hasher, listing: seq<Path>)
    requires Proper(h) && FileTree(t) && Distinct(listing)
    requires forall p :: p in listing && p != SUMS ==> p in t
    ensures Scan(t, root, h, SumLines(t, h, listing)).problems == []
    decreases |listing|
  {
    if listing != [] {
      var n := |listing| - 1;
      InitAndLast(listing);
      ScanOfWritten(t, root, h, listing[..n]);
      if listing[n] != SUMS {
        NotListedYet(t, h, listing);
        OneMoreLine(t, root, h, SumLines(t, h, listing[..n]), listing[n]);
      }
    }
  }

  lemma NotListedYet(t: Tree, h: Hasher, listing: seq<Path>)
    requires Proper(h) && FileTree(t) && Distinct(listing) && listing != [] && listing[|listing| - 1] != SUMS
    requires forall p :: p in listing && p != SUMS ==> p in t
    ensures Posix(listing[|listing| - 1]) !in Listed(SumLines(t, h, listing[..|listing| - 1]))
  {
    var n := |listing| - 1;
    var p := listing[n];
    InitAndLast(listing);
    hide Distinct, Posix, Canonical, Listed, SumLines, IsDigest;
    if Posix(p) in Listed(SumLines(t, h, listing[..n])) {
      SumLinesOnly(t, h, listing[..n], Posix(p));
      var q :| q in listing[..n] && q != SUMS && Posix(q) == Posix(p);
      PosixInjective(p, q);
    }
  }

  lemma OneMoreLine(t: Tree, root: Path, h: Hasher, before: seq<string>, p: Path)
    requires Proper(h) && FileTree(t) && p in t
    requires Scan(t, root, h, before).problems == [] && Posix(p) !in Listed(before)
    ensures Scan(t, root, h, before + [EntryLine(h.digest(t[p]), Posix(p))]).problems == []
  {
    ScanAccepts(t, root, h, before);
    WrittenPathResolves(root, p);
    DigestHasNoGap(h.digest(t[p]));
    EntryReadBack(h.digest(t[p]), Posix(p));
    var line := EntryLine(h.digest(t[p]), Posix(p));
    assert (before + [line])[..|before|] == before;
    hide EntryLine, SplitEntry, RelativePath, IsDigest, Posix, Canonical;
  }

  lemma ListedExactly(t: Tree, h: Hasher, listing: seq<Path>)
    requires Proper(h) && FileTree(t) && Lists(listing, t)
    ensures Listed(SumLines(t, h, listing)).Keys == ExpectedPaths(t)
  {
    SumLinesCover(t, h, listing);
    hide Distinct, Posix, Canonical, Listed, SumLines, IsDigest;
    forall rel | rel in Listed(SumLines(t, h, listing)) ensures rel in ExpectedPaths(t) {
      SumLinesOnly(t, h, listing, rel);
    }
  }

  /** Paths without line breaks: the checksum section accepts what was written. */
  lemma WrittenAccepted(u: Tree, root: Path, h: Hasher, listing: seq<Path>)
    requires Proper(h) && FileTree(u) && Lists(listing, u) && PathsBreakFree(u)
    requires SUMS in u && u[SUMS] == Text(Unlines(SumLines(u, h, listing)))
    ensures ChecksumProblems(u, root, h) == []
    ensures SplitLines(u[SUMS].text) == SumLines(u, h, listing)
  {
    var lines := SumLines(u, h, listing);
    SumLinesBreakFree(u, h, listing);
    SplitUnlines(lines);
    ScanOfWritten(u, root, h, listing);
    ScanAccepts(u, root, h, lines);
    ListedExactly(u, h, listing);
    hide Scan, SplitLines, Unlines, SumLines, Listed;
  }

  lemma {:induction false} ListedBreakFree(lines: seq<string>)
    requires forall line :: line in lines ==> BreakFree(line)
    ensures forall rel :: rel in Listed(lines) ==> BreakFree(rel)
    decreases |lines|
  {
    if lines != [] {
      var last := lines[|lines| - 1];
      assert last in lines;
      ListedBreakFree(lines[..|lines| - 1]);
      if SplitEntry(last).Some? { EntryPathBreakFree(last); }
    }
  }

  /** Whatever the checksum file says, a tree with a line break in a path is never accepted. */
  lemma BreakNeverAccepted(t: Tree, root: Path, h: Hasher)
    requires FileTree(t) && SUMS in t && t[SUMS].Text? && !PathsBreakFree(t)
    ensures ChecksumProblems(t, root, h) != []
  {
    var lines := SplitLines(t[SUMS].text);
    LinesBreakFree(t[SUMS].text);
    ListedBreakFree(lines);
    ScanAccepts(t, root, h, lines);
    var p :| p in t && p != SUMS && !BreakFree(Posix(p));
    InExpected(t, p);
  }

  /** What the writer writes is accepted by the checksum section exactly when no path contains a
      line break. */
  lemma WrittenAcceptedExactly(t: Tree, u: Tree, root: Path, h: Hasher)
    requires Proper(h) && FileTree(u) && Written(t, u, h)
    ensures ChecksumProblems(u, root, h) == [] <==> PathsBreakFree(u)
  {
    if PathsBreakFree(u) {
      var first, second :| Lists(first, t) && Lists(second, u)
        && u[MANIFEST].manifest == ManifestFile(true, Entries(t, h, first))
        && u[SUMS].text == Unlines(SumLines(u, h, second));
      WrittenAccepted(u, root, h, second);
    } else {
      BreakNeverAccepted(u, root, h);
    }
  }

  // ---------------------------------------------------------------- the manifest that is written

  lemma {:induction false} EntriesCover(t: Tree, h: Hasher, listing: seq<Path>)
    requires FileTree(t)
    requires forall p :: p in listing && p != SUMS ==> p in t
    ensures var m := LastEntries(Entries(t, h, listing));
      forall p :: p in listing && p != SUMS && p != MANIFEST ==>
        Posix(p) in m && m[Posix(p)] == Entry(Posix(p), h.size(t[p]), h.digest(t[p]))
    decreases |listing|
  {
    if listing != [] {
      var n := |listing| - 1;
      var p := listing[n];
      InitAndLast(listing);
      EntriesCover(t, h, listing[..n]);
      if p != SUMS && p != MANIFEST {
        LastEntriesSnoc(Entries(t, h, listing[..n]), Entry(Posix(p), h.size(t[p]), h.digest(t[p])));
        var m := LastEntries(Entries(t, h, listing));
        hide LastEntries, Posix, Canonical;
        forall q | q in listing && q != SUMS && q != MANIFEST
          ensures Posix(q) in m && m[Posix(q)] == Entry(Posix(q), h.size(t[q]), h.digest(t[q]))
        {
          if Posix(q) == Posix(p) { PosixInjective(p, q); }
        }
      }
    }
  }

  lemma LastEntriesSnoc(files: seq<Entry>, e: Entry)
    ensures LastEntries(files + [e]) == LastEntries(files)[e.path := e]
  {
    assert (files + [e])[..|files|] == files;
  }

  lemma {:induction false} EntriesOnly(t: Tree, h: Hasher, listing: seq<Path>, rel: string)
    requires forall p :: p in listing && p != SUMS ==> p in t
    requires rel in LastEntries(Entries(t, h, listing))
    ensures exists p :: p in listing && p != SUMS && p != MANIFEST && Posix(p) == rel
    decreases |listing|
  {
    if listing != [] {
      var n := |listing| - 1;
      var p := listing[n];
      InitAndLast(listing);
      if p != SUMS && p != MANIFEST {
        LastEntriesSnoc(Entries(t, h, listing[..n]), Entry(Posix(p), h.size(t[p]), h.digest(t[p])));
      }
      hide LastEntries, Posix;
      if p == SUMS || p == MANIFEST || rel != Posix(p) {
        EntriesOnly(t, h, listing[..n], rel);
      }
    }
  }

  /** The written manifest passes the manifest section whatever the paths are. */
  lemma WrittenManifestClean(t: Tree, u: Tree, h: Hasher)
    requires FileTree(t) && FileTree(u) && Written(t, u, h)
    ensures ManifestClean(u, h, u[MANIFEST].manifest)
  {
    var first, second :| Lists(first, t) && Lists(second, u)
      && u[MANIFEST].manifest == ManifestFile(true, Entries(t, h, first))
      && u[SUMS].text == Unlines(SumLines(u, h, second));
    EntriesCover(t, h, first);
    ManifestOfListing(t, u, h, first);
  }

  lemma ManifestOfListing(t: Tree, u: Tree, h: Hasher, first: seq<Path>)
    requires FileTree(t) && FileTree(u) && Lists(first, t)
    requires forall p :: p in u && p != SUMS && p != MANIFEST <==> p in t && p != SUMS && p != MANIFEST
    requires forall p :: p in t && p != SUMS && p != MANIFEST ==> u[p] == t[p] && !Private(Posix(p))
    ensures ManifestClean(u, h, ManifestFile(true, Entries(t, h, first)))
  {
    EntriesCover(t, h, first);
    hide Distinct, LastEntries, Entries, Posix, Canonical, EntryProblems, Private;
    var m := LastEntries(Entries(t, h, first));
    forall rel | rel in m ensures rel in PayloadPaths(u) && EntryProblems(u, h, rel, m[rel]) == [] {
      EntryClean(t, u, h, first, rel);
    }
    assert PayloadPaths(u) <= m.Keys;
  }

  lemma EntryClean(t: Tree, u: Tree, h: Hasher, first: seq<Path>, rel: string)
    requires FileTree(t) && FileTree(u) && Lists(first, t)
    requires forall p :: p in t && p != SUMS && p != MANIFEST ==> p in u && u[p] == t[p] && !Private(Posix(p))
    requires rel in LastEntries(Entries(t, h, first))
    ensures rel in PayloadPaths(u)
    ensures EntryProblems(u, h, rel, LastEntries(Entries(t, h, first))[rel]) == []
  {
    EntriesCover(t, h, first);
    hide Distinct, LastEntries, Entries, Posix, Canonical, EntryProblems, Private;
    EntriesOnly(t, h, first, rel);
    var p :| p in first && p != SUMS && p != MANIFEST && Posix(p) == rel;
    NoEntryProblem(u, h, p);
  }

  lemma NoEntryProblem(u: Tree, h: Hasher, p: Path)
    requires FileTree(u) && p in u && p != SUMS && p != MANIFEST && !Private(Posix(p))
    ensures EntryProblems(u, h, Posix(p), Entry(Posix(p), h.size(u[p]), h.digest(u[p]))) == []
  {
    ComponentsOfPosix(p);
  }

  // ---------------------------------------------------------------- the bundle's reader

  /** `checksum_inventory`: refuses malformed lines, duplicates and checksums that are no digests. */
  function Inventory(lines: seq<string>): Option<map<string, string>>
    decreases |lines|
  {
    if lines == [] then Some(map[])
    else
      var before := Inventory(lines[..|lines| - 1]);
      var entry := SplitEntry(lines[|lines| - 1]);
      if before.None? || entry.None? then None
      else
        var (checksum, rel) := entry.value;
        if rel in before.value || !IsDigest(checksum) then None else Some(before.value[rel := checksum])
  }

  method ChecksumInventory(text: string) returns (r: Option<map<string, string>>)
    ensures r == Inventory(SplitLines(text))
  {
    var lines := SplitLines(text);
    var inventory: map<string, string> := map[];
    var i := 0;
    while i < |lines|
      invariant 0 <= i <= |lines|
      invariant Inventory(lines[..i]) == Some(inventory)
    {
      assert lines[..i + 1][..i] == lines[..i];
      var entry := SplitEntry(lines[i]);
      if entry.None? || entry.value.1 in inventory || !IsDigest(entry.value.0) {
        RefusedStays(lines, i + 1);
        return None;
      }
      inventory := inventory[entry.value.1 := entry.value.0];
      i := i + 1;
    }
    assert lines[..i] == lines;
    return Some(inventory);
  }

  lemma {:induction false} RefusedStays(lines: seq<string>, i: nat)
    requires i <= |lines| && Inventory(lines[..i]).None?
    ensures Inventory(lines).None?
    decreases |lines|
  {
    if i == |lines| {
      assert lines[..i] == lines;
    } else {
      assert lines[..|lines| - 1][..i] == lines[..i];
      RefusedStays(lines[..|lines| - 1], i);
    }
  }

  lemma {:induction false} AcceptedLinesAreInventory(t: Tree, root: Path, h: Hasher, lines: seq<string>)
    requires Proper(h) && Scan(t, root, h, lines).problems == []
    ensures Inventory(lines) == Some(Listed(lines))
    decreases |lines|
  {
    if lines != [] {
      AcceptedLinesAreInventory(t, root, h, lines[..|lines| - 1]);
      ScanAccepts(t, root, h, lines[..|lines| - 1]);
    }
  }

  /** The independent reader agrees with the verifier: on every tree the checksum section accepts, it
      reads exactly the digest of every file. */
  lemma ReadersAgree(t: Tree, root: Path, h: Hasher)
    requires Proper(h) && FileTree(t) && SUMS in t && t[SUMS].Text?
    requires ChecksumProblems(t, root, h) == []
    ensures Inventory(SplitLines(t[SUMS].text)).Some?
    ensures Records(Inventory(SplitLines(t[SUMS].text)).value, t, h)
  {
    AcceptedRecords(t, root, h);
    AcceptedLinesAreInventory(t, root, h, SplitLines(t[SUMS].text));
  }

  /** It reads back the writer's map exactly when no path contains a line break. */
  lemma ReadBackExactly(t: Tree, u: Tree, h: Hasher)
    requires Proper(h) && FileTree(u) && Written(t, u, h)
    ensures (exists m :: Inventory(SplitLines(u[SUMS].text)) == Some(m) && Records(m, u, h)) <==> PathsBreakFree(u)
  {
    var lines := SplitLines(u[SUMS].text);
    if PathsBreakFree(u) {
      WrittenAcceptedExactly(t, u, [], h);
      ReadersAgree(u, [], h);
      assert Records(Inventory(lines).value, u, h);
    } else {
      LinesBreakFree(u[SUMS].text);
      var p :| p in u && p != SUMS && !BreakFree(Posix(p));
      InExpected(u, p);
      InventoryBreakFree(lines);
    }
  }

  lemma {:induction false} InventoryBreakFree(lines: seq<string>)
    requires forall line :: line in lines ==> BreakFree(line)
    ensures Inventory(lines).Some? ==> forall rel :: rel in Inventory(lines).value ==> BreakFree(rel)
    decreases |lines|
  {
    if lines != [] {
      var last := lines[|lines| - 1];
      assert last in lines;
      InventoryBreakFree(lines[..|lines| - 1]);
      if SplitEntry(last).Some? { EntryPathBreakFree(last); }
    }
  }
}
