/** What the sections of the candidate checks find, said of the lines, the entries and the files
    themselves. */
module CandidateChecks {
  import opened Common
  import opened TextLines
  import opened CandidateTrees
  import opened CandidateIntegrity

  // ---------------------------------------------------------------- the lines of a checksum file

  predicate Reads(line: string, checksum: string, rel: string) { SplitEntry(line) == Some((checksum, rel)) }

  predicate Unreadable(line: string) { SplitEntry(line).None? }

  predicate Names(line: string, rel: string) { SplitEntry(line).Some? && SplitEntry(line).value.1 == rel }

  ghost predicate Named(lines: seq<string>, rel: string) { exists line :: line in lines && Names(line, rel) }

  /** The line gives a checksum that the file it names does not have, if it names one. */
  predicate Wrong(t: Tree, root: Path, h: Hasher, line: string, rel: string) {
    Names(line, rel) && !Matches(t, root, h, SplitEntry(line).value.0, rel)
  }

  ghost predicate Repeated(lines: seq<string>, rel: string) {
    exists i, j :: 0 <= i < j < |lines| && Names(lines[i], rel) && Names(lines[j], rel)
  }

  lemma Grown(lines: seq<string>)
    requires lines != []
    ensures var n := |lines| - 1;
      && (forall line :: line in lines <==> line in lines[..n] || line == lines[n])
      && forall rel :: Repeated(lines, rel) <==>
           Repeated(lines[..n], rel) || (Names(lines[n], rel) && Named(lines[..n], rel))
    ensures forall rel :: Named(lines, rel) <==> Named(lines[..|lines| - 1], rel) || Names(lines[|lines| - 1], rel)
  {
    var n := |lines| - 1;
    var init := lines[..n];
    assert lines == init + [lines[n]];
    hide Names;
    forall rel ensures Repeated(lines, rel) <==>
        Repeated(init, rel) || (Names(lines[n], rel) && Named(init, rel))
    {
      if Repeated(lines, rel) {
        var i, j :| 0 <= i < j < |lines| && Names(lines[i], rel) && Names(lines[j], rel);
        assert lines[i] == init[i] && init[i] in init;
        if j < n { assert Names(init[i], rel) && Names(init[j], rel); }
      }
      if Repeated(init, rel) {
        var i, j :| 0 <= i < j < |init| && Names(init[i], rel) && Names(init[j], rel);
        assert Names(lines[i], rel) && Names(lines[j], rel);
      }
      if line :| Names(lines[n], rel) && line in init && Names(line, rel) {
        var i :| 0 <= i < n && init[i] == line;
        assert Names(lines[i], rel);
      }
    }
  }

  /** Which problems the loop over the lines reports, and which paths it collects. */
  lemma {:induction false} ScanFinds(t: Tree, root: Path, h: Hasher, lines: seq<string>)
    ensures var s := Scan(t, root, h, lines);
      && (forall rel :: rel in s.checksums <==> Named(lines, rel))
      && (MalformedEntry in s.problems <==> exists line :: line in lines && Unreadable(line))
      && (forall rel :: ChecksumMismatch(rel) in s.problems <==> exists line :: line in lines && Wrong(t, root, h, line, rel))
      && (forall rel :: DuplicateEntry(rel) in s.problems <==> Repeated(lines, rel))
      && forall e :: e in s.problems ==> e.MalformedEntry? || e.ChecksumMismatch? || e.DuplicateEntry?
    decreases |lines|
  {
    if lines != [] {
      var n := |lines| - 1;
      ScanFinds(t, root, h, lines[..n]);
      Grown(lines);
      LineFinds(t, root, h, Scan(t, root, h, lines[..n]), lines[n]);
      hide ScanLine, Names, Wrong, Unreadable, Repeated;
    }
  }

  lemma LineFinds(t: Tree, root: Path, h: Hasher, s: Scanned, line: string)
    ensures var u := ScanLine(t, root, h, s, line);
      && (forall rel :: rel in u.checksums <==> rel in s.checksums || Names(line, rel))
      && (MalformedEntry in u.problems <==> MalformedEntry in s.problems || Unreadable(line))
      && (forall rel :: ChecksumMismatch(rel) in u.problems <==> ChecksumMismatch(rel) in s.problems || Wrong(t, root, h, line, rel))
      && (forall rel :: DuplicateEntry(rel) in u.problems <==>
            DuplicateEntry(rel) in s.problems || (Names(line, rel) && rel in s.checksums))
      && forall e :: e in u.problems ==> e in s.problems || e.MalformedEntry? || e.ChecksumMismatch? || e.DuplicateEntry?
  {
    hide Matches, SplitEntry;
  }

  /** The paths the lines name are those of the files. */
  ghost predicate NamesFiles(lines: seq<string>, t: Tree) {
    forall rel :: Named(lines, rel) <==> rel in ExpectedPaths(t)
  }

  /** The whole checksum section: each problem exactly when its cause is there. */
  lemma ProblemsExactly(t: Tree, root: Path, h: Hasher)
    requires SUMS in t && t[SUMS].Text?
    ensures var errors, lines := ChecksumProblems(t, root, h), SplitLines(t[SUMS].text);
      && (MalformedEntry in errors <==> exists line :: line in lines && Unreadable(line))
      && (forall rel :: ChecksumMismatch(rel) in errors <==> exists line :: line in lines && Wrong(t, root, h, line, rel))
      && (forall rel :: DuplicateEntry(rel) in errors <==> Repeated(lines, rel))
      && (InventoryIncomplete in errors <==> !NamesFiles(lines, t))
      && forall e :: e in errors ==> e.MalformedEntry? || e.ChecksumMismatch? || e.DuplicateEntry? || e.InventoryIncomplete?
  {
    var lines := SplitLines(t[SUMS].text);
    ScanFinds(t, root, h, lines);
    var keys := Scan(t, root, h, lines).checksums.Keys;
    hide Scan, Names, Wrong, Unreadable, Repeated, Posix, SplitLines;
    hide Named;
  }

  /** The checksum file says of every file its digest, once, and of nothing else anything. */
  ghost predicate SaysExactly(lines: seq<string>, t: Tree, h: Hasher) {
    && (forall line :: line in lines ==> exists p :: p in t && p != SUMS && Reads(line, h.digest(t[p]), Posix(p)))
    && (forall p :: p in t && p != SUMS ==> exists line :: line in lines && Names(line, Posix(p)))
    && forall rel :: !Repeated(lines, rel)
  }

  /** Accepted exactly when the checksum file is right, line by line and file by file. */
  lemma AcceptedExactly(t: Tree, root: Path, h: Hasher)
    requires FileTree(t) && SUMS in t && t[SUMS].Text?
    ensures ChecksumProblems(t, root, h) == [] <==> SaysExactly(SplitLines(t[SUMS].text), t, h)
  {
    var errors, lines := ChecksumProblems(t, root, h), SplitLines(t[SUMS].text);
    ProblemsExactly(t, root, h);
    assert errors == [] <==> forall e :: e !in errors by {
      if errors != [] { assert errors[0] in errors; }
    }
    forall p | p in t && p != SUMS ensures RelativePath(root, Posix(p)) == Some(p) {
      WrittenPathResolves(root, p);
    }
    hide ChecksumProblems, RelativePath, Posix, SplitEntry, SplitLines, Repeated, Canonical;
    if errors == [] {
      forall p | p in t && p != SUMS ensures exists line :: line in lines && Names(line, Posix(p)) {
        InExpected(t, p);
        assert Named(lines, Posix(p));
      }
      forall rel ensures !Repeated(lines, rel) {
        assert DuplicateEntry(rel) !in errors;
      }
      forall line | line in lines ensures exists p :: p in t && p != SUMS && Reads(line, h.digest(t[p]), Posix(p)) {
        assert !Unreadable(line);
        var rel := SplitEntry(line).value.1;
        assert Names(line, rel) && Named(lines, rel);
        var p :| p in t && p != SUMS && Posix(p) == rel;
        assert !Wrong(t, root, h, line, rel) by { assert ChecksumMismatch(rel) !in errors; }
      }
    }
    if SaysExactly(lines, t, h) {
      forall e | e in errors ensures false {
        Silent(t, root, h, lines);
      }
    }
  }

  lemma Silent(t: Tree, root: Path, h: Hasher, lines: seq<string>)
    requires SaysExactly(lines, t, h)
    requires forall p :: p in t && p != SUMS ==> RelativePath(root, Posix(p)) == Some(p)
    ensures NamesFiles(lines, t)
    ensures forall line :: line in lines ==> !Unreadable(line) && forall rel :: !Wrong(t, root, h, line, rel)
  {
    hide RelativePath, Posix, SplitEntry, Repeated;
  }

  // ---------------------------------------------------------------- the manifest

  /** The entry that counts for a path is the last one that names it. */
  ghost predicate LastFor(files: seq<Entry>, e: Entry) {
    exists i :: 0 <= i < |files| && files[i] == e && forall j :: i < j < |files| ==> files[j].path != e.path
  }

  lemma LastForSnoc(files: seq<Entry>, x: Entry, e: Entry)
    ensures LastFor(files + [x], e) <==> e == x || (e.path != x.path && LastFor(files, e))
  {
    var all := files + [x];
    if e == x { assert all[|files|] == x; }
    if e.path != x.path && LastFor(files, e) {
      var i :| 0 <= i < |files| && files[i] == e && forall j :: i < j < |files| ==> files[j].path != e.path;
      assert all[i] == e;
    }
    if e != x && LastFor(all, e) {
      var i :| 0 <= i < |all| && all[i] == e && forall j :: i < j < |all| ==> all[j].path != e.path;
      assert all[|files|] == x && files[i] == e;
      assert forall j :: i < j < |files| ==> all[j] == files[j];
    }
  }

  lemma {:induction false} LastEntriesExactly(files: seq<Entry>)
    ensures forall rel :: rel in LastEntries(files) ==> LastEntries(files)[rel].path == rel
    ensures forall e :: LastFor(files, e) <==> e.path in LastEntries(files) && LastEntries(files)[e.path] == e
    ensures forall e :: e in files ==> e.path in LastEntries(files)
    decreases |files|
  {
    if files != [] {
      var n := |files| - 1;
      assert files == files[..n] + [files[n]];
      LastEntriesExactly(files[..n]);
      hide LastFor;
      forall e ensures LastFor(files, e) <==> e.path in LastEntries(files) && LastEntries(files)[e.path] == e {
        LastForSnoc(files[..n], files[n], e);
      }
    }
  }

  predicate PublicPath(p: Path) { forall c :: c in p ==> c !in PRIVATE_PARTS }

  /** The manifest describes the payload: every file once by its last entry, with size and digest, no
      file below a private directory, nothing else. */
  ghost predicate Describes(files: seq<Entry>, t: Tree, h: Hasher) {
    && (forall p :: p in t && p != SUMS && p != MANIFEST ==>
          PublicPath(p) && LastFor(files, Entry(Posix(p), h.size(t[p]), h.digest(t[p]))))
    && forall e :: e in files ==> exists p :: p in t && p != SUMS && p != MANIFEST && Posix(p) == e.path
  }

  lemma PayloadExactly(t: Tree, h: Hasher, p: Path, e: Entry)
    requires FileTree(t) && p in t && p != SUMS && p != MANIFEST && e.path == Posix(p)
    ensures EntryProblems(t, h, e.path, e) == [] <==> PublicPath(p) && e == Entry(Posix(p), h.size(t[p]), h.digest(t[p]))
  {
    ComponentsOfPosix(p);
  }

  /** The manifest section is silent exactly when the coverage is truthful and the manifest describes
      the payload. */
  lemma ManifestExactly(t: Tree, h: Hasher, m: ManifestFile)
    requires FileTree(t)
    ensures ManifestClean(t, h, m) <==> m.truthful && Describes(m.files, t, h)
  {
    if m.truthful && ManifestClean(t, h, m) { CleanDescribes(t, h, m); }
    if m.truthful && Describes(m.files, t, h) { DescribesClean(t, h, m); }
    hide Describes;
  }

  lemma CleanDescribes(t: Tree, h: Hasher, m: ManifestFile)
    requires FileTree(t) && ManifestClean(t, h, m)
    ensures Describes(m.files, t, h)
  {
    LastEntriesExactly(m.files);
    var last := LastEntries(m.files);
    hide EntryProblems, Posix, Canonical, LastEntries, LastFor, PublicPath;
    forall p | p in t && p != SUMS && p != MANIFEST
      ensures PublicPath(p) && LastFor(m.files, Entry(Posix(p), h.size(t[p]), h.digest(t[p])))
    {
      assert Posix(p) in PayloadPaths(t);
      PayloadExactly(t, h, p, last[Posix(p)]);
    }
    forall e | e in m.files ensures exists p :: p in t && p != SUMS && p != MANIFEST && Posix(p) == e.path {
      assert e.path in PayloadPaths(t);
    }
  }

  lemma DescribesClean(t: Tree, h: Hasher, m: ManifestFile)
    requires FileTree(t) && m.truthful && Describes(m.files, t, h)
    ensures ManifestClean(t, h, m)
  {
    LastEntriesExactly(m.files);
    var last := LastEntries(m.files);
    hide EntryProblems, Posix, Canonical, LastEntries, LastFor, PublicPath;
    forall rel | rel in last ensures rel in PayloadPaths(t) && EntryProblems(t, h, rel, last[rel]) == [] {
      InFiles(m.files, rel);
      var p :| p in t && p != SUMS && p != MANIFEST && Posix(p) == rel;
      PayloadExactly(t, h, p, last[rel]);
    }
  }

  lemma InFiles(files: seq<Entry>, rel: string)
    requires rel in LastEntries(files)
    ensures exists e :: e in files && e.path == rel
  {
    LastEntriesExactly(files);
    assert LastFor(files, LastEntries(files)[rel]);
  }

  // ---------------------------------------------------------------- the bundle's reader

  predicate Sum(s: string) { |s| == 64 && forall i :: 0 <= i < 64 ==> s[i] in "0123456789abcdef" }

  lemma SumExactly(s: string)
    ensures IsDigest(s) <==> Sum(s)
  {
    forall c ensures HexDigit(c) <==> c in "0123456789abcdef" {
      assert HexDigit(c) ==> c as int - '0' as int < 10 || 0 <= c as int - 'a' as int < 6;
    }
  }

  /** What the independent reader takes, and what it reads. */
  lemma {:induction false} InventoryExactly(lines: seq<string>)
    ensures Inventory(lines).Some? <==>
      && (forall line :: line in lines ==> SplitEntry(line).Some? && Sum(SplitEntry(line).value.0))
      && forall rel :: !Repeated(lines, rel)
    ensures Inventory(lines).Some? ==>
      && (forall rel :: rel in Inventory(lines).value <==> Named(lines, rel))
      && forall line, checksum, rel :: line in lines && Reads(line, checksum, rel) ==> Inventory(lines).value[rel] == checksum
    decreases |lines|
  {
    if lines != [] {
      InventoryExactly(lines[..|lines| - 1]);
      Grown(lines);
      if SplitEntry(lines[|lines| - 1]).Some? { SumExactly(SplitEntry(lines[|lines| - 1]).value.0); }
      hide Repeated, IsDigest, Sum, SplitEntry, Named;
    }
  }
}
