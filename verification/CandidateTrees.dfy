/** File trees below a candidate directory: relative paths, their written form, and the path that a
    written form resolves to. */
module CandidateTrees {
  import opened Common

  /** The components below the candidate directory. */
  type Path = seq<string>

  predicate Name(c: string) { c != "" && c != "." && c != ".." && '/' !in c }

  ghost predicate Canonical(p: Path) {
    p != [] && forall i :: 0 <= i < |p| ==> Name(p[i])
  }

  /** `as_posix`. */
  function Posix(p: Path): string {
    if p == [] then "" else if |p| == 1 then p[0] else p[0] + "/" + Posix(p[1..])
  }

  function FirstSlash(s: string): (i: nat)
    ensures i <= |s| && (i < |s| ==> s[i] == '/')
    ensures forall k :: 0 <= k < i ==> s[k] != '/'
  {
    if s == "" || s[0] == '/' then 0 else 1 + FirstSlash(s[1..])
  }

  function Components(s: string): (cs: seq<string>)
    ensures cs != []
    decreases |s|
  {
    var i := FirstSlash(s);
    if i == |s| then [s] else [s[..i]] + Components(s[i + 1..])
  }

  function Resolve(base: Path, cs: seq<string>): Path
    decreases |cs|
  {
    if cs == [] then base
    else if cs[0] == "" || cs[0] == "." then Resolve(base, cs[1..])
    else if cs[0] == ".." then Resolve(if base == [] then [] else base[..|base| - 1], cs[1..])
    else Resolve(base + [cs[0]], cs[1..])
  }

  /** `relative_path`: what `root / value` resolves to, if that lies strictly below the root. */
  function RelativePath(root: Path, value: string): Option<Path> {
    var absolute := value != "" && value[0] == '/';
    var full := Resolve(if absolute then [] else root, Components(value));
    if |root| < |full| && full[..|root|] == root then Some(full[|root|..]) else None
  }

  lemma SlashAfter(c: string, rest: string)
    requires '/' !in c
    ensures FirstSlash(c + "/" + rest) == |c|
  {
    var s := c + "/" + rest;
    assert s[|c|] == '/';
    assert forall k :: 0 <= k < |c| ==> s[k] == c[k] && c[k] in c;
  }

  lemma {:induction false} ComponentsOfPosix(p: Path)
    requires p != [] && forall i :: 0 <= i < |p| ==> '/' !in p[i]
    ensures Components(Posix(p)) == p
  {
    if |p| == 1 {
      assert forall k :: 0 <= k < |p[0]| ==> p[0][k] in p[0];
    } else {
      var s := p[0] + "/" + Posix(p[1..]);
      SlashAfter(p[0], Posix(p[1..]));
      assert s[..|p[0]|] == p[0] && s[|p[0]| + 1..] == Posix(p[1..]);
      ComponentsOfPosix(p[1..]);
    }
  }

  lemma {:induction false} ResolveNames(base: Path, cs: seq<string>)
    requires forall i :: 0 <= i < |cs| ==> Name(cs[i])
    ensures Resolve(base, cs) == base + cs
    decreases |cs|
  {
    if cs == [] {
      assert base + cs == base;
    } else {
      ResolveNames(base + [cs[0]], cs[1..]);
      assert base + [cs[0]] + cs[1..] == base + cs;
    }
  }

  lemma PosixStart(p: Path)
    requires Canonical(p)
    ensures Posix(p) != "" && Posix(p)[0] != '/'
  {
    assert Name(p[0]) && p[0][0] in p[0];
  }

  /** The written form of a path below the root leads back to it, wherever the root is. */
  lemma WrittenPathResolves(root: Path, p: Path)
    requires Canonical(p)
    ensures RelativePath(root, Posix(p)) == Some(p)
  {
    PosixStart(p);
    ComponentsOfPosix(p);
    ResolveNames(root, p);
    assert (root + p)[..|root|] == root && (root + p)[|root|..] == p;
  }

  lemma PosixInjective(p: Path, q: Path)
    requires Canonical(p) && Canonical(q) && Posix(p) == Posix(q)
    ensures p == q
  {
    WrittenPathResolves([], p);
    WrittenPathResolves([], q);
  }
}
