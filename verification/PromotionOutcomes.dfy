/** What a completed promotion and a completed staging leave behind, said from the metadata and the
    arguments alone. */
module PromotionOutcomes {
  import opened Common
  import opened Releases
  import opened Promotion

  // ---------------------------------------------------------------- the order of the rollbacks

  function FirstIndex(s: seq<Path>, x: Path): (i: nat)
    requires x in s
    ensures i < |s| && s[i] == x && x !in s[..i]
  {
    if s[0] == x then 0
    else
      var j := FirstIndex(s[1..], x);
      assert s[..j + 1] == [s[0]] + s[1..][..j];
      j + 1
  }

  /** A release that can be rolled back to: the argument, the release that was active, an old rollback. */
  predicate Comes(s: Control, a: Args, x: Path) {
    x != a.candidate && (a.rollback == Some(x) || s.meta.active == Some(x) || x in s.meta.rollbacks)
  }

  /** The argument first, then the release that was active, then the old rollbacks in their order. */
  function Rank(s: Control, a: Args, x: Path): nat
    requires Comes(s, a, x)
  {
    if a.rollback == Some(x) then 0 else if s.meta.active == Some(x) then 1 else 2 + FirstIndex(s.meta.rollbacks, x)
  }

  lemma {:induction false} FirstIndexSplit(xs: seq<Path>, ys: seq<Path>, x: Path)
    requires x in xs + ys
    ensures FirstIndex(xs + ys, x) == if x in xs then FirstIndex(xs, x) else |xs| + FirstIndex(ys, x)
    decreases |xs|
  {
    if xs == [] {
      assert xs + ys == ys;
    } else {
      assert (xs + ys)[1..] == xs[1..] + ys && (xs + ys)[0] == xs[0];
      if xs[0] != x { FirstIndexSplit(xs[1..], ys, x); }
    }
  }

  /** The rank is the place among the sources, up to gaps. */
  lemma RankOrders(s: Control, a: Args, x: Path, y: Path)
    requires Comes(s, a, x) && Comes(s, a, y)
    ensures x in RollbackSources(s, a) && y in RollbackSources(s, a)
    ensures FirstIndex(RollbackSources(s, a), x) < FirstIndex(RollbackSources(s, a), y) <==> Rank(s, a, x) < Rank(s, a, y)
  {
    var arg, previous := Present(a.rollback), Present(Previous(s, a));
    forall z | z in {x, y}
      ensures z in RollbackSources(s, a)
      ensures FirstIndex(RollbackSources(s, a), z) ==
        if z in arg then 0 else if z in previous then |arg| else |arg + previous| + FirstIndex(s.meta.rollbacks, z)
    {
      FirstIndexSplit(arg + previous, s.meta.rollbacks, z);
      if z in arg + previous { FirstIndexSplit(arg, previous, z); }
    }
  }

  /** Whatever becomes of the head, it does not occur again later. */
  lemma NotAgain(acc: seq<Path>, v: Path, rest: seq<Path>, c: Path, j: nat)
    requires Distinct(acc)
    requires var now := if v == c || v in acc then acc else acc + [v];
      |now| <= j < |Collect(now, rest, c)| && (v == c ==> c !in acc)
    ensures var now := if v == c || v in acc then acc else acc + [v]; Collect(now, rest, c)[j] != v
  {
    var now := if v == c || v in acc then acc else acc + [v];
    var r := Collect(now, rest, c);
    assert r[j] in r && Distinct(r) && now <= r;
    if v in now {
      var k :| 0 <= k < |now| && now[k] == v;
      assert r[k] == v;
    }
  }

  /** What is collected comes in the order of its first places. */
  lemma {:induction false} CollectOrder(acc: seq<Path>, values: seq<Path>, c: Path)
    requires Distinct(acc) && c !in acc
    ensures var r := Collect(acc, values, c);
      && (forall i :: |acc| <= i < |r| ==> r[i] in values)
      && forall i, j :: |acc| <= i < j < |r| ==> FirstIndex(values, r[i]) < FirstIndex(values, r[j])
    decreases |values|
  {
    if values != [] {
      var v, rest := values[0], values[1..];
      var now := if v == c || v in acc then acc else acc + [v];
      CollectOrder(now, rest, c);
      var r := Collect(acc, values, c);
      assert r == Collect(now, rest, c) && now <= r;
      forall j | |now| <= j < |r| ensures r[j] in rest && r[j] != v && FirstIndex(values, r[j]) == FirstIndex(rest, r[j]) + 1 {
        NotAgain(acc, v, rest, c, j);
      }
      assert |acc| < |now| ==> r[|acc|] == v;
      hide Collect;
    }
  }

  // ---------------------------------------------------------------- a refused promotion

  /** Not an undamaged release whose marker allows what is asked of it. */
  predicate Unfit(s: Control, p: Path, allowed: set<Stage>) {
    p in s.intact && p in s.markers ==> s.markers[p].stage !in allowed
  }

  ghost predicate CandidateUnfit(s: Control, a: Args) {
    exists p :: p in s.meta.candidates && p != a.candidate && Unfit(s, p, {Candidate})
  }

  ghost predicate RollbackUnfit(s: Control, a: Args) {
    exists p :: Comes(s, a, p) && Unfit(s, p, {Active, Rollback})
  }

  /** Each refusal under the lock exactly when its reason is there and no earlier one. */
  lemma RefusedExactly(s: Control, a: Args)
    ensures var known := s.meta.active == Some(a.candidate) || a.candidate in s.meta.candidates;
      var elsewhere := s.link.Some? && s.link.value != a.candidate && s.meta.active != Some(s.link.value);
      && (Admit(s, a) == Err(CandidateNotStaged) <==> !known && !CandidateUnfit(s, a))
      && (Admit(s, a) == Err(ActiveReleaseIdentityMismatch) <==> known && elsewhere && !CandidateUnfit(s, a))
      && (Admit(s, a) == Err(ReleaseMarkerInvalid) <==> CandidateUnfit(s, a) || (known && !elsewhere && RollbackUnfit(s, a)))
  {
    assert forall x :: x in RollbackValues(s, a) <==> Comes(s, a, x);
    hide RollbackValues;
    assert RollbackUnfit(s, a) <==> !Usable(s, RollbackValues(s, a));
    assert CandidateUnfit(s, a) <==> !OthersStaged(s, a);
    hide Usable, OthersStaged, RollbackUnfit, CandidateUnfit, Unfit;
    if Usable(s, RollbackValues(s, a)) { PreviousUsable(s, a); }
  }

  lemma PreviousUsable(s: Control, a: Args)
    requires Usable(s, RollbackValues(s, a))
    ensures Usable(s, Present(Previous(s, a)))
  {
  }

  // ---------------------------------------------------------------- a completed promotion

  /** What a promotion that ran to its end has made of `s`. */
  ghost predicate Fulfilled(s: Control, a: Args, f: Control) {
    && Live(s, a, f) && Rollbacks(s, a, f) && Remaining(s, a, f)
  }

  /** The candidate is the active release, by link, record and marker. */
  predicate Live(s: Control, a: Args, f: Control) {
    && f.link == Some(a.candidate) && f.meta.active == Some(a.candidate)
    && f.markers.Keys == s.markers.Keys && a.candidate in f.markers && f.markers[a.candidate] == Marker(a.commit, Active)
    && f.roots == s.roots && f.intact == s.intact
  }

  /** The recorded rollbacks are the first two, by rank, of all that can be rolled back to; they and no
      others are marked so. */
  ghost predicate Rollbacks(s: Control, a: Args, f: Control) {
    var list := f.meta.rollbacks;
    && |list| <= 2 && (forall x :: x in list ==> Comes(s, a, x) && x in f.markers && f.markers[x].stage == Rollback)
    && (forall i, j :: 0 <= i < j < |list| ==> Comes(s, a, list[i]) && Comes(s, a, list[j]) && Rank(s, a, list[i]) < Rank(s, a, list[j]))
    && (forall y :: Comes(s, a, y) && y !in list ==>
          |list| == 2 && forall x :: x in list ==> Comes(s, a, x) && Rank(s, a, x) < Rank(s, a, y))
    && (forall p :: p in s.markers && p != a.candidate ==>
          p in f.markers && f.markers[p] == if p in list then s.markers[p].(stage := Rollback) else s.markers[p])
  }

  /** The other candidates stay listed, in their order, as far as two fit. */
  ghost predicate Remaining(s: Control, a: Args, f: Control) {
    var list := f.meta.candidates;
    && |list| <= 2 && (forall x :: x in list ==> x in s.meta.candidates && x != a.candidate)
    && (|s.meta.candidates| <= 2 ==> forall x :: x in s.meta.candidates && x != a.candidate ==> x in list)
    && (forall x :: x in s.meta.candidates && x != a.candidate && x !in list ==> |list| == 2)
    && (a.candidate !in s.meta.candidates && |s.meta.candidates| <= 2 ==> list == s.meta.candidates)
  }

  ghost predicate Ranked(s: Control, a: Args, values: seq<Path>) {
    && (forall x :: x in values <==> Comes(s, a, x))
    && (forall i, j :: 0 <= i < j < |values| ==>
          Comes(s, a, values[i]) && Comes(s, a, values[j]) && Rank(s, a, values[i]) < Rank(s, a, values[j]))
  }

  lemma PromotionFulfils(s: Control, a: Args)
    requires Admitted(s, a)
    ensures Fulfilled(s, a, Final(s, a, RollbackValues(s, a)))
  {
    AdmittedFacts(s, a);
    RollbacksRanked(s, a);
    hide Admit, RollbackValues, Ranked;
    FinalRollbacks(s, a, RollbackValues(s, a));
    FinalRemaining(s, a, RollbackValues(s, a));
    hide Rollbacks, Remaining;
  }

  lemma FinalRollbacks(s: Control, a: Args, values: seq<Path>)
    requires Ranked(s, a, values) && Distinct(values) && a.candidate in s.markers
    requires forall v :: v in values ==> v in s.markers
    ensures Rollbacks(s, a, Final(s, a, values))
  {
    var list := Take(values, 2);
    hide Rank;
    forall y | Comes(s, a, y) && y !in list
      ensures |list| == 2 && forall x :: x in list ==> Comes(s, a, x) && Rank(s, a, x) < Rank(s, a, y)
    {
      assert y in values;
      var k :| 0 <= k < |values| && values[k] == y;
      assert k >= |list|;
    }
  }

  lemma FinalRemaining(s: Control, a: Args, values: seq<Path>)
    requires a.candidate in s.markers
    ensures Remaining(s, a, Final(s, a, values))
  {
  }

  ghost predicate InOrder(values: seq<Path>, r: seq<Path>) {
    && (forall i :: 0 <= i < |r| ==> r[i] in values)
    && forall i, j :: 0 <= i < j < |r| ==> FirstIndex(values, r[i]) < FirstIndex(values, r[j])
  }

  lemma AllInOrder(values: seq<Path>, c: Path)
    ensures InOrder(values, Collect([], values, c))
  {
    CollectOrder([], values, c);
  }

  lemma OrderRanked(s: Control, a: Args, sources: seq<Path>, values: seq<Path>)
    requires sources == RollbackSources(s, a) && InOrder(sources, values)
    requires forall x :: x in values <==> Comes(s, a, x)
    ensures Ranked(s, a, values)
  {
    hide Rank, RollbackSources, FirstIndex, Comes;
    forall i, j | 0 <= i < j < |values|
      ensures Comes(s, a, values[i]) && Comes(s, a, values[j]) && Rank(s, a, values[i]) < Rank(s, a, values[j])
    {
      assert values[i] in values && values[j] in values;
      RankOrders(s, a, values[i], values[j]);
    }
  }

  lemma RollbacksRanked(s: Control, a: Args)
    requires Admitted(s, a)
    ensures Ranked(s, a, RollbackValues(s, a))
  {
    var values, sources := RollbackValues(s, a), RollbackSources(s, a);
    assert forall x :: x in values <==> Comes(s, a, x);
    AllInOrder(sources, a.candidate);
    assert InOrder(sources, values);
    OrderRanked(s, a, sources, values);
    hide *;
  }

  /** An attempt that is not interrupted does that. */
  lemma CompleteAttemptFulfils(s: Control, a: Args, k: nat)
    requires Accepted(s, a) && k >= MostWrites
    ensures Fulfilled(s, a, Attempt(s, a, k))
  {
    CompleteAttempt(s, a, k);
    PromotionFulfils(s, a);
    hide *;
  }

  /** In plain terms: the usable argument comes first, else the release that was active; that release is
      always kept as a rollback; and only the new release is left marked active. */
  lemma ReplacedReleaseKept(s: Control, a: Args, f: Control)
    requires Fulfilled(s, a, f)
    ensures a.rollback.Some? && a.rollback.value != a.candidate ==> |f.meta.rollbacks| > 0 && f.meta.rollbacks[0] == a.rollback.value
    ensures !(a.rollback.Some? && a.rollback.value != a.candidate) && s.meta.active.Some? && s.meta.active.value != a.candidate ==>
      |f.meta.rollbacks| > 0 && f.meta.rollbacks[0] == s.meta.active.value
    ensures s.meta.active.Some? && s.meta.active.value != a.candidate ==>
      s.meta.active.value in f.meta.rollbacks && s.meta.active.value in f.markers
      && f.markers[s.meta.active.value].stage == Rollback
    ensures (forall p :: p in s.markers && s.markers[p].stage == Active ==> p == a.candidate || s.meta.active == Some(p)) ==>
      forall p :: p in f.markers && f.markers[p].stage == Active ==> p == a.candidate
  {
    var list := f.meta.rollbacks;
    if |list| == 2 {
      assert list[0] in list && list[1] in list && Rank(s, a, list[0]) < Rank(s, a, list[1]);
    }
    if a.rollback.Some? && a.rollback.value != a.candidate {
      LowestFirst(s, a, f, a.rollback.value);
    } else if s.meta.active.Some? && s.meta.active.value != a.candidate {
      LowestFirst(s, a, f, s.meta.active.value);
    }
    if s.meta.active.Some? && s.meta.active.value != a.candidate {
      assert Comes(s, a, s.meta.active.value) && Rank(s, a, s.meta.active.value) <= 1;
    }
    hide Rank;
  }

  /** What nothing else precedes is the first of the list. */
  lemma LowestFirst(s: Control, a: Args, f: Control, y: Path)
    requires Rollbacks(s, a, f) && Comes(s, a, y)
    requires forall x :: Comes(s, a, x) && x != y ==> Rank(s, a, y) < Rank(s, a, x)
    ensures |f.meta.rollbacks| > 0 && f.meta.rollbacks[0] == y
  {
    var list := f.meta.rollbacks;
    hide Rank, Comes;
    if list != [] { assert list[0] in list; }
    if |list| == 2 { assert list[1] in list && Rank(s, a, list[0]) < Rank(s, a, list[1]); }
  }

  // ---------------------------------------------------------------- a completed staging

  /** What a staging that ran to its end has made of `s`. */
  predicate Staged(s: Control, p: Path, commit: string, f: Control) {
    && f.roots == s.roots + {p} && f.intact == s.intact + {p}
    && f.markers == s.markers[p := Marker(commit, Candidate)] && f.link == s.link
    && f.meta.active == s.meta.active && f.meta.rollbacks == s.meta.rollbacks
    && 1 <= |f.meta.candidates| <= 2 && f.meta.candidates[0] == p
    && (s.meta.candidates != [] && p !in s.meta.candidates ==> f.meta.candidates[1..] == [s.meta.candidates[0]])
    && (s.meta.candidates == [] ==> |f.meta.candidates| == 1)
    && (forall x :: x in f.meta.candidates ==> x == p || x in s.meta.candidates)
  }

  lemma StagingStages(s: Control, p: Path, commit: string)
    ensures Staged(s, p, commit, ApplyAll(s, StagePlan(s, p, commit)))
  {
    var plan := StagePlan(s, p, commit);
    ApplyFour(s, plan);
  }

  lemma ApplyFour(s: Control, ws: seq<Write>)
    requires |ws| == 4
    ensures ApplyAll(s, ws) == Apply(Apply(Apply(Apply(s, ws[0]), ws[1]), ws[2]), ws[3])
  {
    hide Apply;
    assert ws[1..][0] == ws[1] && ws[2..][0] == ws[2] && ws[3..][0] == ws[3];
    assert ws[1..][1..] == ws[2..] && ws[2..][1..] == ws[3..] && ws[3..][1..] == [];
    var s1 := Apply(s, ws[0]);
    var s2 := Apply(s1, ws[1]);
    var s3 := Apply(s2, ws[2]);
    assert ApplyAll(s, ws) == ApplyAll(s1, ws[1..]);
    assert ApplyAll(s1, ws[1..]) == ApplyAll(s2, ws[2..]);
    assert ApplyAll(s2, ws[2..]) == ApplyAll(s3, ws[3..]);
    assert ApplyAll(s3, ws[3..]) == ApplyAll(Apply(s3, ws[3]), []);
  }
}
