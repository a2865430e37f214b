/** Crash recovery of one promotion, and the script itself as an imperative object. */
module Promotion {
  import opened Common
  import opened Releases

  /** Marker, two demotions, link, metadata. */
  const MostWrites: nat := 5

  // ---------------------------------------------------------------- attempts that may crash

  /** One whole attempt from `s`: it reads current markers, and performs `k` of its writes. */
  function Attempt(s: Control, a: Args, k: nat): Control {
    if CandidateReadable(s, a) && RollbackReadable(s, a) && Admit(s, a).Ok? then
      AdmittedFacts(s, a);
      ApplyAll(s, Take(Missing(s, a, Admit(s, a).value), k))
    else s
  }

  function Attempts(s: Control, a: Args, crashes: seq<nat>): Control
    decreases |crashes|
  {
    if crashes == [] then s else Attempts(Attempt(s, a, crashes[0]), a, crashes[1..])
  }

  /** The first attempt passes every check it makes, before and under the lock. */
  ghost predicate Accepted(s: Control, a: Args) {
    CandidateReadable(s, a) && RollbackReadable(s, a) && Admit(s, a).Ok?
  }

  /** An uninterrupted promotion ends in `Final`. */
  lemma {:induction false} FullRunReachesFinal(s: Control, a: Args)
    requires Admitted(s, a)
    ensures forall v :: v in RollbackValues(s, a) ==> v in s.markers
    ensures ApplyAll(s, Missing(s, a, RollbackValues(s, a))) == Final(s, a, RollbackValues(s, a))
    decreases if Admitted(s, a) && (forall v :: v in RollbackValues(s, a) ==> v in s.markers)
              then |Missing(s, a, RollbackValues(s, a))| else 0
  {
    MissingAdvances(s, a);
    var ahead := Missing(s, a, RollbackValues(s, a));
    if |ahead| > 1 {
      FullRunReachesFinal(Apply(s, ahead[0]), a);
    } else {
      assert ahead[1..] == [];
    }
  }

  /** `t` is a state some interrupted attempts of `a` from `s` may have left behind. */
  ghost predicate Interrupted(s: Control, t: Control, a: Args)
    requires Accepted(s, a)
  {
    && Accepted(t, a)
    && Final(t, a, RollbackValues(t, a)) == Final(s, a, RollbackValues(s, a))
  }

  lemma AttemptIsAPrefix(s: Control, a: Args, k: nat)
    requires Accepted(s, a)
    ensures forall v :: v in RollbackValues(s, a) ==> v in s.markers
    ensures Attempt(s, a, k) == ApplyAll(s, Take(Missing(s, a, RollbackValues(s, a)), k))
  {
    AdmittedFacts(s, a);
  }

  lemma FirstWriteFirst(s: Control, ws: seq<Write>, k: nat)
    requires ws != []
    ensures ApplyAll(s, Take(ws, k + 1)) == ApplyAll(Apply(s, ws[0]), Take(ws[1..], k))
  {
    assert Take(ws, k + 1)[1..] == Take(ws[1..], k);
  }

  /** An attempt of `k + 1` writes is one write followed by an attempt of `k`. */
  lemma AttemptSteps(s: Control, a: Args, k: nat)
    requires Accepted(s, a)
    ensures forall v :: v in RollbackValues(s, a) ==> v in s.markers
    ensures |Missing(s, a, RollbackValues(s, a))| >= 1
    ensures |Missing(s, a, RollbackValues(s, a))| == 1 ==>
      Attempt(s, a, k + 1) == Final(s, a, RollbackValues(s, a))
    ensures |Missing(s, a, RollbackValues(s, a))| > 1 ==>
      var t := Apply(s, Missing(s, a, RollbackValues(s, a))[0]);
      Interrupted(s, t, a) && Attempt(s, a, k + 1) == Attempt(t, a, k)
  {
    MissingAdvances(s, a);
    var values := RollbackValues(s, a);
    var ahead := Missing(s, a, values);
    var t := Apply(s, ahead[0]);
    AttemptIsAPrefix(s, a, k + 1);
    FirstWriteFirst(s, ahead, k);
    if |ahead| > 1 {
      RollbackStaysReadable(s, a, ahead[0]);
      AttemptIsAPrefix(t, a, k);
    } else {
      assert Take(ahead[1..], k) == [];
    }
  }

  /** A prefix of the plan that stops before the metadata write can be resumed. */
  lemma {:induction false} PrefixInterrupted(s: Control, a: Args, k: nat)
    requires Accepted(s, a)
    ensures Attempt(s, a, k) == Final(s, a, RollbackValues(s, a)) || Interrupted(s, Attempt(s, a, k), a)
    decreases k
  {
    hide Admit, Final, Attempt, RollbackValues, Missing;
    if k == 0 {
      EmptyAttempt(s, a);
    } else {
      AttemptSteps(s, a, k - 1);
      var ahead := Missing(s, a, RollbackValues(s, a));
      if |ahead| > 1 {
        var t := Apply(s, ahead[0]);
        PrefixInterrupted(t, a, k - 1);
      }
    }
  }

  lemma EmptyAttempt(s: Control, a: Args)
    requires Accepted(s, a)
    ensures Attempt(s, a, 0) == s
  {
    AttemptIsAPrefix(s, a, 0);
    assert Take(Missing(s, a, RollbackValues(s, a)), 0) == [];
  }

  lemma RollbackStaysReadable(s: Control, a: Args, w: Write)
    requires Accepted(s, a)
    requires forall v :: v in RollbackValues(s, a) ==> v in s.markers
    requires w == Missing(s, a, RollbackValues(s, a))[0]
    requires |Missing(s, a, RollbackValues(s, a))| > 1
    ensures RollbackReadable(Apply(s, w), a)
  {
    AdmittedFacts(s, a);
    MissingShape(s, a, RollbackValues(s, a));
    if a.rollback.Some? && a.rollback.value != a.candidate {
      assert a.rollback.value in RollbackSources(s, a);
    }
  }

  /** However often a promotion is interrupted, and wherever, repeating it with the same
      arguments ends exactly where an uninterrupted promotion would have ended. */
  lemma {:induction false} CrashRecovery(s: Control, a: Args, crashes: seq<nat>, k: nat)
    requires Accepted(s, a)
    requires k >= MostWrites
    ensures Attempt(Attempts(s, a, crashes), a, k) == Final(s, a, RollbackValues(s, a))
    decreases |crashes|
  {
    if crashes == [] {
      CompleteAttempt(s, a, k);
    } else {
      var t := Attempt(s, a, crashes[0]);
      PrefixInterrupted(s, a, crashes[0]);
      if t == Final(s, a, RollbackValues(s, a)) {
        FurtherRunsChangeNothing(s, a, crashes[1..] + [k]);
        AttemptsSnoc(t, a, crashes[1..], k);
      } else {
        CrashRecovery(t, a, crashes[1..], k);
      }
    }
  }

  lemma {:induction false} AttemptsSnoc(s: Control, a: Args, crashes: seq<nat>, k: nat)
    ensures Attempts(s, a, crashes + [k]) == Attempt(Attempts(s, a, crashes), a, k)
    decreases |crashes|
  {
    if crashes == [] {
      assert crashes + [k] == [k];
    } else {
      assert (crashes + [k])[1..] == crashes[1..] + [k];
      AttemptsSnoc(Attempt(s, a, crashes[0]), a, crashes[1..], k);
    }
  }

  /** A plan has at most five writes. */
  lemma PlanIsShort(s: Control, a: Args)
    requires Accepted(s, a)
    ensures forall v :: v in RollbackValues(s, a) ==> v in s.markers
    ensures |Missing(s, a, RollbackValues(s, a))| <= MostWrites
  {
    AdmittedFacts(s, a);
    DemotionsShort(s, Take(RollbackValues(s, a), 2));
  }

  /** So that budget completes it. */
  lemma CompleteAttempt(s: Control, a: Args, k: nat)
    requires Accepted(s, a) && k >= MostWrites
    ensures Attempt(s, a, k) == Final(s, a, RollbackValues(s, a))
  {
    PlanIsShort(s, a);
    FullRunReachesFinal(s, a);
    AttemptIsAPrefix(s, a, k);
    hide Missing, RollbackValues, Final, Attempt, ApplyAll;
  }

  lemma {:induction false} DemotionsShort(s: Control, values: seq<Path>)
    requires forall v :: v in values ==> v in s.markers
    ensures |Demotions(s, values)| <= |values|
  {
    if values != [] { DemotionsShort(s, values[1..]); }
  }

  // ---------------------------------------------------------------- a further run

  lemma {:induction false} CollectDistinct(acc: seq<Path>, values: seq<Path>, c: Path)
    requires Distinct(values) && c !in values
    requires forall v :: v in values ==> v !in acc
    ensures Collect(acc, values, c) == acc + values
    decreases |values|
  {
    if values == [] {
      assert acc + values == acc;
    } else {
      assert values[0] in values;
      assert forall v :: v in values[1..] ==> v in values;
      CollectDistinct(acc + [values[0]], values[1..], c);
      assert acc + [values[0]] + values[1..] == acc + values;
    }
  }

  lemma CollectHead(acc: seq<Path>, v: Path, rest: seq<Path>, c: Path)
    ensures Collect(acc, [v] + rest, c)
         == if v == c || v in acc then Collect(acc, rest, c) else Collect(acc + [v], rest, c)
  {
    assert ([v] + rest)[1..] == rest;
  }

  lemma DistinctTail(s: seq<Path>)
    requires Distinct(s) && s != []
    ensures Distinct(s[1..]) && s[0] !in s[1..] && s == [s[0]] + s[1..]
  {
  }

  /** Collecting the head again in front of a list that already starts with it changes nothing. */
  lemma CollectRepeatedHead(r: Path, two: seq<Path>, c: Path)
    requires Distinct(two) && c !in two
    requires r == c || (|two| > 0 && two[0] == r)
    ensures Collect([], [r] + two, c) == two
  {
    CollectHead([], r, two, c);
    if r == c {
      CollectDistinct([], two, c);
    } else {
      DistinctTail(two);
      assert [] + [r] == [r];
      CollectHead([r], r, two[1..], c);
      CollectDistinct([r], two[1..], c);
    }
  }

  /** The rollback values of a second run are those the first one recorded. */
  lemma SameRollbacksAgain(s: Control, a: Args)
    requires Accepted(s, a)
    ensures RollbackValues(Final(s, a, RollbackValues(s, a)), a) == Take(RollbackValues(s, a), 2)
  {
    AdmittedFacts(s, a);
    var values := RollbackValues(s, a);
    var two := Take(values, 2);
    var f := Final(s, a, values);
    assert Previous(f, a) == None;
    match a.rollback {
      case None =>
        assert RollbackSources(f, a) == two;
        CollectDistinct([], two, a.candidate);
      case Some(r) =>
        assert RollbackSources(f, a) == [r] + two;
        if r != a.candidate {
          var rest := Present(Previous(s, a)) + s.meta.rollbacks;
          assert RollbackSources(s, a) == [r] + rest;
          CollectHead([], r, rest, a.candidate);
          assert [] + [r] == [r];
          assert [r] <= values;
        }
        CollectRepeatedHead(r, two, a.candidate);
    }
  }

  /** Nothing is missing in the final state: the plan there rewrites the same metadata. */
  lemma NothingLeft(s: Control, a: Args)
    requires Accepted(s, a)
    ensures var values := RollbackValues(s, a);
      var f := Final(s, a, values);
      && (forall v :: v in Take(values, 2) ==> v in f.markers)
      && Missing(f, a, Take(values, 2)) == [SetMeta(f.meta)]
  {
    AdmittedFacts(s, a);
    var values := RollbackValues(s, a);
    var two := Take(values, 2);
    var f := Final(s, a, values);
    assert PromotedMetadata(f, a, two) == f.meta;
    DemotionsNone(f, two);
    assert Take(two, 2) == two;
  }

  lemma FinalAdmitsAgain(s: Control, a: Args)
    requires Accepted(s, a)
    ensures Accepted(Final(s, a, RollbackValues(s, a)), a)
  {
    AdmittedFacts(s, a);
    var values := RollbackValues(s, a);
    var f := Final(s, a, values);
    SameRollbacksAgain(s, a);
    forall p | p in f.meta.candidates ensures Valid(f, p, {Candidate}) {
      assert p in s.meta.candidates && Valid(s, p, {Candidate});
    }
    forall p | p in Take(values, 2) ensures Valid(f, p, {Active, Rollback}) {
      assert Valid(s, p, {Active, Rollback});
    }
    if a.rollback.Some? && a.rollback.value != a.candidate {
      assert a.rollback.value in RollbackSources(s, a);
      assert Valid(s, a.rollback.value, {Active, Rollback});
    }
  }

  lemma {:induction false} DemotionsNone(s: Control, values: seq<Path>)
    requires forall v :: v in values ==> v in s.markers && s.markers[v].stage == Rollback
    ensures Demotions(s, values) == []
  {
    if values != [] { DemotionsNone(s, values[1..]); }
  }

  /** Once a promotion is done, further runs with the same arguments change nothing,
      complete or interrupted. */
  lemma {:induction false} FurtherRunsChangeNothing(s: Control, a: Args, crashes: seq<nat>)
    requires Accepted(s, a)
    ensures Attempts(Final(s, a, RollbackValues(s, a)), a, crashes) == Final(s, a, RollbackValues(s, a))
    decreases |crashes|
  {
    var f := Final(s, a, RollbackValues(s, a));
    if crashes != [] {
      AnyFurtherAttempt(s, a, crashes[0]);
      FurtherRunsChangeNothing(s, a, crashes[1..]);
    }
  }

  lemma AnyFurtherAttempt(s: Control, a: Args, k: nat)
    requires Accepted(s, a)
    ensures Attempt(Final(s, a, RollbackValues(s, a)), a, k) == Final(s, a, RollbackValues(s, a))
  {
    hide Admit, RollbackValues, Missing, Attempt;
    FinalAdmitsAgain(s, a);
    SameRollbacksAgain(s, a);
    NothingLeft(s, a);
    AttemptWithNothingLeft(Final(s, a, RollbackValues(s, a)), a, k);
  }

  lemma AttemptWithNothingLeft(f: Control, a: Args, k: nat)
    requires Accepted(f, a)
    requires forall v :: v in RollbackValues(f, a) ==> v in f.markers
    requires Missing(f, a, RollbackValues(f, a)) == [SetMeta(f.meta)]
    ensures Attempt(f, a, k) == f
  {
    hide Admit, RollbackValues, Missing, Attempt;
    AttemptIsAPrefix(f, a, k);
    if k > 0 {
      FirstWriteFirst(f, [SetMeta(f.meta)], k - 1);
      assert Take([SetMeta(f.meta)][1..], k - 1) == [];
    }
  }
}
