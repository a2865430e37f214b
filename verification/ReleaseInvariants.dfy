/** What every reachable state of the release control files satisfies, provided staging never
    pushes a half-promoted candidate off the list, and what is lost when it does. */
module ReleaseInvariants {
  import opened Common
  import opened Releases
  import opened ReleaseRuns
  import opened Promotion

  // ---------------------------------------------------------------- the control files

  /** Listed as a candidate, but already marked active: its promotion was interrupted. */
  ghost predicate Half(c: Control, p: Path) {
    p in c.meta.candidates && p in c.markers && c.markers[p].stage == Active
  }

  ghost predicate Known(c: Control, p: Path, stages: set<Stage>) {
    p in c.intact && p in c.markers && c.markers[p].stage in stages
  }

  /** At most two rollbacks and two candidates, no duplicates, the three sets disjoint. */
  ghost predicate Bounded(m: Metadata) {
    && |m.rollbacks| <= 2 && |m.candidates| <= 2
    && Distinct(m.rollbacks) && Distinct(m.candidates)
    && (forall p :: p in m.candidates ==> p !in m.rollbacks && m.active != Some(p))
    && (forall p :: p in m.rollbacks ==> m.active != Some(p))
  }

  ghost predicate Sound(c: Control) {
    && c.intact <= c.roots && c.markers.Keys <= c.roots
    && Bounded(c.meta)
    && (forall p :: p in c.meta.candidates ==> Known(c, p, {Candidate, Active}))
    && (forall p :: p in c.meta.rollbacks ==> Known(c, p, {Rollback}))
    && (c.meta.active.Some? ==> Known(c, c.meta.active.value, {Active, Rollback}))
    // one promotion can be half done, and only then is the recorded active release demoted
    && (forall p, q :: Half(c, p) && Half(c, q) ==> p == q)
    && (c.meta.active.Some? && c.markers[c.meta.active.value].stage == Rollback ==> exists h :: Half(c, h))
    && (c.link == c.meta.active || (c.link.Some? && Half(c, c.link.value)))
  }

  /** An admitted promotion of a sound state: nothing else is half done. */
  lemma AdmittedSound(c: Control, a: Args)
    requires Sound(c) && Admit(c, a).Ok?
    ensures forall h :: Half(c, h) ==> h == a.candidate
    ensures Known(c, a.candidate, {Candidate, Active})
    ensures c.meta.active.Some? && c.meta.active.value != a.candidate ==> c.meta.active.value in RollbackValues(c, a)
    ensures c.meta.active == Some(a.candidate) ==> c.markers[a.candidate].stage == Active
  {
    forall h | Half(c, h) ensures h == a.candidate {
      assert h != a.candidate ==> Valid(c, h, {Candidate});
    }
    if c.meta.active.Some? && c.meta.active.value != a.candidate {
      assert c.meta.active.value in RollbackSources(c, a);
    }
  }

  /** Nothing but `c` can be half done. */
  ghost predicate OnlyHalf(s: Control, c: Path) {
    forall h :: Half(s, h) ==> h == c
  }

  lemma PromoteMarkerSound(s: Control, c: Path)
    requires Sound(s) && OnlyHalf(s, c) && Known(s, c, {Candidate, Active})
    requires s.meta.active == Some(c) ==> s.markers[c].stage == Active
    ensures Sound(Apply(s, SetMarker(c, Promoted(s.markers[c]))))
  {
    var d := Apply(s, SetMarker(c, Promoted(s.markers[c])));
    assert forall h :: Half(d, h) ==> Half(s, h) || h == c;
    assert forall h :: Half(s, h) ==> Half(d, h);
  }

  lemma DemoteMarkerSound(s: Control, c: Path, v: Path)
    requires Sound(s) && OnlyHalf(s, c) && Known(s, c, {Active}) && Known(s, v, {Active, Rollback})
    requires v != c && v !in s.meta.candidates
    requires Half(s, c) || s.meta.active == Some(c)
    ensures Sound(Apply(s, SetMarker(v, Demoted(s.markers[v]))))
  {
    var d := Apply(s, SetMarker(v, Demoted(s.markers[v])));
    assert forall h :: Half(d, h) <==> Half(s, h);
  }

  lemma LinkSound(s: Control, c: Path)
    requires Sound(s) && (Half(s, c) || s.meta.active == Some(c))
    ensures Sound(Apply(s, SetLink(c)))
  {
    var d := Apply(s, SetLink(c));
    assert forall h :: Half(d, h) <==> Half(s, h);
  }

  /** Every write of an admitted promotion keeps the state sound. */
  lemma PromotionWriteSound(c: Control, a: Args, w: Write)
    requires Sound(c) && Admitted(c, a)
    requires OwnWrite(c, a, w)
    requires w.SetMarker? && w.path != a.candidate ==> c.markers[a.candidate].stage == Active
    requires w.SetLink? ==> c.markers[a.candidate].stage == Active
    ensures Sound(Apply(c, w))
  {
    AdmittedSound(c, a);
    AdmittedFacts(c, a);
    match w {
      case SetLink(p) => LinkSound(c, p);
      case SetMarker(p, m) =>
        if p == a.candidate {
          PromoteMarkerSound(c, p);
        } else {
          assert Valid(c, p, {Active, Rollback});
          DemoteMarkerSound(c, a.candidate, p);
        }
    }
  }

  lemma FinalShape(c: Control, a: Args, values: seq<Path>)
    requires Sound(c) && Known(c, a.candidate, {Candidate, Active}) && OnlyHalf(c, a.candidate)
    requires Distinct(values) && a.candidate !in values
    requires forall v :: v in values ==> Known(c, v, {Active, Rollback}) && v !in c.meta.candidates
    ensures var f := Final(c, a, values);
      Sound(f) && f.link == f.meta.active && forall p :: !Half(f, p)
  {
    var f := Final(c, a, values);
    forall p | p in f.meta.candidates ensures Known(f, p, {Candidate}) && p !in f.meta.rollbacks && p != a.candidate {
      assert p in c.meta.candidates && !Half(c, p);
    }
    assert Bounded(f.meta);
  }

  /** So does the metadata write that ends it; nothing is then half done, and the link is right. */
  lemma FinalSound(c: Control, a: Args)
    requires Sound(c) && Admitted(c, a)
    ensures var f := Final(c, a, RollbackValues(c, a));
      Sound(f) && f.link == f.meta.active && forall p :: !Half(f, p)
  {
    AdmittedSound(c, a);
    AdmittedFacts(c, a);
    forall p | p in RollbackValues(c, a) ensures Known(c, p, {Active, Rollback}) && p !in c.meta.candidates {
      assert Valid(c, p, {Active, Rollback});
    }
    FinalShape(c, a, RollbackValues(c, a));
  }

  // ---------------------------------------------------------------- staging

  /** What a caller of the staging script can check first: the candidate that a full list would
      push off has not been half promoted. */
  predicate KeepsHalf(c: Control) {
    |c.meta.candidates| < 2 || (c.meta.candidates[1] in c.markers && c.markers[c.meta.candidates[1]].stage == Candidate)
  }

  function StagedMetadata(m: Metadata, p: Path): Metadata {
    m.(candidates := Take([p] + Without(m.candidates, p), 2))
  }

  /** The condition is exact: staging keeps every half-promoted release listed if and only if it
      holds. */
  lemma KeepsHalfExactly(c: Control, p: Path)
    requires Sound(c) && p !in c.roots
    ensures KeepsHalf(c) <==> forall h :: Half(c, h) ==> h in StagedMetadata(c.meta, p).candidates
  {
    var cs := c.meta.candidates;
    assert p !in cs;
    assert Without(cs, p) == cs;
    if |cs| == 2 {
      assert StagedMetadata(c.meta, p).candidates == [p, cs[0]];
      assert cs[1] in cs;
      assert Half(c, cs[1]) <==> c.markers[cs[1]].stage == Active;
    } else {
      assert StagedMetadata(c.meta, p).candidates == [p] + cs;
    }
  }

  lemma StagedMetadataSound(c: Control, p: Path)
    requires Sound(c) && KeepsHalf(c)
    requires Known(c, p, {Candidate}) && p !in c.meta.candidates && p !in c.meta.rollbacks && c.meta.active != Some(p)
    ensures Sound(Apply(c, SetMeta(StagedMetadata(c.meta, p))))
    ensures forall h :: Half(c, h) <==> Half(Apply(c, SetMeta(StagedMetadata(c.meta, p))), h)
  {
    var cs := c.meta.candidates;
    var d := Apply(c, SetMeta(StagedMetadata(c.meta, p)));
    assert Without(cs, p) == cs;
    if |cs| == 2 {
      assert d.meta.candidates == [p, cs[0]];
      assert cs[0] in cs && cs[1] in cs;
    } else {
      assert d.meta.candidates == [p] + cs;
    }
    assert forall h :: Half(c, h) <==> Half(d, h);
  }

  // ---------------------------------------------------------------- the whole system

  /** Markers only move candidate, active, rollback; no release loses its marker. */
  ghost predicate Forward(c: Control, d: Control) {
    && NoneBackToCandidate(c, d)
    && (forall p :: p in c.markers && c.markers[p].stage == Rollback ==> d.markers[p].stage == Rollback)
  }

  ghost predicate Writable(c: Control, a: Args) {
    Admitted(c, a) && forall v :: v in RollbackValues(c, a) ==> v in c.markers
  }

  /** The lock holder has exactly the missing writes ahead of it, or first one redundant write of
      a candidate marker that became active after it was read. */
  ghost predicate OnPlan(c: Control, a: Args, ahead: seq<Write>) {
    && Writable(c, a)
    && var missing := Missing(c, a, RollbackValues(c, a));
       || ahead == missing
       || (c.markers[a.candidate].stage == Active
           && ahead == [SetMarker(a.candidate, c.markers[a.candidate])] + missing)
  }

  ghost predicate OnStage(c: Control, path: Path, ahead: seq<Write>) {
    && StageAhead(c, path, ahead) && ahead != []
    && ahead[|ahead| - 1] == SetMeta(StagedMetadata(c.meta, path))
    && KeepsHalf(c)
    && (|ahead| <= 2 ==> path in c.intact)
    && (|ahead| == 1 ==> path in c.markers && c.markers[path].stage == Candidate)
    && path !in c.meta.candidates && path !in c.meta.rollbacks && c.meta.active != Some(path)
  }

  ghost predicate ProcSound(c: Control, p: Proc) {
    match p
    case Idle => true
    case SawCandidate(a, seen) => SeenSafe(c, a, seen)
    case SawBoth(a, seen) => SeenSafe(c, a, seen)
    case Promoting(a, ahead) => OnPlan(c, a, ahead)
    case Staging(path, ahead) => OnStage(c, path, ahead)
  }

  ghost predicate Consistent(sys: System) {
    && Sound(sys.control)
    && (forall pid: Pid :: ProcSound(sys.control, At(sys, pid)))
    && (forall pid: Pid :: Pending(At(sys, pid)) != [] ==> sys.holder == Some(pid))
  }

  /** The one condition on the environment: the staging script gets the lock only when it would
      keep a half-promoted candidate listed. */
  predicate Careful(sys: System, l: Label) {
    l.LockStage? && sys.holder == None ==> KeepsHalf(sys.control)
  }

  predicate CarefulRun(sys: System, labels: seq<Label>)
    decreases |labels|
  {
    labels == [] || (Careful(sys, labels[0]) && CarefulRun(Step(sys, labels[0]), labels[1..]))
  }

  /** Rewriting a marker that is already right changes nothing. */
  lemma RedundantWrite(c: Control, a: Args, ahead: seq<Write>)
    requires OnPlan(c, a, ahead) && ahead != Missing(c, a, RollbackValues(c, a))
    ensures |ahead| > 1 && Apply(c, ahead[0]) == c && OnPlan(c, a, ahead[1..])
  {
    AdmittedFacts(c, a);
    MissingShape(c, a, RollbackValues(c, a));
    hide Missing, RollbackValues, Admit, EarlyWrite, Final;
    assert c.markers[a.candidate := c.markers[a.candidate]] == c.markers;
    assert ahead[1..] == Missing(c, a, RollbackValues(c, a));
  }

  lemma EarlyKeepsPlan(c: Control, a: Args)
    requires Writable(c, a) && |Missing(c, a, RollbackValues(c, a))| > 1
    ensures OnPlan(Apply(c, Missing(c, a, RollbackValues(c, a))[0]), a, Missing(c, a, RollbackValues(c, a))[1..])
  {
    MissingAdvances(c, a);
    hide Admit, RollbackValues, Missing, Final;
  }

  lemma EarlyPromoterWrite(c: Control, a: Args)
    requires Sound(c) && Writable(c, a) && |Missing(c, a, RollbackValues(c, a))| > 1
    ensures var d := Apply(c, Missing(c, a, RollbackValues(c, a))[0]);
      Sound(d) && Forward(c, d)
  {
    var values := RollbackValues(c, a);
    var w := Missing(c, a, values)[0];
    AdmittedFacts(c, a);
    MissingShape(c, a, values);
    EarlyWriteOrder(c, a, values, w);
    hide Admit, RollbackValues, Missing, Final, Sound, Forward, Apply, Take;
    EarlyIsOwn(c, a, values, w);
    OwnWriteForward(c, a, w);
    PromotionWriteSound(c, a, w);
  }

  lemma EarlyIsOwn(c: Control, a: Args, values: seq<Path>, w: Write)
    requires Planable(c, a, values) && values == RollbackValues(c, a) && EarlyWrite(c, a, values, w)
    ensures OwnWrite(c, a, w)
  {
  }

  lemma OwnWriteForward(c: Control, a: Args, w: Write)
    requires Admitted(c, a) && OwnWrite(c, a, w)
    ensures Forward(c, Apply(c, w))
  {
    AdmittedFacts(c, a);
  }

  lemma LastPromoterWrite(c: Control, a: Args)
    requires Sound(c) && Writable(c, a) && |Missing(c, a, RollbackValues(c, a))| == 1
    ensures var d := Apply(c, Missing(c, a, RollbackValues(c, a))[0]);
      Sound(d) && Forward(c, d) && d == Final(c, a, RollbackValues(c, a))
  {
    MissingAdvances(c, a);
    FinalSound(c, a);
    FinalForward(c, a);
    hide Admit, RollbackValues, Missing, Final, Sound, Forward;
  }

  lemma PromoterWrites(c: Control, a: Args, ahead: seq<Write>)
    requires Sound(c) && OnPlan(c, a, ahead)
    ensures ahead != []
    ensures var d := Apply(c, ahead[0]);
      && Sound(d) && Forward(c, d)
      && (|ahead| > 1 ==> OnPlan(d, a, ahead[1..]))
      && (|ahead| == 1 ==> d == Final(c, a, RollbackValues(c, a)))
  {
    var missing := Missing(c, a, RollbackValues(c, a));
    MissingShape(c, a, RollbackValues(c, a));
    hide Admit, RollbackValues, Missing, Final, Sound;
    if ahead != missing {
      RedundantWrite(c, a, ahead);
    } else if |missing| > 1 {
      EarlyPromoterWrite(c, a);
      EarlyKeepsPlan(c, a);
    } else {
      LastPromoterWrite(c, a);
    }
  }

  /** The candidate's marker is written before anything else of the promotion. */
  lemma EarlyWriteOrder(c: Control, a: Args, values: seq<Path>, w: Write)
    requires Planable(c, a, values) && EarlyWrite(c, a, values, w)
    ensures w.SetLink? || (w.SetMarker? && w.path != a.candidate) ==> c.markers[a.candidate].stage == Active
  {
    assert w == Missing(c, a, values)[0];
  }

  lemma FinalForward(c: Control, a: Args)
    requires Admitted(c, a)
    ensures Forward(c, Final(c, a, RollbackValues(c, a)))
  {
    AdmittedFacts(c, a);
  }

  lemma EarlyStagerWrite(c: Control, path: Path, ahead: seq<Write>)
    requires Sound(c) && OnStage(c, path, ahead) && |ahead| > 1
    ensures var d := Apply(c, ahead[0]);
      Sound(d) && Forward(c, d) && OnStage(d, path, ahead[1..])
  {
    var d := Apply(c, ahead[0]);
    assert d.meta == c.meta && forall p :: p in c.markers ==> p in d.markers && d.markers[p] == c.markers[p];
    assert forall h :: Half(c, h) <==> Half(d, h);
    assert Sound(d);
    hide Sound;
  }

  lemma StagerWrites(c: Control, path: Path, ahead: seq<Write>)
    requires Sound(c) && OnStage(c, path, ahead)
    ensures var d := Apply(c, ahead[0]);
      Sound(d) && Forward(c, d) && (|ahead| > 1 ==> OnStage(d, path, ahead[1..]))
  {
    if |ahead| == 1 {
      StagedMetadataSound(c, path);
      hide Sound;
    } else {
      EarlyStagerWrite(c, path, ahead);
    }
  }

  lemma FailedStageSound(c: Control, path: Path, ahead: seq<Write>)
    requires Sound(c) && OnStage(c, path, ahead) && |ahead| >= 2
    ensures var d := Removed(c, path);
      Sound(d) && Forward(c, d) && forall h :: Half(c, h) <==> Half(d, h)
  {
    var d := Removed(c, path);
    assert path !in c.markers;
    assert forall h :: Half(c, h) <==> Half(d, h);
  }

  lemma StepKeeps(sys: System, next: System, pid: Pid)
    requires Consistent(sys)
    requires Sound(next.control) && NoneBackToCandidate(sys.control, next.control)
    requires ProcSound(next.control, At(next, pid))
    requires forall q: Pid :: q != pid ==> At(next, q) == At(sys, q)
    requires forall q: Pid :: Pending(At(next, q)) != [] ==> next.holder == Some(q)
    requires next.control == sys.control || sys.holder == Some(pid)
    ensures Consistent(next)
  {
    forall q: Pid | q != pid ensures ProcSound(next.control, At(next, q)) {
      if next.control != sys.control {
        var p := At(sys, q);
        assert Pending(p) == [];
        if p.Promoting? { PromoterWrites(sys.control, p.a, p.ahead); }
      }
    }
  }

  lemma LockedOnPlan(c: Control, a: Args, seen: Marker)
    requires Sound(c) && SeenSafe(c, a, seen) && Admit(c, a).Ok?
    ensures OnPlan(c, a, Plan(c, a, seen, Admit(c, a).value))
  {
    AdmittedSound(c, a);
    AdmittedFacts(c, a);
    if seen.stage != Active && c.markers[a.candidate].stage == Active {
      assert Promoted(seen) == c.markers[a.candidate];
      assert Missing(c, a, RollbackValues(c, a)) == LaterWrites(c, a, RollbackValues(c, a));
    }
  }

  lemma StageLocked(c: Control, path: Path, commit: string)
    requires Sound(c) && KeepsHalf(c) && path !in c.roots
    ensures OnStage(c, path, StagePlan(c, path, commit))
  {
    assert path !in c.markers;
  }

  /** The files and the moving process after one step, whatever the step is. */
  lemma MoverSound(sys: System, l: Label)
    requires Consistent(sys) && Careful(sys, l)
    ensures var next := Step(sys, l);
      Sound(next.control) && Forward(sys.control, next.control) && ProcSound(next.control, At(next, l.pid))
  {
    var next := Step(sys, l);
    var p := At(sys, l.pid);
    var c := sys.control;
    assert ProcSound(c, p);
    hide Admit, Plan, StagePlan, Sound, OnPlan, OnStage, SeenSafe, Apply, KeepsHalf;
    match l {
      case WriteNext(pid) => WriterSound(sys, pid);
      case FailStage(_) =>
        if sys.holder == Some(l.pid) && CanFail(p) { FailedStageSound(c, p.path, p.ahead); }
      case LockPromote(_) =>
        if p.SawBoth? && sys.holder == None && Admit(c, p.a).Ok? { LockedOnPlan(c, p.a, p.seen); }
      case LockStage(_, path, commit) =>
        if p.Idle? && sys.holder == None && path !in c.roots { StageLocked(c, path, commit); }
      case ReadCandidate(_, a) =>
        if p.Idle? && CandidateReadable(c, a) { FreshlySeen(c, a); }
      case _ =>
    }
  }

  lemma WriterSound(sys: System, pid: Pid)
    requires Consistent(sys)
    ensures var next := Step(sys, WriteNext(pid));
      Sound(next.control) && Forward(sys.control, next.control) && ProcSound(next.control, At(next, pid))
  {
    var p := At(sys, pid);
    var c := sys.control;
    assert ProcSound(c, p);
    assert Forward(c, c);
    hide Sound, Forward, OnPlan, OnStage, SeenSafe, Apply, KeepsHalf;
    if sys.holder == Some(pid) && Pending(p) != [] {
      if p.Promoting? { PromoterWrites(c, p.a, p.ahead); } else { StagerWrites(c, p.path, p.ahead); }
    }
  }

  lemma FreshlySeen(c: Control, a: Args)
    requires CandidateReadable(c, a)
    ensures SeenSafe(c, a, c.markers[a.candidate])
  {
  }

  lemma ConsistentStep(sys: System, l: Label)
    requires Consistent(sys) && Careful(sys, l)
    ensures Consistent(Step(sys, l)) && Forward(sys.control, Step(sys, l).control)
  {
    MoverSound(sys, l);
    hide Admit, Plan, StagePlan, Sound, ProcSound, Apply, NoneBackToCandidate, KeepsHalf;
    if Step(sys, l) != sys {
      StepKeeps(sys, Step(sys, l), l.pid);
    }
  }

  /** Every state of every careful run is sound: the lists stay bounded and disjoint, and the link
      differs from the recorded active release only for the one half-promoted candidate. */
  lemma {:induction false} SoundAlways(sys: System, labels: seq<Label>)
    requires Consistent(sys) && CarefulRun(sys, labels)
    ensures Consistent(Run(sys, labels)) && Sound(Run(sys, labels).control)
    ensures Forward(sys.control, Run(sys, labels).control)
    decreases |labels|
  {
    if labels != [] {
      ConsistentStep(sys, labels[0]);
      SoundAlways(Step(sys, labels[0]), labels[1..]);
    }
  }

  lemma StartConsistent()
    ensures Consistent(Start)
  {
  }
}
