/** What the invariants of the release files buy: runs without crashes need no care at all, an
    interrupted promotion can always be finished, and a half-promoted release that staging has
    pushed off the candidate list is lost for good. */
module ReleaseRecovery {
  import opened Common
  import opened Releases
  import opened ReleaseRuns
  import opened ReleaseInvariants
  import opened Promotion

  // ---------------------------------------------------------------- runs without crashes

  /** Nothing half done, and the link is the recorded active release. */
  ghost predicate Settled(c: Control) {
    (forall p :: !Half(c, p)) && c.link == c.meta.active
  }

  predicate HoldsForPromotion(sys: System) {
    sys.holder.Some? && At(sys, sys.holder.value).Promoting? && Pending(At(sys, sys.holder.value)) != []
  }

  /** Only a promotion that is still writing leaves the files unsettled. */
  ghost predicate Quiet(sys: System) {
    HoldsForPromotion(sys) || Settled(sys.control)
  }

  /** No process dies while it holds the lock. */
  predicate CrashFree(sys: System, labels: seq<Label>)
    decreases |labels|
  {
    labels == []
    || (!(labels[0].Die? && sys.holder == Some(labels[0].pid)) && CrashFree(Step(sys, labels[0]), labels[1..]))
  }

  lemma StagerSettled(c: Control, path: Path, ahead: seq<Write>)
    requires Sound(c) && OnStage(c, path, ahead) && Settled(c)
    ensures Settled(Apply(c, ahead[0]))
  {
    var d := Apply(c, ahead[0]);
    if |ahead| == 1 {
      StagedMetadataSound(c, path);
    }
    assert forall h :: Half(d, h) ==> Half(c, h);
  }

  lemma PromoterSettles(c: Control, a: Args, ahead: seq<Write>)
    requires Sound(c) && OnPlan(c, a, ahead) && |ahead| == 1
    ensures Settled(Apply(c, ahead[0]))
  {
    PromoterWrites(c, a, ahead);
    FinalSound(c, a);
    hide Final, Admit, RollbackValues, Missing, Half;
  }

  lemma QuietWrite(sys: System, pid: Pid)
    requires Consistent(sys) && Quiet(sys)
    ensures Quiet(Step(sys, WriteNext(pid)))
  {
    var p := At(sys, pid);
    assert ProcSound(sys.control, p);
    hide Sound, OnPlan, OnStage, Apply, Settled;
    if sys.holder == Some(pid) && Pending(p) != [] {
      if p.Staging? {
        StagerSettled(sys.control, p.path, p.ahead);
      } else if |p.ahead| == 1 {
        PromoterSettles(sys.control, p.a, p.ahead);
      }
    }
  }

  lemma QuietFailure(sys: System, pid: Pid)
    requires Consistent(sys) && Quiet(sys)
    ensures Quiet(Step(sys, FailStage(pid)))
  {
    var p := At(sys, pid);
    assert ProcSound(sys.control, p);
    if sys.holder == Some(pid) && CanFail(p) { FailedStageSound(sys.control, p.path, p.ahead); }
    hide Sound, OnPlan, OnStage, Half, Forward;
  }

  lemma LockedHasWrites(c: Control, a: Args, seen: Marker)
    requires SeenSafe(c, a, seen) && Sound(c) && Admit(c, a).Ok?
    ensures Plan(c, a, seen, Admit(c, a).value) != []
  {
  }

  lemma SettledKeepsHalf(c: Control)
    requires Sound(c) && Settled(c)
    ensures KeepsHalf(c)
  {
    if |c.meta.candidates| == 2 {
      assert c.meta.candidates[1] in c.meta.candidates && !Half(c, c.meta.candidates[1]);
    }
  }

  lemma QuietStep(sys: System, l: Label)
    requires Consistent(sys) && Quiet(sys) && !(l.Die? && sys.holder == Some(l.pid))
    ensures Careful(sys, l) && (Careful(sys, l) ==> Quiet(Step(sys, l)))
  {
    if l.WriteNext? {
      QuietWrite(sys, l.pid);
    } else if l.FailStage? {
      QuietFailure(sys, l.pid);
    } else {
      var p := At(sys, l.pid);
      assert ProcSound(sys.control, p);
      if l.LockPromote? && p.SawBoth? && sys.holder == None && Admit(sys.control, p.a).Ok? {
        LockedHasWrites(sys.control, p.a, p.seen);
      }
      if l.LockStage? && sys.holder == None {
        SettledKeepsHalf(sys.control);
      }
      hide Admit, Plan, OnPlan, OnStage;
    }
  }

  /** Without crashes staging is always careful, so every state is sound, and whenever no promotion
      is writing the link equals the recorded active release and nothing is half promoted. */
  lemma {:induction false} CrashFreeRuns(sys: System, labels: seq<Label>)
    requires Consistent(sys) && Quiet(sys) && CrashFree(sys, labels)
    ensures CarefulRun(sys, labels)
    ensures Consistent(Run(sys, labels)) && Quiet(Run(sys, labels)) && Bounded(Run(sys, labels).control.meta)
    ensures !HoldsForPromotion(Run(sys, labels)) ==>
      Run(sys, labels).control.link == Run(sys, labels).control.meta.active
    decreases |labels|
  {
    hide Step, ProcSound;
    if labels != [] {
      QuietStep(sys, labels[0]);
      ConsistentStep(sys, labels[0]);
      CrashFreeRuns(Step(sys, labels[0]), labels[1..]);
    }
  }

  lemma StartQuiet()
    ensures Consistent(Start) && Quiet(Start)
  {
  }

  // ---------------------------------------------------------------- recovery

  /** In a sound state the checks under the lock come down to three: the candidate is listed or
      already active, nothing else is half promoted, and the rollback argument may be used. */
  lemma AdmittedExactly(c: Control, a: Args)
    requires Sound(c)
    ensures Admit(c, a).Ok? <==>
      && Listed(c, a) && OnlyHalf(c, a.candidate)
      && (a.rollback.Some? && a.rollback.value != a.candidate ==> Valid(c, a.rollback.value, {Active, Rollback}))
  {
    assert OnlyHalf(c, a.candidate) <==> OthersStaged(c, a) by { OthersAreHalf(c, a); }
    if Listed(c, a) && OnlyHalf(c, a.candidate) {
      assert LinkAgrees(c, a);
      assert Usable(c, Present(Previous(c, a)));
    }
    if a.rollback.Some? && a.rollback.value != a.candidate {
      assert a.rollback.value in RollbackSources(c, a);
    }
  }

  lemma OthersAreHalf(c: Control, a: Args)
    requires Sound(c)
    ensures OnlyHalf(c, a.candidate) <==> OthersStaged(c, a)
  {
    if OnlyHalf(c, a.candidate) {
      forall p | p in c.meta.candidates && p != a.candidate ensures Valid(c, p, {Candidate}) {
        assert !Half(c, p);
      }
    }
    if OthersStaged(c, a) {
      forall h | Half(c, h) ensures h == a.candidate {
        assert h != a.candidate ==> Valid(c, h, {Candidate});
      }
    }
  }

  /** Whenever the lock is free and a release is half promoted, promoting that release again is
      admitted, and settles the files with it active. */
  lemma InterruptedCanFinish(sys: System, h: Path, k: nat)
    requires Consistent(sys) && Half(sys.control, h) && k >= MostWrites
    ensures var a := Args(h, sys.control.markers[h].commit, None);
      var d := Attempt(sys.control, a, k);
      Accepted(sys.control, a) && Settled(d) && Sound(d) && d.meta.active == Some(h)
  {
    var c := sys.control;
    var a := Args(h, c.markers[h].commit, None);
    AdmittedExactly(c, a);
    assert Known(c, h, {Candidate, Active});
    CompleteAttempt(c, a, k);
    FinalSound(c, a);
  }

  // ---------------------------------------------------------------- what an eviction costs

  /** A release directory that is neither listed as a candidate nor recorded as active. */
  ghost predicate Stranded(c: Control, h: Path) {
    h in c.roots && h !in c.meta.candidates && c.meta.active != Some(h)
  }

  ghost predicate Avoids(w: Write, h: Path) {
    w.SetMeta? ==> h !in w.meta.candidates && w.meta.active != Some(h)
  }

  /** A staging that may still fail and remove its directory. */
  predicate Makes(p: Proc) { p.Staging? && |p.ahead| >= 2 }

  ghost predicate Lost(sys: System, h: Path) {
    && Stranded(sys.control, h)
    && (forall pid: Pid, w :: w in Pending(At(sys, pid)) ==> Avoids(w, h))
    && (forall pid: Pid :: Makes(At(sys, pid)) ==> At(sys, pid).path != h)
  }

  /** A lost release that the link points to. */
  ghost predicate Wedged(sys: System, h: Path) {
    Lost(sys, h) && sys.control.link == Some(h) && forall pid: Pid, w :: w in Pending(At(sys, pid)) ==> !w.SetLink?
  }

  lemma StrandedRefused(c: Control, a: Args, h: Path)
    requires Stranded(c, h)
    ensures a.candidate == h || c.link == Some(h) ==> Admit(c, a).Err?
  {
  }

  lemma PlanAvoids(c: Control, a: Args, seen: Marker, h: Path)
    requires Stranded(c, h) && Admit(c, a).Ok?
    requires forall v :: v in Admit(c, a).value ==> v in c.markers
    ensures forall w :: w in Plan(c, a, seen, Admit(c, a).value) ==> Avoids(w, h)
  {
    DemotionElements(c, Take(Admit(c, a).value, 2));
  }

  lemma StagePlanAvoids(c: Control, path: Path, commit: string, h: Path)
    requires Stranded(c, h) && path !in c.roots
    ensures forall w :: w in StagePlan(c, path, commit) ==> Avoids(w, h) && !w.SetLink?
  {
  }

  lemma LostAfter(sys: System, next: System, pid: Pid, h: Path)
    requires Lost(sys, h) && Stranded(next.control, h)
    requires forall q: Pid :: q != pid ==> At(next, q) == At(sys, q)
    requires forall w :: w in Pending(At(next, pid)) ==> Avoids(w, h)
    requires Makes(At(next, pid)) ==> At(next, pid).path != h
    ensures Lost(next, h)
    ensures Wedged(sys, h) && next.control.link == sys.control.link && (forall w :: w in Pending(At(next, pid)) ==> !w.SetLink?) ==>
      Wedged(next, h)
  {
    forall q: Pid, w | w in Pending(At(next, q)) ensures Avoids(w, h) {
      assert q != pid ==> At(next, q) == At(sys, q);
    }
  }

  /** The process that makes the next write does not stage the lost release. */
  lemma LostWrite(sys: System, pid: Pid, h: Path)
    requires Lost(sys, h)
    ensures Makes(At(Step(sys, WriteNext(pid)), pid)) ==> At(Step(sys, WriteNext(pid)), pid).path != h
  {
  }

  lemma LostStep(sys: System, l: Label, h: Path)
    requires Lost(sys, h)
    ensures Lost(Step(sys, l), h)
    ensures Wedged(sys, h) ==> Wedged(Step(sys, l), h)
  {
    var p := At(sys, l.pid);
    var c := sys.control;
    var next := Step(sys, l);
    if l.WriteNext? && Pending(p) != [] {
      LostWrite(sys, l.pid, h);
      assert Pending(p)[0] in Pending(p) && Avoids(Pending(p)[0], h);
      assert forall w :: w in Pending(p)[1..] ==> w in Pending(p);
    } else if l.LockPromote? && p.SawBoth? && Admit(c, p.a).Ok? {
      PlanAvoids(c, p.a, p.seen, h);
      StrandedRefused(c, p.a, h);
    } else if l.LockStage? && l.path !in c.roots {
      StagePlanAvoids(c, l.path, l.commit, h);
    }
    hide Admit, Plan, StagePlan, CandidateReadable, RollbackReadable;
    if next != sys {
      LostAfter(sys, next, l.pid, h);
    }
  }

  /** A lost release is never promoted again, and once the link points to it nothing is:
      whatever runs, crashes or is staged afterwards. */
  lemma {:induction false} LostForever(sys: System, labels: seq<Label>, h: Path, a: Args)
    requires Lost(sys, h)
    ensures a.candidate == h || Wedged(sys, h) ==> Admit(Run(sys, labels).control, a).Err?
    decreases |labels|
  {
    if labels == [] {
      StrandedRefused(sys.control, a, h);
    } else {
      LostStep(sys, labels[0], h);
      LostForever(Step(sys, labels[0]), labels[1..], h, a);
    }
  }

  // ---------------------------------------------------------------- undisturbed processes

  function WriteLabels(pid: Pid, k: nat): seq<Label> {
    if k == 0 then [] else [WriteNext(pid)] + WriteLabels(pid, k - 1)
  }

  /** The system after the lock holder `pid` has made the first `k` of its writes `ws`. */
  function AfterWrites(sys: System, pid: Pid, ws: seq<Write>, k: nat): System
    requires At(sys, pid).Promoting? || At(sys, pid).Staging?
    requires k <= |ws|
  {
    var c := ApplyAll(sys.control, Take(ws, k));
    if k == |ws| then Become(sys.(control := c, holder := None), pid, Idle)
    else Become(sys.(control := c), pid, At(sys, pid).(ahead := ws[k..]))
  }

  lemma RunFirst(sys: System, l: Label, rest: seq<Label>)
    ensures Run(sys, [l] + rest) == Run(Step(sys, l), rest)
  {
    assert ([l] + rest)[1..] == rest;
  }

  lemma NoWrites(sys: System, pid: Pid)
    requires Pending(At(sys, pid)) != [] && pid in sys.procs
    ensures AfterWrites(sys, pid, Pending(At(sys, pid)), 0) == sys
  {
    assert Pending(At(sys, pid))[0..] == Pending(At(sys, pid));
    assert sys.procs[pid := At(sys, pid)] == sys.procs;
  }

  /** The step of a lock holder with more than one write ahead. */
  lemma NextWrite(sys: System, pid: Pid)
    requires sys.holder == Some(pid) && 1 < |Pending(At(sys, pid))|
    ensures var ws := Pending(At(sys, pid));
      var next := Step(sys, WriteNext(pid));
      && next == Become(sys.(control := Apply(sys.control, ws[0])), pid, At(sys, pid).(ahead := ws[1..]))
      && next.holder == Some(pid) && Pending(At(next, pid)) == ws[1..]
  {
    hide Apply;
  }

  lemma {:induction false} WritesRun(sys: System, pid: Pid, k: nat)
    requires sys.holder == Some(pid) && 0 < |Pending(At(sys, pid))| && k <= |Pending(At(sys, pid))|
    ensures Run(sys, WriteLabels(pid, k)) == AfterWrites(sys, pid, Pending(At(sys, pid)), k)
    decreases k
  {
    hide Step, AfterWrites;
    if k == 0 {
      NoWrites(sys, pid);
    } else {
      var next := Step(sys, WriteNext(pid));
      RunFirst(sys, WriteNext(pid), WriteLabels(pid, k - 1));
      if k == 1 {
        FirstWrite(sys, pid);
      } else {
        NextWrite(sys, pid);
        hide Run, Become, Apply;
        WritesRun(next, pid, k - 1);
        AfterNextWrites(sys, next, pid, k - 1);
      }
    }
  }

  lemma FirstWrite(sys: System, pid: Pid)
    requires sys.holder == Some(pid) && Pending(At(sys, pid)) != []
    ensures Step(sys, WriteNext(pid)) == AfterWrites(sys, pid, Pending(At(sys, pid)), 1)
  {
    var ws := Pending(At(sys, pid));
    FirstWriteFirst(sys.control, ws, 0);
    assert Take(ws[1..], 0) == [];
  }

  lemma AfterNextWrites(sys: System, next: System, pid: Pid, k: nat)
    requires 0 < k < |Pending(At(sys, pid))|
    requires var ws := Pending(At(sys, pid));
      next == Become(sys.(control := Apply(sys.control, ws[0])), pid, At(sys, pid).(ahead := ws[1..]))
    ensures AfterWrites(next, pid, Pending(At(sys, pid))[1..], k) == AfterWrites(sys, pid, Pending(At(sys, pid)), k + 1)
  {
    var ws := Pending(At(sys, pid));
    FirstWriteFirst(sys.control, ws, k);
    assert ws[1..][k..] == ws[k + 1..];
    var p := At(sys, pid).(ahead := ws[k + 1..]);
    assert next.procs[pid := p] == sys.procs[pid := p] && next.procs[pid := Idle] == sys.procs[pid := Idle];
  }

  /** What a promotion does before its first write. */
  function Checks(pid: Pid, a: Args): seq<Label> {
    [ReadCandidate(pid, a), ReadRollback(pid), LockPromote(pid)]
  }

  function AttemptLabels(pid: Pid, a: Args, k: nat): seq<Label> {
    Checks(pid, a) + WriteLabels(pid, k) + [Die(pid)]
  }

  /** A promotion that nothing interleaves with, and that dies after `k` writes, is one attempt. */
  lemma UndisturbedAttempt(sys: System, pid: Pid, a: Args, k: nat)
    requires sys.holder == None && At(sys, pid).Idle? && Accepted(sys.control, a)
    requires forall v :: v in RollbackValues(sys.control, a) ==> v in sys.control.markers
    requires k <= |Missing(sys.control, a, RollbackValues(sys.control, a))|
    ensures Run(sys, AttemptLabels(pid, a, k)) == Become(sys.(control := Attempt(sys.control, a, k)), pid, Idle)
  {
    hide Missing, Attempt, Admit, Run, ApplyAll, Take, Checks, WriteLabels, Step, RollbackReadable, RollbackValues;
    var ws := Missing(sys.control, a, RollbackValues(sys.control, a));
    var locked := Become(sys, pid, Promoting(a, ws)).(holder := Some(pid));
    ReadsRun(sys, pid, a);
    AttemptIsAPrefix(sys.control, a, k);
    WritesThenDeath(locked, pid, k);
    RunThree(sys, Checks(pid, a), WriteLabels(pid, k), [Die(pid)]);
    assert locked.procs[pid := Idle] == sys.procs[pid := Idle];
  }

  lemma RunThree(sys: System, xs: seq<Label>, ys: seq<Label>, zs: seq<Label>)
    ensures Run(sys, xs + ys + zs) == Run(Run(Run(sys, xs), ys), zs)
  {
    hide Run;
    RunSplit(sys, xs + ys, zs);
    RunSplit(sys, xs, ys);
  }

  lemma WritesThenDeath(sys: System, pid: Pid, k: nat)
    requires sys.holder == Some(pid) && 0 < |Pending(At(sys, pid))| && k <= |Pending(At(sys, pid))|
    ensures Run(Run(sys, WriteLabels(pid, k)), [Die(pid)])
         == Become(sys.(control := ApplyAll(sys.control, Take(Pending(At(sys, pid)), k)), holder := None), pid, Idle)
  {
    WritesRun(sys, pid, k);
    OneLabel(Run(sys, WriteLabels(pid, k)), Die(pid));
    hide Run;
    DeathAfterWrites(sys, pid, k);
  }

  lemma MovedTwice(procs: map<Pid, Proc>, pid: Pid, p: Proc, q: Proc)
    ensures procs[pid := p][pid := q] == procs[pid := q]
  {
  }

  lemma DeathAfterWrites(sys: System, pid: Pid, k: nat)
    requires sys.holder == Some(pid) && 0 < |Pending(At(sys, pid))| && k <= |Pending(At(sys, pid))|
    ensures Step(AfterWrites(sys, pid, Pending(At(sys, pid)), k), Die(pid))
         == Become(sys.(control := ApplyAll(sys.control, Take(Pending(At(sys, pid)), k)), holder := None), pid, Idle)
  {
    hide ApplyAll, Take;
    var ws := Pending(At(sys, pid));
    MovedTwice(sys.procs, pid, At(sys, pid).(ahead := ws[k..]), Idle);
    MovedTwice(sys.procs, pid, Idle, Idle);
  }

  lemma ReadsRun(sys: System, pid: Pid, a: Args)
    requires sys.holder == None && At(sys, pid).Idle? && Accepted(sys.control, a)
    requires forall v :: v in RollbackValues(sys.control, a) ==> v in sys.control.markers
    ensures Missing(sys.control, a, RollbackValues(sys.control, a)) != []
    ensures Run(sys, Checks(pid, a))
         == Become(sys, pid, Promoting(a, Missing(sys.control, a, RollbackValues(sys.control, a)))).(holder := Some(pid))
  {
    var seen := sys.control.markers[a.candidate];
    var s1 := Step(sys, ReadCandidate(pid, a));
    var s2 := Step(s1, ReadRollback(pid));
    CheckSteps(sys, pid, a);
    LockAfterReads(sys, pid, a, seen);
    hide Missing, RollbackValues, Admit, CandidateReadable, RollbackReadable, Plan, Run;
    SeenTwice(sys, pid, a, seen);
  }

  lemma SeenTwice(sys: System, pid: Pid, a: Args, seen: Marker)
    ensures Become(Become(sys, pid, SawCandidate(a, seen)), pid, SawBoth(a, seen)) == Become(sys, pid, SawBoth(a, seen))
  {
    MovedTwice(sys.procs, pid, SawCandidate(a, seen), SawBoth(a, seen));
  }

  lemma LockAfterReads(sys: System, pid: Pid, a: Args, seen: Marker)
    requires sys.holder == None && Accepted(sys.control, a) && seen == sys.control.markers[a.candidate]
    requires forall v :: v in RollbackValues(sys.control, a) ==> v in sys.control.markers
    ensures Missing(sys.control, a, RollbackValues(sys.control, a)) != []
    ensures Step(Become(sys, pid, SawBoth(a, seen)), LockPromote(pid))
         == Become(sys, pid, Promoting(a, Missing(sys.control, a, RollbackValues(sys.control, a)))).(holder := Some(pid))
  {
    AcceptedPlan(sys.control, a);
    hide Accepted, Admit, Plan, Missing, RollbackValues, Step;
    LockTaken(sys, pid, a, seen);
  }

  lemma AcceptedPlan(c: Control, a: Args)
    requires Accepted(c, a) && forall v :: v in RollbackValues(c, a) ==> v in c.markers
    ensures Admit(c, a) == Ok(RollbackValues(c, a)) && Missing(c, a, RollbackValues(c, a)) != []
    ensures Missing(c, a, RollbackValues(c, a)) == Plan(c, a, c.markers[a.candidate], RollbackValues(c, a))
  {
    hide RollbackValues;
  }

  lemma LockTaken(sys: System, pid: Pid, a: Args, seen: Marker)
    requires sys.holder == None && Admit(sys.control, a).Ok?
    requires forall v :: v in Admit(sys.control, a).value ==> v in sys.control.markers
    ensures Step(Become(sys, pid, SawBoth(a, seen)), LockPromote(pid))
         == Become(sys, pid, Promoting(a, Plan(sys.control, a, seen, Admit(sys.control, a).value))).(holder := Some(pid))
  {
    hide Admit, Plan;
    MovedTwice(sys.procs, pid, SawBoth(a, seen), Promoting(a, Plan(sys.control, a, seen, Admit(sys.control, a).value)));
  }

  lemma CheckSteps(sys: System, pid: Pid, a: Args)
    ensures Run(sys, Checks(pid, a))
         == Step(Step(Step(sys, ReadCandidate(pid, a)), ReadRollback(pid)), LockPromote(pid))
  {
    hide Step;
    var labels := Checks(pid, a);
    assert labels[1..] == [ReadRollback(pid), LockPromote(pid)] && labels[1..][1..] == [LockPromote(pid)];
    OneLabel(Step(Step(sys, labels[0]), labels[1]), LockPromote(pid));
  }

  lemma OneLabel(sys: System, l: Label)
    ensures Run(sys, [l]) == Step(sys, l)
  {
    assert [l][1..] == [];
  }

  lemma {:induction false} RunSplit(sys: System, xs: seq<Label>, ys: seq<Label>)
    ensures Run(sys, xs + ys) == Run(Run(sys, xs), ys)
    decreases |xs|
  {
    if xs == [] {
      assert xs + ys == ys;
    } else {
      assert (xs + ys)[1..] == xs[1..] + ys;
      RunSplit(Step(sys, xs[0]), xs[1..], ys);
    }
  }

  /** A staging that nothing interleaves with. */
  lemma UndisturbedStage(sys: System, pid: Pid, path: Path, commit: string)
    requires sys.holder == None && At(sys, pid).Idle? && path !in sys.control.roots
    ensures Run(sys, StageLabels(pid, path, commit))
         == Become(sys.(control := Staged(sys.control, path, commit)), pid, Idle)
  {
    var locked := Step(sys, LockStage(pid, path, commit));
    var plan := StagePlan(sys.control, path, commit);
    RunSplit(sys, [LockStage(pid, path, commit)], WriteLabels(pid, 4));
    OneLabel(sys, LockStage(pid, path, commit));
    WritesRun(locked, pid, 4);
    assert Take(plan, 4) == plan;
    StageEnds(sys.control, path, commit);
    assert locked.procs[pid := Idle] == sys.procs[pid := Idle];
  }

  function StageLabels(pid: Pid, path: Path, commit: string): seq<Label> {
    [LockStage(pid, path, commit)] + WriteLabels(pid, 4)
  }

  /** The files after a complete staging. */
  function Staged(c: Control, path: Path, commit: string): Control {
    c.(roots := c.roots + {path}, intact := c.intact + {path},
       markers := c.markers[path := Marker(commit, Candidate)], meta := StagedMetadata(c.meta, path))
  }

  lemma StageEnds(c: Control, path: Path, commit: string)
    ensures ApplyAll(c, StagePlan(c, path, commit)) == Staged(c, path, commit)
  {
    var plan := StagePlan(c, path, commit);
    var c1 := Apply(c, plan[0]);
    var c2 := Apply(c1, plan[1]);
    var c3 := Apply(c2, plan[2]);
    assert ApplyAll(c, plan) == ApplyAll(c1, plan[1..]);
    assert plan[1..] == [plan[1], plan[2], plan[3]];
    assert [plan[1], plan[2], plan[3]][1..] == [plan[2], plan[3]] && [plan[2], plan[3]][1..] == [plan[3]] && [plan[3]][1..] == [];
    assert ApplyAll(c1, [plan[1], plan[2], plan[3]]) == ApplyAll(c2, [plan[2], plan[3]]);
    assert ApplyAll(c2, [plan[2], plan[3]]) == ApplyAll(c3, [plan[3]]);
    assert ApplyAll(c3, [plan[3]]) == Apply(c3, plan[3]);
  }

  /** Staging when `KeepsHalf` fails is what loses one: the second listed candidate, half promoted,
      is pushed off, and the files are wedged if its promotion had already moved the link. */
  lemma EvictionLoses(sys: System, pid: Pid, path: Path, commit: string)
    requires Consistent(sys) && sys.holder == None && At(sys, pid).Idle?
    requires path !in sys.control.roots && !KeepsHalf(sys.control)
    ensures var h := sys.control.meta.candidates[1];
      var later := Run(sys, StageLabels(pid, path, commit));
      && Half(sys.control, h) && Lost(later, h)
      && (sys.control.link == Some(h) ==> Wedged(later, h))
  {
    var c := sys.control;
    var h := c.meta.candidates[1];
    assert h in c.meta.candidates;
    UndisturbedStage(sys, pid, path, commit);
    assert forall q: Pid :: Pending(At(sys, q)) == [];
    var later := Run(sys, StageLabels(pid, path, commit));
    assert forall q: Pid :: At(later, q) == if q == pid then Idle else At(sys, q);
    assert Without(c.meta.candidates, path) == c.meta.candidates;
    assert StagedMetadata(c.meta, path).candidates == [path, c.meta.candidates[0]];
  }

  // ---------------------------------------------------------------- a run that ends there

  function HalfArgs(x: Path): Args { Args(x, "1", None) }

  function OneStaged(x: Path): Control {
    Control({x}, {x}, map[x := Marker("1", Candidate)], None, Metadata(None, [], [x]))
  }

  function HalfPromoted(x: Path): Control {
    Control({x}, {x}, map[x := Marker("1", Active)], Some(x), Metadata(None, [], [x]))
  }

  function TwoStaged(x: Path, y: Path): Control {
    Control({x, y}, {x, y}, map[x := Marker("1", Active), y := Marker("2", Candidate)], Some(x), Metadata(None, [], [y, x]))
  }

  function Unlocked(c: Control): System { System(c, None, map[0 := Idle]) }

  lemma HalfMissing(x: Path)
    ensures var c := OneStaged(x);
      && Accepted(c, HalfArgs(x)) && RollbackValues(c, HalfArgs(x)) == []
      && |Missing(c, HalfArgs(x), [])| == 3
      && Missing(c, HalfArgs(x), [])[..2] == [SetMarker(x, Marker("1", Active)), SetLink(x)]
  {
    var c := OneStaged(x);
    assert RollbackSources(c, HalfArgs(x)) == [];
    assert RollbackValues(c, HalfArgs(x)) == [];
  }

  lemma HalfAttempt(x: Path)
    ensures var c := OneStaged(x);
      && Accepted(c, HalfArgs(x)) && RollbackValues(c, HalfArgs(x)) == []
      && |Missing(c, HalfArgs(x), [])| == 3 && Attempt(c, HalfArgs(x), 2) == HalfPromoted(x)
  {
    var c := OneStaged(x);
    var v, w := SetMarker(x, Marker("1", Active)), SetLink(x);
    HalfMissing(x);
    assert Apply(Apply(c, v), w) == HalfPromoted(x);
    hide Missing, RollbackValues, Admit, Attempt, Apply, OneStaged, HalfPromoted, CandidateReadable, RollbackReadable;
    AttemptIsAPrefix(c, HalfArgs(x), 2);
    TwoWrites(c, v, w);
    assert Take(Missing(c, HalfArgs(x), []), 2) == [v, w];
  }

  lemma TwoWrites(c: Control, v: Write, w: Write)
    ensures ApplyAll(c, [v, w]) == Apply(Apply(c, v), w)
  {
    hide Apply;
    assert [v, w][1..] == [w] && [w][1..] == [];
    assert ApplyAll(Apply(c, v), [w]) == Apply(Apply(c, v), w);
  }

  lemma UnlockedStage(c: Control, d: Control, path: Path, commit: string)
    requires path !in c.roots && Staged(c, path, commit) == d
    ensures Run(Unlocked(c), StageLabels(0, path, commit)) == Unlocked(d)
  {
    UndisturbedStage(Unlocked(c), 0, path, commit);
    hide Staged, Run;
  }

  /** A fresh installation stages `x` and dies after the second write of its promotion. */
  lemma HalfPromotion(x: Path)
    ensures Run(Start, StageLabels(0, x, "1") + AttemptLabels(0, HalfArgs(x), 2)) == Unlocked(HalfPromoted(x))
  {
    assert Staged(FreshInstall, x, "1") == OneStaged(x) by {
      assert StagedMetadata(FreshInstall.meta, x).candidates == [x];
    }
    UndisturbedStage(Start, 0, x, "1");
    HalfAttempt(x);
    RunSplit(Start, StageLabels(0, x, "1"), AttemptLabels(0, HalfArgs(x), 2));
    hide Run, Attempt, Missing, RollbackValues, Accepted, Staged, StageLabels, AttemptLabels, OneStaged, HalfPromoted, HalfArgs;
    UndisturbedAttempt(Unlocked(OneStaged(x)), 0, HalfArgs(x), 2);
  }

  lemma SecondStaged(x: Path, y: Path)
    requires x != y
    ensures Staged(HalfPromoted(x), y, "2") == TwoStaged(x, y)
    ensures Consistent(Unlocked(TwoStaged(x, y))) && !KeepsHalf(TwoStaged(x, y))
  {
    assert StagedMetadata(HalfPromoted(x).meta, y).candidates == [y, x];
    assert Half(TwoStaged(x, y), x);
  }

  /** Two more stagings, and no promotion of anything is ever admitted again. */
  lemma EvictionHappens(x: Path, y: Path, z: Path)
    requires x != y && x != z && y != z
    ensures Wedged(Run(Unlocked(HalfPromoted(x)), StageLabels(0, y, "2") + StageLabels(0, z, "3")), x)
  {
    SecondStaged(x, y);
    UnlockedStage(HalfPromoted(x), TwoStaged(x, y), y, "2");
    RunSplit(Unlocked(HalfPromoted(x)), StageLabels(0, y, "2"), StageLabels(0, z, "3"));
    hide Run, Consistent, KeepsHalf, Staged, StageLabels, Wedged, Lost, Half;
    EvictionLoses(Unlocked(TwoStaged(x, y)), 0, z, "3");
  }
}
