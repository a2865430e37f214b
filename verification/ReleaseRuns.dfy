/** Any number of promotion and staging processes sharing the control files: every interleaving
    of their reads before the lock, lock attempts, single writes and deaths. */
module ReleaseRuns {
  import opened Common
  import opened Releases

  type Pid = nat

  datatype Proc =
    | Idle
    | SawCandidate(a: Args, seen: Marker)
    | SawBoth(a: Args, seen: Marker)
    | Promoting(a: Args, ahead: seq<Write>)
    | Staging(path: Path, ahead: seq<Write>)

  datatype System = System(control: Control, holder: Option<Pid>, procs: map<Pid, Proc>)

  datatype Label =
    | ReadCandidate(pid: Pid, a: Args)
    | ReadRollback(pid: Pid)
    | LockPromote(pid: Pid)
    | LockStage(pid: Pid, path: Path, commit: string)
    | WriteNext(pid: Pid)
    | FailStage(pid: Pid)
    | Die(pid: Pid)

  const Start := System(FreshInstall, None, map[])

  function At(sys: System, pid: Pid): Proc {
    if pid in sys.procs then sys.procs[pid] else Idle
  }

  function Become(sys: System, pid: Pid, p: Proc): System {
    sys.(procs := sys.procs[pid := p])
  }

  /** A staging whose directory is made and whose marker is not written yet can still fail. */
  predicate CanFail(p: Proc) { p.Staging? && 2 <= |p.ahead| <= 3 }

  /** The lock is requested without waiting, and released when the process ends. */
  function Step(sys: System, l: Label): System {
    match l
    case ReadCandidate(pid, a) =>
      if At(sys, pid).Idle? && CandidateReadable(sys.control, a)
      then Become(sys, pid, SawCandidate(a, sys.control.markers[a.candidate])) else sys
    case ReadRollback(pid) =>
      (match At(sys, pid)
       case SawCandidate(a, seen) =>
         Become(sys, pid, if RollbackReadable(sys.control, a) then SawBoth(a, seen) else Idle)
       case _ => sys)
    case LockPromote(pid) =>
      (match At(sys, pid)
       case SawBoth(a, seen) =>
         if sys.holder == None && Admit(sys.control, a).Ok? then
           var plan := Plan(sys.control, a, seen, Admit(sys.control, a).value);
           Become(sys, pid, Promoting(a, plan)).(holder := Some(pid))
         else Become(sys, pid, Idle)
       case _ => sys)
    case LockStage(pid, path, commit) =>
      if At(sys, pid).Idle? && sys.holder == None && path !in sys.control.roots
      then Become(sys, pid, Staging(path, StagePlan(sys.control, path, commit))).(holder := Some(pid)) else sys
    case WriteNext(pid) =>
      if sys.holder == Some(pid) && Pending(At(sys, pid)) != [] then
        var ahead := Pending(At(sys, pid));
        var after := sys.(control := Apply(sys.control, ahead[0]));
        if |ahead| == 1 then Become(after, pid, Idle).(holder := None)
        else Become(after, pid, At(sys, pid).(ahead := ahead[1..]))
      else sys
    case FailStage(pid) =>
      if sys.holder == Some(pid) && CanFail(At(sys, pid))
      then Become(sys.(control := Removed(sys.control, At(sys, pid).path)), pid, Idle).(holder := None) else sys
    case Die(pid) =>
      Become(sys, pid, Idle).(holder := if sys.holder == Some(pid) then None else sys.holder)
  }

  function Pending(p: Proc): seq<Write> {
    if p.Promoting? || p.Staging? then p.ahead else []
  }

  function Run(sys: System, labels: seq<Label>): System
    decreases |labels|
  {
    if labels == [] then sys else Run(Step(sys, labels[0]), labels[1..])
  }

  // ---------------------------------------------------------------- with no assumption at all

  ghost predicate LinkSafe(c: Control) {
    c.link.Some? ==> c.link.value in c.markers && c.markers[c.link.value].stage != Candidate
  }

  /** What each process may still do to the files, whatever the metadata says. */
  ghost predicate ProcSafe(c: Control, p: Proc) {
    match p
    case Idle => true
    case SawCandidate(a, seen) => SeenSafe(c, a, seen)
    case SawBoth(a, seen) => SeenSafe(c, a, seen)
    case Promoting(a, ahead) =>
      && a.candidate in c.markers
      && (c.markers[a.candidate].stage != Candidate
          || (ahead != [] && ahead[0].SetMarker? && ahead[0].path == a.candidate))
      && (forall w :: w in ahead ==>
            || w.SetMeta? || w == SetLink(a.candidate)
            || (w.SetMarker? && w.path in c.markers && w.marker.stage != Candidate
                && w.marker.commit == c.markers[w.path].commit))
    case Staging(path, ahead) => StageAhead(c, path, ahead)
  }

  /** The tail of a staging plan that is still to be written. */
  ghost predicate StageAhead(c: Control, path: Path, ahead: seq<Write>) {
    var n := |ahead|;
    && n <= 4
    && (n >= 1 ==> ahead[n - 1].SetMeta?)
    && (n >= 2 ==> ahead[n - 2].SetMarker? && ahead[n - 2].path == path && ahead[n - 2].marker.stage == Candidate)
    && (n >= 2 ==> path !in c.markers)
    && (n >= 3 ==> ahead[n - 3] == SealRoot(path))
    && (n == 4 ==> ahead[0] == MakeRoot(path) && path !in c.roots)
    && (1 <= n < 4 ==> path in c.roots)
  }

  ghost predicate SeenSafe(c: Control, a: Args, seen: Marker) {
    && a.candidate in c.markers
    && (seen.stage == Active ==> c.markers[a.candidate].stage != Candidate)
    && seen.stage != Rollback
    && seen.commit == a.commit == c.markers[a.candidate].commit
  }

  ghost predicate Safe(sys: System) {
    && sys.control.markers.Keys <= sys.control.roots
    && LinkSafe(sys.control)
    && (forall pid: Pid :: ProcSafe(sys.control, At(sys, pid)))
    && (forall pid: Pid :: Pending(At(sys, pid)) != [] ==> sys.holder == Some(pid))
  }

  /** Files change only forward for a bystander: markers stay, and never turn back to `candidate`. */
  ghost predicate NoneBackToCandidate(c: Control, d: Control) {
    && (forall p :: p in c.markers ==>
          && p in d.markers && d.markers[p].commit == c.markers[p].commit
          && (c.markers[p].stage != Candidate ==> d.markers[p].stage != Candidate))
  }

  lemma BystanderSafe(c: Control, d: Control, p: Proc)
    requires ProcSafe(c, p) && Pending(p) == [] && NoneBackToCandidate(c, d)
    ensures ProcSafe(d, p)
  {
  }

  /** One write by the lock holder. */
  lemma WriteSafe(c: Control, p: Proc)
    requires c.markers.Keys <= c.roots && LinkSafe(c) && ProcSafe(c, p) && Pending(p) != []
    ensures var d := Apply(c, Pending(p)[0]);
      && d.markers.Keys <= d.roots && LinkSafe(d) && NoneBackToCandidate(c, d)
      && ProcSafe(d, p.(ahead := Pending(p)[1..]))
  {
    var w := Pending(p)[0];
    assert w in Pending(p);
    assert forall x :: x in Pending(p)[1..] ==> x in Pending(p);
  }

  lemma {:induction false} DemotionElements(c: Control, values: seq<Path>)
    requires forall v :: v in values ==> v in c.markers
    ensures forall w :: w in Demotions(c, values) ==>
      w.SetMarker? && w.path in values && w.marker == Demoted(c.markers[w.path])
  {
    if values != [] { DemotionElements(c, values[1..]); }
  }

  lemma LockSafe(c: Control, a: Args, seen: Marker)
    requires SeenSafe(c, a, seen) && Admit(c, a).Ok?
    ensures ProcSafe(c, Promoting(a, Plan(c, a, seen, Admit(c, a).value)))
  {
    DemotionElements(c, Take(Admit(c, a).value, 2));
  }

  /** What one step does to the processes: one of them moves, the files change at most by one
      write of the lock holder. */
  lemma SafeAfter(sys: System, next: System, pid: Pid)
    requires Safe(sys)
    requires next.control.markers.Keys <= next.control.roots && LinkSafe(next.control)
    requires NoneBackToCandidate(sys.control, next.control)
    requires ProcSafe(next.control, At(next, pid))
    requires forall q: Pid :: q != pid ==> At(next, q) == At(sys, q)
    requires forall q: Pid :: Pending(At(next, q)) != [] ==> next.holder == Some(q)
    requires next.control == sys.control || sys.holder == Some(pid)
    ensures Safe(next)
  {
    forall q: Pid | q != pid ensures ProcSafe(next.control, At(next, q)) {
      if next.control != sys.control {
        BystanderSafe(sys.control, next.control, At(sys, q));
      }
    }
  }

  lemma FailSafe(c: Control, p: Proc)
    requires c.markers.Keys <= c.roots && LinkSafe(c) && ProcSafe(c, p) && CanFail(p)
    ensures var d := Removed(c, p.path);
      d.markers.Keys <= d.roots && LinkSafe(d) && NoneBackToCandidate(c, d)
  {
    assert p.path !in c.markers;
  }

  lemma SafeStep(sys: System, l: Label)
    requires Safe(sys)
    ensures Safe(Step(sys, l)) && NoneBackToCandidate(sys.control, Step(sys, l).control)
  {
    var next := Step(sys, l);
    if next != sys {
      var p := At(sys, l.pid);
      if l.WriteNext? {
        WriteSafe(sys.control, p);
      } else if l.FailStage? {
        FailSafe(sys.control, p);
      } else if l.LockPromote? && next.holder != sys.holder {
        LockSafe(sys.control, p.a, p.seen);
      }
      hide Admit, Plan, Apply;
      SafeAfter(sys, next, l.pid);
    }
  }

  /** In every state of every run, whatever dies and whatever staging evicts, the active link
      points only to a release whose marker is `active` or `rollback`. */
  lemma {:induction false} LinkNeverCandidate(sys: System, labels: seq<Label>)
    requires Safe(sys)
    ensures Safe(Run(sys, labels)) && LinkSafe(Run(sys, labels).control)
    ensures NoneBackToCandidate(sys.control, Run(sys, labels).control)
    decreases |labels|
  {
    if labels != [] {
      SafeStep(sys, labels[0]);
      LinkNeverCandidate(Step(sys, labels[0]), labels[1..]);
    }
  }

  lemma StartSafe()
    ensures Safe(Start)
  {
  }
}
