/** Any number of retirement calls, reconcilers and restarts at once on one child: every
    interleaving of their steps, with a death possible after each. */
module RetirementRuns {
  import opened Common
  import opened RetirementStore
  import opened RetirementProtocol

  type Pid = nat

  /** `dispatches` counts provider exits sent by anybody; `exited` and `cleaned` are facts about the
      world; `seals` counts successful final seals. */
  datatype System = System(row: Row, exited: bool, cleaned: bool, dispatches: nat, seals: nat, calls: map<Pid, Phase>)

  datatype Label =
    | Enter(pid: Pid)
    | Cross(pid: Pid, event: Event, mode: Mode, evidence: Evidence)
    | Die(pid: Pid)
    | Restart
    | ChildExits

  const Start := System(Unclaimed, false, false, 0, 0, map[])

  function At(sys: System, pid: Pid): Phase {
    if pid in sys.calls then sys.calls[pid] else Initial
  }

  function TokenOf(s: Stage): Option<Token> {
    if s.Holding? || s.Armed? || s.Joined? || s.SawExit? || s.Clean? then Some(s.token) else None
  }

  /** The event's answer is one that the store and the world can give in this state. */
  predicate Truthful(sys: System, s: Stage, e: Event, mode: Mode, evidence: Evidence) {
    match e
    case Claimed(m, g) => m == mode && g == Claim(sys.row, mode, evidence).1
    case Observed(sight) => sight == SeenExited ==> sys.exited
    case ReleasedClaim(ok) => TokenOf(s).Some? && ok == CanRelease(sys.row, TokenOf(s).value)
    case ReservedExit(ok) => TokenOf(s).Some? && ok == CanRelease(sys.row, TokenOf(s).value)
    case CancelledExit(ok) => TokenOf(s).Some? && ok == CanCancel(sys.row, TokenOf(s).value)
    case ReadIntent(found) => TokenOf(s).Some? && found == (sys.row.claim == TokenOf(s) && sys.row.intent)
    case SealedRow(ok) => TokenOf(s).Some? && (ok ==> CanSeal(sys.row, TokenOf(s).value))
    case _ => true
  }

  /** What the event does to the row and the world. */
  function Effect(sys: System, s: Stage, e: Event, mode: Mode, evidence: Evidence): System
    requires Truthful(sys, s, e, mode, evidence)
  {
    match e
    case Claimed(_, _) => sys.(row := Claim(sys.row, mode, evidence).0)
    case ReleasedClaim(_) => sys.(row := Released(sys.row, TokenOf(s).value))
    case ReservedExit(_) => sys.(row := Reserved(sys.row, TokenOf(s).value))
    case CancelledExit(_) => sys.(row := Cancelled(sys.row, TokenOf(s).value))
    case Dispatched(x) => sys.(dispatches := sys.dispatches + 1, exited := sys.exited || x.Terminalized?)
    case CleanedUp(ok) => sys.(cleaned := sys.cleaned || ok)
    case SealedRow(ok) =>
      sys.(row := Sealed(sys.row, TokenOf(s).value, ok), seals := sys.seals + if ok then 1 else 0)
    case _ => sys
  }

  predicate Enabled(sys: System, l: Label) {
    match l
    case Cross(pid, e, mode, evidence) =>
      Advance(At(sys, pid), e).Some? && Truthful(sys, At(sys, pid).stage, e, mode, evidence)
    case _ => true
  }

  function Step(sys: System, l: Label): System {
    match l
    case Enter(pid) => sys.(calls := sys.calls[pid := Initial])
    case Cross(pid, e, mode, evidence) =>
      if Enabled(sys, l) then
        var p := At(sys, pid);
        Effect(sys, p.stage, e, mode, evidence).(calls := sys.calls[pid := Advance(p, e).value])
      else sys
    case Die(pid) => sys.(calls := sys.calls - {pid})
    case Restart => sys.(row := Restarted(sys.row))
    case ChildExits => sys.(exited := true)
  }

  function Run(sys: System, labels: seq<Label>): System
    decreases |labels|
  {
    if labels == [] then sys else Run(Step(sys, labels[0]), labels[1..])
  }

  // ---------------------------------------------------------------- the invariant

  /** What one call's stage promises about the shared facts. */
  ghost predicate StageSound(sys: System, s: Stage) {
    && (s.Armed? ==> sys.row.exitSet && sys.dispatches == 0)
    && (s.SawExitFirst? || s.SawExit? || s.Clean? || s == Ended(SealedByUs) ==> sys.exited)
    && (s.Clean? || s == Ended(SealedByUs) ==> sys.cleaned)
    && (s == Ended(SealedByUs) ==> sys.row.completed)
    && (TokenOf(s).Some? ==> TokenOf(s).value < sys.row.next)
    && (s.Holding? && sys.row.claim == Some(s.token) ==> !sys.row.exitSet)
  }

  /** At most one call is armed, and the token of a call that has reserved nothing is its own. */
  ghost predicate Apart(sys: System) {
    && (forall p: Pid, q: Pid :: At(sys, p).stage.Armed? && At(sys, q).stage.Armed? ==> p == q)
    && (forall p: Pid, q: Pid :: At(sys, p).stage.Holding? && TokenOf(At(sys, q).stage) == TokenOf(At(sys, p).stage) ==> p == q)
  }

  ghost predicate Facts(sys: System) {
    && sys.dispatches <= 1 && (sys.dispatches == 1 ==> sys.row.exitSet)
    && (sys.row.completed ==> sys.exited && sys.cleaned)
    && sys.seals == (if sys.row.completed then 1 else 0)
    && (sys.row.claim.Some? ==> sys.row.claim.value < sys.row.next)
    && (sys.row.claim.Some? || sys.row.exitSet || sys.row.completed ==> sys.row.intent)
  }

  ghost predicate Sound(sys: System) {
    (forall pid: Pid :: StageSound(sys, At(sys, pid).stage)) && Apart(sys) && Facts(sys)
  }

  lemma StartSound()
    ensures Sound(Start)
  {
  }

  /** What a claim leaves of the row: a granted token is the row's, and a fresh one unless the exit is
      reserved. */
  lemma ClaimFacts(r: Row, mode: Mode, e: Evidence)
    requires (r.claim.Some? ==> r.claim.value < r.next) && (r.claim.Some? || r.exitSet ==> r.intent)
    ensures var (n, g) := Claim(r, mode, e);
      && n.completed == r.completed && (r.exitSet ==> n.exitSet) && r.next <= n.next
      && (g.Granted? ==> n.claim == Some(g.token) && n.intent && g.token < n.next && g.exitReserved == n.exitSet)
      && (g.Granted? && !g.exitReserved ==> g.token == r.next)
      && (!g.Granted? ==> n == r)
      && (n.claim != r.claim ==> n.claim == Some(r.next))
      && (r.claim.Some? && !r.exitSet ==> n == r)
      && (n.claim.Some? ==> n.claim.value < n.next)
      && (g.Granted? && n.exitSet && !r.exitSet ==> n.claim == Some(r.next))
  {
  }

  /** Granting a claim. */
  lemma ClaimSound(sys: System, pid: Pid, e: Event, mode: Mode, evidence: Evidence)
    requires Sound(sys) && Enabled(sys, Cross(pid, e, mode, evidence))
    requires e.Claimed?
    ensures Sound(Step(sys, Cross(pid, e, mode, evidence)))
  {
    var next := Step(sys, Cross(pid, e, mode, evidence));
    var s, s2 := At(sys, pid).stage, At(next, pid).stage;
    ClaimFacts(sys.row, mode, evidence);
    assert StageSound(sys, s);
    assert next == sys.(row := Claim(sys.row, mode, evidence).0, calls := next.calls);
    assert s == Fresh || s == SawExitFirst;
    assert e.grant.Granted? ==> s2 == if s == SawExitFirst then SawExit(e.grant.token)
      else if e.grant.exitReserved then Joined(e.grant.token) else Holding(e.grant.token);
    assert !e.grant.Granted? ==> s2 in {Ended(NothingClaimed), Ended(FoundRetired)};
    assert forall q: Pid :: q != pid ==> At(next, q) == At(sys, q);
    hide Step, Advance, Truthful, Claim;
    assert Facts(next);
    forall q: Pid ensures StageSound(next, At(next, q).stage) {
      assert StageSound(sys, At(sys, q).stage);
    }
    ClaimApart(sys, next, pid);
  }

  /** The claimer's token is its own, or it arms nothing. */
  lemma ClaimApart(sys: System, next: System, pid: Pid)
    requires Apart(sys) && forall q: Pid :: q != pid ==> At(next, q) == At(sys, q)
    requires !At(next, pid).stage.Armed?
    requires forall q: Pid :: TokenOf(At(sys, q).stage).Some? ==> TokenOf(At(sys, q).stage).value < sys.row.next
    requires At(next, pid).stage.Holding? ==> At(next, pid).stage.token == sys.row.next
    requires forall q: Pid :: q != pid && At(sys, q).stage.Holding? ==> TokenOf(At(next, pid).stage) != TokenOf(At(sys, q).stage)
    ensures Apart(next)
  {
  }

  /** Reserving the exit. */
  lemma ReserveSound(sys: System, pid: Pid, e: Event, mode: Mode, evidence: Evidence)
    requires Sound(sys) && Enabled(sys, Cross(pid, e, mode, evidence))
    requires e.ReservedExit?
    ensures Sound(Step(sys, Cross(pid, e, mode, evidence)))
  {
    var next := Step(sys, Cross(pid, e, mode, evidence));
    assert StageSound(sys, At(sys, pid).stage);
    assert Facts(next);
    forall q: Pid ensures StageSound(next, At(next, q).stage) {
      assert StageSound(sys, At(sys, q).stage);
    }
    assert forall q: Pid :: q != pid ==> At(next, q) == At(sys, q);
    hide Facts, Truthful;
    assert Apart(next);
  }

  /** Releasing or cancelling. */
  lemma GiveBackSound(sys: System, pid: Pid, e: Event, mode: Mode, evidence: Evidence)
    requires Sound(sys) && Enabled(sys, Cross(pid, e, mode, evidence))
    requires e.ReleasedClaim? || e.CancelledExit?
    ensures Sound(Step(sys, Cross(pid, e, mode, evidence)))
  {
    var next := Step(sys, Cross(pid, e, mode, evidence));
    assert StageSound(sys, At(sys, pid).stage);
    assert Facts(next);
    forall q: Pid ensures StageSound(next, At(next, q).stage) {
      assert StageSound(sys, At(sys, q).stage);
    }
    assert forall q: Pid :: q != pid ==> At(next, q) == At(sys, q);
    hide Facts, Truthful;
    assert Apart(next);
  }

  /** Sealing. */
  lemma SealSound(sys: System, pid: Pid, e: Event, mode: Mode, evidence: Evidence)
    requires Sound(sys) && Enabled(sys, Cross(pid, e, mode, evidence))
    requires e.SealedRow?
    ensures Sound(Step(sys, Cross(pid, e, mode, evidence)))
  {
    var next := Step(sys, Cross(pid, e, mode, evidence));
    assert StageSound(sys, At(sys, pid).stage);
    assert Facts(next);
    forall q: Pid ensures StageSound(next, At(next, q).stage) {
      assert StageSound(sys, At(sys, q).stage);
    }
    assert forall q: Pid :: q != pid ==> At(next, q) == At(sys, q);
    hide Facts, Truthful;
    assert Apart(next);
  }

  /** The provider and the worktree. */
  lemma WorldSound(sys: System, pid: Pid, e: Event, mode: Mode, evidence: Evidence)
    requires Sound(sys) && Enabled(sys, Cross(pid, e, mode, evidence))
    requires e.Dispatched? || e.CleanedUp? || e.Observed?
    ensures Sound(Step(sys, Cross(pid, e, mode, evidence)))
  {
    var next := Step(sys, Cross(pid, e, mode, evidence));
    assert StageSound(sys, At(sys, pid).stage);
    assert Facts(next);
    assert next.row == sys.row && (sys.exited ==> next.exited) && (sys.cleaned ==> next.cleaned);
    assert StageSound(next, At(next, pid).stage);
    assert forall q: Pid :: q != pid ==> At(next, q) == At(sys, q);
    hide Facts, Truthful, Step;
    forall q: Pid ensures StageSound(next, At(next, q).stage) {
      assert StageSound(sys, At(sys, q).stage);
    }
    assert Apart(next);
  }

  /** Steps that touch nothing shared. */
  lemma InnerSound(sys: System, pid: Pid, e: Event, mode: Mode, evidence: Evidence)
    requires Sound(sys) && Enabled(sys, Cross(pid, e, mode, evidence))
    requires !e.Claimed? && !e.ReservedExit? && !e.ReleasedClaim? && !e.CancelledExit? && !e.SealedRow? && !e.Dispatched? && !e.CleanedUp? && !e.Observed?
    ensures Sound(Step(sys, Cross(pid, e, mode, evidence)))
  {
    var next := Step(sys, Cross(pid, e, mode, evidence));
    var s, s2 := At(sys, pid).stage, At(next, pid).stage;
    assert StageSound(sys, s);
    assert next == sys.(calls := next.calls);
    assert s2 == s || (s2.Ended? && s2 != Ended(SealedByUs));
    assert forall q: Pid :: q != pid ==> At(next, q) == At(sys, q);
    hide Step, Advance, Truthful, Facts;
    forall q: Pid ensures StageSound(next, At(next, q).stage) {
      assert StageSound(sys, At(sys, q).stage);
    }
    assert Apart(next);
  }

  lemma CrossSound(sys: System, pid: Pid, e: Event, mode: Mode, evidence: Evidence)
    requires Sound(sys) && Enabled(sys, Cross(pid, e, mode, evidence))
    ensures Sound(Step(sys, Cross(pid, e, mode, evidence)))
  {
    hide Sound, Enabled, Step;
    match e {
      case Claimed(_, _) => ClaimSound(sys, pid, e, mode, evidence);
      case ReservedExit(_) => ReserveSound(sys, pid, e, mode, evidence);
      case ReleasedClaim(_) => GiveBackSound(sys, pid, e, mode, evidence);
      case CancelledExit(_) => GiveBackSound(sys, pid, e, mode, evidence);
      case SealedRow(_) => SealSound(sys, pid, e, mode, evidence);
      case Dispatched(_) => WorldSound(sys, pid, e, mode, evidence);
      case CleanedUp(_) => WorldSound(sys, pid, e, mode, evidence);
      case Observed(_) => WorldSound(sys, pid, e, mode, evidence);
      case _ => InnerSound(sys, pid, e, mode, evidence);
    }
  }

  lemma SoundStep(sys: System, l: Label)
    requires Sound(sys)
    ensures Sound(Step(sys, l))
  {
    if l.Cross? {
      if Enabled(sys, l) { CrossSound(sys, l.pid, l.event, l.mode, l.evidence); }
    } else {
      var next := Step(sys, l);
      assert forall q: Pid :: StageSound(sys, At(sys, q).stage);
      assert forall q: Pid :: At(next, q) == At(sys, q) || At(next, q) == Initial;
    }
  }

  lemma {:induction false} SoundAlways(sys: System, labels: seq<Label>)
    requires Sound(sys)
    ensures Sound(Run(sys, labels))
    decreases |labels|
  {
    if labels != [] {
      SoundStep(sys, labels[0]);
      SoundAlways(Step(sys, labels[0]), labels[1..]);
    }
  }

  // ---------------------------------------------------------------- each process is one call

  function EventsAfter(sys: System, l: Label, pid: Pid, before: seq<Event>): seq<Event> {
    if (l.Enter? || l.Die?) && l.pid == pid then []
    else if l.Cross? && l.pid == pid && Enabled(sys, l) then before + [l.event]
    else before
  }

  /** The events `pid` has crossed since it last entered, on top of `before`. */
  function EventsOf(sys: System, labels: seq<Label>, pid: Pid, before: seq<Event>): seq<Event>
    decreases |labels|
  {
    if labels == [] then before
    else EventsOf(Step(sys, labels[0]), labels[1..], pid, EventsAfter(sys, labels[0], pid, before))
  }

  lemma WalkStep(sys: System, l: Label, pid: Pid, before: seq<Event>)
    requires Walk(before) == Some(At(sys, pid))
    ensures Walk(EventsAfter(sys, l, pid, before)) == Some(At(Step(sys, l), pid))
  {
    if l.Cross? && l.pid == pid && Enabled(sys, l) {
      WalkSnoc(before, l.event);
    }
  }

  /** Whatever the others do, the events of one process form a trace the protocol allows: what holds
      of every trace of a call holds of every process in every run. */
  lemma {:induction false} ProcessesFollowTheProtocol(sys: System, labels: seq<Label>, pid: Pid, before: seq<Event>)
    requires Walk(before) == Some(At(sys, pid))
    ensures Walk(EventsOf(sys, labels, pid, before)) == Some(At(Run(sys, labels), pid))
    decreases |labels|
  {
    if labels != [] {
      WalkStep(sys, labels[0], pid, before);
      hide Walk, Step, EventsAfter, At;
      ProcessesFollowTheProtocol(Step(sys, labels[0]), labels[1..], pid, EventsAfter(sys, labels[0], pid, before));
    }
  }

  // ---------------------------------------------------------------- what it gives

  /** Over every run of every number of calls, crashes and restarts, the provider's exit is sent at
      most once, and the final seal is set at most once, after the child exited and its worktree
      was cleaned up. */
  lemma AtMostOneExit(labels: seq<Label>)
    ensures Run(Start, labels).dispatches <= 1 && Run(Start, labels).seals <= 1
    ensures Run(Start, labels).row.completed ==> Run(Start, labels).exited && Run(Start, labels).cleaned
  {
    StartSound();
    SoundAlways(Start, labels);
  }

  /** A reservation that is cancelled at the runtime fence was never dispatched, by anybody, and
      the row is open to a new claim again. */
  lemma CancelledNeverDispatched(labels: seq<Label>, pid: Pid, mode: Mode, evidence: Evidence)
    requires Enabled(Run(Start, labels), Cross(pid, CancelledExit(true), mode, evidence))
    ensures var next := Step(Run(Start, labels), Cross(pid, CancelledExit(true), mode, evidence));
      next.dispatches == 0 && next.row.claim == None && !next.row.exitSet && !next.row.completed
  {
    StartSound();
    SoundAlways(Start, labels);
    assert StageSound(Run(Start, labels), At(Run(Start, labels), pid).stage);
  }

  /** Until its exit is reserved, a claim has one live holder: nobody else can release, reserve or
      seal with its token. */
  lemma UnreservedClaimIsExclusive(labels: seq<Label>, p: Pid, q: Pid)
    requires At(Run(Start, labels), p).stage.Holding? && p != q
    ensures TokenOf(At(Run(Start, labels), q).stage) != TokenOf(At(Run(Start, labels), p).stage)
  {
    StartSound();
    SoundAlways(Start, labels);
  }

  /** A sealed row stays sealed, and every later claim of it finds the child already retired. */
  lemma {:induction false} SealedForever(sys: System, labels: seq<Label>, mode: Mode, evidence: Evidence)
    requires sys.row.completed
    ensures Run(sys, labels).row.completed
    ensures !Claim(Run(sys, labels).row, mode, evidence).1.Granted?
    decreases |labels|
  {
    if labels != [] {
      SealedForever(Step(sys, labels[0]), labels[1..], mode, evidence);
    }
  }

  const AllEvidence := Evidence(true, true, true, true)

  function Recovering(pid: Pid, e: Event): Label { Cross(pid, e, RequireExited, AllEvidence) }

  /** The steps of a reconciler that finds the child exited and is not disturbed. */
  function Reconciliation(pid: Pid, t: Token): seq<Label> {
    [Recovering(pid, Observed(SeenExited)), Recovering(pid, Claimed(RequireExited, Granted(t, true, false))),
     Recovering(pid, ReadIntent(true)), Recovering(pid, CleanedUp(true)), Recovering(pid, SealedRow(true))]
  }

  /** Nothing is wedged: from any state any run can reach, once the child has exited, a restart and
      one undisturbed reconciliation seal the retirement without sending another exit. */
  lemma ExitedChildCanBeSealed(labels: seq<Label>, pid: Pid)
    requires Run(Start, labels).exited && !Run(Start, labels).row.completed
    ensures exists t ::
      var sys := Run(Run(Start, labels), [Restart, Enter(pid)] + Reconciliation(pid, t));
      sys.row.completed && sys.dispatches == Run(Start, labels).dispatches
  {
    StartSound();
    SoundAlways(Start, labels);
    var sys := Run(Start, labels);
    var s1 := Step(Step(sys, Restart), Enter(pid));
    SoundStep(sys, Restart);
    SoundStep(Step(sys, Restart), Enter(pid));
    ClaimAfterRestart(sys.row);
    var t := Claim(s1.row, RequireExited, AllEvidence).1.token;
    FiveSteps(s1, pid, t);
    RunTwo(sys, Restart, Enter(pid), Reconciliation(pid, t));
    hide Sound, Claim, Run, Step, Reconciliation;
    assert Run(sys, [Restart, Enter(pid)] + Reconciliation(pid, t)) == Run(s1, Reconciliation(pid, t));
  }

  lemma RunTwo(sys: System, a: Label, b: Label, rest: seq<Label>)
    ensures Run(sys, [a, b] + rest) == Run(Step(Step(sys, a), b), rest)
  {
    hide Step;
    var ls := [a, b] + rest;
    assert ls[1..] == [b] + rest && ls[1..][1..] == rest;
    assert Run(sys, ls) == Run(Step(sys, a), ls[1..]);
    assert Run(Step(sys, a), ls[1..]) == Run(Step(Step(sys, a), b), ls[1..][1..]);
  }

  lemma ClaimAfterRestart(r: Row)
    requires !r.completed
    ensures var g := Claim(Restarted(r), RequireExited, AllEvidence).1;
      g.Granted? && g == Granted(g.token, true, false)
  {
  }

  lemma FiveSteps(sys: System, pid: Pid, t: Token)
    requires Sound(sys) && sys.exited && !sys.row.completed && At(sys, pid) == Initial
    requires Claim(sys.row, RequireExited, AllEvidence).1 == Granted(t, true, false)
    ensures var end := Run(sys, Reconciliation(pid, t));
      end.row.completed && end.dispatches == sys.dispatches
  {
    var ls := Reconciliation(pid, t);
    RunFive(sys, ls);
    FirstTwoSteps(sys, pid, t);
    hide Step, Run, Sound, Claim, CanSeal;
    assert ls[0] == Recovering(pid, Observed(SeenExited)) && ls[1] == Recovering(pid, Claimed(RequireExited, Granted(t, true, false)));
    assert ls[2] == Recovering(pid, ReadIntent(true)) && ls[3] == Recovering(pid, CleanedUp(true));
    assert ls[4] == Recovering(pid, SealedRow(true));
    LastThreeSteps(Step(Step(sys, ls[0]), ls[1]), pid, t);
  }

  lemma FirstTwoSteps(sys: System, pid: Pid, t: Token)
    requires Sound(sys) && sys.exited && !sys.row.completed && At(sys, pid) == Initial
    requires Claim(sys.row, RequireExited, AllEvidence).1 == Granted(t, true, false)
    ensures var s2 := Step(Step(sys, Recovering(pid, Observed(SeenExited))), Recovering(pid, Claimed(RequireExited, Granted(t, true, false))));
      && At(s2, pid) == Phase(SawExit(t), NoEffect, false)
      && CanSeal(s2.row, t) && s2.dispatches == sys.dispatches
  {
    var s1 := Step(sys, Recovering(pid, Observed(SeenExited)));
    assert At(s1, pid) == Phase(SawExitFirst, NoEffect, false) && s1.row == sys.row;
  }

  lemma LastThreeSteps(sys: System, pid: Pid, t: Token)
    requires At(sys, pid) == Phase(SawExit(t), NoEffect, false) && CanSeal(sys.row, t)
    ensures var end := Step(Step(Step(sys, Recovering(pid, ReadIntent(true))), Recovering(pid, CleanedUp(true))),
                            Recovering(pid, SealedRow(true)));
      end.row.completed && end.dispatches == sys.dispatches
  {
    var s1 := Step(sys, Recovering(pid, ReadIntent(true)));
    assert At(s1, pid) == At(sys, pid) && s1.row == sys.row;
    var s2 := Step(s1, Recovering(pid, CleanedUp(true)));
    assert At(s2, pid) == Phase(Clean(t), NoEffect, false) && s2.row == sys.row;
  }

  lemma RunFive(sys: System, ls: seq<Label>)
    requires |ls| == 5
    ensures Run(sys, ls) == Step(Step(Step(Step(Step(sys, ls[0]), ls[1]), ls[2]), ls[3]), ls[4])
  {
    hide Step;
    assert ls[1..][0] == ls[1] && ls[2..][0] == ls[2] && ls[3..][0] == ls[3] && ls[4..][0] == ls[4];
    assert ls[1..][1..] == ls[2..] && ls[2..][1..] == ls[3..] && ls[3..][1..] == ls[4..] && ls[4..][1..] == [];
    var s1 := Step(sys, ls[0]);
    var s2 := Step(s1, ls[1]);
    var s3 := Step(s2, ls[2]);
    var s4 := Step(s3, ls[3]);
    assert Run(sys, ls) == Run(s1, ls[1..]);
    assert Run(s1, ls[1..]) == Run(s2, ls[2..]);
    assert Run(s2, ls[2..]) == Run(s3, ls[3..]);
    assert Run(s3, ls[3..]) == Run(s4, ls[4..]);
    assert Run(s4, ls[4..]) == Run(Step(s4, ls[4]), []);
  }
}
