/** What one retirement call may do, in what order: an automaton over the boundaries it crosses
    (runtime fences, the claim store, the provider, the worktree, the effect ledger), and what
    every trace of it satisfies. */
module RetirementProtocol {
  import opened Common
  import opened RetirementStore

  /** A read of the child's terminal. */
  datatype Sight = Unavailable | SeenExited | SeenRunning(quiescent: bool) | SeenOther(quiescent: bool)

  datatype ExitOutcome = Terminalized | Unconfirmed | Raised

  datatype Outcome = Completed | Rejected | Indeterminate

  datatype Event =
    | BeginEffect
    | Fence(current: bool)
    | Claimed(mode: Mode, grant: Grant)
    | Observed(sight: Sight)
    | ValidatedCleanup(ok: bool)
    | Revalidated(ok: bool)
    | ReleasedClaim(ok: bool)
    | ReservedExit(ok: bool)
    | CancelledExit(ok: bool)
    | Dispatched(exit: ExitOutcome)
    | ReadIntent(found: bool)
    | CheckedAuthority(ok: bool)
    | CleanedUp(ok: bool)
    | SealedRow(ok: bool)
    | FinishEffect(outcome: Outcome)

  /** Why a call that got the claim ends without releasing or sealing it. */
  datatype Kept =
    | ReleaseRefused | CancelRefused | ReservationUnconfirmed | ExitUnconfirmed | ChildNotExited
    | IntentMissing | AuthorityLost | CleanupFailed | SealRefused

  datatype Ending = NothingClaimed | FoundRetired | LetGo | SealedByUs | Retained(why: Kept)

  /** `Joined` is a call that found the exit already reserved; `SawExit` one that has positive
      evidence that the child is gone. */
  datatype Stage =
    | Fresh
    | SawExitFirst
    | Holding(token: Token)
    | Armed(token: Token)
    | Joined(token: Token)
    | SawExit(token: Token)
    | Clean(token: Token)
    | Ended(ending: Ending)

  datatype EffectPhase = NoEffect | Open | Closed(outcome: Outcome)

  /** `stale`: a runtime fence has failed, so no further boundary may be crossed. */
  datatype Phase = Phase(stage: Stage, effect: EffectPhase, stale: bool)

  const Initial := Phase(Fresh, NoEffect, false)

  function End(p: Phase, e: Ending): Option<Phase> { Some(p.(stage := Ended(e))) }

  function Claiming(p: Phase, g: Grant): Option<Phase> {
    if p.stage != Fresh && p.stage != SawExitFirst then None
    else match g
      case Refused => End(p, NothingClaimed)
      case AlreadyRetired => End(p, FoundRetired)
      case Granted(t, reserved, _) =>
        Some(p.(stage := if p.stage == SawExitFirst then SawExit(t) else if reserved then Joined(t) else Holding(t)))
  }

  function Observing(p: Phase, s: Sight): Option<Phase> {
    match p.stage
    case Fresh => Some(if s == SeenExited then p.(stage := SawExitFirst) else p)
    case Holding(t) => Some(if s == SeenExited then p.(stage := SawExit(t)) else p)
    case Joined(t) => if s == SeenExited then Some(p.(stage := SawExit(t))) else End(p, Retained(ChildNotExited))
    case _ => None
  }

  predicate Releasable(s: Stage) { s.Holding? || s.SawExit? || s.Clean? }

  /** Which outcome may close the effect. */
  predicate Closable(s: Stage, o: Outcome) {
    match s
    case Fresh => o == Rejected
    case Ended(e) =>
      (match e
       case FoundRetired => o == Completed
       case SealedByUs => o == Completed
       case NothingClaimed => o == Rejected
       case LetGo => o != Completed
       case Retained(why) => o == (if why == AuthorityLost then Rejected else Indeterminate) || (why == ReleaseRefused && o == Rejected))
    case _ => false
  }

  function Advance(p: Phase, e: Event): Option<Phase> {
    if p.effect.Closed? then None
    else match e
      case BeginEffect => if p == Initial then Some(p.(effect := Open)) else None
      case Fence(current) => Some(if current then p else p.(stale := true))
      case Claimed(_, g) => if p.stale then None else Claiming(p, g)
      case Observed(s) => if p.stale then None else Observing(p, s)
      case ValidatedCleanup(_) => if p.stage.Fresh? || p.stage.Holding? then Some(p) else None
      case Revalidated(_) => if p.stage.Holding? then Some(p) else None
      case ReleasedClaim(ok) =>
        if Releasable(p.stage) then End(p, if ok then LetGo else Retained(ReleaseRefused)) else None
      case ReservedExit(ok) =>
        if !p.stage.Holding? || p.stale then None
        else if ok then Some(p.(stage := Armed(p.stage.token))) else End(p, Retained(ReservationUnconfirmed))
      case CancelledExit(ok) =>
        if p.stage.Armed? then End(p, if ok then LetGo else Retained(CancelRefused)) else None
      case Dispatched(x) =>
        if !p.stage.Armed? || p.stale then None
        else if x.Terminalized? then Some(p.(stage := SawExit(p.stage.token))) else End(p, Retained(ExitUnconfirmed))
      case ReadIntent(found) =>
        if !p.stage.SawExit? then None else if found then Some(p) else End(p, Retained(IntentMissing))
      case CheckedAuthority(ok) =>
        if !p.stage.SawExit? then None else if ok then Some(p) else End(p, Retained(AuthorityLost))
      case CleanedUp(ok) =>
        if !p.stage.SawExit? || p.stale then None
        else if ok then Some(p.(stage := Clean(p.stage.token))) else End(p, Retained(CleanupFailed))
      case SealedRow(ok) =>
        if !p.stage.Clean? || p.stale then None else End(p, if ok then SealedByUs else Retained(SealRefused))
      case FinishEffect(o) =>
        if p.effect == Open && Closable(p.stage, o) then Some(p.(effect := Closed(o))) else None
  }

  /** The phase after a trace, if the protocol allows it. */
  function Walk(trace: seq<Event>): Option<Phase>
    decreases |trace|
  {
    if trace == [] then Some(Initial)
    else
      var before := Walk(trace[..|trace| - 1]);
      if before.None? then None else Advance(before.value, trace[|trace| - 1])
  }

  ghost predicate Allowed(trace: seq<Event>) { Walk(trace).Some? }

  lemma WalkSnoc(trace: seq<Event>, e: Event)
    ensures Walk(trace + [e]) == (if Walk(trace).None? then None else Advance(Walk(trace).value, e))
  {
    assert (trace + [e])[..|trace|] == trace;
  }

  /** A crash leaves a prefix, and every prefix of an allowed trace is allowed. */
  lemma {:induction false} PrefixAllowed(trace: seq<Event>, n: nat)
    requires Allowed(trace) && n <= |trace|
    ensures Allowed(trace[..n])
    decreases |trace|
  {
    if n == |trace| {
      assert trace[..n] == trace;
    } else {
      PrefixAllowed(trace[..|trace| - 1], n);
      assert trace[..|trace| - 1][..n] == trace[..n];
    }
  }

  // ---------------------------------------------------------------- what every trace satisfies

  function Count(trace: seq<Event>, kind: Event -> bool): nat
    decreases |trace|
  {
    if trace == [] then 0
    else Count(trace[..|trace| - 1], kind) + if kind(trace[|trace| - 1]) then 1 else 0
  }

  const IsDispatch: Event -> bool := (e: Event) => e.Dispatched?
  const IsFinish: Event -> bool := (e: Event) => e.FinishEffect?
  const IsGrant: Event -> bool := (e: Event) => e.Claimed? && e.grant.Granted?
  const IsReserve: Event -> bool := (e: Event) => e == ReservedExit(true)

  /** Where the dispatch can still lie ahead. */
  predicate BeforeDispatch(s: Stage) { s.Fresh? || s.SawExitFirst? || s.Holding? || s.Armed? }

  /** One call dispatches at most once, and only after its own reservation. */
  lemma {:induction false} OneDispatchPerCall(trace: seq<Event>)
    requires Allowed(trace)
    ensures Count(trace, IsDispatch) <= Count(trace, IsReserve) <= 1
    ensures BeforeDispatch(Walk(trace).value.stage) ==> Count(trace, IsDispatch) == 0
    ensures BeforeDispatch(Walk(trace).value.stage) && !Walk(trace).value.stage.Armed? ==> Count(trace, IsReserve) == 0
    ensures Walk(trace).value.stage.Armed? ==> Count(trace, IsReserve) == 1
    ensures Walk(trace).value.stage.Joined? ==> Count(trace, IsReserve) == 0
    decreases |trace|
  {
    if trace != [] {
      PrefixAllowed(trace, |trace| - 1);
      OneDispatchPerCall(trace[..|trace| - 1]);
    }
  }

  /** The effect is finished once and last: nothing at all follows it. */
  lemma {:induction false} FinishedOnceAndLast(trace: seq<Event>)
    requires Allowed(trace)
    ensures Count(trace, IsFinish) == if Walk(trace).value.effect.Closed? then 1 else 0
    ensures forall i :: 0 <= i < |trace| - 1 ==> !trace[i].FinishEffect?
    decreases |trace|
  {
    if trace != [] {
      var t := trace[..|trace| - 1];
      PrefixAllowed(trace, |trace| - 1);
      FinishedOnceAndLast(t);
      if |t| > 0 && t[|t| - 1].FinishEffect? {
        PrefixAllowed(t, |t| - 1);
      }
    }
  }

  /** The claim of a call that found the exit reserved. */
  ghost predicate FoundReserved(trace: seq<Event>) {
    exists i :: 0 <= i < |trace| && trace[i].Claimed? && trace[i].grant.Granted? && trace[i].grant.exitReserved
  }

  predicate PastClaim(s: Stage) { s.Joined? || s.SawExit? || s.Clean? || s.Ended? }

  /** A call that finds the exit reserved never dispatches and never reserves. */
  lemma {:induction false} FoundReservedNeverDispatches(trace: seq<Event>)
    requires Allowed(trace) && FoundReserved(trace)
    ensures Count(trace, IsDispatch) == 0 && Count(trace, IsReserve) == 0
    ensures PastClaim(Walk(trace).value.stage)
    decreases |trace|
  {
    var t := trace[..|trace| - 1];
    PrefixAllowed(trace, |trace| - 1);
    OneDispatchPerCall(t);
    if FoundReserved(t) {
      FoundReservedNeverDispatches(t);
    } else {
      assert trace[|trace| - 1].Claimed?;
    }
  }

  /** Positive evidence that the child is gone. */
  predicate ExitEvidence(e: Event) { e == Observed(SeenExited) || e == Dispatched(Terminalized) }

  ghost predicate EvidenceAt(trace: seq<Event>, i: nat) { i < |trace| && ExitEvidence(trace[i]) }

  ghost predicate CleanupAt(trace: seq<Event>, j: nat) { j < |trace| && trace[j] == CleanedUp(true) }

  /** What the stages past the exit rest on. */
  ghost predicate Justified(trace: seq<Event>, s: Stage) {
    && (s.SawExitFirst? || s.SawExit? ==> exists i :: EvidenceAt(trace, i))
    && (s.Clean? || s == Ended(SealedByUs) ==> exists i, j :: i < j && EvidenceAt(trace, i) && CleanupAt(trace, j))
  }

  lemma JustifiedLonger(trace: seq<Event>, e: Event, s: Stage)
    requires Justified(trace, s)
    ensures Justified(trace + [e], s)
  {
    if s.SawExitFirst? || s.SawExit? {
      var i: nat :| EvidenceAt(trace, i);
      assert EvidenceAt(trace + [e], i);
    }
    if s.Clean? || s == Ended(SealedByUs) {
      var i: nat, j: nat :| i < j && EvidenceAt(trace, i) && CleanupAt(trace, j);
      assert EvidenceAt(trace + [e], i) && CleanupAt(trace + [e], j);
    }
  }

  /** Sealing comes only after a confirmed worktree cleanup, which comes only after the child was
      observed exited or exited by this call. */
  lemma {:induction false} SealedAfterCleanupAfterExit(trace: seq<Event>)
    requires Allowed(trace)
    ensures Justified(trace, Walk(trace).value.stage)
    decreases |trace|
  {
    if trace != [] {
      var n := |trace| - 1;
      var t, e := trace[..n], trace[n];
      assert trace == t + [e];
      PrefixAllowed(trace, n);
      SealedAfterCleanupAfterExit(t);
      var p, q := Walk(t).value, Walk(trace).value;
      JustifiedLonger(t, e, p.stage);
      hide Walk;
      if p.stage != q.stage {
        if ExitEvidence(e) {
          assert EvidenceAt(trace, n);
        } else if e == CleanedUp(true) {
          var i: nat :| EvidenceAt(t, i);
          assert EvidenceAt(trace, i) && CleanupAt(trace, n);
        } else if e.SealedRow? {
          var i: nat, j: nat :| i < j && EvidenceAt(t, i) && CleanupAt(t, j);
          assert EvidenceAt(trace, i) && CleanupAt(trace, j);
        }
      }
    }
  }

  /** How the durable claim of a call with a grant can end before any reservation was possible. */
  predicate EarlyEnding(e: Ending) {
    || e == LetGo || e == SealedByUs
    || (e.Retained? && e.why in {ReleaseRefused, IntentMissing, AuthorityLost, CleanupFailed, SealRefused})
  }

  predicate EarlyStage(s: Stage) {
    s.Holding? || s.SawExit? || s.Clean? || (s.Ended? && EarlyEnding(s.ending))
  }

  /** Before a possible reservation the claim is released or sealed, and retained only where the
      release, the cleanup authority, the cleanup or the seal was not confirmed. */
  lemma {:induction false} DispositionBeforeReservation(trace: seq<Event>)
    requires Allowed(trace) && Count(trace, IsGrant) > 0 && !FoundReserved(trace)
    requires forall e :: e in trace ==> !e.ReservedExit?
    ensures EarlyStage(Walk(trace).value.stage)
    decreases |trace|
  {
    var n := |trace| - 1;
    var t := trace[..n];
    PrefixAllowed(trace, n);
    assert trace[n] in trace;
    assert forall i :: 0 <= i < n ==> t[i] == trace[i];
    assert forall e :: e in t ==> e in trace;
    if Count(t, IsGrant) > 0 {
      DispositionBeforeReservation(t);
    }
  }

  /** After a failed runtime fence no provider, worktree or seal boundary is crossed. */
  lemma {:induction false} NothingAfterStaleFence(trace: seq<Event>, i: nat, j: nat)
    requires Allowed(trace) && i < j < |trace| && trace[i] == Fence(false)
    ensures !trace[j].Dispatched? && !trace[j].CleanedUp? && !trace[j].SealedRow? && !trace[j].ReservedExit?
    decreases |trace|
  {
    StaleStays(trace, i);
    PrefixAllowed(trace, j + 1);
    PrefixAllowed(trace, j);
    assert trace[..j + 1][..j] == trace[..j];
    StaleStays(trace[..j], i);
  }

  lemma {:induction false} StaleStays(trace: seq<Event>, i: nat)
    requires Allowed(trace) && i < |trace| && trace[i] == Fence(false)
    ensures Walk(trace).value.stale
    decreases |trace|
  {
    if i < |trace| - 1 {
      PrefixAllowed(trace, |trace| - 1);
      StaleStays(trace[..|trace| - 1], i);
    }
  }
}
