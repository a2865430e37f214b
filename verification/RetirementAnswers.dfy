/** What a retirement call is told at each of its steps, which of these answers let it go on, and
    what each of its own answers rests on. */
module RetirementAnswers {
  import opened Common
  import opened RetirementStore
  import opened RetirementProtocol

  /** The answers a call may get at one step.  `row` is what the others have made of the row. */
  datatype Tick = Tick(row: Row, fenceCurrent: bool, sight: Sight, evidence: Evidence, ok: bool, exit: ExitOutcome)

  /** The tool call owns a workflow effect and rechecks its runtime; the reconciler does neither, and
      has read from its candidate whether an exit was reserved. */
  datatype Kind = Tool(mode: Mode) | Reconciler(exitReserved: bool)

  // ---------------------------------------------------------------- what a call was told

  /** The grant of the call, and whether it has sent an exit. */
  datatype Known = Known(grant: Option<Grant>, sent: bool)

  const Nothing := Known(None, false)

  function Learn(k: Known, e: Event): Known {
    match e
    case Claimed(_, g) => k.(grant := Some(g))
    case Dispatched(_) => k.(sent := true)
    case _ => k
  }

  function KnownOf(trace: seq<Event>): Known
    decreases |trace|
  {
    if trace == [] then Nothing else Learn(KnownOf(trace[..|trace| - 1]), trace[|trace| - 1])
  }

  predicate Holds(k: Known, t: Token) { k.grant.Some? && k.grant.value.Granted? && k.grant.value.token == t }

  predicate Joins(k: Known) { k.grant.Some? && k.grant.value.Granted? && k.grant.value.exitReserved }

  predicate Historic(k: Known) { k.grant.Some? && k.grant.value.Granted? && k.grant.value.historical }

  /** The reconciler asks for an exited child only right after it saw one. */
  function Asked(kind: Kind, before: seq<Event>): Mode {
    match kind
    case Tool(mode) => mode
    case Reconciler(_) =>
      if before != [] && before[|before| - 1] == Observed(SeenExited) then RequireExited else Own
  }

  /** The logged answer is the one that the store and the world gave. */
  predicate Meets(kind: Kind, before: seq<Event>, e: Event, a: Tick) {
    match e
    case Fence(current) => current == a.fenceCurrent
    case Claimed(m, g) => m == Asked(kind, before) && g == Claim(a.row, m, a.evidence).1
    case Observed(s) => s == a.sight
    case ValidatedCleanup(ok) => ok == a.ok
    case Dispatched(x) => x == a.exit
    case CleanedUp(ok) => ok == a.ok
    case BeginEffect => true
    case FinishEffect(_) => true
    case _ =>
      var g := KnownOf(before).grant;
      g.Some? && g.value.Granted? && MeetsRow(e, a, g.value.token)
  }

  /** The same for the operations that name the token. */
  predicate MeetsRow(e: Event, a: Tick, t: Token) {
    match e
    case Revalidated(ok) => ok == (a.row.claim == Some(t) && !a.row.completed && a.ok)
    case ReleasedClaim(ok) => ok == CanRelease(a.row, t)
    case ReservedExit(ok) => ok == CanRelease(a.row, t)
    case CancelledExit(ok) => ok == CanCancel(a.row, t)
    case ReadIntent(found) => found == (a.row.claim == Some(t) && a.row.intent)
    case CheckedAuthority(ok) => ok == (a.row.claim == Some(t) && !a.row.completed && a.ok)
    case SealedRow(ok) => ok == (CanSeal(a.row, t) && a.ok)
    case _ => false
  }

  ghost predicate Answered(kind: Kind, trace: seq<Event>, answers: nat -> Tick)
    decreases |trace|
  {
    trace == [] ||
    (var n := |trace| - 1;
     Answered(kind, trace[..n], answers) && Meets(kind, trace[..n], trace[n], answers(n)))
  }

  // ---------------------------------------------------------------- what lets a call go on

  /** Nothing stands in the way of the next step. */
  predicate GoesOn(kind: Kind, k: Known, e: Event) {
    match e
    case BeginEffect => true
    case Fence(current) => current
    case Claimed(mode, g) => g.Granted? && (kind.Reconciler? && g.exitReserved ==> mode == RequireExited)
    case Observed(s) =>
      s == SeenExited || (s == SeenRunning(true) && !(if kind.Tool? then Joins(k) else kind.exitReserved))
    case ValidatedCleanup(ok) => ok
    case Revalidated(ok) => ok
    case ReservedExit(ok) => ok
    case Dispatched(x) => x == Terminalized
    case ReadIntent(found) => found
    case CheckedAuthority(ok) => ok
    case CleanedUp(ok) => ok
    case _ => false
  }

  /** The first event that did not let the call go on. */
  function Decided(kind: Kind, trace: seq<Event>): Option<Event>
    decreases |trace|
  {
    if trace == [] then None
    else
      var n := |trace| - 1;
      var before := Decided(kind, trace[..n]);
      if before.Some? || GoesOn(kind, KnownOf(trace[..n]), trace[n]) then before else Some(trace[n])
  }

  /** What may still follow: giving the claim back and closing the effect; and the reconciler asks the
      store before it judges what it saw. */
  predicate Closing(kind: Kind, e: Event) {
    e.ReleasedClaim? || e.CancelledExit? || e.FinishEffect? || (kind.Reconciler? && e.Revalidated?)
  }

  ghost predicate Closes(kind: Kind, trace: seq<Event>)
    decreases |trace|
  {
    trace == [] ||
    (var n := |trace| - 1;
     Closes(kind, trace[..n]) && (Decided(kind, trace[..n]).Some? ==> Closing(kind, trace[n])))
  }

  // ---------------------------------------------------------------- what comes before a boundary

  predicate Boundary(e: Event) { e.Dispatched? || e.CleanedUp? || e.SealedRow? }

  /** Each provider, worktree and seal boundary directly follows a passed runtime fence. */
  ghost predicate Fenced(trace: seq<Event>) {
    forall i :: 0 <= i < |trace| && Boundary(trace[i]) ==> i > 0 && trace[i - 1] == Fence(true)
  }

  /** What a call has just seen before it reserves the exit: the tool call a quiescent running child
      on both sides of a successful revalidation, and a passed fence; the reconciler a quiescent
      running child, then the revalidation and a worktree that may be cleaned up. */
  predicate ReadyToReserve(trace: seq<Event>, supervised: bool) {
    var n := |trace|;
    if supervised then
      && n >= 4 && trace[n - 1] == Fence(true) && trace[n - 2] == Observed(SeenRunning(true))
      && trace[n - 3] == Revalidated(true) && trace[n - 4] == Observed(SeenRunning(true))
    else
      && n >= 3 && trace[n - 1] == ValidatedCleanup(true) && trace[n - 2] == Revalidated(true)
      && trace[n - 3] == Observed(SeenRunning(true))
  }

  /** And before it cleans the worktree up: the recorded intent, a replacement supervisor its authority,
      and the tool call a passed fence. */
  predicate ReadyToClean(trace: seq<Event>, supervised: bool) {
    var n := if supervised then |trace| - 1 else |trace|;
    && n >= 1 && (supervised ==> trace[n] == Fence(true))
    && (if supervised && Historic(KnownOf(trace))
        then n >= 2 && trace[n - 1] == CheckedAuthority(true) && trace[n - 2] == ReadIntent(true)
        else trace[n - 1] == ReadIntent(true))
  }

  lemma FenceKeepsReady(before: seq<Event>, trace: seq<Event>, historical: bool)
    requires trace == before + [ReadIntent(true)] + if historical then [CheckedAuthority(true)] else []
    requires Historic(KnownOf(trace)) == historical
    ensures ReadyToClean(trace + [Fence(true)], true)
  {
    var longer := trace + [Fence(true)];
    assert longer[..|longer| - 1] == trace;
    assert KnownOf(longer) == Learn(KnownOf(trace), Fence(true));
    hide KnownOf;
  }

  ghost predicate Prepared(trace: seq<Event>, supervised: bool) {
    forall i :: 0 <= i < |trace| ==>
      && (trace[i].ReservedExit? ==> ReadyToReserve(trace[..i], supervised))
      && (trace[i].CleanedUp? ==> ReadyToClean(trace[..i], supervised))
  }

  // ---------------------------------------------------------------- the answers of the tool call

  datatype Response =
    | EffectNotClaimed
    | RuntimeFenced(claimKept: bool)
    | NotEligible
    | Retired(already: bool)
    | ExitIndeterminate
    | ChildUnavailable
    | ChildNotCompleted
    | LifecycleUnknown
    | QuiescenceLost
    | CleanupPending(why: Kept)
    | ExitRaised

  /** Each answer is given exactly after the event it is about. */
  predicate Rests(r: Response, k: Known, d: Event) {
    && (r.RuntimeFenced? <==> d == Fence(false))
    && (r == NotEligible <==> d.Claimed? && d.grant == Refused)
    && (r == ChildUnavailable <==> d == Observed(Unavailable))
    && (r == ChildNotCompleted <==> !Joins(k) && (d == Observed(SeenRunning(false)) || d == Observed(SeenOther(false))))
    && (r == LifecycleUnknown <==> !Joins(k) && d == Observed(SeenOther(true)))
    && (r == QuiescenceLost <==> d == Revalidated(false))
    && (r == ExitIndeterminate <==>
          d == ReservedExit(false) || d == Dispatched(Unconfirmed) || (Joins(k) && d.Observed? && d.sight != Unavailable))
    && (r == ExitRaised <==> d == Dispatched(Raised))
    && (r.CleanupPending? <==> RestsOnCleanup(r, d))
    && (r == Retired(true) <==> (d.Claimed? && d.grant == AlreadyRetired) || (d == SealedRow(true) && !k.sent))
    && (r == Retired(false) <==> d == SealedRow(true) && k.sent)
    && !r.EffectNotClaimed?
  }

  predicate RestsOnCleanup(r: Response, d: Event) {
    || (r == CleanupPending(IntentMissing) && d == ReadIntent(false))
    || (r == CleanupPending(AuthorityLost) && d == CheckedAuthority(false))
    || (r == CleanupPending(CleanupFailed) && d == CleanedUp(false))
    || (r == CleanupPending(SealRefused) && d == SealedRow(false))
  }

  /** Which ending of the claim, and which effect outcome, each answer stands for. */
  predicate Fits(r: Response, s: Stage, o: Outcome) {
    match r
    case EffectNotClaimed => false
    case RuntimeFenced(false) => o == Rejected && (s == Fresh || s == Ended(LetGo))
    case RuntimeFenced(true) => o == Indeterminate && s in {Ended(Retained(ReleaseRefused)), Ended(Retained(CancelRefused))}
    case NotEligible => o == Rejected && s == Ended(NothingClaimed)
    case Retired(already) => o == Completed && (s == Ended(SealedByUs) || (already && s == Ended(FoundRetired)))
    case ExitIndeterminate => o == Indeterminate
      && s in {Ended(Retained(ChildNotExited)), Ended(Retained(ReservationUnconfirmed)), Ended(Retained(ExitUnconfirmed))}
    case ChildUnavailable => o == Indeterminate
      && s in {Ended(Retained(ChildNotExited)), Ended(LetGo), Ended(Retained(ReleaseRefused))}
    case ChildNotCompleted => o == Rejected && s in {Ended(LetGo), Ended(Retained(ReleaseRefused))}
    case LifecycleUnknown => o == Rejected && s in {Ended(LetGo), Ended(Retained(ReleaseRefused))}
    case QuiescenceLost => o == Rejected && s in {Ended(LetGo), Ended(Retained(ReleaseRefused))}
    case CleanupPending(why) => s == Ended(Retained(why)) && o == if why == AuthorityLost then Rejected else Indeterminate
    case ExitRaised => o == Indeterminate && s == Ended(Retained(ExitUnconfirmed))
  }

  /** Every event was answered truthfully, each boundary prepared, and nothing but closing follows the
      event that decided. */
  ghost predicate Proper(kind: Kind, trace: seq<Event>, answers: nat -> Tick) {
    && Walk(trace).Some? && Answered(kind, trace, answers) && Closes(kind, trace)
    && (kind.Tool? ==> Fenced(trace)) && Prepared(trace, kind.Tool?)
  }

  /** One whole call of the tool: its effect is closed, and the answer says how the claim ended and
      what it rests on. */
  ghost predicate Called(kind: Kind, trace: seq<Event>, answers: nat -> Tick, r: Response) {
    && Proper(kind, trace, answers)
    && Walk(trace).value.stage.Ended? == !(r == RuntimeFenced(false) && Walk(trace).value.stage == Fresh)
    && Walk(trace).value.effect.Closed?
    && Fits(r, Walk(trace).value.stage, Walk(trace).value.effect.outcome)
    && Decided(kind, trace).Some? && Rests(r, KnownOf(trace), Decided(kind, trace).value)
  }

  // ---------------------------------------------------------------- the answers of the reconciler

  datatype Verdict =
    | TerminalUnavailable | ClaimRefused | AlreadyReconciled | ExitPending | ProviderNotCompleted | CleanupNotSafe
    | Lost | ReservationRefused | CleanupRefused(why: Kept) | Reconciled

  predicate VerdictRests(v: Verdict, exitReserved: bool, k: Known, d: Event) {
    && (v == TerminalUnavailable <==> d == Observed(Unavailable))
    && (v == ClaimRefused <==> d.Claimed? && d.grant == Refused)
    && (v == AlreadyReconciled <==> d.Claimed? && d.grant == AlreadyRetired)
    && (v == ExitPending <==>
          (exitReserved && d.Observed? && d.sight != Unavailable) || (d.Claimed? && d.grant.Granted?)
          || (d.Dispatched? && d.exit != Terminalized))
    && (v == ProviderNotCompleted <==> !exitReserved && k.grant == None && d.Observed? && d.sight != Unavailable)
    && (v == CleanupNotSafe <==> d == ValidatedCleanup(false))
    && (v == Lost <==> d == Revalidated(false) || (!exitReserved && k.grant != None && d.Observed? && d.sight != Unavailable))
    && (v == ReservationRefused <==> d == ReservedExit(false))
    && (v == CleanupRefused(IntentMissing) <==> d == ReadIntent(false))
    && (v == CleanupRefused(CleanupFailed) <==> d == CleanedUp(false))
    && (v == CleanupRefused(SealRefused) <==> d == SealedRow(false))
    && (v.CleanupRefused? ==> v.why in {IntentMissing, CleanupFailed, SealRefused})
    && (v == Reconciled <==> d == SealedRow(true))
  }

  /** How the claim ended: sealed, found sealed, given back, or kept for the reason given. */
  predicate VerdictFits(v: Verdict, s: Stage) {
    match v
    case Reconciled => s == Ended(SealedByUs)
    case AlreadyReconciled => s == Ended(FoundRetired)
    case ClaimRefused => s == Ended(NothingClaimed)
    case ProviderNotCompleted => s == Fresh
    case ExitPending => s == Fresh || s.Joined? || s == Ended(Retained(ExitUnconfirmed))
    case ReservationRefused => s == Ended(Retained(ReservationUnconfirmed))
    case CleanupRefused(why) => s == Ended(Retained(why))
    case Lost => s in {Ended(LetGo), Ended(Retained(ReleaseRefused))}
    case _ => s in {Fresh, Ended(LetGo), Ended(Retained(ReleaseRefused))}
  }

  /** One whole call of the reconciler: it never walks away from a claim that has reserved nothing. */
  ghost predicate Settled(kind: Kind, trace: seq<Event>, answers: nat -> Tick, v: Verdict) {
    && kind.Reconciler? && Proper(kind, trace, answers)
    && VerdictFits(v, Walk(trace).value.stage)
    && Decided(kind, trace).Some? && VerdictRests(v, kind.exitReserved, KnownOf(trace), Decided(kind, trace).value)
  }
}
