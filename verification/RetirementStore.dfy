/** The durable retirement claim of one completed child: the compare-and-set operations that the
    retirement callers share. */
module RetirementStore {
  import opened Common

  type Token = nat

  /** The retirement columns of the child's latest assignment row. `exitSet` is the durable exit
      reservation, `intent` the recorded cleanup intent, `completed` the final seal, and `next` the
      next token nobody has seen. */
  datatype Row = Row(claim: Option<Token>, exitSet: bool, intent: bool, completed: bool, next: Token)

  const Unclaimed := Row(None, false, false, false, 0)

  /** Who asks: the owning parent, a replacement supervisor, a caller that has proven the runtime
      exited, or the waiter of a direct handoff.  Only the first may go on to dispatch an exit. */
  datatype Mode = Own | Historical | RequireExited | Handoff

  /** What the other tables say at the moment of the claim. */
  datatype Evidence = Evidence(eligible: bool, identity: bool, quiescent: bool, authorityKept: bool)

  datatype Grant =
    | Refused
    | AlreadyRetired
    | Granted(token: Token, exitReserved: bool, historical: bool)

  /** `claim_completed_child_retirement`, branch by branch. */
  function Claim(r: Row, mode: Mode, e: Evidence): (Row, Grant) {
    if !e.eligible then (r, Refused)
    else if r.completed then (r, AlreadyRetired)
    else if !r.intent && !e.identity then (r, Refused)
    else if r.exitSet then
      match r.claim {
        case Some(t) => (r, Granted(t, true, mode.Historical?))
        case None =>
          if mode.RequireExited? && !e.authorityKept then (r, Refused)
          else (r.(claim := Some(r.next), intent := true, next := r.next + 1), Granted(r.next, true, mode.Historical?))
      }
    else if r.claim.Some? || !e.quiescent then (r, Refused)
    else if (mode.Historical? || mode.RequireExited?) && !e.authorityKept then (r, Refused)
    else (r.(claim := Some(r.next), exitSet := !mode.Own?, intent := true, next := r.next + 1),
          Granted(r.next, !mode.Own?, mode.Historical?))
  }

  predicate CanRelease(r: Row, t: Token) { r.claim == Some(t) && !r.exitSet && !r.completed }

  predicate CanCancel(r: Row, t: Token) { r.claim == Some(t) && r.exitSet && !r.completed }

  predicate CanSeal(r: Row, t: Token) { r.claim == Some(t) && r.intent && !r.completed }

  function Released(r: Row, t: Token): Row { if CanRelease(r, t) then r.(claim := None) else r }

  function Reserved(r: Row, t: Token): Row { if CanRelease(r, t) then r.(exitSet := true) else r }

  function Cancelled(r: Row, t: Token): Row {
    if CanCancel(r, t) then r.(claim := None, exitSet := false) else r
  }

  /** `authority` stands for the result and supervisor checks that are read in the same transaction. */
  function Sealed(r: Row, t: Token, authority: bool): Row {
    if CanSeal(r, t) && authority then r.(claim := None, completed := true) else r
  }

  /** The start-up sweep gives back every claim that has not reserved an exit. */
  function Restarted(r: Row): Row {
    if r.claim.Some? && !r.exitSet && !r.completed then r.(claim := None) else r
  }

  class ChildAssignment {
    var claim: Option<Token>
    var exitSet: bool
    var intent: bool
    var completed: bool
    var next: Token

    constructor (r: Row)
      ensures State() == r
    {
      claim, exitSet, intent, completed, next := r.claim, r.exitSet, r.intent, r.completed, r.next;
    }

    function State(): Row
      reads this
    {
      Row(claim, exitSet, intent, completed, next)
    }

    /** What other processes have committed meanwhile. */
    method Become(r: Row)
      modifies this
      ensures State() == r
    {
      claim, exitSet, intent, completed, next := r.claim, r.exitSet, r.intent, r.completed, r.next;
    }

    method ClaimRetirement(mode: Mode, e: Evidence) returns (g: Grant)
      modifies this
      ensures (State(), g) == Claim(old(State()), mode, e)
    {
      if !e.eligible { return Refused; }
      if completed { return AlreadyRetired; }
      if !intent && !e.identity { return Refused; }
      if exitSet {
        if claim.None? {
          if mode.RequireExited? && !e.authorityKept { return Refused; }
          claim, intent, next := Some(next), true, next + 1;
        }
        return Granted(claim.value, true, mode.Historical?);
      }
      if claim.Some? || !e.quiescent { return Refused; }
      if (mode.Historical? || mode.RequireExited?) && !e.authorityKept { return Refused; }
      claim, exitSet, intent, next := Some(next), !mode.Own?, true, next + 1;
      return Granted(claim.value, !mode.Own?, mode.Historical?);
    }

    method ReleaseClaim(t: Token) returns (released: bool)
      modifies `claim
      ensures State() == Released(old(State()), t) && released == CanRelease(old(State()), t)
    {
      released := claim == Some(t) && !exitSet && !completed;
      if released { claim := None; }
    }

    method ReserveExit(t: Token) returns (reserved: bool)
      modifies `exitSet
      ensures State() == Reserved(old(State()), t) && reserved == CanRelease(old(State()), t)
    {
      reserved := claim == Some(t) && !exitSet && !completed;
      if reserved { exitSet := true; }
    }

    method CancelReservedExit(t: Token) returns (cancelled: bool)
      modifies `claim, `exitSet
      ensures State() == Cancelled(old(State()), t) && cancelled == CanCancel(old(State()), t)
    {
      cancelled := claim == Some(t) && exitSet && !completed;
      if cancelled { claim, exitSet := None, false; }
    }

    method CompleteRetirement(t: Token, authority: bool) returns (done: bool)
      modifies `claim, `completed
      ensures State() == Sealed(old(State()), t, authority)
      ensures done == (CanSeal(old(State()), t) && authority)
    {
      done := claim == Some(t) && intent && !completed && authority;
      if done { claim, completed := None, true; }
    }

    method ReleaseForRestart() returns (released: nat)
      modifies `claim
      ensures State() == Restarted(old(State()))
      ensures released == if State() == old(State()) then 0 else 1
    {
      if claim.Some? && !exitSet && !completed {
        claim := None;
        return 1;
      }
      return 0;
    }
  }

  // ---------------------------------------------------------------- what a claim answers

  /** Whether a row that nobody has sealed is granted: one with a reserved exit to be shared or taken over,
      any other only when nobody holds it, the child is quiescent and, for a caller without the parent's
      own authority, that authority is kept. */
  predicate Grantable(r: Row, mode: Mode, e: Evidence) {
    && e.eligible && !r.completed && (r.intent || e.identity)
    && (if r.exitSet then r.claim.Some? || mode != RequireExited || e.authorityKept
        else r.claim == None && e.quiescent && (mode == Own || mode == Mode.Handoff || e.authorityKept))
  }

  /** Exactly when a claim is granted, found retired or refused, and what it leaves of the row: a reserved
      exit that is held shares its token, and every other grant takes the next one, records the intent
      and, except for the owning parent, the exit. */
  lemma GrantedExactly(r: Row, mode: Mode, e: Evidence)
    ensures var (n, g) := Claim(r, mode, e);
      && (g == AlreadyRetired <==> e.eligible && r.completed)
      && (g.Granted? <==> Grantable(r, mode, e))
      && (!g.Granted? ==> n == r)
      && (g.Granted? ==> g.exitReserved == (r.exitSet || mode != Own) && g.historical == (mode == Historical))
      && (g.Granted? && r.exitSet && r.claim.Some? ==> n == r && Some(g.token) == r.claim)
      && (g.Granted? && !(r.exitSet && r.claim.Some?) ==>
            g.token == r.next && n == Row(Some(r.next), r.exitSet || mode != Own, true, false, r.next + 1))
  {
  }

  // ---------------------------------------------------------------- one operation against another

  /** Reserving closes the way back that releasing takes, and cancelling reopens exactly it. */
  lemma ReserveFencesRelease(r: Row, t: Token)
    requires CanRelease(r, t)
    ensures !CanRelease(Reserved(r, t), t) && Released(Reserved(r, t), t) == Reserved(r, t)
    ensures Restarted(Reserved(r, t)) == Reserved(r, t)
    ensures Cancelled(Reserved(r, t), t) == Released(r, t)
  {
  }

  /** A claim while an exit is reserved never reserves again: it shares or renews the token. */
  lemma ClaimKeepsReservation(r: Row, mode: Mode, e: Evidence)
    requires r.exitSet
    ensures var (after, g) := Claim(r, mode, e);
      && after.exitSet && after.completed == r.completed
      && (g.Granted? ==> g.exitReserved && after.claim == Some(g.token))
  {
  }
}
