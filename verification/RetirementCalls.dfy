/** The two callers that retire an assigned child, in their own form: the supervisor's tool call with
    its helpers, and the reconciler of the API process.  Between any two of their steps other
    processes may leave the shared row in any state, and every answer from outside is arbitrary. */
module RetirementCalls {
  import opened Common
  import opened RetirementStore
  import opened RetirementProtocol
  import opened RetirementAnswers
  import opened RetirementOutcomes

  class Caller {
    const answers: nat -> Tick
    const child: ChildAssignment
    const kind: Kind
    var trace: seq<Event>

    constructor (answers: nat -> Tick, child: ChildAssignment, kind: Kind)
      ensures this.answers == answers && this.child == child && this.kind == kind && trace == []
    {
      this.answers, this.child, this.kind, trace := answers, child, kind, [];
    }

    /** Inside a call that nothing has stopped yet, and what it knows. */
    ghost predicate Live(s: Stage, k: Known)
      reads this
    {
      && Proper(kind, trace, answers) && Decided(kind, trace).None? && KnownOf(trace) == k
      && Walk(trace) == Some(Phase(s, if kind.Tool? then Open else NoEffect, false))
    }

    /** Inside a call that is decided by `d`, and only has to close. */
    ghost predicate Stopped(s: Stage, k: Known, d: Event)
      reads this
    {
      && Proper(kind, trace, answers) && Decided(kind, trace) == Some(d) && KnownOf(trace) == k
      && Walk(trace) == Some(Phase(s, if kind.Tool? then Open else NoEffect, d == Fence(false)))
    }

    ghost predicate Last(e: Event)
      reads this
    {
      trace != [] && trace[|trace| - 1] == e
    }

    /** One step: the event is logged, with the answer that was due. */
    method Log(e: Event)
      requires Proper(kind, trace, answers) && Advance(Walk(trace).value, e).Some?
      requires Meets(kind, trace, e, answers(|trace|))
      requires Decided(kind, trace).Some? ==> Closing(kind, e)
      requires kind.Tool? && Boundary(e) ==> Last(Fence(true))
      requires e.ReservedExit? ==> ReadyToReserve(trace, kind.Tool?)
      requires e.CleanedUp? ==> ReadyToClean(trace, kind.Tool?)
      modifies `trace
      ensures trace == old(trace) + [e] && Proper(kind, trace, answers)
      ensures Walk(trace) == Advance(Walk(old(trace)).value, e)
      ensures KnownOf(trace) == Learn(KnownOf(old(trace)), e)
      ensures Decided(kind, trace) ==
        if Decided(kind, old(trace)).Some? || GoesOn(kind, KnownOf(old(trace)), e) then Decided(kind, old(trace)) else Some(e)
    {
      WalkSnoc(trace, e);
      var before := trace;
      trace := trace + [e];
      assert trace[..|trace| - 1] == before;
      hide Walk, Meets, GoesOn, Learn, ReadyToReserve, ReadyToClean;
      forall i | 0 <= i < |trace|
        ensures trace[i].ReservedExit? ==> ReadyToReserve(trace[..i], kind.Tool?)
        ensures trace[i].CleanedUp? ==> ReadyToClean(trace[..i], kind.Tool?)
      {
        assert trace[..i] == before[..i];
      }
    }

    /** Time passes: the others act, and the world has an answer ready. */
    method Next() returns (now: Tick)
      modifies child
      ensures now == answers(|trace|) && child.State() == now.row
    {
      now := answers(|trace|);
      child.Become(now.row);
    }

    // -------------------------------------------------------------- boundaries

    method RuntimeFence(ghost s: Stage, ghost k: Known) returns (current: bool)
      requires Live(s, k)
      modifies this, child
      ensures trace == old(trace) + [Fence(current)]
      ensures if current then Live(s, k) else Stopped(s, k, Fence(false))
    {
      var now := Next();
      current := now.fenceCurrent;
      Log(Fence(current));
    }

    method ReadTerminal(ghost s: Stage, ghost k: Known) returns (sight: Sight)
      requires Live(s, k) && (s.Fresh? || s.Holding? || s.Joined?)
      modifies this, child
      ensures trace == old(trace) + [Observed(sight)]
      ensures var p := Observing(Phase(s, NoEffect, false), sight).value.stage;
        if GoesOn(kind, k, Observed(sight)) then Live(p, k) else Stopped(p, k, Observed(sight))
    {
      var now := Next();
      sight := now.sight;
      Log(Observed(sight));
    }

    method FinishEffectAs(o: Outcome, r: Response, ghost s: Stage, ghost k: Known, ghost d: Event)
      requires kind.Tool? && Stopped(s, k, d) && Closable(s, o) && Fits(r, s, o) && Rests(r, k, d)
      requires s.Ended? || (s == Fresh && r == RuntimeFenced(false))
      modifies this
      ensures Called(kind, trace, answers, r)
    {
      hide Proper, Closable, Fits, Rests, Walk, Decided, KnownOf;
      Log(FinishEffect(o));
    }

    method Release(t: Token, ghost s: Stage, ghost k: Known, ghost d: Event) returns (ok: bool)
      requires Stopped(s, k, d) && Releasable(s) && s.token == t && Holds(k, t)
      modifies this, child
      ensures Stopped(Ended(if ok then LetGo else Retained(ReleaseRefused)), k, d)
    {
      hide Proper, Walk, Decided, KnownOf;
      var now := Next();
      ok := child.ReleaseClaim(t);
      assert MeetsRow(ReleasedClaim(ok), now, t);
      Log(ReleasedClaim(ok));
    }

    /** Gives the claim back, whatever comes of it, and closes the effect. */
    method ReleaseAndAnswer(t: Token, o: Outcome, r: Response, ghost k: Known, ghost d: Event)
      requires kind.Tool? && Stopped(Holding(t), k, d) && Holds(k, t) && Rests(r, k, d)
      requires forall e :: e in {Ended(LetGo), Ended(Retained(ReleaseRefused))} ==> Closable(e, o) && Fits(r, e, o)
      modifies this, child
      ensures Called(kind, trace, answers, r)
    {
      hide Stopped, Fits, Closable, Rests;
      var ok := Release(t, Holding(t), k, d);
      FinishEffectAs(o, r, Ended(if ok then LetGo else Retained(ReleaseRefused)), k, d);
    }

    method Claim(mode: Mode, ghost s: Stage, ghost k: Known) returns (grant: Grant)
      requires Live(s, k) && (s == Fresh || s == SawExitFirst) && mode == Asked(kind, trace)
      modifies this, child
      ensures var n := k.(grant := Some(grant));
        var p := Claiming(Phase(s, NoEffect, false), grant).value.stage;
        if GoesOn(kind, k, Claimed(mode, grant)) then Live(p, n) else Stopped(p, n, Claimed(mode, grant))
    {
      hide Proper, Walk, Decided, KnownOf;
      var now := Next();
      grant := child.ClaimRetirement(mode, now.evidence);
      Log(Claimed(mode, grant));
    }

    method Revalidate(t: Token, ghost k: Known) returns (kept: bool)
      requires Live(Holding(t), k) && Holds(k, t)
      modifies this, child
      ensures trace == old(trace) + [Revalidated(kept)]
      ensures if kept then Live(Holding(t), k) else Stopped(Holding(t), k, Revalidated(false))
    {
      hide Proper, Walk, Decided, KnownOf;
      var now := Next();
      kept := child.claim == Some(t) && !child.completed && now.ok;
      assert MeetsRow(Revalidated(kept), now, t);
      Log(Revalidated(kept));
    }

    method ReserveExit(t: Token, ghost k: Known) returns (reserved: bool)
      requires Live(Holding(t), k) && Holds(k, t) && ReadyToReserve(trace, kind.Tool?)
      modifies this, child
      ensures if reserved then Live(Armed(t), k)
        else Stopped(Ended(Retained(ReservationUnconfirmed)), k, ReservedExit(false))
    {
      hide Proper, Walk, Decided, KnownOf, ReadyToReserve;
      var now := Next();
      reserved := child.ReserveExit(t);
      assert MeetsRow(ReservedExit(reserved), now, t);
      Log(ReservedExit(reserved));
    }

    method SendExit(t: Token, ghost k: Known) returns (exit: ExitOutcome)
      requires Live(Armed(t), k) && (kind.Tool? ==> Last(Fence(true)))
      modifies this, child
      ensures var n := k.(sent := true);
        if exit == Terminalized then Live(SawExit(t), n) else Stopped(Ended(Retained(ExitUnconfirmed)), n, Dispatched(exit))
    {
      hide Proper, Walk, Decided, KnownOf;
      var now := Next();
      exit := now.exit;
      Log(Dispatched(exit));
    }

    method CleanUpWorktree(t: Token, ghost k: Known) returns (ok: bool)
      requires Live(SawExit(t), k) && ReadyToClean(trace, kind.Tool?)
      modifies this, child
      ensures if ok then Live(Clean(t), k) else Stopped(Ended(Retained(CleanupFailed)), k, CleanedUp(false))
    {
      hide Proper, Walk, Decided, KnownOf;
      var now := Next();
      ok := now.ok;
      Log(CleanedUp(ok));
    }

    method Complete(t: Token, ghost k: Known) returns (done: bool)
      requires Live(Clean(t), k) && Holds(k, t) && (kind.Tool? ==> Last(Fence(true)))
      modifies this, child
      ensures Stopped(Ended(if done then SealedByUs else Retained(SealRefused)), k, SealedRow(done))
    {
      hide Proper, Walk, Decided, KnownOf;
      var now := Next();
      done := child.CompleteRetirement(t, now.ok);
      assert MeetsRow(SealedRow(done), now, t);
      Log(SealedRow(done));
    }

    /** Reads the recorded intent and, for a replacement supervisor, its authority. */
    method CheckCleanupAuthority(t: Token, historical: bool, ghost k: Known) returns (missing: Option<Kept>)
      requires Live(SawExit(t), k) && Holds(k, t)
      modifies this, child
      ensures missing.None? ==> Live(SawExit(t), k)
      ensures missing.None? ==> trace == old(trace) + [ReadIntent(true)] + if historical then [CheckedAuthority(true)] else []
      ensures missing.Some? ==>
        || (missing.value == IntentMissing && Stopped(Ended(Retained(IntentMissing)), k, ReadIntent(false)))
        || (missing.value == AuthorityLost && historical && Stopped(Ended(Retained(AuthorityLost)), k, CheckedAuthority(false)))
    {
      hide Proper, Walk, Decided, KnownOf;
      var now := Next();
      var found := child.claim == Some(t) && child.intent;
      assert MeetsRow(ReadIntent(found), now, t);
      Log(ReadIntent(found));
      if !found { return Some(IntentMissing); }
      if historical {
        now := Next();
        var kept := child.claim == Some(t) && !child.completed && now.ok;
        assert MeetsRow(CheckedAuthority(kept), now, t);
        Log(CheckedAuthority(kept));
        if !kept { return Some(AuthorityLost); }
      }
      return None;
    }

    // -------------------------------------------------------------- the helpers of the tool call

    /** Closes local durable state when a generation fence rejects retirement. */
    method FinishStaleRetirementBoundary(t: Option<Token>, reservedButUndispatched: bool, ghost s: Stage, ghost k: Known)
        returns (r: Response)
      requires kind.Tool? && Stopped(s, k, Fence(false)) && (t.Some? ==> Holds(k, t.value))
      requires if t.None? then s == Fresh
               else if reservedButUndispatched then s == Armed(t.value)
               else Releasable(s) && s.token == t.value
      modifies this, child
      ensures r.RuntimeFenced? && Called(kind, trace, answers, r)
    {
      var released := true;
      ghost var end := s;
      if t.Some? {
        if reservedButUndispatched {
          released := CancelExit(t.value, k);
          end := Ended(if released then LetGo else Retained(CancelRefused));
        } else {
          released := Release(t.value, s, k, Fence(false));
          end := Ended(if released then LetGo else Retained(ReleaseRefused));
        }
      }
      hide Stopped;
      r := RuntimeFenced(!released);
      FinishEffectAs(if released then Rejected else Indeterminate, r, end, k, Fence(false));
    }

    method CancelExit(t: Token, ghost k: Known) returns (cancelled: bool)
      requires Stopped(Armed(t), k, Fence(false)) && Holds(k, t)
      modifies this, child
      ensures Stopped(Ended(if cancelled then LetGo else Retained(CancelRefused)), k, Fence(false))
    {
      hide Proper, Walk, Decided, KnownOf;
      var now := Next();
      cancelled := child.CancelReservedExit(t);
      assert MeetsRow(CancelledExit(cancelled), now, t);
      Log(CancelledExit(cancelled));
    }

    /** Fulfils the exact cleanup intent, then seals the final retirement. */
    method FinishRetiredChild(t: Token, already: bool, historical: bool, ghost k: Known) returns (r: Response)
      requires kind.Tool? && Live(SawExit(t), k) && Holds(k, t) && historical == Historic(k) && already == !k.sent
      modifies this, child
      ensures Called(kind, trace, answers, r) && (r.Retired? ==> r.already == already)
    {
      hide Stopped, Proper, Walk, Decided, KnownOf, Called;
      var current := RuntimeFence(SawExit(t), k);
      if !current { r := FinishStaleRetirementBoundary(Some(t), false, SawExit(t), k); return; }
      ghost var before := trace;
      var missing := CheckCleanupAuthority(t, historical, k);
      if missing.Some? {
        r := CleanupPending(missing.value);
        FinishEffectAs(if missing.value == AuthorityLost then Rejected else Indeterminate, r, Ended(Retained(missing.value)), k,
                       if missing.value == AuthorityLost then CheckedAuthority(false) else ReadIntent(false));
        return;
      }
      FenceKeepsReady(before, trace, historical);
      r := CleanRetiredChild(t, already, k);
    }

    method CleanRetiredChild(t: Token, already: bool, ghost k: Known) returns (r: Response)
      requires kind.Tool? && Live(SawExit(t), k) && Holds(k, t) && already == !k.sent
      requires ReadyToClean(trace + [Fence(true)], true)
      modifies this, child
      ensures Called(kind, trace, answers, r) && (r.Retired? ==> r.already == already)
    {
      hide Live, Stopped, Called, ReadyToClean;
      var current := RuntimeFence(SawExit(t), k);
      if !current { r := FinishStaleRetirementBoundary(Some(t), false, SawExit(t), k); return; }
      var ok := CleanUpWorktree(t, k);
      if !ok {
        r := CleanupPending(CleanupFailed);
        FinishEffectAs(Indeterminate, r, Ended(Retained(CleanupFailed)), k, CleanedUp(false));
        return;
      }
      r := SealRetiredChild(t, already, k);
    }

    method SealRetiredChild(t: Token, already: bool, ghost k: Known) returns (r: Response)
      requires kind.Tool? && Live(Clean(t), k) && Holds(k, t) && already == !k.sent
      modifies this, child
      ensures Called(kind, trace, answers, r) && (r.Retired? ==> r.already == already)
    {
      hide Stopped, Proper, Walk, Decided, KnownOf;
      var current := RuntimeFence(Clean(t), k);
      if !current { r := FinishStaleRetirementBoundary(Some(t), false, Clean(t), k); return; }
      var done := Complete(t, k);
      if !done {
        r := CleanupPending(SealRefused);
        FinishEffectAs(Indeterminate, r, Ended(Retained(SealRefused)), k, SealedRow(false));
        return;
      }
      r := Retired(already);
      FinishEffectAs(Completed, r, Ended(SealedByUs), k, SealedRow(true));
    }

    /** The branch for a call that finds the exit already reserved: it only reconciles. */
    method ReconcileReservedExit(t: Token, historical: bool, ghost k: Known) returns (r: Response)
      requires kind.Tool? && Live(Joined(t), k) && k == Known(Some(Granted(t, true, historical)), false)
      modifies this, child
      ensures Called(kind, trace, answers, r)
    {
      hide Stopped, Live;
      var sight := ReadTerminal(Joined(t), k);
      if sight == SeenExited {
        r := FinishRetiredChild(t, true, historical, k);
        return;
      }
      r := if sight == Unavailable then ChildUnavailable else ExitIndeterminate;
      FinishEffectAs(Indeterminate, r, Ended(Retained(ChildNotExited)), k, Observed(sight));
    }

    /** Reads the child and either ends the call or leaves the claim held on a quiescent child. */
    method CheckStillQuiescent(t: Token, historical: bool, ghost k: Known) returns (r: Option<Response>)
      requires kind.Tool? && Live(Holding(t), k) && k == Known(Some(Granted(t, false, historical)), false)
      modifies this, child
      ensures if r.None? then Live(Holding(t), k) else Called(kind, trace, answers, r.value)
      ensures r.None? ==> trace == old(trace) + [Observed(SeenRunning(true))]
    {
      hide Stopped, Live, Called;
      var sight := ReadTerminal(Holding(t), k);
      if sight == SeenExited {
        var finished := FinishRetiredChild(t, true, historical, k);
        return Some(finished);
      }
      if sight == Unavailable {
        ReleaseAndAnswer(t, Indeterminate, ChildUnavailable, k, Observed(sight));
        return Some(ChildUnavailable);
      }
      if !sight.quiescent {
        ReleaseAndAnswer(t, Rejected, ChildNotCompleted, k, Observed(sight));
        return Some(ChildNotCompleted);
      }
      if sight.SeenOther? {
        ReleaseAndAnswer(t, Rejected, LifecycleUnknown, k, Observed(sight));
        return Some(LifecycleUnknown);
      }
      return None;
    }

    /** From a held claim on a quiescent child across the provider boundary. */
    method DispatchExit(t: Token, historical: bool, ghost k: Known) returns (r: Response)
      requires kind.Tool? && Live(Holding(t), k) && k == Known(Some(Granted(t, false, historical)), false)
      requires ReadyToReserve(trace + [Fence(true)], true)
      modifies this, child
      ensures Called(kind, trace, answers, r)
    {
      hide Stopped, Live, Called, ReadyToReserve;
      var current := RuntimeFence(Holding(t), k);
      if !current { r := FinishStaleRetirementBoundary(Some(t), false, Holding(t), k); return; }
      var reserved := ReserveExit(t, k);
      if !reserved {
        FinishEffectAs(Indeterminate, ExitIndeterminate, Ended(Retained(ReservationUnconfirmed)), k, ReservedExit(false));
        return ExitIndeterminate;
      }
      current := RuntimeFence(Armed(t), k);
      if !current { r := FinishStaleRetirementBoundary(Some(t), true, Armed(t), k); return; }
      var exit := SendExit(t, k);
      ghost var n := k.(sent := true);
      if exit == Terminalized {
        r := FinishRetiredChild(t, false, historical, n);
        return;
      }
      r := if exit == Raised then ExitRaised else ExitIndeterminate;
      FinishEffectAs(Indeterminate, r, Ended(Retained(ExitUnconfirmed)), n, Dispatched(exit));
    }

    // -------------------------------------------------------------- the tool call

    method Begin()
      requires kind.Tool? && trace == []
      modifies this
      ensures Live(Fresh, Nothing) && trace == [BeginEffect]
    {
      Log(BeginEffect);
    }

    /** `retire_completed_child`.  Whatever the others do in between, what a call answers is what it was
        told: each refusal rests on its own event, and when every step goes well the child is exited,
        cleaned up and sealed. */
    method RetireCompletedChild(mode: Mode, effectClaimed: bool) returns (r: Response)
      requires kind == Tool(mode) && trace == [] && (mode.Own? || mode.Historical?)
      modifies this, child
      ensures if effectClaimed then Called(kind, trace, answers, r) else trace == [] && r == EffectNotClaimed
      ensures effectClaimed ==> (r.RuntimeFenced? <==> Fence(false) in trace)
      ensures effectClaimed ==> (r == NotEligible <==> exists m :: Claimed(m, Refused) in trace)
      ensures effectClaimed && (forall e :: e in trace ==> Favourable(e)) ==>
        r == Retired(false)
        && Dispatched(Terminalized) in trace && CleanedUp(true) in trace && SealedRow(true) in trace
    {
      if !effectClaimed { return EffectNotClaimed; }
      Begin();
      hide Live, Stopped, Called, Favourable;
      var current := RuntimeFence(Fresh, Nothing);
      if current {
        r := ClaimAndRetire(mode);
      } else {
        r := FinishStaleRetirementBoundary(None, false, Fresh, Nothing);
      }
      RefusalsExactly(mode, trace, answers, r);
      if forall e :: e in trace ==> Favourable(e) { FavourableCallRetires(mode, trace, answers, r); }
    }

    method ClaimAndRetire(mode: Mode) returns (r: Response)
      requires kind == Tool(mode) && Live(Fresh, Nothing)
      modifies this, child
      ensures Called(kind, trace, answers, r)
    {
      hide Live, Stopped, Called;
      var grant := Claim(mode, Fresh, Nothing);
      ghost var k := Known(Some(grant), false);
      match grant {
        case Refused =>
          FinishEffectAs(Rejected, NotEligible, Ended(NothingClaimed), k, Claimed(mode, grant));
          return NotEligible;
        case AlreadyRetired =>
          FinishEffectAs(Completed, Retired(true), Ended(FoundRetired), k, Claimed(mode, grant));
          return Retired(true);
        case Granted(t, reserved, historical) =>
          if reserved {
            r := ReconcileReservedExit(t, historical, k);
          } else {
            r := RetireHeldChild(t, historical, k);
          }
      }
    }

    /** Observes the child twice around the durable revalidation, then dispatches the exit. */
    method RetireHeldChild(t: Token, historical: bool, ghost k: Known) returns (r: Response)
      requires kind.Tool? && Live(Holding(t), k) && k == Known(Some(Granted(t, false, historical)), false)
      modifies this, child
      ensures Called(kind, trace, answers, r)
    {
      hide Stopped, Live, Called;
      var ended := CheckStillQuiescent(t, historical, k);
      if ended.Some? { return ended.value; }
      var kept := Revalidate(t, k);
      if !kept {
        ReleaseAndAnswer(t, Rejected, QuiescenceLost, k, Revalidated(false));
        return QuiescenceLost;
      }
      ended := CheckStillQuiescent(t, historical, k);
      if ended.Some? { return ended.value; }
      r := DispatchExit(t, historical, k);
    }

    // -------------------------------------------------------------- the reconciler

    /** The answer is final at this stage. */
    method Answer(v: Verdict, ghost s: Stage, ghost k: Known, ghost d: Event)
      requires kind.Reconciler? && Stopped(s, k, d) && VerdictFits(v, s) && VerdictRests(v, kind.exitReserved, k, d)
      ensures Settled(kind, trace, answers, v)
    {
    }

    method FinishCompletedChild(t: Token, ghost k: Known) returns (v: Verdict)
      requires kind.Reconciler? && Live(SawExit(t), k) && Holds(k, t)
      modifies this, child
      ensures Settled(kind, trace, answers, v)
    {
      hide Stopped, Proper, Walk, Decided, Settled;
      var missing := CheckCleanupAuthority(t, false, k);
      if missing.Some? {
        Answer(CleanupRefused(IntentMissing), Ended(Retained(IntentMissing)), k, ReadIntent(false));
        return CleanupRefused(IntentMissing);
      }
      var ok := CleanUpWorktree(t, k);
      if !ok {
        Answer(CleanupRefused(CleanupFailed), Ended(Retained(CleanupFailed)), k, CleanedUp(false));
        return CleanupRefused(CleanupFailed);
      }
      var done := Complete(t, k);
      v := if done then Reconciled else CleanupRefused(SealRefused);
      Answer(v, Ended(if done then SealedByUs else Retained(SealRefused)), k, SealedRow(done));
    }

    method ReleaseClaimAndStop(t: Token, v: Verdict, ghost k: Known, ghost d: Event)
      requires kind.Reconciler? && Stopped(Holding(t), k, d) && Holds(k, t)
      requires VerdictRests(v, kind.exitReserved, k, d) && v in {TerminalUnavailable, Lost, CleanupNotSafe}
      modifies this, child
      ensures Settled(kind, trace, answers, v)
    {
      hide Stopped, VerdictRests;
      var ok := Release(t, Holding(t), k, d);
      Answer(v, Ended(if ok then LetGo else Retained(ReleaseRefused)), k, d);
    }

    /** Metadata that is there and a managed worktree that may be cleaned up. */
    method ValidateCleanup(ghost s: Stage, ghost k: Known) returns (safe: bool)
      requires Live(s, k) && (s.Fresh? || s.Holding?)
      modifies this, child
      ensures trace == old(trace) + [ValidatedCleanup(safe)]
      ensures if safe then Live(s, k) else Stopped(s, k, ValidatedCleanup(false))
    {
      var now := Next();
      safe := now.ok;
      Log(ValidatedCleanup(safe));
    }

    method ReconcileObserved(exitReserved: bool) returns (v: Verdict)
      requires kind == Reconciler(exitReserved) && trace == []
      modifies this, child
      ensures Settled(kind, trace, answers, v)
    {
      assert Live(Fresh, Nothing);
      hide Live, Stopped, Settled;
      var sight := ReadTerminal(Fresh, Nothing);
      if sight == Unavailable {
        Answer(TerminalUnavailable, Fresh, Nothing, Observed(sight));
        return TerminalUnavailable;
      }
      if sight == SeenExited {
        v := ReconcileExitedChild();
        return;
      }
      if exitReserved {
        Answer(ExitPending, Fresh, Nothing, Observed(sight));
        return ExitPending;
      }
      if !sight.SeenRunning? || !sight.quiescent {
        Answer(ProviderNotCompleted, Fresh, Nothing, Observed(sight));
        return ProviderNotCompleted;
      }
      var safe := ValidateCleanup(Fresh, Nothing);
      if !safe {
        Answer(CleanupNotSafe, Fresh, Nothing, ValidatedCleanup(false));
        return CleanupNotSafe;
      }
      v := ClaimQuiescentChild();
    }

    method ReconcileExitedChild() returns (v: Verdict)
      requires kind.Reconciler? && Live(SawExitFirst, Nothing) && Last(Observed(SeenExited))
      modifies this, child
      ensures Settled(kind, trace, answers, v)
    {
      hide Live, Stopped, Settled;
      var grant := Claim(RequireExited, SawExitFirst, Nothing);
      ghost var k, d := Known(Some(grant), false), Claimed(RequireExited, grant);
      match grant {
        case Refused =>
          Answer(ClaimRefused, Ended(NothingClaimed), k, d);
          return ClaimRefused;
        case AlreadyRetired =>
          Answer(AlreadyReconciled, Ended(FoundRetired), k, d);
          return AlreadyReconciled;
        case Granted(t, _, _) => v := FinishCompletedChild(t, k);
      }
    }

    method ClaimQuiescentChild() returns (v: Verdict)
      requires kind.Reconciler? && !kind.exitReserved && Live(Fresh, Nothing) && Last(ValidatedCleanup(true))
      modifies this, child
      ensures Settled(kind, trace, answers, v)
    {
      hide Live, Stopped, Settled;
      var grant := Claim(Own, Fresh, Nothing);
      ghost var k, d := Known(Some(grant), false), Claimed(Own, grant);
      match grant {
        case Refused =>
          Answer(ClaimRefused, Ended(NothingClaimed), k, d);
          return ClaimRefused;
        case AlreadyRetired =>
          Answer(AlreadyReconciled, Ended(FoundRetired), k, d);
          return AlreadyReconciled;
        case Granted(t, reserved, _) =>
          if reserved {
            Answer(ExitPending, Joined(t), k, d);
            return ExitPending;
          }
          v := ReconcileQuiescentChild(t, k);
      }
    }

    /** Re-observes every non-transactional predicate behind the claim, then crosses the boundary. */
    method ReconcileQuiescentChild(t: Token, ghost k: Known) returns (v: Verdict)
      requires kind.Reconciler? && !kind.exitReserved && Live(Holding(t), k) && Holds(k, t) && !k.sent
      modifies this, child
      ensures Settled(kind, trace, answers, v)
    {
      hide Live, Stopped, Settled;
      var verified := ReadTerminal(Holding(t), k);
      if verified == Unavailable {
        ReleaseClaimAndStop(t, TerminalUnavailable, k, Observed(verified));
        return TerminalUnavailable;
      }
      if verified == SeenExited {
        v := FinishCompletedChild(t, k);
        return;
      }
      if verified != SeenRunning(true) {
        AskStoreAnyway(t, k, Observed(verified));
        ReleaseClaimAndStop(t, Lost, k, Observed(verified));
        return Lost;
      }
      var kept := Revalidate(t, k);
      if !kept {
        ReleaseClaimAndStop(t, Lost, k, Revalidated(false));
        return Lost;
      }
      var safe := ValidateCleanup(Holding(t), k);
      if !safe {
        ReleaseClaimAndStop(t, CleanupNotSafe, k, ValidatedCleanup(false));
        return CleanupNotSafe;
      }
      v := ExitQuiescentChild(t, k);
    }

    /** The store is asked before the observation is judged; its answer then changes nothing. */
    method AskStoreAnyway(t: Token, ghost k: Known, ghost d: Event)
      requires kind.Reconciler? && Stopped(Holding(t), k, d) && Holds(k, t) && d.Observed?
      modifies this, child
      ensures Stopped(Holding(t), k, d)
    {
      hide Proper, Walk, Decided, KnownOf;
      var now := Next();
      var kept := child.claim == Some(t) && !child.completed && now.ok;
      assert MeetsRow(Revalidated(kept), now, t);
      Log(Revalidated(kept));
    }

    method ExitQuiescentChild(t: Token, ghost k: Known) returns (v: Verdict)
      requires kind.Reconciler? && Live(Holding(t), k) && Holds(k, t) && ReadyToReserve(trace, false)
      modifies this, child
      ensures Settled(kind, trace, answers, v)
    {
      hide Live, Stopped, Settled, ReadyToReserve;
      var reserved := ReserveExit(t, k);
      if !reserved {
        Answer(ReservationRefused, Ended(Retained(ReservationUnconfirmed)), k, ReservedExit(false));
        return ReservationRefused;
      }
      var exit := SendExit(t, k);
      ghost var n := k.(sent := true);
      if exit != Terminalized {
        Answer(ExitPending, Ended(Retained(ExitUnconfirmed)), n, Dispatched(exit));
        return ExitPending;
      }
      v := FinishCompletedChild(t, n);
    }

    /** `_reconcile_completed_assigned_child`. */
    method ReconcileCompletedAssignedChild(exitReserved: bool) returns (v: Verdict)
      requires kind == Reconciler(exitReserved) && trace == []
      modifies this, child
      ensures Settled(kind, trace, answers, v)
      ensures !exitReserved && (forall e :: e in trace ==> Favourable(e)) ==>
        v == Reconciled && Dispatched(Terminalized) in trace && CleanedUp(true) in trace && SealedRow(true) in trace
    {
      v := ReconcileObserved(exitReserved);
      hide Settled, Favourable;
      if !exitReserved && forall e :: e in trace ==> Favourable(e) { FavourableReconciliation(trace, answers, v); }
    }
  }
}
