/** What the answers of a retirement call say about its trace, and what a call answers when nothing
    stands in its way. */
module RetirementOutcomes {
  import opened Common
  import opened RetirementStore
  import opened RetirementProtocol
  import opened RetirementAnswers

  // ---------------------------------------------------------------- the event that decided

  /** An event after which no call goes on. */
  ghost predicate AlwaysStops(kind: Kind, e: Event) {
    !Closing(kind, e) && forall k :: !GoesOn(kind, k, e)
  }

  lemma {:induction false} DecidedExactly(kind: Kind, trace: seq<Event>, e: Event)
    requires Closes(kind, trace) && AlwaysStops(kind, e)
    ensures e in trace <==> Decided(kind, trace) == Some(e)
    decreases |trace|
  {
    if trace != [] {
      var n := |trace| - 1;
      assert trace == trace[..n] + [trace[n]];
      DecidedExactly(kind, trace[..n], e);
    }
  }

  lemma {:induction false} DecidedIn(kind: Kind, trace: seq<Event>)
    requires Decided(kind, trace).Some?
    ensures Decided(kind, trace).value in trace
    ensures exists k :: !GoesOn(kind, k, Decided(kind, trace).value)
    decreases |trace|
  {
    var n := |trace| - 1;
    assert trace == trace[..n] + [trace[n]];
    if Decided(kind, trace[..n]).Some? {
      DecidedIn(kind, trace[..n]);
    } else {
      assert !GoesOn(kind, KnownOf(trace[..n]), trace[n]);
    }
  }

  lemma {:induction false} SentExactly(trace: seq<Event>)
    ensures KnownOf(trace).sent <==> exists x :: Dispatched(x) in trace
    decreases |trace|
  {
    if trace != [] {
      var n := |trace| - 1;
      assert trace == trace[..n] + [trace[n]];
      SentExactly(trace[..n]);
      if trace[n].Dispatched? {
        assert Dispatched(trace[n].exit) in trace;
      }
    }
  }

  lemma StopsExactly(mode: Mode, trace: seq<Event>, e: Event)
    requires Closes(Tool(mode), trace) && Decided(Tool(mode), trace).Some?
    requires e in {Fence(false), Observed(Unavailable), Revalidated(false), Dispatched(Raised), ReadIntent(false),
                   CheckedAuthority(false), CleanedUp(false), SealedRow(false), SealedRow(true)}
             || (e.Claimed? && !e.grant.Granted?)
    ensures e in trace <==> Decided(Tool(mode), trace).value == e
  {
    assert AlwaysStops(Tool(mode), e);
    DecidedExactly(Tool(mode), trace, e);
  }

  /** Each refusal of the tool call, exactly when its own event is in the trace: a fence that failed, a
      claim that was refused, a child that was seen so, a step that was not confirmed. */
  lemma RefusalsExactly(mode: Mode, trace: seq<Event>, answers: nat -> Tick, r: Response)
    requires Called(Tool(mode), trace, answers, r)
    ensures r.RuntimeFenced? <==> Fence(false) in trace
    ensures r == NotEligible <==> exists m :: Claimed(m, Refused) in trace
    ensures r == ChildUnavailable <==> Observed(Unavailable) in trace
    ensures r == QuiescenceLost <==> Revalidated(false) in trace
    ensures r == ExitRaised <==> Dispatched(Raised) in trace
  {
    DecidedIn(Tool(mode), trace);
    var d := Decided(Tool(mode), trace).value;
    assert Rests(r, KnownOf(trace), d);
    StopsExactly(mode, trace, Fence(false));
    StopsExactly(mode, trace, Observed(Unavailable));
    StopsExactly(mode, trace, Revalidated(false));
    StopsExactly(mode, trace, Dispatched(Raised));
    forall m ensures Claimed(m, Refused) in trace <==> d == Claimed(m, Refused) {
      StopsExactly(mode, trace, Claimed(m, Refused));
    }
    assert d.Claimed? ==> d == Claimed(d.mode, d.grant);
    hide Called, Decided, KnownOf, GoesOn;
  }

  /** So it is with a cleanup that stays pending. */
  lemma PendingExactly(mode: Mode, trace: seq<Event>, answers: nat -> Tick, r: Response)
    requires Called(Tool(mode), trace, answers, r)
    ensures r == CleanupPending(IntentMissing) <==> ReadIntent(false) in trace
    ensures r == CleanupPending(AuthorityLost) <==> CheckedAuthority(false) in trace
    ensures r == CleanupPending(CleanupFailed) <==> CleanedUp(false) in trace
    ensures r == CleanupPending(SealRefused) <==> SealedRow(false) in trace
  {
    var d := Decided(Tool(mode), trace).value;
    assert Rests(r, KnownOf(trace), d);
    StopsExactly(mode, trace, ReadIntent(false));
    StopsExactly(mode, trace, CheckedAuthority(false));
    StopsExactly(mode, trace, CleanedUp(false));
    StopsExactly(mode, trace, SealedRow(false));
    hide Called, Decided, KnownOf;
  }

  /** The child is reported retired exactly when this call sealed it or found it sealed, and as retired
      by this call exactly when it also sent the exit. */
  lemma RetiredExactly(mode: Mode, trace: seq<Event>, answers: nat -> Tick, r: Response)
    requires Called(Tool(mode), trace, answers, r)
    ensures r.Retired? <==> SealedRow(true) in trace || exists m :: Claimed(m, AlreadyRetired) in trace
    ensures r == Retired(false) <==> SealedRow(true) in trace && exists x :: Dispatched(x) in trace
  {
    DecidedIn(Tool(mode), trace);
    var d := Decided(Tool(mode), trace).value;
    assert Rests(r, KnownOf(trace), d);
    StopsExactly(mode, trace, SealedRow(true));
    SentExactly(trace);
    forall m ensures Claimed(m, AlreadyRetired) in trace <==> d == Claimed(m, AlreadyRetired) {
      StopsExactly(mode, trace, Claimed(m, AlreadyRetired));
    }
    assert d.Claimed? ==> d == Claimed(d.mode, d.grant);
    hide Called, Decided, KnownOf, GoesOn;
  }

  /** How the effect is closed, exactly by the answer: completed for a retired child; rejected where nothing
      was claimed, the claim was given back before the exit, or a replacement lost its authority; unknown
      everywhere else.  The closing is the last event. */
  lemma EffectClosedExactly(mode: Mode, trace: seq<Event>, answers: nat -> Tick, r: Response)
    requires Called(Tool(mode), trace, answers, r)
    ensures trace != [] && trace[|trace| - 1].FinishEffect?
    ensures var o := trace[|trace| - 1].outcome;
      && (o == Completed <==> r.Retired?)
      && (o == Rejected <==> r in {RuntimeFenced(false), NotEligible, ChildNotCompleted, LifecycleUnknown, QuiescenceLost,
                                   CleanupPending(AuthorityLost)})
      && (o == Indeterminate <==> r in {RuntimeFenced(true), ExitIndeterminate, ChildUnavailable, ExitRaised,
                                        CleanupPending(IntentMissing), CleanupPending(CleanupFailed), CleanupPending(SealRefused)})
  {
    ClosedByLast(trace);
    assert Rests(r, KnownOf(trace), Decided(Tool(mode), trace).value);
    hide Called, Decided, KnownOf, Walk, Proper;
  }

  lemma ClosedByLast(trace: seq<Event>)
    requires Allowed(trace) && Walk(trace).value.effect.Closed?
    ensures trace != [] && trace[|trace| - 1] == FinishEffect(Walk(trace).value.effect.outcome)
  {
    PrefixAllowed(trace, |trace| - 1);
  }

  // ---------------------------------------------------------------- nothing in the way

  /** The best that can happen at a step of a call that has to send the exit itself. */
  predicate Favourable(e: Event) {
    match e
    case Fence(current) => current
    case Claimed(_, g) => g.Granted? && !g.exitReserved
    case Observed(s) => s == SeenRunning(true)
    case ValidatedCleanup(ok) => ok
    case Revalidated(ok) => ok
    case ReservedExit(ok) => ok
    case Dispatched(x) => x == Terminalized
    case ReadIntent(found) => found
    case CheckedAuthority(ok) => ok
    case CleanedUp(ok) => ok
    case SealedRow(ok) => ok
    case _ => true
  }

  lemma {:induction false} SealStays(trace: seq<Event>)
    requires Allowed(trace) && SealedRow(true) in trace
    ensures Walk(trace).value.stage == Ended(SealedByUs)
    decreases |trace|
  {
    var n := |trace| - 1;
    assert trace == trace[..n] + [trace[n]];
    PrefixAllowed(trace, n);
    if SealedRow(true) in trace[..n] { SealStays(trace[..n]); }
  }

  /** What a sealed call that saw the child only running has done. */
  lemma SealedBySending(trace: seq<Event>)
    requires Allowed(trace) && SealedRow(true) in trace && Observed(SeenExited) !in trace
    ensures Dispatched(Terminalized) in trace && CleanedUp(true) in trace && KnownOf(trace).sent
  {
    SealStays(trace);
    SealedAfterCleanupAfterExit(trace);
    var i: nat, j: nat :| i < j && EvidenceAt(trace, i) && CleanupAt(trace, j);
    assert trace[i] in trace && trace[j] in trace;
    SentExactly(trace);
  }

  /** When every step of a call goes well, the child is exited, its worktree cleaned up and the
      retirement sealed, all by this call. */
  lemma FavourableCallRetires(mode: Mode, trace: seq<Event>, answers: nat -> Tick, r: Response)
    requires Called(Tool(mode), trace, answers, r)
    requires forall e :: e in trace ==> Favourable(e)
    ensures r == Retired(false)
    ensures Dispatched(Terminalized) in trace && CleanedUp(true) in trace && SealedRow(true) in trace
  {
    DecidedIn(Tool(mode), trace);
    var d := Decided(Tool(mode), trace).value;
    assert Favourable(d);
    hide Decided, KnownOf, Walk, Answered, Closes;
    GrantFavourable(trace);
    assert d == SealedRow(true);
    SealedBySending(trace);
  }

  lemma {:induction false} GrantFavourable(trace: seq<Event>)
    requires forall e :: e in trace ==> Favourable(e)
    ensures !Joins(KnownOf(trace))
    decreases |trace|
  {
    if trace != [] {
      var n := |trace| - 1;
      assert trace == trace[..n] + [trace[n]];
      GrantFavourable(trace[..n]);
      assert Favourable(trace[n]);
    }
  }

  lemma FavourableReconciliation(trace: seq<Event>, answers: nat -> Tick, v: Verdict)
    requires Settled(Reconciler(false), trace, answers, v)
    requires forall e :: e in trace ==> Favourable(e)
    ensures v == Reconciled
    ensures Dispatched(Terminalized) in trace && CleanedUp(true) in trace && SealedRow(true) in trace
  {
    DecidedIn(Reconciler(false), trace);
    var d := Decided(Reconciler(false), trace).value;
    assert Favourable(d);
    hide Decided, KnownOf, Walk, Answered, Closes;
    assert d == SealedRow(true);
    SealedBySending(trace);
  }

  // ---------------------------------------------------------------- an undisturbed world

  /** What an event makes of the row. */
  function RowAfter(row: Row, e: Event, t: Token, a: Tick): Row {
    match e
    case Claimed(m, _) => Claim(row, m, a.evidence).0
    case ReleasedClaim(_) => Released(row, t)
    case ReservedExit(_) => Reserved(row, t)
    case CancelledExit(_) => Cancelled(row, t)
    case SealedRow(_) => Sealed(row, t, a.ok)
    case _ => row
  }

  function TokenOf(k: Known): Token { if k.grant.Some? && k.grant.value.Granted? then k.grant.value.token else 0 }

  /** The row after a trace that nobody else has interfered with. */
  function RowAt(trace: seq<Event>, answers: nat -> Tick, start: Row): Row
    decreases |trace|
  {
    if trace == [] then start
    else
      var n := |trace| - 1;
      RowAfter(RowAt(trace[..n], answers, start), trace[n], TokenOf(KnownOf(trace[..n])), answers(n))
  }

  ghost predicate Undisturbed(trace: seq<Event>, answers: nat -> Tick, start: Row)
    decreases |trace|
  {
    trace == [] ||
    (var n := |trace| - 1;
     Undisturbed(trace[..n], answers, start) && answers(n).row == RowAt(trace[..n], answers, start))
  }

  /** Nothing fails, the records allow everything, and the child is always seen in one state. */
  ghost predicate Calm(answers: nat -> Tick, sight: Sight) {
    forall i :: answers(i) == Tick(answers(i).row, true, sight, Evidence(true, true, true, true), true, Terminalized)
  }

  predicate Unheld(row: Row) { row.claim == None && !row.exitSet && !row.completed }

  /** What the row is while such a call goes on. */
  ghost predicate RowFits(kind: Kind, s: Stage, k: Known, row: Row, start: Row) {
    && (s.Fresh? || s.SawExitFirst? ==> row == start && k.grant == None)
    && (s.Holding? || s.Armed? || s.Joined? || s.SawExit? || s.Clean? ==>
          Holds(k, s.token) && row.claim == Some(s.token) && row.intent && !row.completed)
    && (s.Holding? ==> !row.exitSet && !Joins(k))
    && (s.Armed? ==> !Joins(k))
    && (s.Joined? ==> Joins(k) && kind.Tool?)
  }

  /** What its grant is, and that only an own reservation sends. */
  predicate GrantFits(kind: Kind, k: Known, start: Row) {
    && (kind.Tool? && k.grant.Some? ==> k.grant.value == Granted(start.next, !kind.mode.Own?, kind.mode.Historical?))
    && (k.sent ==> k.grant.Some? && !Joins(k))
  }

  predicate NoExitSeen(before: seq<Event>) { before == [] || before[|before| - 1] != Observed(SeenExited) }

  predicate GivesUp(e: Event) { e.ReleasedClaim? || e.CancelledExit? || e.FinishEffect? }

  lemma FitsStep(kind: Kind, before: seq<Event>, e: Event, a: Tick, p: Phase, start: Row, sight: Sight)
    requires Unheld(start) && RowFits(kind, p.stage, KnownOf(before), a.row, start) && !p.stage.Ended?
    requires GrantFits(kind, KnownOf(before), start)
    requires a == Tick(a.row, true, sight, Evidence(true, true, true, true), true, Terminalized)
    requires Meets(kind, before, e, a) && Advance(p, e).Some? && (sight == SeenExited || sight == SeenRunning(true))
    requires p.stage.Fresh? ==> NoExitSeen(before)
    ensures Advance(p, e).value.stage.Fresh? ==> e != Observed(SeenExited)
    requires kind.Tool? ==> kind.mode.Own? || kind.mode.Historical?
    ensures var k := KnownOf(before);
      if GoesOn(kind, k, e)
      then !Advance(p, e).value.stage.Ended?
           && RowFits(kind, Advance(p, e).value.stage, Learn(k, e), RowAfter(a.row, e, TokenOf(k), a), start)
      else e == SealedRow(true) || GivesUp(e) || (e == Observed(SeenRunning(true)) && sight == SeenRunning(true))
    ensures GrantFits(kind, Learn(KnownOf(before), e), start)
  {
    hide KnownOf;
    if e.Claimed? {
      assert p.stage.Fresh? || p.stage.SawExitFirst?;
    } else {
      hide Claim;
    }
  }

  /** What is kept by every step: the grant, the row as the call made it while nothing has decided, and
      what can have decided. */
  ghost predicate Fit(kind: Kind, before: seq<Event>, p: Phase, d: Option<Event>, k: Known, row: Row, start: Row, sight: Sight) {
    && GrantFits(kind, k, start) && (p.stage.Fresh? ==> NoExitSeen(before))
    && (d.None? ==> !p.stage.Ended? && RowFits(kind, p.stage, k, row, start))
    && (d.Some? ==> d.value == SealedRow(true) || GivesUp(d.value) || (d.value == Observed(SeenRunning(true)) && sight == SeenRunning(true)))
  }

  lemma FitNext(kind: Kind, before: seq<Event>, e: Event, a: Tick, p: Phase, d: Option<Event>, start: Row, sight: Sight)
    requires Fit(kind, before, p, d, KnownOf(before), a.row, start, sight) && Unheld(start)
    requires a == Tick(a.row, true, sight, Evidence(true, true, true, true), true, Terminalized)
    requires Meets(kind, before, e, a) && Advance(p, e).Some? && (d.Some? ==> Closing(kind, e))
    requires sight == SeenExited || sight == SeenRunning(true)
    requires kind.Tool? ==> kind.mode.Own? || kind.mode.Historical?
    ensures var k := KnownOf(before);
      Fit(kind, before + [e], Advance(p, e).value, if d.Some? || GoesOn(kind, k, e) then d else Some(e), Learn(k, e),
          RowAfter(a.row, e, TokenOf(k), a), start, sight)
  {
    hide GoesOn, Meets, RowFits, GrantFits, Advance, RowAfter, Learn, Closing, GivesUp, KnownOf;
    if d.None? {
      FitsStep(kind, before, e, a, p, start, sight);
    } else {
      ClosingKeeps(kind, KnownOf(before), e, start, p);
    }
  }

  /** As long as nothing has decided, the row is what the call made of it. */
  lemma {:induction false} FitsAlways(kind: Kind, trace: seq<Event>, answers: nat -> Tick, start: Row, sight: Sight)
    requires Allowed(trace) && Answered(kind, trace, answers) && Undisturbed(trace, answers, start) && Closes(kind, trace)
    requires Unheld(start) && Calm(answers, sight) && (sight == SeenExited || sight == SeenRunning(true))
    requires kind.Tool? ==> kind.mode.Own? || kind.mode.Historical?
    ensures Fit(kind, trace, Walk(trace).value, Decided(kind, trace), KnownOf(trace), RowAt(trace, answers, start), start, sight)
    decreases |trace|
  {
    hide Advance, GoesOn, Meets, Learn, RowAfter, Closing;
    if trace != [] {
      var n := |trace| - 1;
      var before, e := trace[..n], trace[n];
      assert trace == before + [e];
      PrefixAllowed(trace, n);
      hide Fit;
      FitsAlways(kind, before, answers, start, sight);
      FitNext(kind, before, e, answers(n), Walk(before).value, Decided(kind, before), start, sight);
    }
  }

  lemma ClosingKeeps(kind: Kind, k: Known, e: Event, start: Row, p: Phase)
    requires Closing(kind, e) && GrantFits(kind, k, start)
    ensures GrantFits(kind, Learn(k, e), start) && e != Observed(SeenExited)
  {
  }

  /** A calm call sees the child only in its one state. */
  lemma {:induction false} OneSight(kind: Kind, trace: seq<Event>, answers: nat -> Tick, sight: Sight)
    requires Answered(kind, trace, answers) && Calm(answers, sight)
    ensures forall s :: Observed(s) in trace ==> s == sight
    decreases |trace|
  {
    if trace != [] {
      var n := |trace| - 1;
      assert trace == trace[..n] + [trace[n]];
      OneSight(kind, trace[..n], answers, sight);
    }
  }

  /** A dispatch lies behind a reservation, which lies behind a running child. */
  lemma SentSawRunning(trace: seq<Event>, supervised: bool)
    requires Allowed(trace) && Prepared(trace, supervised) && KnownOf(trace).sent
    ensures Observed(SeenRunning(true)) in trace
  {
    SentExactly(trace);
    OneDispatchPerCall(trace);
    var x :| Dispatched(x) in trace;
    var i :| 0 <= i < |trace| && trace[i] == Dispatched(x);
    CountsOne(trace, IsDispatch, i);
    var j := FirstReserve(trace);
    hide Walk, KnownOf, Count;
    assert trace[j].ReservedExit?;
    var back := if supervised then 2 else 3;
    assert trace[..j][j - back] == trace[j - back] == Observed(SeenRunning(true));
  }

  lemma {:induction false} CountsOne(trace: seq<Event>, what: Event -> bool, i: nat)
    requires i < |trace| && what(trace[i])
    ensures Count(trace, what) > 0
    decreases |trace|
  {
    if i < |trace| - 1 { CountsOne(trace[..|trace| - 1], what, i); }
  }

  lemma {:induction false} FirstReserve(trace: seq<Event>) returns (j: nat)
    requires Count(trace, IsReserve) > 0
    ensures j < |trace| && trace[j] == ReservedExit(true)
    decreases |trace|
  {
    if IsReserve(trace[|trace| - 1]) { j := |trace| - 1; } else { j := FirstReserve(trace[..|trace| - 1]); }
  }

  /** In an undisturbed world, with a row that nobody holds: the owning parent's call exits a running
      quiescent child and retires it; any call retires a child that has exited, without another exit;
      and a replacement supervisor never exits a running child. */
  lemma UndisturbedCall(mode: Mode, trace: seq<Event>, answers: nat -> Tick, r: Response, start: Row, sight: Sight)
    requires Called(Tool(mode), trace, answers, r) && (mode.Own? || mode.Historical?)
    requires Calm(answers, sight) && Undisturbed(trace, answers, start) && Unheld(start)
    requires sight == SeenExited || sight == SeenRunning(true)
    ensures r == if sight == SeenExited then Retired(true) else if mode.Own? then Retired(false) else ExitIndeterminate
    ensures KnownOf(trace).sent <==> sight == SeenRunning(true) && mode.Own?
  {
    var kind := Tool(mode);
    FitsAlways(kind, trace, answers, start, sight);
    DecidedIn(kind, trace);
    OneSight(kind, trace, answers, sight);
    var k, d := KnownOf(trace), Decided(kind, trace).value;
    if k.sent { SentSawRunning(trace, true); }
    if sight == SeenRunning(true) && d == SealedRow(true) { SealedBySending(trace); }
    CallAnswers(mode, r, k, d, start, sight);
    hide *;
  }

  lemma CallAnswers(mode: Mode, r: Response, k: Known, d: Event, start: Row, sight: Sight)
    requires Rests(r, k, d) && GrantFits(Tool(mode), k, start) && (mode.Own? || mode.Historical?)
    requires d == SealedRow(true) || GivesUp(d) || (d == Observed(SeenRunning(true)) && sight == SeenRunning(true))
    requires sight == SeenExited || sight == SeenRunning(true)
    requires k.sent ==> sight == SeenRunning(true)
    requires sight == SeenRunning(true) && d == SealedRow(true) ==> k.sent
    ensures r == if sight == SeenExited then Retired(true) else if mode.Own? then Retired(false) else ExitIndeterminate
    ensures k.sent <==> sight == SeenRunning(true) && mode.Own?
  {
  }

  /** So it is with the reconciler, except that it leaves an exit that its candidate has reserved. */
  lemma UndisturbedReconciliation(exitReserved: bool, trace: seq<Event>, answers: nat -> Tick, v: Verdict, start: Row,
                                  sight: Sight)
    requires Settled(Reconciler(exitReserved), trace, answers, v)
    requires Calm(answers, sight) && Undisturbed(trace, answers, start) && Unheld(start)
    requires sight == SeenExited || sight == SeenRunning(true)
    ensures v == if sight == SeenExited || !exitReserved then Reconciled else ExitPending
    ensures v == Reconciled ==> (KnownOf(trace).sent <==> sight == SeenRunning(true))
  {
    var kind := Reconciler(exitReserved);
    FitsAlways(kind, trace, answers, start, sight);
    DecidedIn(kind, trace);
    OneSight(kind, trace, answers, sight);
    var d := Decided(kind, trace).value;
    ReconcilerAnswers(v, exitReserved, KnownOf(trace), d);
    if d == SealedRow(true) {
      SealedSoSent(exitReserved, trace, sight);
    }
    hide *;
  }

  lemma ReconcilerAnswers(v: Verdict, exitReserved: bool, k: Known, d: Event)
    requires VerdictRests(v, exitReserved, k, d) && exists j :: !GoesOn(Reconciler(exitReserved), j, d)
    requires d == SealedRow(true) || GivesUp(d) || d == Observed(SeenRunning(true))
    ensures if d == SealedRow(true) then v == Reconciled else v == ExitPending && exitReserved && d == Observed(SeenRunning(true))
  {
  }

  lemma SealedSoSent(exitReserved: bool, trace: seq<Event>, sight: Sight)
    requires Allowed(trace) && Prepared(trace, false) && Closes(Reconciler(exitReserved), trace)
    requires Decided(Reconciler(exitReserved), trace) == Some(SealedRow(true)) && SealedRow(true) in trace
    requires forall s :: Observed(s) in trace ==> s == sight
    requires sight == SeenExited || sight == SeenRunning(true)
    ensures KnownOf(trace).sent <==> sight == SeenRunning(true)
    ensures exitReserved ==> sight == SeenExited
  {
    var kind := Reconciler(exitReserved);
    if sight == SeenRunning(true) { SealedBySending(trace); }
    if KnownOf(trace).sent {
      SentSawRunning(trace, false);
      if exitReserved {
        assert AlwaysStops(kind, Observed(SeenRunning(true)));
        DecidedExactly(kind, trace, Observed(SeenRunning(true)));
      }
    }
    hide *;
  }
}
