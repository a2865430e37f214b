/** What each answer of a wait rests on, said from the events of its trace alone, and where a wait
    goes on, gives up or posts an exit. */
module HandoffAnswers {
  import opened Common
  import opened RetirementStore
  import opened HandoffResults
  import opened HandoffProtocol

  // ---------------------------------------------------------------- the last two events

  function Last(trace: seq<Event>): Option<Event> {
    if trace == [] then None else Some(trace[|trace| - 1])
  }

  /** What the place after an event shows of that event. */
  ghost predicate Arrives(e: Event, pc: Pc) {
    && (pc.ReadClaim? <==> e == SawRelation(true))
    && (pc.ReadResult? ==> e == SawClaim(None)) && (pc.Gone? ==> e == SawClaim(None))
    && (pc.ReadOwn? <==> e == SawDelivered(None))
    && (pc.ReadStaged? <==> e.ClaimedStaged? && e.answer == Some(true))
    && (pc.ReadContent? <==> e.ClaimedStaged? && e.answer == None)
    && (pc.ReadStructured? <==> e == SawContent(false))
    && (pc.Capturing? <==> e == SawStructured(false))
    && (pc.Staging? <==> e == SawBarrier(false))
    && (pc.Verifying? || pc.Claiming? ==> e.Captured? && e.valid)
    && (pc.Poll? ==> e.SawRelation? || e.SawClaim? || e.SawResult?)
    && (pc.ReadDelivered? || pc.Recapturing? ==> e.SawTerminal?)
    && (pc.LegacyExit? ==> e.ClaimedDirect? && e.answer == None && e.text == pc.o)
    && (Guarded(pc) ==> e == Fence(true))
    && (pc.FenceFirst? ==> e.SawClaim? || e.ClaimedDirect?)
    && (pc.Top? ==> e == Slept)
  }

  lemma ArrivesLook(pc: Pc, e: Event)
    requires Look(pc, e).Some?
    ensures Arrives(e, Look(pc, e).value)
  {
  }

  lemma ArrivesAccept(pc: Pc, e: Event)
    requires !Looks(pc) && Accept(pc, e).Some?
    ensures Arrives(e, Accept(pc, e).value)
  {
    ThreeAnswers(e);
  }

  lemma ThreeAnswers(e: Event)
    ensures e.ClaimedDirect? || e.ClaimedStaged? ==> e.answer == None || e.answer == Some(true) || e.answer == Some(false)
  {
    if e.ClaimedDirect? || e.ClaimedStaged? {
      match e.answer {
        case None =>
        case Some(b) => assert b == true || b == false;
      }
    }
  }

  lemma ArrivesClean(pc: Pc, e: Event)
    requires Clean(pc, e).Some?
    ensures Arrives(e, Clean(pc, e).value)
  {
  }

  lemma ArrivesStep(pc: Pc, e: Event)
    requires Advance(pc, e).Some?
    ensures Arrives(e, Advance(pc, e).value)
  {
    assert Arrives(Raised, Ended(FailedWait));
    hide Arrives, Look, Accept, Clean, Looks, CleansUp;
    if e.Raised? {
    } else if Looks(pc) {
      ArrivesLook(pc, e);
    } else if CleansUp(pc) {
      ArrivesClean(pc, e);
    } else {
      ArrivesAccept(pc, e);
    }
  }

  // ---------------------------------------------------------------- how a wait ends

  /** The wait holds a retirement claim that it has not sealed. */
  function Holds(trace: seq<Event>): bool
    decreases |trace|
  {
    if trace == [] then false
    else
      var e := trace[|trace| - 1];
      if e.ClaimedRow? then e.grant.Granted? else if e.SealedRow? then !e.ok else Holds(trace[..|trace| - 1])
  }

  /** The wait fails on `e` right after `before`: an access raised, the result row is final and
      unsuccessful, the child was given up, or it vanished while its capture was verified. */
  predicate FailsOn(before: seq<Event>, e: Event) {
    || e.Raised? || e == SawResult(Unsuccessful) || e.CancelledAll?
    || (e.SawTerminal? && e.life == OtherLife && before != [] && before[|before| - 1].Captured?)
  }

  /** The wait has to be repeated after `e`: its time is up, the content is lost, a staged result is not
      among the claims, or a step of the cleanup or an exit was not confirmed. */
  predicate WaitsOn(before: seq<Event>, e: Event) {
    || e == TimeUp || e == SawContent(true) || e == PostedExit(false)
    || (e.ClaimedRow? && e.grant.Refused?) || (e.FoundIntent? && !e.found) || e == CleanedUp(false) || (e.SealedRow? && !e.ok)
    || (e == SawClaim(None) && before != [] && before[|before| - 1].ClaimedStaged?)
    || (e == Acked(None) && before != [] && before[|before| - 1] == Fence(true))
  }

  /** A runtime fence ends the wait, at once while nothing is held, or after the claim was released. */
  predicate FencedOn(before: seq<Event>, e: Event) {
    (e == Fence(false) && !Holds(before)) || (e.ReleasedRow? && e.ok)
  }

  /** `o` is returned for this reason after `e`. */
  predicate CompletesOn(before: seq<Event>, e: Event, o: Output, via: Via) {
    match via
    case ByResultRow => e == SawResult(Complete(o))
    case ByDelivery => e == SawDelivered(Some(o))
    case ByCleanup => e == Acked(Some(o)) && before != [] && before[|before| - 1] == Fence(true)
    case ByGone => e == Acked(Some(o)) && (before == [] || before[|before| - 1] != Fence(true))
    case ByCapture =>
      || (e.ClaimedDirect? && e.text == o && e.answer == None && LastLife(before) != Some(Running))
      || (e == PostedExit(true) && before != [] && before[|before| - 1].ClaimedDirect?
          && before[|before| - 1].text == o && before[|before| - 1].answer == None)
  }

  /** The life of the child that was seen last. */
  function LastLife(trace: seq<Event>): Option<Life>
    decreases |trace|
  {
    if trace == [] then None
    else if trace[|trace| - 1].SawTerminal? then Some(trace[|trace| - 1].life)
    else LastLife(trace[..|trace| - 1])
  }

  /** What the places show of the whole trace. */
  ghost predicate Shown(trace: seq<Event>, pc: Pc) {
    && (trace == [] ==> pc == Top) && (trace != [] ==> Arrives(trace[|trace| - 1], pc))
    && (pc.Ended? || (Holds(trace) <==> InClaim(pc)))
    && LivesShown(trace, pc)
  }

  predicate InClaim(pc: Pc) {
    pc.FenceIntent? || pc.ReadIntent? || pc.FenceClean? || pc.Cleaning? || pc.FenceSeal? || pc.Sealing? || pc.Releasing?
  }

  ghost predicate LivesShown(trace: seq<Event>, pc: Pc) {
    match pc
    case ReadDelivered(_, l) => LastLife(trace) == Some(l)
    case ReadOwn(_, l) => LastLife(trace) == Some(l)
    case ReadBarrier(l) => LastLife(trace) == Some(l)
    case Staging(l) => LastLife(trace) == Some(l)
    case ReadStaged(l) => LastLife(trace) == Some(l)
    case ReadContent(l) => LastLife(trace) == Some(l)
    case ReadStructured(l) => LastLife(trace) == Some(l)
    case Capturing(l) => LastLife(trace) == Some(l)
    case Verifying(_, l) => LastLife(trace) == Some(l)
    case Recapturing(_, _, v) => LastLife(trace) == Some(v)
    case Claiming(_, _, v) => LastLife(trace) == Some(v)
    case LegacyExit(_) => LastLife(trace) == Some(Running)
    case FenceFirst(l) => LastLife(trace) == Some(l)
    case Exiting => LastLife(trace) == Some(Running)
    case Gone => LastLife(trace).Some? && LastLife(trace) != Some(Running)
    case ReadManaged => LastLife(trace) != Some(Running) || (trace != [] && trace[|trace| - 1] == PostedExit(true))
    case _ => true
  }

  ghost predicate LifeMoves(before: seq<Event>, pc: Pc, e: Event, n: Pc) {
    LivesShown(before, pc) ==> LivesShown(before + [e], n)
  }

  lemma LifeSnoc(before: seq<Event>, e: Event)
    ensures LastLife(before + [e]) == if e.SawTerminal? then Some(e.life) else LastLife(before)
    ensures Holds(before + [e]) ==
      if e.ClaimedRow? then e.grant.Granted? else if e.SealedRow? then !e.ok else Holds(before)
  {
    assert (before + [e])[..|before|] == before;
  }

  lemma LifeMovesLook(before: seq<Event>, pc: Pc, e: Event)
    requires Look(pc, e).Some?
    ensures LifeMoves(before, pc, e, Look(pc, e).value)
  {
    LifeSnoc(before, e);
    hide LastLife;
  }

  lemma LifeMovesAccept(before: seq<Event>, pc: Pc, e: Event)
    requires Accept(pc, e).Some?
    ensures LifeMoves(before, pc, e, Accept(pc, e).value)
  {
    LifeSnoc(before, e);
    hide LastLife;
  }

  lemma LifeMovesClean(before: seq<Event>, pc: Pc, e: Event)
    requires Clean(pc, e).Some?
    ensures LifeMoves(before, pc, e, Clean(pc, e).value)
  {
    LifeSnoc(before, e);
    hide LastLife;
  }

  lemma LifeMovesStep(before: seq<Event>, pc: Pc, e: Event)
    requires Advance(pc, e).Some?
    ensures LifeMoves(before, pc, e, Advance(pc, e).value)
  {
    assert LivesShown(before + [e], Ended(FailedWait));
    hide LifeMoves, Look, Accept, Clean, Looks, CleansUp;
    if e.Raised? {
      assert LifeMoves(before, pc, e, Ended(FailedWait)) by { LifeRaised(before, pc, e); }
    } else if Looks(pc) {
      LifeMovesLook(before, pc, e);
    } else if CleansUp(pc) {
      LifeMovesClean(before, pc, e);
    } else {
      LifeMovesAccept(before, pc, e);
    }
  }

  lemma LifeRaised(before: seq<Event>, pc: Pc, e: Event)
    ensures LifeMoves(before, pc, e, Ended(FailedWait))
  {
  }

  /** The claim is held exactly between its grant and its seal. */
  ghost predicate ClaimMoves(pc: Pc, e: Event, n: Pc) {
    && (e.ClaimedRow? ==> pc.ClaimingRow?) && (e.SealedRow? ==> pc.Sealing?)
    && (n.Ended? ||
        (InClaim(n) <==> if e.ClaimedRow? then e.grant.Granted? else if e.SealedRow? then !e.ok else InClaim(pc)))
  }

  lemma ClaimMovesStep(pc: Pc, e: Event)
    requires Advance(pc, e).Some?
    ensures ClaimMoves(pc, e, Advance(pc, e).value)
  {
    assert ClaimMoves(pc, Raised, Ended(FailedWait));
    hide ClaimMoves, Look, Accept, Clean, Looks, CleansUp;
    if e.Raised? {
    } else if Looks(pc) {
      ClaimMovesLook(pc, e);
    } else if CleansUp(pc) {
      ClaimMovesClean(pc, e);
    } else {
      ClaimMovesAccept(pc, e);
    }
  }

  lemma ClaimMovesLook(pc: Pc, e: Event)
    requires Look(pc, e).Some?
    ensures ClaimMoves(pc, e, Look(pc, e).value)
  {
  }

  lemma ClaimMovesAccept(pc: Pc, e: Event)
    requires Accept(pc, e).Some?
    ensures ClaimMoves(pc, e, Accept(pc, e).value)
  {
  }

  lemma ClaimMovesClean(pc: Pc, e: Event)
    requires Clean(pc, e).Some?
    ensures ClaimMoves(pc, e, Clean(pc, e).value)
  {
  }

  /** In every trace of a wait. */
  lemma {:induction false} ShownAlways(trace: seq<Event>)
    requires Allowed(trace)
    ensures Shown(trace, Walk(trace).value)
    decreases |trace|
  {
    if trace != [] {
      var n := |trace| - 1;
      var t, e := trace[..n], trace[n];
      assert trace == t + [e];
      PrefixAllowed(trace, n);
      ShownAlways(t);
      var pc := Walk(t).value;
      var next := Walk(trace).value;
      ArrivesStep(pc, e);
      LifeMovesStep(t, pc, e);
      ClaimMovesStep(pc, e);
      LifeSnoc(t, e);
      hide Walk, Advance, Arrives, InClaim, LivesShown, Holds;
    }
  }

  // ---------------------------------------------------------------- exactly

  /** How the last event decides the answer. */
  ghost predicate Answers(before: seq<Event>, e: Event, n: Pc) {
    Refuses(before, e, n) && Completes(before, e, n)
  }

  ghost predicate Refuses(before: seq<Event>, e: Event, n: Pc) {
    && (n == Ended(FailedWait) <==> FailsOn(before, e))
    && (n == Ended(Waiting) <==> WaitsOn(before, e))
    && (n == Ended(RuntimeFenced) <==> FencedOn(before, e))
    && (n == Ended(ReleaseUnconfirmed) <==> e.ReleasedRow? && !e.ok)
  }

  ghost predicate Completes(before: seq<Event>, e: Event, n: Pc) {
    forall o, via :: n == Ended(Completed(o, via)) <==> CompletesOn(before, e, o, via)
  }

  /** What is known of the place before the last event. */
  ghost predicate Known(before: seq<Event>, pc: Pc) {
    && (before == [] ==> pc == Top) && (before != [] ==> Arrives(before[|before| - 1], pc))
    && (Holds(before) <==> InClaim(pc))
    && (pc.Claiming? ==> LastLife(before) == Some(pc.v))
  }

  /** What a looking step needs of the event before. */
  predicate LooksAfter(before: seq<Event>, pc: Pc) {
    before != [] ==>
      var last := before[|before| - 1];
      && (pc.Poll? ==> !last.Captured?) && (pc.ReadClaim? || pc.ReadOwn? ==> !last.ClaimedStaged?)
      && (pc.Gone? ==> last != Fence(true))
  }

  lemma RefusesLook(before: seq<Event>, pc: Pc, e: Event)
    requires LooksAfter(before, pc) && Looks(pc) && Look(pc, e).Some?
    ensures Refuses(before, e, Look(pc, e).value)
  {
    hide LastLife, Holds;
  }

  lemma CompletesLook(before: seq<Event>, pc: Pc, e: Event)
    requires Known(before, pc) && Looks(pc) && Look(pc, e).Some?
    ensures Completes(before, e, Look(pc, e).value)
  {
    hide LastLife, Holds;
  }

  predicate CleansAfter(before: seq<Event>, pc: Pc) {
    (Holds(before) <==> InClaim(pc)) && (pc.Acknowledging? ==> before != [] && before[|before| - 1] == Fence(true))
  }

  lemma RefusesClean(before: seq<Event>, pc: Pc, e: Event)
    requires CleansAfter(before, pc) && CleansUp(pc) && Clean(pc, e).Some?
    ensures Refuses(before, e, Clean(pc, e).value)
  {
    hide LastLife, Holds;
  }

  lemma CompletesClean(before: seq<Event>, pc: Pc, e: Event)
    requires Known(before, pc) && CleansUp(pc) && Clean(pc, e).Some?
    ensures Completes(before, e, Clean(pc, e).value)
  {
    hide LastLife, Holds;
  }

  predicate AcceptsAfter(before: seq<Event>, pc: Pc) {
    && (pc.Verifying? ==> before != [] && before[|before| - 1].Captured?)
    && (pc.ReadStaged? ==> before != [] && before[|before| - 1].ClaimedStaged?)
  }

  lemma RefusesAccept(before: seq<Event>, pc: Pc, e: Event)
    requires AcceptsAfter(before, pc) && !Looks(pc) && !CleansUp(pc) && Accept(pc, e).Some?
    ensures Refuses(before, e, Accept(pc, e).value)
  {
    ThreeAnswers(e);
    hide LastLife, Holds;
  }

  lemma CompletesAccept(before: seq<Event>, pc: Pc, e: Event)
    requires Known(before, pc) && !Looks(pc) && !CleansUp(pc) && Accept(pc, e).Some?
    ensures Completes(before, e, Accept(pc, e).value)
  {
    ThreeAnswers(e);
    hide LastLife, Holds;
  }

  /** Which event each answer of a wait rests on, exactly: the last event, and the one before it, say
      whether the wait has ended, and how. */
  lemma AnswersExactly(trace: seq<Event>)
    requires Allowed(trace) && trace != []
    ensures Answers(trace[..|trace| - 1], trace[|trace| - 1], Walk(trace).value)
  {
    var n := |trace| - 1;
    var t, e := trace[..n], trace[n];
    PrefixAllowed(trace, n);
    ShownAlways(t);
    var pc := Walk(t).value;
    assert Known(t, pc);
    AfterKnown(t, pc);
    hide LooksAfter, CleansAfter, AcceptsAfter, Refuses, Completes, Known, Shown, Look, Accept, Clean;
    if e.Raised? {
      RaisedAnswers(t);
    } else if Looks(pc) {
      RefusesLook(t, pc, e);
      CompletesLook(t, pc, e);
    } else if CleansUp(pc) {
      RefusesClean(t, pc, e);
      CompletesClean(t, pc, e);
    } else {
      RefusesAccept(t, pc, e);
      CompletesAccept(t, pc, e);
    }
  }

  lemma AfterKnown(before: seq<Event>, pc: Pc)
    requires Known(before, pc) && !pc.Ended?
    ensures if Looks(pc) then LooksAfter(before, pc) else if CleansUp(pc) then CleansAfter(before, pc) else AcceptsAfter(before, pc)
  {
    hide Holds, InClaim;
  }

  lemma RaisedAnswers(t: seq<Event>)
    ensures Answers(t, Raised, Ended(FailedWait))
  {
  }

  // ---------------------------------------------------------------- how a pass ends without an answer

  /** What the terminal showed in this pass: the last look at it that did not verify a capture. */
  function LastPoll(trace: seq<Event>): Option<(Screen, Life)>
    decreases |trace|
  {
    if trace == [] then None
    else
      var n := |trace| - 1;
      if trace[n].SawTerminal? && !(n > 0 && trace[n - 1].Captured?) then Some((trace[n].screen, trace[n].life))
      else LastPoll(trace[..n])
  }

  /** The pass has found nothing after `e`: no result of its own, a barrier or a staged result that is not
      this call's, a structured child without one, or a capture that is not valid, stable or claimable. */
  predicate IdleOn(before: seq<Event>, e: Event) {
    var n := |before|;
    || (e == SawClaim(None) && n > 0 && before[n - 1] == SawDelivered(None) && LastPoll(before).Some?
        && LastPoll(before).value.0 != ScreenCompleted && LastPoll(before).value.1 == Running)
    || e == SawBarrier(true) || (e.ClaimedStaged? && e.answer == Some(false)) || e == SawStructured(true)
    || (e.Captured? && !e.valid)
    || (e.Captured? && n > 1 && before[n - 1].SawTerminal? && before[n - 2].Captured? && before[n - 2].text != e.text)
    || (e.SawTerminal? && n > 0 && before[n - 1].Captured? && e.life != OtherLife && e.screen != ScreenCompleted)
    || (e.ClaimedDirect? && e.answer == Some(false))
  }

  /** The child is still running and has not failed. */
  predicate StillRuns(trace: seq<Event>) {
    LastPoll(trace).Some? && LastPoll(trace).value.0 != ScreenError && LastPoll(trace).value.1 == Running
  }

  /** The wait gives the child up after `e`: nothing was found and the child does not run or has failed, or
      it is gone and nothing was claimed meanwhile. */
  predicate GivesUpOn(before: seq<Event>, e: Event) {
    || (IdleOn(before, e) && !StillRuns(before))
    || (e == Acked(None) && before != [] && before[|before| - 1] != Fence(true))
  }

  /** The child is gone and not complete: what was claimed meanwhile is looked for once more. */
  predicate LooksAgainOn(before: seq<Event>, e: Event) {
    && e == SawClaim(None) && before != [] && before[|before| - 1] == SawDelivered(None)
    && LastPoll(before).Some? && LastPoll(before).value.0 != ScreenCompleted && LastPoll(before).value.1 != Running
  }

  ghost predicate Continues(before: seq<Event>, e: Event, n: Pc) {
    && (n == Bottom <==> IdleOn(before, e) && StillRuns(before))
    && (n == GivingUp <==> GivesUpOn(before, e))
    && (n == Gone <==> LooksAgainOn(before, e))
  }

  ghost predicate PollShown(trace: seq<Event>, pc: Pc) {
    match pc
    case ReadDelivered(s, l) => LastPoll(trace) == Some((s, l))
    case ReadOwn(s, l) => LastPoll(trace) == Some((s, l))
    case ReadBarrier(l) => LastPoll(trace) == Some((ScreenCompleted, l))
    case Staging(l) => LastPoll(trace) == Some((ScreenCompleted, l))
    case ReadContent(l) => LastPoll(trace) == Some((ScreenCompleted, l))
    case ReadStructured(l) => LastPoll(trace) == Some((ScreenCompleted, l))
    case Capturing(l) => LastPoll(trace) == Some((ScreenCompleted, l))
    case Verifying(_, l) => LastPoll(trace) == Some((ScreenCompleted, l))
    case Recapturing(_, l, _) => LastPoll(trace) == Some((ScreenCompleted, l))
    case Claiming(_, l, _) => LastPoll(trace) == Some((ScreenCompleted, l))
    case _ => true
  }

  ghost predicate PollMoves(before: seq<Event>, pc: Pc, e: Event, n: Pc) {
    PollShown(before, pc) && (before != [] ==> Arrives(before[|before| - 1], pc)) ==> PollShown(before + [e], n)
  }

  lemma PollSnoc(before: seq<Event>, e: Event)
    ensures LastPoll(before + [e]) ==
      if e.SawTerminal? && !(before != [] && before[|before| - 1].Captured?) then Some((e.screen, e.life)) else LastPoll(before)
  {
    assert (before + [e])[..|before|] == before;
  }

  lemma PollMovesLook(before: seq<Event>, pc: Pc, e: Event)
    requires Looks(pc) && Look(pc, e).Some?
    ensures PollMoves(before, pc, e, Look(pc, e).value)
  {
    PollSnoc(before, e);
    hide LastPoll;
  }

  lemma PollMovesAccept(before: seq<Event>, pc: Pc, e: Event)
    requires !Looks(pc) && Accept(pc, e).Some? && (pc.Verifying? ==> before != [])
    ensures PollMoves(before, pc, e, Accept(pc, e).value)
  {
    PollSnoc(before, e);
    hide LastPoll;
  }

  lemma PollMovesStep(before: seq<Event>, pc: Pc, e: Event)
    requires Advance(pc, e).Some? && (before == [] ==> pc == Top)
    ensures PollMoves(before, pc, e, Advance(pc, e).value)
  {
    hide PollMoves, Look, Accept, Clean;
    if e.Raised? {
      PollElsewhere(before, pc, e, Ended(FailedWait));
    } else if Looks(pc) {
      PollMovesLook(before, pc, e);
    } else if CleansUp(pc) {
      CleanStays(pc, e);
      PollElsewhere(before, pc, e, Clean(pc, e).value);
    } else {
      PollMovesAccept(before, pc, e);
    }
  }

  lemma CleanStays(pc: Pc, e: Event)
    requires Clean(pc, e).Some?
    ensures CleansUp(Clean(pc, e).value) || Clean(pc, e).value.Ended?
  {
  }

  lemma PollElsewhere(before: seq<Event>, pc: Pc, e: Event, n: Pc)
    requires CleansUp(n) || n.Ended?
    ensures PollMoves(before, pc, e, n)
  {
  }

  lemma {:induction false} PollAlways(trace: seq<Event>)
    requires Allowed(trace)
    ensures PollShown(trace, Walk(trace).value)
    decreases |trace|
  {
    if trace != [] {
      var n := |trace| - 1;
      var t, e := trace[..n], trace[n];
      assert trace == t + [e];
      PrefixAllowed(trace, n);
      PollAlways(t);
      ShownAlways(t);
      PollMovesStep(t, Walk(t).value, e);
      hide Walk, Advance, Arrives, LivesShown, Holds, InClaim, PollShown;
    }
  }

  /** What is known of the place before such an event. */
  ghost predicate Settled(before: seq<Event>, pc: Pc) {
    && (before == [] ==> pc == Top) && (before != [] ==> Arrives(before[|before| - 1], pc)) && PollShown(before, pc)
    && (pc.Recapturing? ==> |before| > 1 && before[|before| - 2] == Captured(pc.o, true))
    && (pc.Capturing? || pc.Recapturing? ==> before != [])
  }

  /** What a looking step needs of the events before. */
  predicate PollsAfter(before: seq<Event>, pc: Pc) {
    && (pc.ReadOwn? ==> LastPoll(before) == Some((pc.s, pc.l)) && before != [] && before[|before| - 1] == SawDelivered(None))
    && (pc.Gone? ==> before != [] && before[|before| - 1] == SawClaim(None))
    && (pc.ReadClaim? ==> before != [] && before[|before| - 1] == SawRelation(true))
    && (pc.Poll? ==> before != [] && !before[|before| - 1].Captured?)
  }

  lemma PollsAfterSettled(before: seq<Event>, pc: Pc)
    requires Settled(before, pc) && Looks(pc)
    ensures PollsAfter(before, pc)
  {
    hide LastPoll;
  }

  lemma ContinuesLook(before: seq<Event>, pc: Pc, e: Event)
    requires PollsAfter(before, pc) && Looks(pc) && Look(pc, e).Some?
    ensures Continues(before, e, Look(pc, e).value)
  {
    hide LastPoll;
  }

  lemma ContinuesAccept(before: seq<Event>, pc: Pc, e: Event)
    requires Settled(before, pc) && !Looks(pc) && !CleansUp(pc) && Accept(pc, e).Some?
    ensures Continues(before, e, Accept(pc, e).value)
  {
    ThreeAnswers(e);
    hide LastPoll;
  }

  lemma ContinuesClean(before: seq<Event>, pc: Pc, e: Event)
    requires pc.Acknowledging? && before != [] ==> before[|before| - 1] == Fence(true)
    requires CleansUp(pc) && Clean(pc, e).Some?
    ensures Continues(before, e, Clean(pc, e).value)
  {
    hide LastPoll, StillRuns;
  }

  /** Exactly when a pass that found nothing is followed by another, when the wait gives the child up, and
      when it looks whether something was claimed meanwhile. */
  lemma ContinuesExactly(trace: seq<Event>)
    requires Allowed(trace) && trace != []
    ensures Continues(trace[..|trace| - 1], trace[|trace| - 1], Walk(trace).value)
  {
    var n := |trace| - 1;
    var t, e := trace[..n], trace[n];
    PrefixAllowed(trace, n);
    ShownAlways(t);
    PollAlways(t);
    CaptureRests(t);
    var pc := Walk(t).value;
    SettledPlace(t, pc);
    hide PollsAfter, Continues, Settled, Shown, Rests, PollShown, Look, Accept, Clean;
    if e.Raised? {
      RaisedStops(t);
    } else if Looks(pc) {
      PollsAfterSettled(t, pc);
      ContinuesLook(t, pc, e);
    } else if CleansUp(pc) {
      assert pc.Acknowledging? && t != [] ==> t[|t| - 1] == Fence(true) by { SettledFence(t, pc); }
      ContinuesClean(t, pc, e);
    } else {
      ContinuesAccept(t, pc, e);
    }
  }

  lemma SettledFence(t: seq<Event>, pc: Pc)
    requires Settled(t, pc)
    ensures pc.Acknowledging? && t != [] ==> t[|t| - 1] == Fence(true)
  {
  }

  lemma RaisedStops(t: seq<Event>)
    ensures Continues(t, Raised, Ended(FailedWait))
  {
  }

  lemma SettledPlace(t: seq<Event>, pc: Pc)
    requires Shown(t, pc) && PollShown(t, pc) && Rests(t, pc)
    ensures Settled(t, pc)
  {
    hide Arrives, LivesShown, InClaim, Holds, LastPoll, LastScreen;
  }

  // ---------------------------------------------------------------- posting the exit

  /** The cleanup posts an exit exactly when the child was last seen running, and goes on from there only
      when the exit was confirmed. */
  lemma ExitPostedExactly(trace: seq<Event>)
    requires Allowed(trace) && trace != []
    ensures var n := |trace| - 1;
      var t, e := trace[..n], trace[n];
      && (e.PostedExit? ==> LastLife(t) == Some(Running))
      && (e.SawManaged? && LastLife(t) == Some(Running) ==> t != [] && t[n - 1] == PostedExit(true))
  {
    var n := |trace| - 1;
    PrefixAllowed(trace, n);
    ShownAlways(trace[..n]);
    ExitPlaces(Walk(trace[..n]).value, trace[n]);
    hide Arrives, Holds, InClaim, Advance;
  }

  lemma ExitPlaces(pc: Pc, e: Event)
    requires Advance(pc, e).Some?
    ensures e.PostedExit? ==> pc == Exiting || pc.LegacyExit?
    ensures e.SawManaged? ==> pc == ReadManaged
  {
    if Looks(pc) {
      hide Accept, Clean;
    } else if CleansUp(pc) {
      hide Look, Accept;
    } else {
      hide Look, Clean;
    }
  }
}
