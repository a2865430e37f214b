/** Awaiting one handoff: the loop that looks for a final result, and the cleanup of a claimed one, in
    their own form.  Between any two of their steps other processes may leave the relation in any
    state, and every answer from outside is arbitrary. */
module HandoffWaits {
  import opened Common
  import opened RetirementStore
  import opened HandoffResults
  import opened HandoffProtocol
  import opened HandoffAnswers

  /** What one step meets: the relation as the others have left it, and the answer of the world. */
  datatype Tick = Tick(
    h: Handoff, fenceCurrent: bool, ok: bool, evidence: Evidence, screen: Screen, life: Life, raises: bool,
    capture: Output, staged: Staged, open: bool, barrier: bool, contentLost: bool, exhausted: bool)

  /** What a waiter at this place makes of what it meets; `late`: its slice of time is used up. */
  function EventAt(pc: Pc, own: bool, valid: Output -> bool, now: Tick, late: bool): Event {
    match pc
    case Top => SawRelation(own && Visible(now.h))
    case ReadClaim => SawClaim(If(own, ClaimedOutput(now.h)))
    case ReadResult => SawResult(now.h.result)
    case Poll => if now.raises then Raised else SawTerminal(now.screen, now.life)
    case ReadDelivered(_, _) => SawDelivered(If(own, DeliveredOutput(now.h)))
    case ReadOwn(_, _) => SawClaim(If(own, ClaimedOutput(now.h)))
    case Gone => Acked(If(own, AcknowledgeDirect(now.h).1))
    case GivingUp => CancelledAll(now.exhausted, now.open)
    case ReadBarrier(_) => SawBarrier(now.barrier)
    case Staging(_) => ClaimedStaged(now.staged, now.open, If(own, ClaimStaged(now.h, now.staged, now.open).1))
    case ReadStaged(_) => SawClaim(If(own, ClaimedOutput(now.h)))
    case ReadContent(_) => SawContent(now.contentLost)
    case ReadStructured(_) => SawStructured(Visible(now.h) && now.h.structured)
    case Capturing(_) => if now.raises then Raised else Captured(now.capture, valid(now.capture))
    case Verifying(_, _) => if now.raises then Raised else SawTerminal(now.screen, now.life)
    case Recapturing(_, _, _) => if now.raises then Raised else Captured(now.capture, valid(now.capture))
    case Claiming(o, _, _) => ClaimedDirect(o, now.open, If(own, ClaimDirect(now.h, o, now.open).1))
    case LegacyExit(_) => PostedExit(now.ok)
    case Bottom => if late then TimeUp else Slept
    case Exiting => PostedExit(now.ok)
    case ReadManaged => SawManaged(Visible(now.h) ==> now.h.managed)
    case ClaimingRow => ClaimedRow(now.evidence, ClaimRetirement(now.h, Mode.Handoff, now.evidence).1)
    case ReadIntent(t) => FoundIntent(t, now.h.row.claim == Some(t) && now.h.row.intent)
    case Cleaning(_) => CleanedUp(now.ok)
    case Sealing(t) => SealedRow(t, now.ok && MaySeal(now.h, t))
    case Releasing(t) => ReleasedRow(t, CanRelease(now.h.row, t))
    case Acknowledging => Acked(If(own, AcknowledgeDirect(now.h).1))
    case _ => Fence(now.fenceCurrent)
  }

  /** The event says what the world answered at this step; what the store answers is `Truthful`. */
  predicate Told(e: Event, valid: Output -> bool, now: Tick, late: bool) {
    match e
    case Raised => now.raises
    case SawTerminal(s, l) => !now.raises && s == now.screen && l == now.life
    case CancelledAll(exhausted, open) => exhausted == now.exhausted && open == now.open
    case SawBarrier(waiting) => waiting == now.barrier
    case ClaimedStaged(staged, open, _) => staged == now.staged && open == now.open
    case SawContent(lost) => lost == now.contentLost
    case Captured(text, ok) => !now.raises && text == now.capture && ok == valid(text)
    case ClaimedDirect(_, open, _) => open == now.open
    case Fence(current) => current == now.fenceCurrent
    case PostedExit(ok) => ok == now.ok
    case ClaimedRow(evidence, _) => evidence == now.evidence
    case CleanedUp(ok) => ok == now.ok
    case SealedRow(t, ok) => ok == (now.ok && MaySeal(now.h, t))
    case Slept => !late
    case TimeUp => late
    case _ => true
  }

  lemma EventTold(pc: Pc, own: bool, valid: Output -> bool, now: Tick, late: bool)
    requires !pc.Ended?
    ensures Told(EventAt(pc, own, valid, now, late), valid, now, late)
  {
    hide MaySeal, Claim;
  }

  lemma EventTruthful(pc: Pc, own: bool, valid: Output -> bool, now: Tick, late: bool)
    ensures Truthful(now.h, own, EventAt(pc, own, valid, now, late))
  {
    hide Claim, MaySeal;
  }

  lemma EventLooks(pc: Pc, own: bool, valid: Output -> bool, now: Tick, late: bool)
    requires Looks(pc)
    ensures var e := EventAt(pc, own, valid, now, late); e.Raised? || Look(pc, e).Some?
  {
  }

  lemma EventAccepts(pc: Pc, own: bool, valid: Output -> bool, now: Tick, late: bool)
    requires !Looks(pc) && !CleansUp(pc) && !pc.Ended?
    ensures var e := EventAt(pc, own, valid, now, late); e.Raised? || Accept(pc, e).Some?
  {
  }

  lemma EventCleans(pc: Pc, own: bool, valid: Output -> bool, now: Tick, late: bool)
    requires CleansUp(pc)
    ensures var e := EventAt(pc, own, valid, now, late); e.Raised? || Clean(pc, e).Some?
  {
  }

  /** Whatever a waiter meets, its protocol goes on, with an answer the store and the world can give. */
  lemma EventAllowed(pc: Pc, own: bool, valid: Output -> bool, now: Tick, late: bool)
    requires !pc.Ended?
    ensures Advance(pc, EventAt(pc, own, valid, now, late)).Some?
    ensures Truthful(now.h, own, EventAt(pc, own, valid, now, late))
  {
    EventTruthful(pc, own, valid, now, late);
    if Looks(pc) {
      EventLooks(pc, own, valid, now, late);
    } else if CleansUp(pc) {
      EventCleans(pc, own, valid, now, late);
    } else {
      EventAccepts(pc, own, valid, now, late);
    }
    hide EventAt, Look, Accept, Clean, Truthful;
  }

  class Waiter {
    const answers: nat -> Tick
    const valid: Output -> bool
    const own: bool
    const deadline: nat
    var h: Handoff
    var trace: seq<Event>

    constructor (answers: nat -> Tick, valid: Output -> bool, own: bool, deadline: nat, h: Handoff)
      ensures this.answers == answers && this.valid == valid && this.own == own && this.deadline == deadline
      ensures this.h == h && trace == []
    {
      this.answers, this.valid, this.own, this.deadline := answers, valid, own, deadline;
      this.h, trace := h, [];
    }

    /** The next step's event. */
    function Due(pc: Pc): Event
      reads this
    {
      EventAt(pc, own, valid, answers(|trace|), |trace| >= deadline)
    }

    /** Every step so far was the one due at its place, with what the waiter met there. */
    ghost predicate Followed()
      reads this
    {
      && Walk(trace).Some?
      && forall i :: 0 <= i < |trace| ==> StepDue(i)
    }

    ghost predicate StepDue(i: nat)
      reads this
      requires i < |trace|
    {
      Walk(trace[..i]).Some? && trace[i] == EventAt(Walk(trace[..i]).value, own, valid, answers(i), i >= deadline)
    }

    /** The waiter is at this place, and got there step by step. */
    ghost predicate At(pc: Pc)
      reads this
    {
      Followed() && Walk(trace) == Some(pc)
    }

    /** One step: the others have acted, and the relation takes the step's effect. */
    method Cross(e: Event, now: Tick, ghost pc: Pc)
      requires At(pc) && !pc.Ended? && now == answers(|trace|) && e == Due(pc)
      modifies this
      ensures trace == old(trace) + [e] && h == Apply(now.h, own, e) && Advance(pc, e).Some? && At(Advance(pc, e).value)
    {
      EventAllowed(pc, own, valid, now, |trace| >= deadline);
      WalkSnoc(trace, e);
      ghost var before := trace;
      trace := trace + [e];
      h := Apply(now.h, own, e);
      assert trace[..|before|] == before;
      hide Walk, EventAt, Advance, Apply;
      forall i: nat | i < |trace| ensures StepDue(i) {
        assert trace[..i] == before[..i];
        assert i < |before| ==> trace[i] == before[i] && old(StepDue(i));
      }
    }

    /** A read that changes nothing but the place. */
    method Claimed(ghost pc: Pc) returns (o: Option<Output>)
      requires At(pc) && (pc.ReadClaim? || pc.ReadOwn? || pc.ReadStaged?)
      modifies this
      ensures |old(trace)| <= |trace|
      ensures trace == old(trace) + [SawClaim(o)] && At(Advance(pc, SawClaim(o)).value)
    {
      hide At, Apply;
      var now := answers(|trace|);
      o := if own then ClaimedOutput(now.h) else None;
      Cross(SawClaim(o), now, pc);
    }

    method ReadTerminal(ghost pc: Pc) returns (ok: bool, s: Screen, l: Life)
      requires At(pc) && (pc.Poll? || pc.Verifying?)
      modifies this
      ensures |old(trace)| <= |trace|
      ensures At(if ok then Advance(pc, SawTerminal(s, l)).value else Ended(FailedWait))
    {
      hide At, Apply;
      var now := answers(|trace|);
      ok, s, l := !now.raises, now.screen, now.life;
      Cross(if ok then SawTerminal(s, l) else Raised, now, pc);
    }

    method Capture(ghost pc: Pc) returns (ok: bool, output: Output)
      requires At(pc) && (pc.Capturing? || pc.Recapturing?)
      modifies this
      ensures |old(trace)| <= |trace|
      ensures At(if ok then Advance(pc, Captured(output, valid(output))).value else Ended(FailedWait))
    {
      hide At, Apply;
      var now := answers(|trace|);
      ok, output := !now.raises, now.capture;
      Cross(if ok then Captured(output, valid(output)) else Raised, now, pc);
    }

    method AcknowledgeResult(ghost pc: Pc) returns (o: Option<Output>)
      requires At(pc) && (pc.Gone? || pc.Acknowledging?)
      modifies this
      ensures |old(trace)| <= |trace|
      ensures At(Advance(pc, Acked(o)).value)
    {
      hide At, Apply;
      var now := answers(|trace|);
      o := if own then AcknowledgeDirect(now.h).1 else None;
      Cross(Acked(o), now, pc);
    }

    method PostExit(ghost pc: Pc) returns (ok: bool)
      requires At(pc) && (pc.Exiting? || pc.LegacyExit?)
      modifies this
      ensures |old(trace)| <= |trace|
      ensures At(Advance(pc, PostedExit(ok)).value)
    {
      hide At, Apply;
      var now := answers(|trace|);
      ok := now.ok;
      Cross(PostedExit(ok), now, pc);
    }

    method CancelAssignments() returns (r: Reply)
      requires At(GivingUp)
      modifies this
      ensures |old(trace)| <= |trace|
      ensures r == FailedWait && At(Ended(r))
    {
      hide At, Apply;
      var now := answers(|trace|);
      Cross(CancelledAll(now.exhausted, now.open), now, GivingUp);
      return FailedWait;
    }

    // -------------------------------------------------------------- cleanup of a claimed result

    method RuntimeFence(ghost pc: Pc) returns (current: bool)
      requires At(pc) && (pc.FenceFirst? || pc.FenceClaim? || pc.FenceIntent? || pc.FenceClean? || pc.FenceSeal? || pc.FenceLast?)
      modifies this
      ensures |old(trace)| <= |trace|
      ensures At(Advance(pc, Fence(current)).value)
    {
      hide At, Apply;
      var now := answers(|trace|);
      current := now.fenceCurrent;
      Cross(Fence(current), now, pc);
    }

    /** `_finish_claimed_handoff_runtime_fence`. */
    method FinishClaimedHandoffRuntimeFence(t: Token) returns (r: Reply)
      requires At(Releasing(t))
      modifies this
      ensures |old(trace)| <= |trace|
      ensures At(Ended(r)) && r == if CanRelease(answers(|old(trace)|).h.row, t) then RuntimeFenced else ReleaseUnconfirmed
    {
      hide At, Apply;
      var now := answers(|trace|);
      var released := CanRelease(now.h.row, t);
      Cross(ReleasedRow(t, released), now, Releasing(t));
      return if released then RuntimeFenced else ReleaseUnconfirmed;
    }

    method ClaimRetirementRow() returns (g: Grant)
      requires At(ClaimingRow)
      modifies this
      ensures |old(trace)| <= |trace|
      ensures At(match g case Refused => Ended(Waiting) case AlreadyRetired => FenceLast case Granted(t, _, _) => FenceIntent(t))
    {
      hide At, Apply;
      var now := answers(|trace|);
      g := ClaimRetirement(now.h, Mode.Handoff, now.evidence).1;
      Cross(ClaimedRow(now.evidence, g), now, ClaimingRow);
    }

    method FindIntent(t: Token) returns (found: bool)
      requires At(ReadIntent(t))
      modifies this
      ensures |old(trace)| <= |trace|
      ensures At(if found then FenceClean(t) else Ended(Waiting))
    {
      hide At, Apply;
      var now := answers(|trace|);
      found := now.h.row.claim == Some(t) && now.h.row.intent;
      Cross(FoundIntent(t, found), now, ReadIntent(t));
    }

    method CleanUpWorktree(t: Token) returns (ok: bool)
      requires At(Cleaning(t))
      modifies this
      ensures |old(trace)| <= |trace|
      ensures At(if ok then FenceSeal(t) else Ended(Waiting))
    {
      hide At, Apply;
      var now := answers(|trace|);
      ok := now.ok;
      Cross(CleanedUp(ok), now, Cleaning(t));
    }

    method Seal(t: Token) returns (ok: bool)
      requires At(Sealing(t))
      modifies this
      ensures |old(trace)| <= |trace|
      ensures At(if ok then FenceLast else Ended(Waiting))
    {
      hide At, Apply;
      var now := answers(|trace|);
      ok := now.ok && MaySeal(now.h, t);
      Cross(SealedRow(t, ok), now, Sealing(t));
    }

    /** With the retirement claimed: find the intent, clean the worktree, seal. */
    method RetireClaimed(t: Token) returns (r: Option<Reply>)
      requires At(FenceIntent(t))
      modifies this
      ensures |old(trace)| <= |trace|
      ensures At(if r.Some? then Ended(r.value) else FenceLast)
    {
      hide At, EventAt;
      var current := RuntimeFence(FenceIntent(t));
      if !current { var x := FinishClaimedHandoffRuntimeFence(t); return Some(x); }
      var found := FindIntent(t);
      if !found { return Some(Waiting); }
      current := RuntimeFence(FenceClean(t));
      if !current { var x := FinishClaimedHandoffRuntimeFence(t); return Some(x); }
      var ok := CleanUpWorktree(t);
      if !ok { return Some(Waiting); }
      current := RuntimeFence(FenceSeal(t));
      if !current { var x := FinishClaimedHandoffRuntimeFence(t); return Some(x); }
      ok := Seal(t);
      return if ok then None else Some(Waiting);
    }

    /** The managed part: claim the retirement, and carry it through. */
    method RetireManaged() returns (r: Option<Reply>)
      requires At(FenceClaim)
      modifies this
      ensures |old(trace)| <= |trace|
      ensures At(if r.Some? then Ended(r.value) else FenceLast)
    {
      hide At, EventAt;
      var current := RuntimeFence(FenceClaim);
      if !current { return Some(RuntimeFenced); }
      var g := ClaimRetirementRow();
      match g {
        case Refused => return Some(Waiting);
        case AlreadyRetired => return None;
        case Granted(t, _, _) => r := RetireClaimed(t);
      }
    }

    method IsManaged() returns (managed: bool)
      requires At(ReadManaged)
      modifies this
      ensures |old(trace)| <= |trace|
      ensures At(if managed then FenceClaim else FenceLast)
    {
      hide At, Apply;
      var now := answers(|trace|);
      managed := Visible(now.h) ==> now.h.managed;
      Cross(SawManaged(managed), now, ReadManaged);
    }

    /** `_cleanup_claimed_handoff_result`. */
    method CleanupClaimedHandoffResult(l: Life) returns (r: Reply)
      requires At(FenceFirst(l))
      modifies this
      ensures |old(trace)| <= |trace|
      ensures At(Ended(r))
    {
      hide At, EventAt;
      var current := RuntimeFence(FenceFirst(l));
      if !current { return RuntimeFenced; }
      if l == Running {
        var ok := PostExit(Exiting);
        if !ok { return Waiting; }
      }
      var managed := IsManaged();
      if managed {
        var ended := RetireManaged();
        if ended.Some? { return ended.value; }
      }
      current := RuntimeFence(FenceLast);
      if !current { return RuntimeFenced; }
      var delivered := AcknowledgeResult(Acknowledging);
      return if delivered.Some? then Completed(delivered.value, ByCleanup) else Waiting;
    }

    // -------------------------------------------------------------- looking for a result

    /** `_durable_handoff_terminal_result`: three reads, and a claim may appear between them. */
    method DurableHandoffTerminalResult() returns (r: Option<Reply>)
      requires At(Top)
      modifies this
      ensures |old(trace)| < |trace|
      ensures At(if r.Some? then Ended(r.value) else Poll)
    {
      hide At, Apply;
      var now := answers(|trace|);
      var live := own && Visible(now.h);
      Cross(SawRelation(live), now, Top);
      if !live { return None; }
      var claimed := Claimed(ReadClaim);
      if claimed.Some? { return None; }
      now := answers(|trace|);
      Cross(SawResult(now.h.result), now, ReadResult);
      match now.h.result {
        case Complete(o) => return Some(Completed(o, ByResultRow));
        case Unsuccessful => return Some(FailedWait);
        case Open => return None;
      }
    }

    /** The relation's own result: delivered before, or claimed and to be cleaned up after. */
    method OwnResult(s: Screen, l: Life) returns (r: Option<Reply>)
      requires At(ReadDelivered(s, l))
      modifies this
      ensures |old(trace)| <= |trace|
      ensures At(if r.Some? then Ended(r.value) else Judge(s, l))
    {
      hide At, Apply;
      var now := answers(|trace|);
      var delivered := if own then DeliveredOutput(now.h) else None;
      Cross(SawDelivered(delivered), now, ReadDelivered(s, l));
      if delivered.Some? { return Some(Completed(delivered.value, ByDelivery)); }
      var claimed := Claimed(ReadOwn(s, l));
      if claimed.Some? {
        var cleaned := CleanupClaimedHandoffResult(l);
        return Some(cleaned);
      }
      return None;
    }

    /** The child is gone and not complete: deliver what was claimed meanwhile, or give up. */
    method ChildGone() returns (r: Reply)
      requires At(Gone)
      modifies this
      ensures |old(trace)| <= |trace|
      ensures At(Ended(r))
    {
      hide At, EventAt;
      var o := AcknowledgeResult(Gone);
      if o.Some? { return Completed(o.value, ByGone); }
      r := CancelAssignments();
    }

    method ClaimDirectResult(o: Output, l: Life, v: Life) returns (owned: Option<bool>)
      requires At(Claiming(o, l, v))
      modifies this
      ensures |old(trace)| <= |trace|
      ensures At(if owned == Some(false) then AtBottom(l) else if owned == Some(true) then FenceFirst(v)
                 else if v == Running then LegacyExit(o) else Ended(Completed(o, ByCapture)))
    {
      hide At, Apply;
      var now := answers(|trace|);
      owned := if own then ClaimDirect(now.h, o, now.open).1 else None;
      Cross(ClaimedDirect(o, now.open, owned), now, Claiming(o, l, v));
    }

    /** The second of two captures is there: claim the result, or answer for a relation that is none. */
    method ClaimCapture(o: Output, l: Life, v: Life) returns (r: Option<Reply>)
      requires At(Claiming(o, l, v))
      modifies this
      ensures |old(trace)| <= |trace|
      ensures At(if r.Some? then Ended(r.value) else AtBottom(l))
    {
      hide At, EventAt;
      var owned := ClaimDirectResult(o, l, v);
      if owned == Some(false) { return None; }
      if owned == Some(true) {
        var cleaned := CleanupClaimedHandoffResult(v);
        return Some(cleaned);
      }
      if v == Running {
        var ok := PostExit(LegacyExit(o));
        if !ok { return Some(Waiting); }
      }
      return Some(Completed(o, ByCapture));
    }

    /** No staged result and no structured child: two equal valid captures, each under COMPLETED. */
    method AcceptCapture(l: Life) returns (r: Option<Reply>)
      requires At(Capturing(l))
      modifies this
      ensures |old(trace)| <= |trace|
      ensures At(if r.Some? then Ended(r.value) else AtBottom(l))
    {
      hide At, EventAt;
      var ok, output := Capture(Capturing(l));
      if !ok { return Some(FailedWait); }
      if !valid(output) { return None; }
      var read, s, v := ReadTerminal(Verifying(output, l));
      if !read || v == OtherLife { return Some(FailedWait); }
      if s != ScreenCompleted { return None; }
      var again, verified := Capture(Recapturing(output, l, v));
      if !again { return Some(FailedWait); }
      if !valid(verified) || verified != output { return None; }
      r := ClaimCapture(output, l, v);
    }

    method ContentLost(l: Life) returns (lost: bool)
      requires At(ReadContent(l))
      modifies this
      ensures |old(trace)| <= |trace|
      ensures At(if lost then Ended(Waiting) else ReadStructured(l))
    {
      hide At, Apply;
      var now := answers(|trace|);
      lost := now.contentLost;
      Cross(SawContent(lost), now, ReadContent(l));
    }

    method IsStructured(l: Life) returns (structured: bool)
      requires At(ReadStructured(l))
      modifies this
      ensures |old(trace)| <= |trace|
      ensures At(if structured then AtBottom(l) else Capturing(l))
    {
      hide At, Apply;
      var now := answers(|trace|);
      structured := Visible(now.h) && now.h.structured;
      Cross(SawStructured(structured), now, ReadStructured(l));
    }

    method BarrierWaits(l: Life) returns (waiting: bool)
      requires At(ReadBarrier(l))
      modifies this
      ensures |old(trace)| <= |trace|
      ensures At(if waiting then AtBottom(l) else Staging(l))
    {
      hide At, Apply;
      var now := answers(|trace|);
      waiting := now.barrier;
      Cross(SawBarrier(waiting), now, ReadBarrier(l));
    }

    method ClaimStagedResult(l: Life) returns (owned: Option<bool>)
      requires At(Staging(l))
      modifies this
      ensures |old(trace)| <= |trace|
      ensures At(if owned == Some(true) then ReadStaged(l) else if owned == Some(false) then AtBottom(l) else ReadContent(l))
    {
      hide At, Apply;
      var now := answers(|trace|);
      owned := if own then ClaimStaged(now.h, now.staged, now.open).1 else None;
      Cross(ClaimedStaged(now.staged, now.open, owned), now, Staging(l));
    }

    /** The child reports completion: its staged result first, captures only without one. */
    method AcceptCompleted(l: Life) returns (r: Option<Reply>)
      requires At(ReadBarrier(l))
      modifies this
      ensures |old(trace)| <= |trace|
      ensures At(if r.Some? then Ended(r.value) else AtBottom(l))
    {
      hide At, EventAt;
      var waiting := BarrierWaits(l);
      if waiting { return None; }
      var owned := ClaimStagedResult(l);
      if owned == Some(true) {
        var claimed := Claimed(ReadStaged(l));
        if claimed.None? { return Some(Waiting); }
        var cleaned := CleanupClaimedHandoffResult(l);
        return Some(cleaned);
      }
      if owned == Some(false) { return None; }
      var lost := ContentLost(l);
      if lost { return Some(Waiting); }
      var structured := IsStructured(l);
      if structured { return None; }
      r := AcceptCapture(l);
    }

    /** One pass of the loop. */
    method LookOnce() returns (r: Option<Reply>)
      requires At(Top)
      modifies this
      ensures |old(trace)| < |trace|
      ensures At(if r.Some? then Ended(r.value) else Bottom)
    {
      hide At, EventAt;
      r := DurableHandoffTerminalResult();
      if r.Some? { return; }
      var ok, s, l := ReadTerminal(Poll);
      if !ok { return Some(FailedWait); }
      r := OwnResult(s, l);
      if r.Some? { return; }
      if l != Running && s != ScreenCompleted {
        var gone := ChildGone();
        return Some(gone);
      }
      if s == ScreenCompleted {
        r := AcceptCompleted(l);
        if r.Some? { return; }
      }
      if s == ScreenError || l != Running {
        var failed := CancelAssignments();
        return Some(failed);
      }
    }

    /** The end of a pass: the slice of time is used up, or another pass follows. */
    method Sleep() returns (late: bool)
      requires At(Bottom)
      modifies this
      ensures |old(trace)| <= |trace| && (!late ==> |old(trace)| < deadline)
      ensures At(if late then Ended(Waiting) else Top)
    {
      hide At, Apply;
      var now := answers(|trace|);
      late := |trace| >= deadline;
      Cross(if late then TimeUp else Slept, now, Bottom);
    }

    lemma EndedNotEmpty()
      requires Walk(trace).Some? && Walk(trace).value.Ended?
      ensures trace != []
    {
    }

    /** Nobody's answer is made up. */
    lemma AllTold()
      requires Followed()
      ensures forall i :: 0 <= i < |trace| ==>
        Told(trace[i], valid, answers(i), i >= deadline) && Truthful(answers(i).h, own, trace[i])
    {
      hide Told, Truthful, EventAt, Advance;
      forall i | 0 <= i < |trace|
        ensures Told(trace[i], valid, answers(i), i >= deadline) && Truthful(answers(i).h, own, trace[i])
      {
        assert StepDue(i);
        PrefixAllowed(trace, i);
        var pc := Walk(trace[..i]).value;
        EventTold(pc, own, valid, answers(i), i >= deadline);
        EventTruthful(pc, own, valid, answers(i), i >= deadline);
      }
    }

    /** `_await_handoff_impl`: passes until one answers or the slice of time is used up. */
    method AwaitHandoff() returns (r: Reply)
      requires trace == []
      modifies this
      ensures At(Ended(r))
      ensures r.Completed? && r.via == ByCapture ==> exists n :: CapturedTwiceAt(trace, r.output, n)
      ensures Justified(trace, Ended(r)) && SealsAfterCleanup(trace)
      ensures forall i :: 0 <= i < |trace| && Boundary(trace[i]) ==> i > 0 && trace[i - 1] == Fence(true)
      ensures trace != [] && Answers(trace[..|trace| - 1], trace[|trace| - 1], Ended(r))
      ensures forall i :: 0 <= i < |trace| ==>
        Told(trace[i], valid, answers(i), i >= deadline) && Truthful(answers(i).h, own, trace[i])
    {
      assert At(Top);
      hide Apply, EventAt;
      var found := None;
      while found.None?
        invariant At(if found.Some? then Ended(found.value) else Top)
        decreases found.None?, deadline - |trace|
      {
        found := LookOnce();
        if found.None? {
          var late := Sleep();
          if late { found := Some(Waiting); }
        }
      }
      r := found.value;
      CaptureRests(trace);
      CleanupJustified(trace);
      BoundariesFenced(trace);
      EndedNotEmpty();
      AnswersExactly(trace);
      AllTold();
    }
  }
}
