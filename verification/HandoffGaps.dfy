/** Where a wait breaks its promises: a claim that appears between two reads of one pass.  Exactly from
    which states some run returns a claimed result before its acknowledgement, or acknowledges it
    before its cleanup; and what a claimed or a staged result can always or never count on. */
module HandoffGaps {
  import opened Common
  import opened RetirementStore
  import opened HandoffResults
  import opened HandoffProtocol
  import opened HandoffRuns

  // ---------------------------------------------------------------- the only steps that break them

  /** The relation owes a cleanup. */
  predicate Owing(h: Handoff) { h.status == Claimed && h.result.Complete? }

  /** An acknowledgement comes before the cleanup exactly when the parent's waiter has found the child
      gone, and meanwhile a managed result was claimed and is not sealed. */
  lemma BypassedExactly(sys: System, pid: Pid, answer: Option<Output>)
    requires Sound(sys) && !sys.h.bypassed && Enabled(sys, pid, Acked(answer))
    ensures Crossed(sys, pid, Acked(answer)).h.bypassed <==>
      sys.waiters[pid] == Waiter(true, Gone) && Owing(sys.h) && sys.h.managed && !sys.h.row.completed
  {
    var w := sys.waiters[pid];
    EventPlaces(w.pc, Acked(answer));
    assert LifeKnown(Gone);
    hide Advance, LifeKnown;
  }

  /** A COMPLETED comes before the acknowledgement exactly when the parent's waiter has found no claim,
      and the result was claimed before it reads the result row. */
  lemma EarlyExactly(sys: System, pid: Pid, e: Event)
    requires Sound(sys) && !sys.early && Enabled(sys, pid, e)
    ensures Crossed(sys, pid, e).early <==> sys.waiters[pid] == Waiter(true, ReadResult) && e.SawResult? && Owing(sys.h)
  {
    EventPlaces(sys.waiters[pid].pc, e);
    hide Advance;
  }

  lemma OnlyAcknowledgingBypasses(h: Handoff, own: bool, e: Event)
    requires !e.Acked?
    ensures Apply(h, own, e).bypassed == h.bypassed
  {
    if e.ClaimedRow? {
      assert ClaimRetirement(h, Mode.Handoff, e.evidence).0.bypassed == h.bypassed;
    }
    hide ClaimRetirement, Sealed, Released;
  }

  lemma OthersBreakNothing(sys: System, l: Label)
    requires Sound(sys) && (l.Cross? ==> !Enabled(sys, l.pid, l.event) || (!l.event.Acked? && !l.event.SawResult?))
    ensures Step(sys, l).h.bypassed == sys.h.bypassed && Step(sys, l).early == sys.early
  {
    if l.Other? {
      DoKeepsOrder(sys.h, l.act);
    } else if l.Cross? && Enabled(sys, l.pid, l.event) {
      OnlyAcknowledgingBypasses(sys.h, sys.waiters[l.pid].own, l.event);
    }
    hide Advance, Truthful, Do, Sound, Apply;
  }

  // ---------------------------------------------------------------- from where it can happen

  /** A waiter that would not notice a claim that appears now. */
  predicate AtGap(w: Waiter) { w.own && (w.pc == Gone || w.pc == ReadResult) }

  /** A waiter that has not begun to look beyond the durable result. */
  predicate Beginning(w: Waiter) { w.own ==> w.pc.Top? || w.pc.ReadClaim? || w.pc.ReadResult? || w.pc.Ended? }

  /** No run from here breaks a promise: no capture can be claimed any more, or none could ever be. */
  ghost predicate Safe(sys: System) {
    || sys.h.structured
    || sys.h.result.Unsuccessful?
    || (sys.h.status != Awaiting && (Owing(sys.h) ==> forall p :: p in sys.waiters ==> !AtGap(sys.waiters[p])))
    || (sys.h.status == Awaiting && sys.h.result.Complete? && forall p :: p in sys.waiters ==> Beginning(sys.waiters[p]))
  }

  ghost predicate GapKept(pc: Pc, e: Event, n: Pc) {
    && (n == Gone || n == ReadResult ==> e == SawClaim(None) || pc == n)
    && (pc.Top? || pc.ReadClaim? || pc.ReadResult? ==>
          n.Top? || n.ReadClaim? || n.ReadResult? || n.Ended? || e == SawRelation(false) || (e.SawClaim? && e.output.Some?)
          || e == SawResult(Open))
    && (e.ClaimedDirect? ==> pc.Claiming?)
  }

  lemma GapLook(pc: Pc, e: Event)
    requires Look(pc, e).Some?
    ensures GapKept(pc, e, Look(pc, e).value)
  {
  }

  lemma GapClean(pc: Pc, e: Event)
    requires Clean(pc, e).Some?
    ensures GapKept(pc, e, Clean(pc, e).value)
  {
  }

  lemma GapAccept(pc: Pc, e: Event)
    requires Accept(pc, e).Some? && !Looks(pc)
    ensures GapKept(pc, e, Accept(pc, e).value)
  {
  }

  lemma GapStep(pc: Pc, e: Event)
    requires Advance(pc, e).Some?
    ensures GapKept(pc, e, Advance(pc, e).value)
  {
    assert GapKept(pc, Raised, Ended(FailedWait));
    hide GapKept, Look, Accept, Clean, CleansUp, Looks;
    if e.Raised? {
    } else if Looks(pc) {
      GapLook(pc, e);
    } else if CleansUp(pc) {
      GapClean(pc, e);
    } else {
      GapAccept(pc, e);
    }
  }

  /** Only a claim of the live call makes the relation owe a cleanup. */
  lemma OwingStep(h: Handoff, own: bool, e: Event)
    requires Orderly(h) && Truthful(h, own, e)
    ensures var n := Apply(h, own, e);
      && (n.status == Claimed && h.status != Claimed ==> own && e.ClaimedDirect? && h.status == Awaiting && !h.structured)
      && (Owing(h) && own ==> e != SawClaim(None))
      && (e == SawResult(Open) ==> h.result.Open?)
      && (e == SawRelation(false) && own ==> h.status != Awaiting)
      && (e.SawClaim? && e.output.Some? ==> h.status == Claimed)
  {
    hide Claim, CanSeal, Sealed, Released;
  }

  lemma SafeCross(sys: System, pid: Pid, e: Event)
    requires Sound(sys) && Safe(sys) && Enabled(sys, pid, e) && Sound(Crossed(sys, pid, e))
    requires Later(sys.h, Crossed(sys, pid, e).h)
    ensures Safe(Crossed(sys, pid, e))
  {
    var w := sys.waiters[pid];
    GapStep(w.pc, e);
    OwingStep(sys.h, w.own, e);
    hide Advance, Apply, Truthful, PcSound;
  }

  lemma SafeStep(sys: System, l: Label)
    requires Sound(sys) && Safe(sys)
    ensures Safe(Step(sys, l))
  {
    SoundStep(sys, l);
    match l {
      case Cross(pid, e) => if Enabled(sys, pid, e) { SafeCross(sys, pid, e); }
      case Other(a) => DoKeepsOrder(sys.h, a);
      case _ =>
    }
    hide Advance, Apply, Truthful, PcSound, Do;
  }

  /** From a safe state no step breaks a promise. */
  lemma SafeHolds(sys: System, l: Label)
    requires Sound(sys) && Safe(sys)
    ensures Step(sys, l).h.bypassed == sys.h.bypassed && Step(sys, l).early == sys.early
  {
    if l.Cross? && Enabled(sys, l.pid, l.event) && (l.event.Acked? || l.event.SawResult?) {
      EarlyExactly(sys.(early := false), l.pid, l.event);
      if l.event.Acked? && !sys.h.bypassed { BypassedExactly(sys, l.pid, l.event.output); }
      SoundStep(sys, l);
      hide Advance, Apply, Truthful, PcSound;
    } else {
      OthersBreakNothing(sys, l);
    }
  }

  lemma {:induction false} SafeAlways(sys: System, labels: seq<Label>)
    requires Sound(sys) && Safe(sys)
    ensures Run(sys, labels).h.bypassed == sys.h.bypassed && Run(sys, labels).early == sys.early
    decreases |labels|
  {
    hide Sound, Safe, Step;
    if labels != [] {
      SoundStep(sys, labels[0]);
      SafeStep(sys, labels[0]);
      SafeHolds(sys, labels[0]);
      SafeAlways(Step(sys, labels[0]), labels[1..]);
    }
  }

  // ---------------------------------------------------------------- runs that do break them

  lemma {:induction false} RunConcat(sys: System, xs: seq<Label>, ys: seq<Label>)
    ensures Run(sys, xs + ys) == Run(Run(sys, xs), ys)
    decreases |xs|
  {
    hide Step;
    if xs == [] {
      assert xs + ys == ys;
    } else {
      assert (xs + ys)[1..] == xs[1..] + ys;
      RunConcat(Step(sys, xs[0]), xs[1..], ys);
    }
  }

  /** Nothing has been claimed yet, and a capture can be. */
  predicate Claimable(h: Handoff) { h.status == Awaiting && !h.structured && h.result.Open? }

  /** Where a waiter is headed: about to read the result row, at a child that is gone, at a staged result,
      or about to claim the second of two equal captures. */
  datatype Goal = ToResult | ToGone | ToStaged | ToClaim

  /** Nothing stands in the way: the result is awaited, and for a capture the child is unstructured. */
  predicate Clear(h: Handoff, g: Goal) {
    h.status == Awaiting && h.result.Open? && (g == ToGone ==> h.left) && (g == ToClaim ==> !h.structured)
  }

  function Target(g: Goal): Pc {
    match g
    case ToResult => ReadResult
    case ToGone => Gone
    case ToStaged => Staging(Running)
    case ToClaim => Claiming("done", Running, Running)
  }

  function ScreenFor(g: Goal): Screen { if g == ToGone then ScreenOther else ScreenCompleted }

  function LifeFor(g: Goal): Life { if g == ToGone then OtherLife else Running }

  /** The places on the way, and how far they are from the end. */
  function Distance(pc: Pc, g: Goal): Option<nat> {
    match pc
    case Top => Some(13)
    case ReadClaim => Some(12)
    case ReadResult => Some(11)
    case Poll => Some(10)
    case ReadDelivered(s, l) => if s == ScreenFor(g) && l == LifeFor(g) then Some(9) else None
    case ReadOwn(s, l) => if s == ScreenFor(g) && l == LifeFor(g) then Some(8) else None
    case ReadBarrier(l) => if (g == ToClaim || g == ToStaged) && l == Running then Some(7) else None
    case Staging(l) =>
      if g == ToStaged && l == Running then Some(0) else if g == ToClaim && l == Running then Some(6) else None
    case ReadContent(l) => if g == ToClaim && l == Running then Some(5) else None
    case ReadStructured(l) => if g == ToClaim && l == Running then Some(4) else None
    case Capturing(l) => if g == ToClaim && l == Running then Some(3) else None
    case Verifying(o, l) => if g == ToClaim && l == Running && o == "done" then Some(2) else None
    case Recapturing(o, l, v) => if g == ToClaim && l == Running && v == Running && o == "done" then Some(1) else None
    case Claiming(_, _, _) => if pc == Target(g) then Some(0) else None
    case Gone => if g == ToGone then Some(0) else None
    case _ => None
  }

  function Onward(pc: Pc, g: Goal): Event {
    match pc
    case Top => SawRelation(true)
    case ReadClaim => SawClaim(None)
    case ReadResult => SawResult(Open)
    case Poll => SawTerminal(ScreenFor(g), LifeFor(g))
    case ReadDelivered(_, _) => SawDelivered(None)
    case ReadOwn(_, _) => SawClaim(None)
    case ReadBarrier(_) => SawBarrier(false)
    case Staging(_) => ClaimedStaged(NoStaged, true, None)
    case ReadContent(_) => SawContent(false)
    case ReadStructured(_) => SawStructured(false)
    case Verifying(_, _) => SawTerminal(ScreenCompleted, Running)
    case _ => Captured("done", true)
  }

  function MovedTo(sys: System, pid: Pid, pc: Pc): System { sys.(waiters := sys.waiters[pid := Waiter(true, pc)]) }

  lemma OnwardStep(pc: Pc, g: Goal)
    requires Distance(pc, g).Some? && pc != Target(g) && (g == ToResult ==> Distance(pc, g).value > 11)
    ensures var n := Advance(pc, Onward(pc, g));
      n.Some? && Distance(n.value, g).Some? && Distance(n.value, g).value < Distance(pc, g).value
      && (g == ToResult ==> Distance(n.value, g).value >= 11)
  {
    if Looks(pc) {
      OnwardLook(pc, g);
    } else {
      OnwardAccept(pc, g);
    }
    hide Onward, Distance, Look, Accept, Clean, Target;
  }

  lemma OnwardLook(pc: Pc, g: Goal)
    requires Looks(pc) && Distance(pc, g).Some? && pc != Target(g) && (g == ToResult ==> Distance(pc, g).value > 11)
    ensures var n := Look(pc, Onward(pc, g));
      n.Some? && Distance(n.value, g).Some? && Distance(n.value, g).value < Distance(pc, g).value
      && (g == ToResult ==> Distance(n.value, g).value >= 11) && !Onward(pc, g).Raised?
  {
  }

  lemma OnwardAccept(pc: Pc, g: Goal)
    requires !Looks(pc) && Distance(pc, g).Some? && pc != Target(g)
    ensures var n := Accept(pc, Onward(pc, g));
      n.Some? && Distance(n.value, g).Some? && Distance(n.value, g).value < Distance(pc, g).value
      && !pc.Ended? && !CleansUp(pc) && !Onward(pc, g).Raised?
  {
  }

  lemma OnwardHarmless(h: Handoff, pc: Pc, g: Goal)
    requires Clear(h, g) && Distance(pc, g).Some? && pc != Target(g)
    ensures Truthful(h, true, Onward(pc, g)) && Apply(h, true, Onward(pc, g)) == h && !TooEarly(h, Onward(pc, g))
  {
  }

  lemma OnwardMoves(sys: System, pid: Pid, pc: Pc, g: Goal)
    requires Clear(sys.h, g) && Distance(pc, g).Some? && pc != Target(g) && Advance(pc, Onward(pc, g)).Some?
    ensures Step(MovedTo(sys, pid, pc), Cross(pid, Onward(pc, g))) == MovedTo(sys, pid, Advance(pc, Onward(pc, g)).value)
  {
    OnwardHarmless(sys.h, pc, g);
    hide Onward, Advance, Apply, Truthful, Clear, TooEarly, Distance, Target;
  }

  /** While the result is awaited, the parent's waiter can get to any of these places by reading. */
  lemma {:induction false} ReadsOnto(sys: System, pid: Pid, pc: Pc, g: Goal) returns (ls: seq<Label>)
    requires Clear(sys.h, g)
    requires Distance(pc, g).Some? && (g == ToResult ==> Distance(pc, g).value >= 11)
    ensures Run(MovedTo(sys, pid, pc), ls) == MovedTo(sys, pid, Target(g))
    decreases Distance(pc, g).value
  {
    if pc == Target(g) {
      ls := [];
    } else {
      var e := Onward(pc, g);
      OnwardStep(pc, g);
      OnwardMoves(sys, pid, pc, g);
      var n := Advance(pc, e).value;
      hide Onward, Distance, Advance, Clear, Target, Step, MovedTo;
      var rest := ReadsOnto(sys, pid, n, g);
      ls := [Cross(pid, e)] + rest;
      assert ls[1..] == rest;
    }
  }

  lemma EnterAndRead(sys: System, pid: Pid, g: Goal) returns (ls: seq<Label>)
    requires Clear(sys.h, g)
    ensures Run(sys, ls) == MovedTo(sys, pid, Target(g))
  {
    assert Step(sys, Enter(pid, true)) == MovedTo(sys, pid, Top);
    assert Distance(Top, g) == Some(13);
    hide Clear, Target, Step;
    var rest := ReadsOnto(sys, pid, Top, g);
    ls := [Enter(pid, true)] + rest;
    assert ls[1..] == rest;
  }

  /** Two waiters of the parent: one gets to its goal, and then the other claims what it captured. */
  lemma ClaimedMeanwhile(sys: System, g: Goal) returns (ls: seq<Label>)
    requires Claimable(sys.h) && (g == ToGone ==> sys.h.left) && (g == ToGone || g == ToResult)
    ensures var later := Run(sys, ls);
      && later.h == sys.h.(status := Claimed, result := Complete("done"))
      && 0 in later.waiters && later.waiters[0] == Waiter(true, Target(g))
  {
    var first := EnterAndRead(sys, 1, ToClaim);
    var s1 := MovedTo(sys, 1, Target(ToClaim));
    var second := EnterAndRead(s1, 0, g);
    var s2 := MovedTo(s1, 0, Target(g));
    var claim := Cross(1, ClaimedDirect("done", true, Some(true)));
    ClaimStep(s2, 1);
    ls := first + second + [claim];
    hide Step, Target, MovedTo;
    RunConcat(sys, first + second, [claim]);
    RunConcat(sys, first, second);
    assert [claim][1..] == [];
    assert Run(s2, [claim]) == Step(s2, claim);
  }

  lemma ClaimStep(sys: System, pid: Pid)
    requires Claimable(sys.h) && pid in sys.waiters && sys.waiters[pid] == Waiter(true, Target(ToClaim))
    ensures var next := Step(sys, Cross(pid, ClaimedDirect("done", true, Some(true))));
      && next.h == sys.h.(status := Claimed, result := Complete("done"))
      && forall q :: q in sys.waiters && q != pid ==> q in next.waiters && next.waiters[q] == sys.waiters[q]
  {
  }

  lemma EarlyHappens(sys: System)
    requires Sound(sys) && Claimable(sys.h)
    ensures exists ls :: Run(sys, ls).early
  {
    var ls := ClaimedMeanwhile(sys, ToResult);
    var s := Run(sys, ls);
    var read := Cross(0, SawResult(Complete("done")));
    assert Step(s, read).early;
    hide Step;
    RunConcat(sys, ls, [read]);
    assert [read][1..] == [] && Run(s, [read]) == Step(s, read);
    assert Run(sys, ls + [read]).early;
  }

  lemma BypassHappens(sys: System)
    requires Sound(sys) && Claimable(sys.h) && sys.h.managed
    ensures exists ls :: Run(sys, ls).h.bypassed
  {
    var leave := Other(ChildLeaves);
    var left := Step(sys, leave);
    var ls := ClaimedMeanwhile(left, ToGone);
    var s := Run(left, ls);
    var ack := Cross(0, Acked(Some("done")));
    assert Step(s, ack).h.bypassed;
    hide Step;
    RunConcat(left, ls, [ack]);
    assert [ack][1..] == [] && Run(s, [ack]) == Step(s, ack);
    assert ([leave] + (ls + [ack]))[1..] == ls + [ack];
    assert Run(sys, [leave] + (ls + [ack])).h.bypassed;
  }

  // ---------------------------------------------------------------- exactly

  /** Nobody is in the middle of a wait. */
  ghost predicate AtRest(sys: System) {
    forall p :: p in sys.waiters ==> sys.waiters[p].pc.Top? || sys.waiters[p].pc.Ended?
  }

  /** With nobody in the middle of a wait, some run returns a result as COMPLETED before its
      acknowledgement exactly from a state in which a capture can still be claimed; and some run
      acknowledges before the cleanup exactly if, besides, the child is managed. */
  lemma BrokenExactly(sys: System)
    requires Sound(sys) && AtRest(sys) && !sys.early && !sys.h.bypassed
    ensures (exists ls :: Run(sys, ls).early) <==> Claimable(sys.h)
    ensures (exists ls :: Run(sys, ls).h.bypassed) <==> Claimable(sys.h) && sys.h.managed
  {
    if Claimable(sys.h) {
      EarlyHappens(sys);
      if sys.h.managed {
        BypassHappens(sys);
      } else {
        forall ls ensures !Run(sys, ls).h.bypassed { SoundAlways(sys, ls); }
      }
    } else {
      assert Safe(sys);
      forall ls ensures !Run(sys, ls).early && !Run(sys, ls).h.bypassed { SafeAlways(sys, ls); }
    }
  }

  // ---------------------------------------------------------------- a claimed result can be delivered

  /** How far a waiter that finds a claimed result is from answering. */
  function CleanupAhead(pc: Pc): Option<nat> {
    match pc
    case Top => Some(16)
    case ReadClaim => Some(15)
    case Poll => Some(14)
    case ReadDelivered(s, l) => if l == Exited then Some(13) else None
    case ReadOwn(s, l) => if l == Exited then Some(12) else None
    case FenceFirst(l) => if l == Exited then Some(11) else None
    case ReadManaged => Some(10)
    case FenceClaim => Some(9)
    case ClaimingRow => Some(8)
    case FenceIntent(_) => Some(7)
    case ReadIntent(_) => Some(6)
    case FenceClean(_) => Some(5)
    case Cleaning(_) => Some(4)
    case FenceSeal(_) => Some(3)
    case Sealing(_) => Some(2)
    case FenceLast => Some(1)
    case Acknowledging => Some(0)
    case _ => None
  }

  const AllEvidence := Evidence(true, true, true, true)

  /** What the waiter meets when nothing fails and the child has exited. */
  function Undisturbed(h: Handoff, pc: Pc): Event {
    match pc
    case Top => SawRelation(true)
    case ReadClaim => SawClaim(ClaimedOutput(h))
    case Poll => SawTerminal(ScreenOther, Exited)
    case ReadDelivered(_, _) => SawDelivered(None)
    case ReadOwn(_, _) => SawClaim(ClaimedOutput(h))
    case ReadManaged => SawManaged(h.managed)
    case ClaimingRow => ClaimedRow(AllEvidence, ClaimRetirement(h, Mode.Handoff, AllEvidence).1)
    case ReadIntent(t) => FoundIntent(t, true)
    case Cleaning(_) => CleanedUp(true)
    case Sealing(t) => SealedRow(t, true)
    case _ => Fence(true)
  }

  /** The child has exited, its result is claimed, and a retirement that is under way is the waiter's. */
  ghost predicate Ready(h: Handoff, pc: Pc) {
    && Orderly(h) && Owing(h) && h.exited
    && (pc.FenceIntent? || pc.ReadIntent? || pc.FenceClean? || pc.Cleaning? || pc.FenceSeal? || pc.Sealing? ==>
          h.row.claim == Some(pc.t) && h.row.intent && !h.row.completed)
  }

  ghost predicate Nearer(pc: Pc, n: Option<Pc>) {
    n.Some? && CleanupAhead(pc).Some? && CleanupAhead(n.value).Some? && CleanupAhead(n.value).value < CleanupAhead(pc).value
  }

  lemma UndisturbedLook(h: Handoff, pc: Pc)
    requires Ready(h, pc) && CleanupAhead(pc).Some? && Looks(pc)
    ensures Nearer(pc, Look(pc, Undisturbed(h, pc))) && !Undisturbed(h, pc).Raised?
  {
    hide Orderly;
  }

  lemma UndisturbedClean(h: Handoff, pc: Pc)
    requires Ready(h, pc) && CleanupAhead(pc).Some? && !Looks(pc) && pc != Acknowledging
    ensures Nearer(pc, Clean(pc, Undisturbed(h, pc))) && CleansUp(pc) && !Undisturbed(h, pc).Raised?
  {
    hide Orderly, ClaimRetirement;
    if pc == ClaimingRow {
      UndisturbedClaim(h);
    } else {
      hide Owing;
    }
  }

  lemma UndisturbedClaim(h: Handoff)
    requires Ready(h, ClaimingRow)
    ensures Nearer(ClaimingRow, Clean(ClaimingRow, Undisturbed(h, ClaimingRow)))
  {
    ClaimGranted(h);
    hide Orderly, ClaimRetirement;
  }

  lemma UndisturbedAdvances(h: Handoff, pc: Pc)
    requires Ready(h, pc) && CleanupAhead(pc).Some? && pc != Acknowledging
    ensures Nearer(pc, Advance(pc, Undisturbed(h, pc)))
  {
    if Looks(pc) {
      UndisturbedLook(h, pc);
    } else {
      UndisturbedClean(h, pc);
    }
    hide Ready, Nearer, Undisturbed, Look, Clean, Accept, CleanupAhead;
  }

  lemma ClaimGranted(h: Handoff)
    requires Orderly(h) && Owing(h) && h.exited
    ensures var (n, g) := ClaimRetirement(h, Mode.Handoff, AllEvidence);
      && n == h.(row := n.row)
      && (if h.row.completed then g == AlreadyRetired && n == h
          else g.Granted? && n.row.claim == Some(g.token) && n.row.intent && !n.row.completed)
  {
  }

  lemma UndisturbedTrue(h: Handoff, pc: Pc)
    requires Ready(h, pc) && CleanupAhead(pc).Some? && pc != Acknowledging
    ensures var e := Undisturbed(h, pc);
      && Truthful(h, true, e) && Owing(Apply(h, true, e)) && Apply(h, true, e).exited
      && Apply(h, true, e).result == h.result
  {
    ClaimGranted(h);
    hide ClaimRetirement, Orderly;
  }

  lemma StaysReady(h: Handoff, pc: Pc)
    requires Ready(h, pc) && CleanupAhead(pc).Some? && pc != Acknowledging
    requires Advance(pc, Undisturbed(h, pc)).Some? && Orderly(Apply(h, true, Undisturbed(h, pc)))
    ensures Ready(Apply(h, true, Undisturbed(h, pc)), Advance(pc, Undisturbed(h, pc)).value)
  {
    UndisturbedTrue(h, pc);
    ClaimGranted(h);
    hide ClaimRetirement, Orderly;
    if Looks(pc) {
      hide Clean, Accept;
    } else {
      hide Look, Accept;
    }
  }

  lemma {:induction false} DeliversFrom(sys: System, pid: Pid) returns (ls: seq<Label>)
    requires Sound(sys) && pid in sys.waiters && sys.waiters[pid].own
    requires CleanupAhead(sys.waiters[pid].pc).Some? && Ready(sys.h, sys.waiters[pid].pc)
    ensures PcOf(Run(sys, ls), pid) == Ended(Completed(sys.h.result.output, ByCleanup)) && Run(sys, ls).h.acks == 1
    decreases CleanupAhead(sys.waiters[pid].pc).value
  {
    var pc := sys.waiters[pid].pc;
    if pc == Acknowledging {
      ls := [Cross(pid, Acked(Some(sys.h.result.output)))];
      assert ls[1..] == [];
      assert Run(sys, ls) == Step(sys, ls[0]);
    } else {
      var e := Undisturbed(sys.h, pc);
      UndisturbedAdvances(sys.h, pc);
      UndisturbedTrue(sys.h, pc);
      SoundStep(sys, Cross(pid, e));
      StaysReady(sys.h, pc);
      var next := Step(sys, Cross(pid, e));
      assert next.waiters[pid] == Waiter(true, Advance(pc, e).value) && next.h == Apply(sys.h, true, e);
      hide Sound, Ready, CleanupAhead, Undisturbed, Advance, Apply, Truthful, Step;
      var rest := DeliversFrom(next, pid);
      ls := [Cross(pid, e)] + rest;
      assert ls[1..] == rest;
    }
  }

  /** Nothing is wedged: from any state a run can reach, a claimed result of a child that has exited is
      cleaned up, acknowledged and returned by one undisturbed wait, however many waits died before. */
  lemma ClaimedCanBeDelivered(sys: System, pid: Pid)
    requires Sound(sys) && Owing(sys.h) && sys.h.exited
    ensures exists ls :: PcOf(Run(sys, ls), pid) == Ended(Completed(sys.h.result.output, ByCleanup)) && Run(sys, ls).h.acks == 1
  {
    var entered := Step(sys, Enter(pid, true));
    SoundStep(sys, Enter(pid, true));
    var rest := DeliversFrom(entered, pid);
    var ls := [Enter(pid, true)] + rest;
    assert ls[1..] == rest;
    hide Step, Sound;
    assert Run(sys, ls) == Run(entered, rest);
  }

  // ---------------------------------------------------------------- staged results

  /** A structured child is never claimed by a live call, so no waiter ever cleans up after it or
      acknowledges for it: its cleanup is left to the recovery. */
  lemma {:induction false} StructuredNeverCleanedUp(sys: System, labels: seq<Label>, pid: Pid)
    requires Sound(sys) && sys.h.structured && sys.h.acks == 0 && !CleansUp(PcOf(sys, pid))
    ensures Run(sys, labels).h.acks == 0 && !CleansUp(PcOf(Run(sys, labels), pid))
    decreases |labels|
  {
    if labels != [] {
      SoundStep(sys, labels[0]);
      StructuredStep(sys, labels[0], pid);
      hide Sound, Step, Orderly;
      StructuredNeverCleanedUp(Step(sys, labels[0]), labels[1..], pid);
    }
  }

  lemma StructuredStep(sys: System, l: Label, pid: Pid)
    requires Sound(sys) && sys.h.structured && sys.h.acks == 0 && !CleansUp(PcOf(sys, pid))
    ensures Step(sys, l).h.acks == 0 && !CleansUp(PcOf(Step(sys, l), pid))
  {
    match l {
      case Other(a) => DoKeepsOrder(sys.h, a);
      case Cross(q, e) =>
        if Enabled(sys, q, e) {
          StructuredApplies(sys.h, sys.waiters[q].own, e);
          ReachedStep(sys.waiters[q].pc, e);
        }
      case _ =>
    }
    hide Advance, Apply, Truthful, Do, CleansUp;
  }

  lemma StructuredApplies(h: Handoff, own: bool, e: Event)
    requires Orderly(h) && h.structured && Truthful(h, own, e)
    ensures Apply(h, own, e).acks == h.acks
    ensures !(e.SawClaim? && e.output.Some?) && !(e.ClaimedDirect? && e.answer == Some(true))
  {
    hide Claim, Sealed, Released, CanSeal;
  }

  lemma CrossMoved(sys: System, pid: Pid, pc: Pc, e: Event, h: Handoff)
    requires Advance(pc, e).Some? && Truthful(sys.h, true, e) && Apply(sys.h, true, e) == h && !TooEarly(sys.h, e)
    ensures Step(MovedTo(sys, pid, pc), Cross(pid, e)) == MovedTo(sys.(h := h), pid, Advance(pc, e).value)
  {
    hide Advance, Truthful, Apply, TooEarly;
  }

  lemma RunTwo(sys: System, a: Label, b: Label)
    ensures Run(sys, [a, b]) == Step(Step(sys, a), b)
  {
    hide Step;
    assert [a, b][1..] == [b] && [b][1..] == [];
    assert Run(Step(sys, a), [b]) == Run(Step(Step(sys, a), b), []);
  }

  function Submitted(h: Handoff, o: Output): Handoff { h.(status := Queued, inboxed := true, result := Complete(o)) }

  /** The waiter takes the staged result, and does not find it among the claims. */
  lemma StagedTaken(sys: System, pid: Pid, o: Output) returns (ls: seq<Label>)
    requires Clear(sys.h, ToStaged)
    ensures Run(sys, ls) == MovedTo(sys.(h := Submitted(sys.h, o)), pid, Ended(Waiting))
  {
    var e, f := ClaimedStaged(StagedOutput(o), true, Some(true)), SawClaim(None);
    assert Advance(Target(ToStaged), e) == Some(ReadStaged(Running)) && Advance(ReadStaged(Running), f) == Some(Ended(Waiting));
    CrossMoved(sys, pid, Target(ToStaged), e, Submitted(sys.h, o));
    CrossMoved(sys.(h := Submitted(sys.h, o)), pid, ReadStaged(Running), f, Submitted(sys.h, o));
    var first := EnterAndRead(sys, pid, ToStaged);
    hide Step, MovedTo, Advance, Clear, Target, Truthful, Apply;
    RunTwo(Run(sys, first), Cross(pid, e), Cross(pid, f));
    ls := first + [Cross(pid, e), Cross(pid, f)];
    RunConcat(sys, first, [Cross(pid, e), Cross(pid, f)]);
  }

  lemma QueuedReturned(sys: System, pid: Pid, o: Output) returns (ls: seq<Label>)
    requires sys.h.status == Queued && sys.h.result == Complete(o)
    ensures Run(sys, ls) == MovedTo(sys, pid, Ended(Completed(o, ByResultRow)))
  {
    var e, f, g := SawRelation(true), SawClaim(None), SawResult(Complete(o));
    assert Advance(Top, e) == Some(ReadClaim) && Advance(ReadClaim, f) == Some(ReadResult);
    assert Advance(ReadResult, g) == Some(Ended(Completed(o, ByResultRow)));
    assert Step(sys, Enter(pid, true)) == MovedTo(sys, pid, Top);
    CrossMoved(sys, pid, Top, e, sys.h);
    CrossMoved(sys, pid, ReadClaim, f, sys.h);
    CrossMoved(sys, pid, ReadResult, g, sys.h);
    hide Step, MovedTo, Advance, Truthful, Apply;
    RunTwo(sys, Enter(pid, true), Cross(pid, e));
    RunTwo(Run(sys, [Enter(pid, true), Cross(pid, e)]), Cross(pid, f), Cross(pid, g));
    ls := [Enter(pid, true), Cross(pid, e)] + [Cross(pid, f), Cross(pid, g)];
    RunConcat(sys, [Enter(pid, true), Cross(pid, e)], [Cross(pid, f), Cross(pid, g)]);
  }

  /** A staged result is queued, not claimed: the waiter that took it answers that it is still waiting,
      and the next wait returns the result from its row, with nothing exited or cleaned up by either. */
  lemma StagedReturnedUncleaned(sys: System, pid: Pid, o: Output)
    requires Sound(sys) && sys.h.status == Awaiting && sys.h.result.Open?
    ensures exists first, second ::
      var waited := Run(sys, first);
      && PcOf(waited, pid) == Ended(Waiting)
      && PcOf(Run(waited, second), pid) == Ended(Completed(o, ByResultRow))
      && Run(waited, second).h == Submitted(sys.h, o)
  {
    var first := StagedTaken(sys, pid, o);
    var second := QueuedReturned(Run(sys, first), pid, o);
    hide Run;
    assert PcOf(Run(sys, first), pid) == Ended(Waiting);
    assert PcOf(Run(Run(sys, first), second), pid) == Ended(Completed(o, ByResultRow));
  }

  // ---------------------------------------------------------------- a final unsuccessful result

  /** A waiter that has not looked beyond the result row yet, or has failed on it. */
  predicate AtRow(w: Waiter) {
    w.own && (w.pc == Top || w.pc == ReadClaim || w.pc == ReadResult || w.pc == Ended(FailedWait))
  }

  /** Whatever else happens short of a withdrawal, the parent's wait on a result that is final and
      unsuccessful can only fail: it never answers that it is still waiting, nor anything else. */
  lemma {:induction false} UnsuccessfulOnlyFails(sys: System, labels: seq<Label>, pid: Pid)
    requires Sound(sys) && sys.h.result == Unsuccessful && sys.h.status != Unregistered
    requires pid in sys.waiters ==> AtRow(sys.waiters[pid])
    requires Enter(pid, false) !in labels && Run(sys, labels).h.status != Withdrawn
    ensures var later := Run(sys, labels);
      && later.h.result == Unsuccessful
      && (pid in later.waiters ==> AtRow(later.waiters[pid]))
      && (forall r :: PcOf(later, pid) == Ended(r) ==> r == FailedWait)
    decreases |labels|
  {
    if labels != [] {
      var l := labels[0];
      var next := Step(sys, l);
      assert forall m :: m in labels[1..] ==> m in labels;
      SoundStep(sys, l);
      SoundAlways(next, labels[1..]);
      assert next.h.status != Withdrawn && next.h.status != Unregistered && sys.h.status != Withdrawn;
      hide Sound, Orderly;
      if l.Cross? && l.pid == pid && Enabled(sys, pid, l.event) {
        RowOnly(sys.h, sys.waiters[pid], l.event);
      }
      hide Advance, Apply, Truthful, Do, Later;
      UnsuccessfulOnlyFails(next, labels[1..], pid);
    }
  }

  lemma RowOnly(h: Handoff, w: Waiter, e: Event)
    requires AtRow(w) && h.result == Unsuccessful && Visible(h) && Truthful(h, w.own, e) && Advance(w.pc, e).Some?
    ensures AtRow(w.(pc := Advance(w.pc, e).value))
  {
    hide Accept, Clean;
  }

  /** And three undisturbed reads are enough. */
  lemma UnsuccessfulFails(sys: System, pid: Pid)
    requires sys.h.result == Unsuccessful && Visible(sys.h)
    ensures var labels := [Enter(pid, true), Cross(pid, SawRelation(true)), Cross(pid, SawClaim(None)),
                           Cross(pid, SawResult(Unsuccessful))];
      Run(sys, labels) == MovedTo(sys, pid, Ended(FailedWait))
  {
    var e, f, g := SawRelation(true), SawClaim(None), SawResult(Unsuccessful);
    assert Advance(Top, e) == Some(ReadClaim) && Advance(ReadClaim, f) == Some(ReadResult);
    assert Advance(ReadResult, g) == Some(Ended(FailedWait));
    assert Step(sys, Enter(pid, true)) == MovedTo(sys, pid, Top);
    CrossMoved(sys, pid, Top, e, sys.h);
    CrossMoved(sys, pid, ReadClaim, f, sys.h);
    CrossMoved(sys, pid, ReadResult, g, sys.h);
    var ab, cd := [Enter(pid, true), Cross(pid, e)], [Cross(pid, f), Cross(pid, g)];
    hide Step, MovedTo, Advance, Truthful, Apply;
    RunTwo(sys, Enter(pid, true), Cross(pid, e));
    RunTwo(Run(sys, ab), Cross(pid, f), Cross(pid, g));
    RunConcat(sys, ab, cd);
    assert ab + cd == [Enter(pid, true), Cross(pid, e), Cross(pid, f), Cross(pid, g)];
  }

  /** A waiter that has not looked beyond the result row yet, or has answered from it. */
  predicate AtComplete(w: Waiter, o: Output) { AtRow(w) || (w.own && w.pc == Ended(Completed(o, ByResultRow))) }

  /** Whatever else happens short of a withdrawal, the parent's wait on a complete result that no live
      call has claimed returns it, unless an access raises: it never answers that it is still waiting. */
  lemma {:induction false} CompleteOnlyReturned(sys: System, labels: seq<Label>, pid: Pid, o: Output)
    requires Sound(sys) && sys.h.result == Complete(o) && sys.h.status !in {Unregistered, Awaiting, Claimed}
    requires pid in sys.waiters ==> AtComplete(sys.waiters[pid], o)
    requires Enter(pid, false) !in labels && Run(sys, labels).h.status != Withdrawn
    ensures var later := Run(sys, labels);
      && later.h.result == Complete(o)
      && (pid in later.waiters ==> AtComplete(later.waiters[pid], o))
      && (forall r :: PcOf(later, pid) == Ended(r) ==> r == FailedWait || r == Completed(o, ByResultRow))
    decreases |labels|
  {
    if labels != [] {
      var l := labels[0];
      var next := Step(sys, l);
      assert forall m :: m in labels[1..] ==> m in labels;
      SoundStep(sys, l);
      SoundAlways(next, labels[1..]);
      NeverClaimedLate(sys, l);
      assert next.h.status !in {Withdrawn, Unregistered, Awaiting} && sys.h.status != Withdrawn;
      hide Sound, Orderly;
      if l.Cross? && l.pid == pid && Enabled(sys, pid, l.event) {
        CompleteRowOnly(sys.h, sys.waiters[pid], l.event, o);
      }
      hide Advance, Apply, Truthful, Do, Later;
      CompleteOnlyReturned(next, labels[1..], pid, o);
    }
  }

  lemma NeverClaimedLate(sys: System, l: Label)
    requires Sound(sys) && sys.h.status != Awaiting && sys.h.status != Claimed
    ensures Step(sys, l).h.status != Claimed
  {
    if l.Other? {
      DoKeepsOrder(sys.h, l.act);
    } else if l.Cross? && Enabled(sys, l.pid, l.event) {
      OwingStep(sys.h, sys.waiters[l.pid].own, l.event);
    }
    hide Advance, Truthful, Do, Sound, Apply;
  }

  lemma CompleteRowOnly(h: Handoff, w: Waiter, e: Event, o: Output)
    requires AtComplete(w, o) && h.result == Complete(o) && Visible(h) && h.status != Claimed
    requires Truthful(h, w.own, e) && Advance(w.pc, e).Some?
    ensures AtComplete(w.(pc := Advance(w.pc, e).value), o)
  {
    hide Accept, Clean;
  }
}
