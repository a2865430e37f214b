/** Any number of waiters at once on one handoff, beside the inbox, the recovery, housekeeping, the
    child and the parent's exit: every interleaving, with a death possible after every step. */
module HandoffRuns {
  import opened Common
  import opened RetirementStore
  import opened HandoffResults
  import opened HandoffProtocol

  type Pid = nat

  datatype Waiter = Waiter(own: bool, pc: Pc)

  /** `early`: a result was returned as COMPLETED while the live call's claim on it stood. */
  datatype System = System(h: Handoff, waiters: map<Pid, Waiter>, early: bool)

  datatype Label =
    | Enter(pid: Pid, own: bool)
    | Cross(pid: Pid, event: Event)
    | Die(pid: Pid)
    | Other(act: Act)

  predicate Enabled(sys: System, pid: Pid, e: Event) {
    && pid in sys.waiters && Advance(sys.waiters[pid].pc, e).Some?
    && Truthful(sys.h, sys.waiters[pid].own, e)
  }

  /** Returned from the result row, although the cleanup that the claim owes is still to come. */
  predicate TooEarly(h: Handoff, e: Event) { e.SawResult? && e.row.Complete? && h.status == Claimed }

  function Crossed(sys: System, pid: Pid, e: Event): System
    requires Enabled(sys, pid, e)
  {
    var w := sys.waiters[pid];
    System(Apply(sys.h, w.own, e), sys.waiters[pid := w.(pc := Advance(w.pc, e).value)], sys.early || TooEarly(sys.h, e))
  }

  function Step(sys: System, l: Label): System {
    match l
    case Enter(pid, own) => sys.(waiters := sys.waiters[pid := Waiter(own, Top)])
    case Cross(pid, e) => if Enabled(sys, pid, e) then Crossed(sys, pid, e) else sys
    case Die(pid) => sys.(waiters := sys.waiters - {pid})
    case Other(a) => sys.(h := Do(sys.h, a))
  }

  function Run(sys: System, labels: seq<Label>): System
    decreases |labels|
  {
    if labels == [] then sys else Run(Step(sys, labels[0]), labels[1..])
  }

  function Start(registered: bool, managed: bool, structured: bool): System {
    System(Fresh(registered, managed, structured), map[], false)
  }

  // ---------------------------------------------------------------- one waiter's effect on the relation

  /** What the step of a waiter may do to the relation: everything stays in order, and only an
      acknowledgement counts one. */
  ghost predicate Moves(h: Handoff, n: Handoff) {
    Orderly(n) && Later(h, n)
  }

  /** An acknowledgement needs that somebody saw the child leave. */
  lemma AcknowledgeKeepsOrder(h: Handoff)
    requires Orderly(h) && h.left
    ensures Moves(h, AcknowledgeDirect(h).0)
  {
  }

  lemma ClaimsKeepOrder(h: Handoff, o: Output, staged: Staged, open: bool)
    requires Orderly(h)
    ensures Moves(h, ClaimDirect(h, o, open).0) && Moves(h, ClaimStaged(h, staged, open).0)
  {
  }

  lemma RowKeepsOrder(h: Handoff, e: Event)
    requires Orderly(h) && (e.SealedRow? || e.ReleasedRow?) && Truthful(h, true, e)
    requires e.SealedRow? && e.ok ==> h.cleaned
    ensures Moves(h, Apply(h, true, e))
  {
  }

  lemma WorldKeepsOrder(h: Handoff, e: Event)
    requires Orderly(h) && (e.SawTerminal? || e.PostedExit? || e.CleanedUp?)
    requires e.CleanedUp? ==> h.exited
    ensures Moves(h, Apply(h, true, e))
  {
  }

  lemma LaterSame(h: Handoff)
    requires Orderly(h)
    ensures Moves(h, h)
  {
  }

  predicate Touches(e: Event) { e.Acked? || e.CancelledAll? || e.ClaimedStaged? || e.ClaimedDirect? || e.ClaimedRow? }

  lemma ApplyKeepsOrder(h: Handoff, own: bool, e: Event)
    requires Orderly(h) && Truthful(h, own, e)
    requires e.Acked? ==> h.left
    requires e.CleanedUp? ==> h.exited
    requires e.SealedRow? && e.ok ==> h.cleaned
    ensures Moves(h, Apply(h, own, e))
  {
    hide Orderly, Later, Truthful, Apply;
    if Touches(e) {
      TouchKeepsOrder(h, own, e);
    } else {
      PlainKeepsOrder(h, own, e);
    }
  }

  lemma TouchKeepsOrder(h: Handoff, own: bool, e: Event)
    requires Orderly(h) && Touches(e) && (e.Acked? ==> h.left)
    ensures Moves(h, Apply(h, own, e))
  {
    LaterSame(h);
    hide Orderly, Later, AcknowledgeDirect, ClaimDirect, ClaimStaged, CancelForChild, ClaimRetirement;
    match e {
      case Acked(_) => AcknowledgeKeepsOrder(h);
      case CancelledAll(exhausted, open) => ChildCancelKeepsOrder(h, exhausted, open);
      case ClaimedStaged(staged, open, _) => ClaimsKeepOrder(h, "", staged, open);
      case ClaimedDirect(o, open, _) => ClaimsKeepOrder(h, o, NoStaged, open);
      case ClaimedRow(ev, _) => ClaimingKeepsOrder(h, Mode.Handoff, ev);
    }
  }

  lemma PlainKeepsOrder(h: Handoff, own: bool, e: Event)
    requires Orderly(h) && Truthful(h, own, e)
    requires e.CleanedUp? ==> h.exited
    requires e.SealedRow? && e.ok ==> h.cleaned
    requires !Touches(e)
    ensures Moves(h, Apply(h, own, e))
  {
    LaterSame(h);
    if e.SealedRow? || e.ReleasedRow? {
      RowKeepsOrder(h, e);
    } else if e.SawTerminal? || e.PostedExit? || e.CleanedUp? {
      WorldKeepsOrder(h, e);
    }
    hide Orderly, Later, MaySeal, CanRelease, Sealed, Released;
  }

  // ---------------------------------------------------------------- the invariant

  /** The relation was claimed by a live call, and is what became of that claim. */
  predicate Mine(h: Handoff) { h.status in {Claimed, Delivered, Acknowledged, Withdrawn} && !h.inboxed }

  /** What a reply says about the relation, from then on. */
  ghost predicate Fair(h: Handoff, r: Reply) {
    r.Completed? && r.via != ByCapture ==>
      && h.result == Complete(r.output)
      && (r.via == ByDelivery || r.via == ByGone ==> h.acks == 1 || h.inboxed)
      && (r.via == ByGone ==> h.left)
      && (r.via == ByCleanup ==> h.acks == 1 && CleanupDone(h))
  }

  /** What a waiter's place promises about the relation. */
  ghost predicate PcSound(h: Handoff, own: bool, pc: Pc) {
    && (LifeKnown(pc) ==> h.left)
    && (CleansUp(pc) ==> own && Mine(h))
    && (pc.ReadClaim? || pc.ReadResult? ==> own)
    && (pc.FenceIntent? || pc.ReadIntent? || pc.FenceClean? || pc.Cleaning? ==> h.exited)
    && (pc.FenceSeal? || pc.Sealing? ==> h.cleaned)
    && (pc.FenceLast? || pc.Acknowledging? ==> CleanupDone(h))
    && (pc.Ended? ==> Fair(h, pc.reply))
  }

  ghost predicate Sound(sys: System) {
    Orderly(sys.h) && forall pid :: pid in sys.waiters ==> PcSound(sys.h, sys.waiters[pid].own, sys.waiters[pid].pc)
  }

  lemma StartSound(registered: bool, managed: bool, structured: bool)
    ensures Sound(Start(registered, managed, structured))
  {
    FreshOrderly(registered, managed, structured);
  }

  /** Whatever moves, what a waiter's place promises stays true. */
  lemma PcSoundLater(h: Handoff, n: Handoff, own: bool, pc: Pc)
    requires PcSound(h, own, pc) && Moves(h, n) && Orderly(h)
    ensures PcSound(n, own, pc)
  {
    hide LifeKnown, CleansUp;
  }

  // ---------------------------------------------------------------- one step

  /** The conditions under which a waiter's step keeps the relation in order. */
  lemma Prepared(h: Handoff, own: bool, pc: Pc, e: Event)
    requires Orderly(h) && PcSound(h, own, pc) && Advance(pc, e).Some?
    ensures e.Acked? ==> h.left
    ensures e.CleanedUp? ==> h.exited
    ensures e.SealedRow? && e.ok ==> h.cleaned
  {
    hide Orderly, Mine, CleanupDone;
    EventPlaces(pc, e);
    assert LifeKnown(Gone) && LifeKnown(Acknowledging);
  }

  /** Where these events can happen. */
  lemma EventPlaces(pc: Pc, e: Event)
    requires Advance(pc, e).Some?
    ensures e.Acked? ==> pc == Gone || pc == Acknowledging
    ensures e.CleanedUp? ==> pc.Cleaning?
    ensures e.SealedRow? ==> pc.Sealing?
    ensures e.SawResult? ==> pc.ReadResult?
  {
    if Looks(pc) {
      hide Accept, Clean;
    } else if CleansUp(pc) {
      hide Look, Accept;
    } else {
      hide Look, Clean;
    }
  }

  /** How a place of interest is reached. */
  ghost predicate Reached(pc: Pc, e: Event, n: Pc) {
    && (CleansUp(n) ==> CleansUp(pc) || (e.SawClaim? && e.output.Some?) || (e.ClaimedDirect? && e.answer == Some(true)))
    && (n.ReadClaim? ==> e == SawRelation(true)) && (n.ReadResult? ==> pc.ReadClaim? && e == SawClaim(None))
    && (n.FenceIntent? ==> e.ClaimedRow? && e.grant.Granted?)
    && (n.ReadIntent? || n.FenceClean? || n.Cleaning? ==> pc.FenceIntent? || pc.ReadIntent? || pc.FenceClean?)
    && (n.Ended? && n.reply.Completed? ==>
          match n.reply.via
          case ByResultRow => e == SawResult(Complete(n.reply.output))
          case ByDelivery => e == SawDelivered(Some(n.reply.output))
          case ByGone => pc == Gone && e == Acked(Some(n.reply.output))
          case ByCleanup => pc == Acknowledging && e == Acked(Some(n.reply.output))
          case ByCapture => true)
  }

  lemma ReachedLook(pc: Pc, e: Event)
    requires Look(pc, e).Some?
    ensures Reached(pc, e, Look(pc, e).value)
  {
  }

  lemma ReachedAccept(pc: Pc, e: Event)
    requires Accept(pc, e).Some?
    ensures Reached(pc, e, Accept(pc, e).value)
  {
  }

  lemma ReachedClean(pc: Pc, e: Event)
    requires Clean(pc, e).Some?
    ensures Reached(pc, e, Clean(pc, e).value)
  {
  }

  lemma ReachedStep(pc: Pc, e: Event)
    requires Advance(pc, e).Some?
    ensures Reached(pc, e, Advance(pc, e).value)
  {
    assert Reached(pc, e, Ended(FailedWait));
    hide Reached, Look, Accept, Clean, Looks, CleansUp;
    if e.Raised? {
    } else if Looks(pc) {
      ReachedLook(pc, e);
    } else if CleansUp(pc) {
      ReachedClean(pc, e);
    } else {
      ReachedAccept(pc, e);
    }
  }

  lemma CrossedSound(h: Handoff, own: bool, pc: Pc, e: Event)
    requires Orderly(h) && PcSound(h, own, pc) && Advance(pc, e).Some? && Truthful(h, own, e)
    requires Moves(h, Apply(h, own, e))
    ensures PcSound(Apply(h, own, e), own, Advance(pc, e).value)
  {
    ReachedStep(pc, e);
    LifeStep(pc, e);
    var n := Advance(pc, e).value;
    hide Advance;
    LifeSound(h, own, pc, e, n);
    CleanupSound(h, own, pc, e, n);
    ReplySound(h, own, pc, e, n);
  }

  /** What an answer shows about the state it leaves. */
  lemma EvidenceApplied(h: Handoff, own: bool, e: Event)
    requires Truthful(h, own, e)
    ensures var m := Apply(h, own, e);
      && (ExitKnown(e) ==> m.left) && (e == CleanedUp(true) ==> m.cleaned)
      && (RetirementOver(e) ==> m.managed ==> m.row.completed)
  {
  }

  lemma LifeSound(h: Handoff, own: bool, pc: Pc, e: Event, n: Pc)
    requires Orderly(h) && PcSound(h, own, pc) && LifeKept(pc, e, n) && Truthful(h, own, e) && Moves(h, Apply(h, own, e))
    ensures var m := Apply(h, own, e);
      && (LifeKnown(n) ==> m.left) && (n.FenceSeal? || n.Sealing? ==> m.cleaned)
      && (n.FenceLast? || n.Acknowledging? ==> CleanupDone(m))
  {
    EvidenceApplied(h, own, e);
    assert LifeKnown(FenceLast) && LifeKnown(Acknowledging);
    assert LifeKnown(pc) ==> h.left;
    assert pc.FenceSeal? ==> h.cleaned;
    assert pc.FenceLast? ==> CleanupDone(h);
    hide LifeKnown, CleansUp, Orderly, Apply, Truthful, ExitKnown, RetirementOver, PcSound;
  }

  lemma CleanupSound(h: Handoff, own: bool, pc: Pc, e: Event, n: Pc)
    requires Orderly(h) && PcSound(h, own, pc) && Reached(pc, e, n) && Truthful(h, own, e) && Moves(h, Apply(h, own, e))
    ensures var m := Apply(h, own, e);
      && (CleansUp(n) ==> own && Mine(m)) && (n.ReadClaim? || n.ReadResult? ==> own)
      && (n.FenceIntent? || n.ReadIntent? || n.FenceClean? || n.Cleaning? ==> m.exited)
  {
    hide LifeKnown, CleansUp;
  }

  lemma ReplyApplied(h: Handoff, own: bool, e: Event, o: Output)
    requires Orderly(h) && Truthful(h, own, e)
    requires e == SawResult(Complete(o)) || e == SawDelivered(Some(o)) || (e == Acked(Some(o)) && h.left)
    ensures var m := Apply(h, own, e);
      && m.result == Complete(o) && m.left == h.left && m.managed == h.managed && m.row == h.row
      && (!e.SawResult? ==> own && (m.acks == 1 || m.inboxed))
      && (e.Acked? && Mine(h) ==> m.acks == 1)
  {
  }

  lemma ReplySound(h: Handoff, own: bool, pc: Pc, e: Event, n: Pc)
    requires Orderly(h) && PcSound(h, own, pc) && Reached(pc, e, n) && Truthful(h, own, e)
    ensures n.Ended? ==> Fair(Apply(h, own, e), n.reply)
  {
    assert LifeKnown(Gone) && LifeKnown(Acknowledging) && CleansUp(Acknowledging);
    assert pc == Gone ==> h.left;
    assert pc == Acknowledging ==> h.left && Mine(h) && CleanupDone(h);
    hide LifeKnown, CleansUp, Orderly, Apply, Truthful, Mine, PcSound;
    if n.Ended? && n.reply.Completed? && n.reply.via != ByCapture {
      ReplyApplied(h, own, e, n.reply.output);
    }
  }

  lemma CrossSound(sys: System, pid: Pid, e: Event)
    requires Sound(sys) && Enabled(sys, pid, e)
    ensures Sound(Crossed(sys, pid, e)) && Later(sys.h, Crossed(sys, pid, e).h)
  {
    var w := sys.waiters[pid];
    Prepared(sys.h, w.own, w.pc, e);
    ApplyKeepsOrder(sys.h, w.own, e);
    CrossedSound(sys.h, w.own, w.pc, e);
    var next := Crossed(sys, pid, e);
    hide Apply, Advance, Truthful, PcSound, Orderly, Later;
    forall q | q in next.waiters ensures PcSound(next.h, next.waiters[q].own, next.waiters[q].pc) {
      if q != pid { PcSoundLater(sys.h, next.h, sys.waiters[q].own, sys.waiters[q].pc); }
    }
  }

  lemma SoundStep(sys: System, l: Label)
    requires Sound(sys)
    ensures Sound(Step(sys, l)) && Later(sys.h, Step(sys, l).h)
  {
    LaterSame(sys.h);
    hide Orderly, Later, Enabled;
    match l {
      case Cross(pid, e) => if Enabled(sys, pid, e) { CrossSound(sys, pid, e); }
      case Other(a) => OtherSound(sys, a);
      case _ =>
    }
  }

  lemma OtherSound(sys: System, a: Act)
    requires Sound(sys)
    ensures Sound(sys.(h := Do(sys.h, a))) && Later(sys.h, Do(sys.h, a))
  {
    DoKeepsOrder(sys.h, a);
    var next := sys.(h := Do(sys.h, a));
    hide Orderly, Later, PcSound, Do;
    forall q | q in next.waiters ensures PcSound(next.h, next.waiters[q].own, next.waiters[q].pc) {
      PcSoundLater(sys.h, next.h, sys.waiters[q].own, sys.waiters[q].pc);
    }
  }

  lemma {:induction false} SoundAlways(sys: System, labels: seq<Label>)
    requires Sound(sys)
    ensures Sound(Run(sys, labels)) && Later(sys.h, Run(sys, labels).h)
    decreases |labels|
  {
    if labels == [] {
      LaterSame(sys.h);
    } else {
      hide Orderly, Later, Step;
      SoundStep(sys, labels[0]);
      SoundAlways(Step(sys, labels[0]), labels[1..]);
      LaterTransitive(sys.h, Step(sys, labels[0]).h, Run(sys, labels).h);
    }
  }

  // ---------------------------------------------------------------- each process is one wait

  /** The events `pid` has crossed since it last entered, on top of `before`. */
  function EventsOf(sys: System, labels: seq<Label>, pid: Pid, before: seq<Event>): seq<Event>
    decreases |labels|
  {
    if labels == [] then before
    else
      var l := labels[0];
      var now :=
        if (l.Enter? || l.Die?) && l.pid == pid then []
        else if l.Cross? && l.pid == pid && Enabled(sys, pid, l.event) then before + [l.event]
        else before;
      EventsOf(Step(sys, l), labels[1..], pid, now)
  }

  function PcOf(sys: System, pid: Pid): Pc { if pid in sys.waiters then sys.waiters[pid].pc else Top }

  /** What holds of every trace of a wait holds of every waiter in every run. */
  lemma {:induction false} WaitersFollowTheProtocol(sys: System, labels: seq<Label>, pid: Pid, before: seq<Event>)
    requires Walk(before) == Some(PcOf(sys, pid))
    ensures Walk(EventsOf(sys, labels, pid, before)) == Some(PcOf(Run(sys, labels), pid))
    decreases |labels|
  {
    hide Apply, Advance, Truthful, Do;
    if labels != [] {
      var l := labels[0];
      if l.Cross? && l.pid == pid && Enabled(sys, pid, l.event) {
        WalkSnoc(before, l.event);
        WaitersFollowTheProtocol(Step(sys, l), labels[1..], pid, before + [l.event]);
      } else if (l.Enter? || l.Die?) && l.pid == pid {
        WaitersFollowTheProtocol(Step(sys, l), labels[1..], pid, []);
      } else {
        WaitersFollowTheProtocol(Step(sys, l), labels[1..], pid, before);
      }
    }
  }

  // ---------------------------------------------------------------- what it gives

  /** Over every run of any number of waiters, with deaths, retries, the inbox, housekeeping and the
      parent's exit: a claimed result is acknowledged at most once, and the order exit, worktree
      cleanup, seal, acknowledgement is kept, except where a waiter has bypassed it. */
  lemma OrderKept(registered: bool, managed: bool, structured: bool, labels: seq<Label>)
    ensures var h := Run(Start(registered, managed, structured), labels).h;
      && h.acks <= 1 && (h.exited ==> h.left) && (h.cleaned ==> h.exited) && (h.row.completed ==> h.cleaned)
      && (h.acks == 1 ==> h.left && (h.managed ==> h.row.completed || h.bypassed))
      && (forall t :: !CanRelease(h.row, t))
  {
    StartSound(registered, managed, structured);
    SoundAlways(Start(registered, managed, structured), labels);
  }

  /** What a COMPLETED rests on, in every run and from then on: the one result row; after a cleanup, the
      acknowledgement made after exit, worktree cleanup and seal; otherwise a delivery by somebody. */
  lemma RepliesRest(registered: bool, managed: bool, structured: bool, labels: seq<Label>, pid: Pid, o: Output, via: Via)
    requires PcOf(Run(Start(registered, managed, structured), labels), pid) == Ended(Completed(o, via)) && via != ByCapture
    ensures var h := Run(Start(registered, managed, structured), labels).h;
      && h.result == Complete(o)
      && (via == ByCleanup ==> h.acks == 1 && h.left && (h.managed ==> h.row.completed && h.cleaned && h.exited))
      && (via == ByDelivery || via == ByGone ==> h.acks == 1 || h.inboxed)
      && (via == ByGone ==> h.left)
  {
    StartSound(registered, managed, structured);
    SoundAlways(Start(registered, managed, structured), labels);
  }

  /** Once claimed, a result is never replaced: whatever happens, the relation stays the claimed one
      until it is delivered or withdrawn, and every answer that is not a capture carries that output. */
  lemma ClaimedOutputStays(sys: System, labels: seq<Label>, o: Output, pid: Pid)
    requires Sound(sys) && sys.h.status == Claimed && sys.h.result == Complete(o)
    ensures var later := Run(sys, labels);
      && later.h.result == Complete(o) && Mine(later.h)
      && (forall r :: PcOf(later, pid) == Ended(r) && r.Completed? && r.via != ByCapture ==> r.output == o)
  {
    SoundAlways(sys, labels);
  }

  predicate CapturePlace(pc: Pc) {
    pc.ReadContent? || pc.ReadStructured? || pc.Capturing? || pc.Verifying? || pc.Recapturing? || pc.Claiming? || pc.LegacyExit?
  }

  ghost predicate CaptureKept(pc: Pc, e: Event, n: Pc) {
    && (CapturePlace(n) ==> CapturePlace(pc) || (e.ClaimedStaged? && e.answer != Some(true) && e.answer != Some(false)))
    && (e.Captured? ==> CapturePlace(pc))
  }

  lemma CaptureLook(pc: Pc, e: Event)
    requires Look(pc, e).Some?
    ensures CaptureKept(pc, e, Look(pc, e).value)
  {
  }

  lemma CaptureClean(pc: Pc, e: Event)
    requires Clean(pc, e).Some?
    ensures CaptureKept(pc, e, Clean(pc, e).value)
  {
  }

  lemma CaptureAccept(pc: Pc, e: Event)
    requires Accept(pc, e).Some?
    ensures CaptureKept(pc, e, Accept(pc, e).value)
  {
  }

  /** A place where the terminal is captured is reached only past a staged claim that found nothing. */
  lemma CaptureStep(pc: Pc, e: Event)
    requires Advance(pc, e).Some?
    ensures CaptureKept(pc, e, Advance(pc, e).value)
  {
    assert CaptureKept(pc, Raised, Ended(FailedWait));
    hide CaptureKept, Look, Accept, Clean, Looks, CleansUp;
    if e.Raised? {
    } else if Looks(pc) {
      CaptureLook(pc, e);
    } else if CleansUp(pc) {
      CaptureClean(pc, e);
    } else {
      CaptureAccept(pc, e);
    }
  }

  /** A retry uses the result that is there: once the relation is past awaiting, and as long as it is not
      withdrawn, its parent's waits never capture the terminal again. */
  lemma {:induction false} NeverRecaptured(sys: System, labels: seq<Label>, pid: Pid)
    requires Sound(sys) && sys.h.status !in {Unregistered, Awaiting}
    requires pid in sys.waiters ==> sys.waiters[pid].own && !CapturePlace(sys.waiters[pid].pc)
    requires Enter(pid, false) !in labels && Run(sys, labels).h.status != Withdrawn
    ensures var later := Run(sys, labels); pid in later.waiters ==> later.waiters[pid].own && !CapturePlace(later.waiters[pid].pc)
    decreases |labels|
  {
    if labels != [] {
      var l := labels[0];
      var next := Step(sys, l);
      assert forall m :: m in labels[1..] ==> m in labels;
      SoundStep(sys, l);
      SoundAlways(next, labels[1..]);
      assert next.h.status !in {Unregistered, Awaiting, Withdrawn} && sys.h.status != Withdrawn;
      hide Sound, Orderly, Later;
      if l.Cross? && l.pid == pid && Enabled(sys, pid, l.event) {
        CaptureStep(sys.waiters[pid].pc, l.event);
        hide Advance, CapturePlace;
      } else {
        hide Apply, Advance, Truthful, Do, CapturePlace;
      }
      NeverRecaptured(next, labels[1..], pid);
    }
  }
}
