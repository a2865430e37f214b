/** One wait for a handoff, step by step: an automaton over what the waiter reads and does, what each
    answer can be in a given state, and what every trace satisfies. */
module HandoffProtocol {
  import opened Common
  import opened RetirementStore
  import opened HandoffResults

  datatype Screen = ScreenCompleted | ScreenError | ScreenOther
  datatype Life = Running | Exited | OtherLife

  datatype Event =
    | SawRelation(live: bool)
    | SawClaim(output: Option<Output>)
    | SawResult(row: ResultRow)
    | SawTerminal(screen: Screen, life: Life)
    | SawDelivered(output: Option<Output>)
    | Acked(output: Option<Output>)
    | CancelledAll(exhausted: bool, parentOpen: bool)
    | SawBarrier(waiting: bool)
    | ClaimedStaged(staged: Staged, open: bool, answer: Option<bool>)
    | SawContent(lost: bool)
    | SawStructured(structured: bool)
    | Captured(text: Output, valid: bool)
    | ClaimedDirect(text: Output, parentOpen: bool, answer: Option<bool>)
    | Fence(current: bool)
    | PostedExit(ok: bool)
    | SawManaged(managed: bool)
    | ClaimedRow(evidence: Evidence, grant: Grant)
    | FoundIntent(token: Token, found: bool)
    | CleanedUp(ok: bool)
    | SealedRow(token: Token, ok: bool)
    | ReleasedRow(token: Token, ok: bool)
    | Slept
    | TimeUp
    | Raised

  datatype Via = ByResultRow | ByDelivery | ByCleanup | ByGone | ByCapture

  datatype Reply =
    | Completed(output: Output, via: Via)
    | Waiting
    | RuntimeFenced
    | ReleaseUnconfirmed
    | FailedWait

  /** Where a waiter is, named by what it does next.  From `FenceFirst` on it cleans up after a claim. */
  datatype Pc =
    | Top | ReadClaim | ReadResult | Poll
    | ReadDelivered(s: Screen, l: Life) | ReadOwn(s: Screen, l: Life)
    | Gone | GivingUp
    | ReadBarrier(l: Life) | Staging(l: Life) | ReadStaged(l: Life) | ReadContent(l: Life) | ReadStructured(l: Life)
    | Capturing(l: Life) | Verifying(o: Output, l: Life) | Recapturing(o: Output, l: Life, v: Life)
    | Claiming(o: Output, l: Life, v: Life) | LegacyExit(o: Output)
    | Bottom
    | FenceFirst(l: Life) | Exiting | ReadManaged
    | FenceClaim | ClaimingRow | FenceIntent(t: Token) | ReadIntent(t: Token) | FenceClean(t: Token) | Cleaning(t: Token)
    | FenceSeal(t: Token) | Sealing(t: Token) | Releasing(t: Token)
    | FenceLast | Acknowledging
    | Ended(reply: Reply)

  predicate CleansUp(pc: Pc) {
    pc.FenceFirst? || pc.Exiting? || pc.ReadManaged? || pc.FenceClaim? || pc.ClaimingRow? || pc.FenceIntent?
    || pc.ReadIntent? || pc.FenceClean? || pc.Cleaning? || pc.FenceSeal? || pc.Sealing? || pc.Releasing?
    || pc.FenceLast? || pc.Acknowledging?
  }

  /** The end of a pass: a child that is not running cannot be waited for. */
  function AtBottom(l: Life): Pc { if l == Running then Bottom else GivingUp }

  /** No result of its own is known: what the terminal shows decides. */
  function Judge(s: Screen, l: Life): Pc {
    if l != Running && s != ScreenCompleted then Gone
    else if s == ScreenError then GivingUp
    else if s == ScreenCompleted then ReadBarrier(l)
    else AtBottom(l)
  }

  function Answer(o: Option<Output>, via: Via, otherwise: Pc): Pc {
    if o.Some? then Ended(Completed(o.value, via)) else otherwise
  }

  /** The looking half of a wait. */
  function Look(pc: Pc, e: Event): Option<Pc> {
    match pc
    case Top => if e.SawRelation? then Some(if e.live then ReadClaim else Poll) else None
    case ReadClaim => if e.SawClaim? then Some(if e.output.Some? then Poll else ReadResult) else None
    case ReadResult =>
      if !e.SawResult? then None
      else Some(match e.row
                case Complete(o) => Ended(Completed(o, ByResultRow))
                case Unsuccessful => Ended(FailedWait)
                case Open => Poll)
    case Poll => if e.SawTerminal? then Some(ReadDelivered(e.screen, e.life)) else None
    case ReadDelivered(s, l) => if e.SawDelivered? then Some(Answer(e.output, ByDelivery, ReadOwn(s, l))) else None
    case ReadOwn(s, l) => if e.SawClaim? then Some(if e.output.Some? then FenceFirst(l) else Judge(s, l)) else None
    case Gone => if e.Acked? then Some(Answer(e.output, ByGone, GivingUp)) else None
    case GivingUp => if e.CancelledAll? then Some(Ended(FailedWait)) else None
    case Bottom => if e.Slept? then Some(Top) else if e.TimeUp? then Some(Ended(Waiting)) else None
    case _ => None
  }

  /** The child reports completion: its staged result first, captures only without one. */
  function Accept(pc: Pc, e: Event): Option<Pc> {
    match pc
    case ReadBarrier(l) => if e.SawBarrier? then Some(if e.waiting then AtBottom(l) else Staging(l)) else None
    case Staging(l) =>
      if !e.ClaimedStaged? then None
      else Some(if e.answer == Some(true) then ReadStaged(l) else if e.answer == Some(false) then AtBottom(l) else ReadContent(l))
    case ReadStaged(l) => if e.SawClaim? then Some(if e.output.Some? then FenceFirst(l) else Ended(Waiting)) else None
    case ReadContent(l) => if e.SawContent? then Some(if e.lost then Ended(Waiting) else ReadStructured(l)) else None
    case ReadStructured(l) => if e.SawStructured? then Some(if e.structured then AtBottom(l) else Capturing(l)) else None
    case Capturing(l) => if e.Captured? then Some(if e.valid then Verifying(e.text, l) else AtBottom(l)) else None
    case Verifying(o, l) =>
      if !e.SawTerminal? then None
      else Some(if e.life == OtherLife then Ended(FailedWait)
                else if e.screen == ScreenCompleted then Recapturing(o, l, e.life)
                else AtBottom(l))
    case Recapturing(o, l, v) =>
      if e.Captured? then Some(if e.valid && e.text == o then Claiming(o, l, v) else AtBottom(l)) else None
    case Claiming(o, l, v) =>
      if !e.ClaimedDirect? || e.text != o then None
      else Some(if e.answer == Some(false) then AtBottom(l)
                else if e.answer == Some(true) then FenceFirst(v)
                else if v == Running then LegacyExit(o)
                else Ended(Completed(o, ByCapture)))
    case LegacyExit(o) => if e.PostedExit? then Some(if e.ok then Ended(Completed(o, ByCapture)) else Ended(Waiting)) else None
    case _ => None
  }

  function Fenced(e: Event, next: Pc, stale: Pc): Option<Pc> {
    if e.Fence? then Some(if e.current then next else stale) else None
  }

  /** The cleanup of a claimed result. */
  function Clean(pc: Pc, e: Event): Option<Pc> {
    match pc
    case FenceFirst(l) => Fenced(e, if l == Running then Exiting else ReadManaged, Ended(RuntimeFenced))
    case Exiting => if e.PostedExit? then Some(if e.ok then ReadManaged else Ended(Waiting)) else None
    case ReadManaged => if e.SawManaged? then Some(if e.managed then FenceClaim else FenceLast) else None
    case FenceClaim => Fenced(e, ClaimingRow, Ended(RuntimeFenced))
    case ClaimingRow =>
      if !e.ClaimedRow? then None
      else Some(match e.grant
                case Refused => Ended(Waiting)
                case AlreadyRetired => FenceLast
                case Granted(t, _, _) => FenceIntent(t))
    case FenceIntent(t) => Fenced(e, ReadIntent(t), Releasing(t))
    case ReadIntent(t) => if e.FoundIntent? && e.token == t then Some(if e.found then FenceClean(t) else Ended(Waiting)) else None
    case FenceClean(t) => Fenced(e, Cleaning(t), Releasing(t))
    case Cleaning(t) => if e.CleanedUp? then Some(if e.ok then FenceSeal(t) else Ended(Waiting)) else None
    case FenceSeal(t) => Fenced(e, Sealing(t), Releasing(t))
    case Sealing(t) => if e.SealedRow? && e.token == t then Some(if e.ok then FenceLast else Ended(Waiting)) else None
    case Releasing(t) =>
      if e.ReleasedRow? && e.token == t then Some(Ended(if e.ok then RuntimeFenced else ReleaseUnconfirmed)) else None
    case FenceLast => Fenced(e, Acknowledging, Ended(RuntimeFenced))
    case Acknowledging => if e.Acked? then Some(Answer(e.output, ByCleanup, Ended(Waiting))) else None
    case _ => None
  }

  predicate Looks(pc: Pc) {
    pc.Top? || pc.ReadClaim? || pc.ReadResult? || pc.Poll? || pc.ReadDelivered? || pc.ReadOwn? || pc.Gone? || pc.GivingUp?
    || pc.Bottom?
  }

  /** Any access may raise, which ends the wait with an unknown outcome. */
  function Advance(pc: Pc, e: Event): Option<Pc> {
    if pc.Ended? then None
    else if e.Raised? then Some(Ended(FailedWait))
    else if Looks(pc) then Look(pc, e)
    else if CleansUp(pc) then Clean(pc, e)
    else Accept(pc, e)
  }

  // ---------------------------------------------------------------- answers and effects

  function If<T>(own: bool, o: Option<T>): Option<T> { if own then o else None }

  /** The event's answer is one that the store and the world can give in this state.  `own`: the waiter
      is the relation's parent; one without a parent identity asks nothing and learns nothing. */
  predicate Truthful(h: Handoff, own: bool, e: Event) {
    match e
    case SawRelation(live) => live == (own && Visible(h))
    case SawClaim(o) => o == If(own, ClaimedOutput(h))
    case SawResult(r) => r == h.result
    case SawDelivered(o) => o == If(own, DeliveredOutput(h))
    case Acked(o) => o == If(own, AcknowledgeDirect(h).1)
    case ClaimedStaged(staged, open, answer) => answer == If(own, ClaimStaged(h, staged, open).1)
    case SawStructured(s) => s == (Visible(h) && h.structured)
    case ClaimedDirect(o, open, answer) => answer == If(own, ClaimDirect(h, o, open).1)
    case SawManaged(m) => m == (Visible(h) ==> h.managed)
    case ClaimedRow(ev, g) => g == ClaimRetirement(h, Mode.Handoff, ev).1
    case FoundIntent(t, found) => found == (h.row.claim == Some(t) && h.row.intent)
    case SealedRow(t, ok) => ok ==> MaySeal(h, t)
    case ReleasedRow(t, ok) => ok == CanRelease(h.row, t)
    case _ => true
  }

  /** What the event does to the relation and the world. */
  function Apply(h: Handoff, own: bool, e: Event): Handoff {
    match e
    case SawTerminal(_, l) => h.(left := h.left || l != Running)
    case PostedExit(ok) => h.(left := h.left || ok)
    case Acked(_) => if own then AcknowledgeDirect(h).0 else h
    case CancelledAll(exhausted, open) => CancelForChild(h, exhausted, open)
    case ClaimedStaged(staged, open, _) => if own then ClaimStaged(h, staged, open).0 else h
    case ClaimedDirect(o, open, _) => if own then ClaimDirect(h, o, open).0 else h
    case ClaimedRow(ev, _) => ClaimRetirement(h, Mode.Handoff, ev).0
    case CleanedUp(ok) => h.(cleaned := h.cleaned || ok)
    case SealedRow(t, ok) => h.(row := Sealed(h.row, t, ok))
    case ReleasedRow(t, _) => h.(row := Released(h.row, t))
    case _ => h
  }

  // ---------------------------------------------------------------- traces of one wait

  /** Where a wait is after a trace, if the protocol allows it. */
  function Walk(trace: seq<Event>): Option<Pc>
    decreases |trace|
  {
    if trace == [] then Some(Top)
    else
      var before := Walk(trace[..|trace| - 1]);
      if before.None? then None else Advance(before.value, trace[|trace| - 1])
  }

  ghost predicate Allowed(trace: seq<Event>) { Walk(trace).Some? }

  lemma WalkSnoc(trace: seq<Event>, e: Event)
    ensures Walk(trace + [e]) == (if Walk(trace).None? then None else Advance(Walk(trace).value, e))
  {
    assert (trace + [e])[..|trace|] == trace;
  }

  lemma NothingFollows(pc: Pc, e: Event)
    requires pc.Ended?
    ensures Advance(pc, e).None?
  {
  }

  /** A death leaves a prefix, and every prefix of an allowed trace is allowed; nothing follows an answer. */
  lemma {:induction false} PrefixAllowed(trace: seq<Event>, n: nat)
    requires Allowed(trace) && n <= |trace|
    ensures Allowed(trace[..n])
    ensures n < |trace| ==> !Walk(trace[..n]).value.Ended?
    decreases |trace|
  {
    hide Advance;
    if n == |trace| {
      assert trace[..n] == trace;
    } else {
      var m := |trace| - 1;
      var pc := Walk(trace[..m]).value;
      if pc.Ended? { NothingFollows(pc, trace[m]); }
      PrefixAllowed(trace[..m], n);
      assert trace[..m][..n] == trace[..n];
    }
  }

  /** The screen that was seen last. */
  function LastScreen(trace: seq<Event>): Option<Screen>
    decreases |trace|
  {
    if trace == [] then None
    else if trace[|trace| - 1].SawTerminal? then Some(trace[|trace| - 1].screen)
    else LastScreen(trace[..|trace| - 1])
  }

  /** The trace ends with a valid capture of `o`, taken while the child showed completion. */
  predicate CapturedOnce(trace: seq<Event>, o: Output) {
    var n := |trace|;
    n >= 1 && trace[n - 1] == Captured(o, true) && LastScreen(trace[..n - 1]) == Some(ScreenCompleted)
  }

  /** And the same once more, after one more look at the terminal. */
  predicate CapturedTwice(trace: seq<Event>, o: Output) {
    var n := |trace|;
    CapturedOnce(trace, o) && n >= 2 && trace[n - 2].SawTerminal? && CapturedOnce(trace[..n - 2], o)
  }

  /** Somewhere in the trace. */
  ghost predicate CapturedTwiceAt(trace: seq<Event>, o: Output, n: nat) {
    n <= |trace| && CapturedTwice(trace[..n], o)
  }

  ghost predicate Rests(trace: seq<Event>, pc: Pc) {
    match pc
    case ReadBarrier(_) => LastScreen(trace) == Some(ScreenCompleted)
    case Staging(_) => LastScreen(trace) == Some(ScreenCompleted)
    case ReadContent(_) => LastScreen(trace) == Some(ScreenCompleted)
    case ReadStructured(_) => LastScreen(trace) == Some(ScreenCompleted)
    case Capturing(_) => LastScreen(trace) == Some(ScreenCompleted)
    case ReadDelivered(s, _) => LastScreen(trace) == Some(s)
    case ReadOwn(s, _) => LastScreen(trace) == Some(s)
    case Verifying(o, _) => CapturedOnce(trace, o)
    case Recapturing(o, _, _) =>
      |trace| >= 1 && trace[|trace| - 1].SawTerminal? && LastScreen(trace) == Some(ScreenCompleted)
      && CapturedOnce(trace[..|trace| - 1], o)
    case Claiming(o, _, _) => CapturedTwice(trace, o)
    case LegacyExit(o) => exists n :: CapturedTwiceAt(trace, o, n)
    case Ended(r) => r.Completed? && r.via == ByCapture ==> exists n :: CapturedTwiceAt(trace, r.output, n)
    case _ => true
  }

  /** The capture-only answer rests on two equal valid captures, one right after the other, each taken
      under a terminal that showed completion. */
  lemma {:induction false} CaptureRests(trace: seq<Event>)
    requires Allowed(trace)
    ensures Rests(trace, Walk(trace).value)
    decreases |trace|
  {
    if trace != [] {
      var n := |trace| - 1;
      PrefixAllowed(trace, n);
      CaptureRests(trace[..n]);
      RestsStep(trace[..n], trace[n], Walk(trace[..n]).value);
      assert trace == trace[..n] + [trace[n]];
    }
  }

  lemma RestsStep(trace: seq<Event>, e: Event, pc: Pc)
    requires Rests(trace, pc) && Advance(pc, e).Some?
    ensures Rests(trace + [e], Advance(pc, e).value)
  {
    hide Rests, Look, Accept, Clean;
    if e.Raised? {
      RestsElsewhere(trace + [e], Ended(FailedWait));
    } else if Looks(pc) {
      RestsLook(trace, e, pc);
    } else if CleansUp(pc) {
      RestsClean(trace + [e], e, pc);
    } else if pc.Claiming? || pc.LegacyExit? {
      RestsClaim(trace, e, pc);
    } else if pc.Recapturing? {
      RestsAgain(trace, e, pc);
    } else {
      RestsAccept(trace, e, pc);
    }
  }

  lemma RestsElsewhere(trace: seq<Event>, pc: Pc)
    requires pc in {Bottom, GivingUp, Ended(FailedWait), Ended(Waiting)} || CleansUp(pc)
    ensures Rests(trace, pc)
  {
  }

  lemma RestsLook(trace: seq<Event>, e: Event, pc: Pc)
    requires Rests(trace, pc) && Look(pc, e).Some?
    ensures Rests(trace + [e], Look(pc, e).value)
  {
    assert (trace + [e])[..|trace|] == trace;
  }

  lemma RestsClean(trace: seq<Event>, e: Event, pc: Pc)
    requires Clean(pc, e).Some?
    ensures Rests(trace, Clean(pc, e).value)
  {
    hide CapturedTwice, CapturedOnce, LastScreen;
  }

  lemma RestsAccept(trace: seq<Event>, e: Event, pc: Pc)
    requires Rests(trace, pc) && Accept(pc, e).Some? && !pc.Claiming? && !pc.LegacyExit? && !pc.Recapturing?
    ensures Rests(trace + [e], Accept(pc, e).value)
  {
    assert (trace + [e])[..|trace|] == trace;
    assert LastScreen(trace + [e]) == if e.SawTerminal? then Some(e.screen) else LastScreen(trace);
    hide LastScreen;
  }

  lemma RestsAgain(trace: seq<Event>, e: Event, pc: Pc)
    requires Rests(trace, pc) && Accept(pc, e).Some? && pc.Recapturing?
    ensures Rests(trace + [e], Accept(pc, e).value)
  {
    var longer, n := trace + [e], |trace|;
    assert longer[..n] == trace && longer[..n - 1] == trace[..n - 1];
    hide LastScreen;
  }

  lemma RestsClaim(trace: seq<Event>, e: Event, pc: Pc)
    requires Rests(trace, pc) && Accept(pc, e).Some? && (pc.Claiming? || pc.LegacyExit?)
    ensures Rests(trace + [e], Accept(pc, e).value)
  {
    var longer := trace + [e];
    assert trace[..|trace|] == trace;
    var k: nat := if pc.Claiming? then |trace| else var m: nat :| CapturedTwiceAt(trace, pc.o, m); m;
    assert longer[..k] == trace[..k];
    hide CapturedTwice;
    assert CapturedTwiceAt(longer, pc.o, k);
  }

  // ---------------------------------------------------------------- the order of the boundaries

  predicate Boundary(e: Event) {
    e.ClaimedRow? || e.FoundIntent? || e.CleanedUp? || e.SealedRow?
  }

  predicate Guarded(pc: Pc) {
    pc.ClaimingRow? || pc.ReadIntent? || pc.Cleaning? || pc.Sealing? || pc.Acknowledging? || pc.Exiting?
  }

  /** Every boundary of the cleanup directly follows a runtime fence that passed. */
  lemma {:induction false} BoundariesFenced(trace: seq<Event>)
    requires Allowed(trace)
    ensures Guarded(Walk(trace).value) ==> trace != [] && trace[|trace| - 1] == Fence(true)
    ensures forall i :: 0 <= i < |trace| && Boundary(trace[i]) ==> i > 0 && trace[i - 1] == Fence(true)
    decreases |trace|
  {
    if trace != [] {
      var n := |trace| - 1;
      var t, e := trace[..n], trace[n];
      PrefixAllowed(trace, n);
      BoundariesFenced(t);
      hide Advance, Guarded, Boundary;
      GuardStep(Walk(t).value, e);
      hide Walk;
      assert trace == t + [e];
      FencedLonger(t, e);
    }
  }

  lemma FencedLonger(t: seq<Event>, e: Event)
    requires forall i :: 0 <= i < |t| && Boundary(t[i]) ==> i > 0 && t[i - 1] == Fence(true)
    requires Boundary(e) ==> t != [] && t[|t| - 1] == Fence(true)
    ensures forall i :: 0 <= i < |t + [e]| && Boundary((t + [e])[i]) ==> i > 0 && (t + [e])[i - 1] == Fence(true)
  {
    hide Boundary;
  }

  lemma GuardStep(pc: Pc, e: Event)
    requires Advance(pc, e).Some?
    ensures Guarded(Advance(pc, e).value) ==> e == Fence(true)
    ensures Boundary(e) ==> Guarded(pc)
  {
    hide Look, Accept, Clean;
    if e.Raised? {
    } else if Looks(pc) {
      UnguardedLook(pc, e);
    } else if CleansUp(pc) {
      GuardClean(pc, e);
    } else {
      UnguardedAccept(pc, e);
    }
  }

  lemma GuardClean(pc: Pc, e: Event)
    requires Clean(pc, e).Some?
    ensures (Guarded(Clean(pc, e).value) ==> e == Fence(true)) && (Boundary(e) ==> Guarded(pc))
  {
  }

  lemma UnguardedLook(pc: Pc, e: Event)
    requires Look(pc, e).Some?
    ensures !Guarded(Look(pc, e).value) && !Boundary(e)
  {
  }

  lemma UnguardedAccept(pc: Pc, e: Event)
    requires Accept(pc, e).Some?
    ensures !Guarded(Accept(pc, e).value) && !Boundary(e)
  {
  }

  predicate ExitKnown(e: Event) { e == PostedExit(true) || (e.SawTerminal? && e.life != Running) }

  /** Nothing is left to retire: the child is not managed, it was retired before, or this wait sealed. */
  predicate RetirementOver(e: Event) {
    e == SawManaged(false) || (e.ClaimedRow? && e.grant.AlreadyRetired?) || (e.SealedRow? && e.ok)
  }

  ghost predicate ExitAt(trace: seq<Event>, i: nat) { i < |trace| && ExitKnown(trace[i]) }

  ghost predicate CleanAt(trace: seq<Event>, i: nat) { i < |trace| && trace[i] == CleanedUp(true) }

  ghost predicate OverAt(trace: seq<Event>, i: nat) { i < |trace| && RetirementOver(trace[i]) }

  ghost predicate SealAt(trace: seq<Event>, i: nat) { i < |trace| && trace[i].SealedRow? && trace[i].ok }

  /** A seal is preceded by the cleanup. */
  ghost predicate SealsAfterCleanup(trace: seq<Event>) {
    forall k :: SealAt(trace, k) ==> exists j: nat :: j < k && CleanAt(trace, j)
  }

  predicate LifeKnown(pc: Pc) {
    match pc
    case ReadDelivered(_, l) => l != Running
    case ReadOwn(_, l) => l != Running
    case ReadBarrier(l) => l != Running
    case Staging(l) => l != Running
    case ReadStaged(l) => l != Running
    case ReadContent(l) => l != Running
    case ReadStructured(l) => l != Running
    case Capturing(l) => l != Running
    case Verifying(_, l) => l != Running
    case Recapturing(_, _, v) => v != Running
    case Claiming(_, _, v) => v != Running
    case FenceFirst(l) => l != Running
    case Gone => true
    case _ => CleansUp(pc) && !pc.Exiting?
  }

  ghost predicate Justified(trace: seq<Event>, pc: Pc) {
    && (LifeKnown(pc) ==> exists i :: ExitAt(trace, i))
    && (pc.FenceSeal? || pc.Sealing? ==> exists i :: CleanAt(trace, i))
    && (pc.FenceLast? || pc.Acknowledging? ==> exists i :: OverAt(trace, i))
    && (pc.Ended? && pc.reply.Completed? && pc.reply.via == ByCleanup ==>
          (exists i :: ExitAt(trace, i)) && (exists i :: OverAt(trace, i))
          && |trace| >= 2 && trace[|trace| - 2] == Fence(true) && trace[|trace| - 1] == Acked(Some(pc.reply.output)))
  }

  lemma JustifiedLonger(trace: seq<Event>, e: Event)
    ensures (exists i :: ExitAt(trace, i)) ==> exists i :: ExitAt(trace + [e], i)
    ensures (exists i :: CleanAt(trace, i)) ==> exists i :: CleanAt(trace + [e], i)
    ensures (exists i :: OverAt(trace, i)) ==> exists i :: OverAt(trace + [e], i)
    ensures ExitKnown(e) ==> exists i :: ExitAt(trace + [e], i)
    ensures e == CleanedUp(true) ==> exists i :: CleanAt(trace + [e], i)
    ensures RetirementOver(e) ==> exists i :: OverAt(trace + [e], i)
  {
    var longer := trace + [e];
    if i: nat :| ExitAt(trace, i) { assert ExitAt(longer, i); }
    if i: nat :| CleanAt(trace, i) { assert CleanAt(longer, i); }
    if i: nat :| OverAt(trace, i) { assert OverAt(longer, i); }
    assert longer[|trace|] == e;
    if ExitKnown(e) { assert ExitAt(longer, |trace|); }
    if e == CleanedUp(true) { assert CleanAt(longer, |trace|); }
    if RetirementOver(e) { assert OverAt(longer, |trace|); }
  }

  ghost predicate LifeKept(pc: Pc, e: Event, n: Pc) {
    && (LifeKnown(n) ==> LifeKnown(pc) || ExitKnown(e))
    && (n.FenceSeal? || n.Sealing? ==> pc.FenceSeal? || e == CleanedUp(true))
    && (n.FenceLast? || n.Acknowledging? ==> pc.FenceLast? || RetirementOver(e))
    && (n.Ended? && n.reply.Completed? && n.reply.via == ByCleanup ==>
          pc == Acknowledging && e == Acked(Some(n.reply.output)))
    && (e.SealedRow? ==> pc.Sealing? || n == Ended(FailedWait))
  }

  lemma LifeLook(pc: Pc, e: Event)
    requires Look(pc, e).Some?
    ensures LifeKept(pc, e, Look(pc, e).value)
  {
  }

  lemma LifeAccept(pc: Pc, e: Event)
    requires Accept(pc, e).Some?
    ensures LifeKept(pc, e, Accept(pc, e).value)
  {
    if pc.Verifying? || pc.Recapturing? || pc.Claiming? || pc.LegacyExit? {
      LifeCapture(pc, e);
    }
  }

  lemma LifeCapture(pc: Pc, e: Event)
    requires Accept(pc, e).Some? && (pc.Verifying? || pc.Recapturing? || pc.Claiming? || pc.LegacyExit?)
    ensures LifeKept(pc, e, Accept(pc, e).value)
  {
  }

  lemma LifeClean(pc: Pc, e: Event)
    requires Clean(pc, e).Some?
    ensures LifeKept(pc, e, Clean(pc, e).value)
  {
  }

  lemma LifeStep(pc: Pc, e: Event)
    requires Advance(pc, e).Some?
    ensures LifeKept(pc, e, Advance(pc, e).value) && (e.SealedRow? ==> pc.Sealing?)
  {
    if e.Raised? {
      assert LifeKept(pc, e, Ended(FailedWait));
    } else if Looks(pc) {
      hide Accept, Clean, LifeKept;
      LifeLook(pc, e);
    } else if CleansUp(pc) {
      hide Accept, Look, LifeKept;
      LifeClean(pc, e);
    } else {
      hide Look, Clean, LifeKept;
      LifeAccept(pc, e);
    }
  }

  /** An answer by cleanup comes directly after the acknowledgement, which directly follows a passed
      fence; before that the exit was confirmed or the child seen not running, and the retirement was
      sealed, found sealed or not needed.  A seal follows a successful worktree cleanup. */
  lemma {:induction false} CleanupJustified(trace: seq<Event>)
    requires Allowed(trace)
    ensures Justified(trace, Walk(trace).value) && SealsAfterCleanup(trace)
    decreases |trace|
  {
    if trace != [] {
      var n := |trace| - 1;
      var t, e := trace[..n], trace[n];
      assert trace == t + [e];
      PrefixAllowed(trace, n);
      CleanupJustified(t);
      BoundariesFenced(t);
      var pc := Walk(t).value;
      LifeStep(pc, e);
      var next := Walk(trace).value;
      assert LifeKept(pc, e, next);
      hide Walk, Advance, LifeKnown, ExitKnown, RetirementOver, Guarded;
      JustifiedStep(t, e, pc, next);
      SealStep(t, e, pc);
    }
  }

  lemma JustifiedStep(t: seq<Event>, e: Event, pc: Pc, next: Pc)
    requires Justified(t, pc) && LifeKept(pc, e, next)
    requires pc == Acknowledging ==> t != [] && t[|t| - 1] == Fence(true)
    ensures Justified(t + [e], next)
  {
    JustifiedLonger(t, e);
    assert LifeKnown(Acknowledging);
    hide LifeKnown, ExitKnown, RetirementOver, ExitAt, OverAt, CleanAt;
  }

  lemma SealStep(t: seq<Event>, e: Event, pc: Pc)
    requires Justified(t, pc) && SealsAfterCleanup(t) && (e.SealedRow? ==> pc.Sealing?)
    ensures SealsAfterCleanup(t + [e])
  {
    hide LifeKnown;
    var trace, n := t + [e], |t|;
    forall k: nat | SealAt(trace, k) ensures exists j: nat :: j < k && CleanAt(trace, j) {
      if k < n {
        assert SealAt(t, k);
        var j: nat :| j < k && CleanAt(t, j);
        assert CleanAt(trace, j);
      } else {
        var j: nat :| CleanAt(t, j);
        assert CleanAt(trace, j);
      }
    }
  }
}
