/** The race between delivering a delegated input and cancelling its attempt: what the caller
    reports after a failed send, against what the queue and the provider may still do with it. */
module InputDelivery {
  import opened Common

  /** `Ended`: cancelled or finished. */
  datatype TurnState = Sent | Queued | Claimed | Ended

  /** The managed-attempt row of the turn.  Only binding links it; `Retried` has used up its one
      recovery, and `Closed` has failed or is fenced. */
  datatype Lifecycle = Unlinked | Fresh | Retried | Closed

  /** `Settled`: a result, a recovery or a fence owns the attempt. */
  datatype Attempt = Awaiting | Settled | Cancelled

  /** The durable rows about one input bound to one delegation attempt.  `admitted`: the provider has
      held a lease for it at some time, so its text may have reached the child.  `open` and `active`:
      the child's workflow is open, and this turn is its current one.  `review`: an immutable review
      attempt. */
  datatype Input = Input(
    bound: bool, state: TurnState, leased: bool, admitted: bool, receipted: bool, open: bool, active: bool,
    lifecycle: Lifecycle, review: bool, attempt: Attempt)

  /** What an input looks like right after it was bound. */
  function JustBound(lifecycle: Lifecycle, review: bool): Input {
    Input(true, Sent, false, false, false, true, true, lifecycle, review, Awaiting)
  }

  /** Somebody other than the caller durably owns the delivery of this input. */
  predicate Owned(i: Input) {
    i.bound && (i.state == Queued || i.state == Claimed || i.leased || i.receipted)
  }

  predicate Current(i: Input) { i.bound && i.open && i.active }

  /** `get_workflow_input_binding_delivery`: nothing is visible unless the turn is current. */
  function Delivery(i: Input): Option<bool> {
    if Current(i) then Some(Owned(i)) else None
  }

  predicate Accepted(i: Input) { Delivery(i) == Some(true) }

  /** `cancel_child_assignment_attempt`: refused once the input has an owner or the attempt an outcome. */
  function CancelAttempt(i: Input): (Input, bool) {
    if i.attempt == Cancelled then (i, true)
    else if i.attempt != Awaiting || Owned(i) then (i, false)
    else (i.(attempt := Cancelled), true)
  }

  // ---------------------------------------------------------------- what the others may do

  datatype Op =
    | Enqueue | ClaimTurn | ExpireClaim | RequeueClaim | ExhaustRetries | MarkSent
    | RestartRequeue | SettledRequeue
    | Admit | Receipt | ReleaseLease
    | Timeout(inactive: bool)
    | Settle | Withdraw | Fence | Supersede | CloseWorkflow

  /** The single same-child retry, or its refusal. */
  function Recover(i: Input): Input {
    if i.receipted || i.lifecycle == Closed then i
    else if i.lifecycle == Fresh then i.(state := Queued, lifecycle := Retried)
    else i.(state := Ended)
  }

  /** A managed attempt that may no longer be executed. */
  predicate Refused(i: Input) {
    i.lifecycle != Unlinked && (i.attempt == Cancelled || i.lifecycle == Closed)
  }

  /** Only a review checks its attempt here; and a turn that was sent is not admitted twice. */
  predicate Admissible(i: Input) {
    Current(i) && (i.state == Claimed || (i.state == Sent && !i.receipted)) && (i.review ==> i.attempt == Awaiting)
  }

  predicate Unadmitted(i: Input) { Current(i) && !i.leased && !i.receipted }

  function Do(i: Input, op: Op): Input {
    match op
    case Enqueue =>
      if !Current(i) || i.state != Sent then i
      else if i.lifecycle == Unlinked then i.(state := Queued)
      else Recover(i)
    case ClaimTurn =>
      if !Current(i) || i.state != Queued then i
      else if Refused(i) then i.(state := Ended, open := false)
      else i.(state := Claimed)
    case ExpireClaim => if i.open && i.state == Claimed then i.(state := Queued) else i
    case RequeueClaim =>
      if !i.open || i.state != Claimed then i
      else if i.lifecycle != Unlinked && !i.receipted then Recover(i)
      else i.(state := Queued)
    case ExhaustRetries =>
      if i.open && i.state == Claimed && (i.lifecycle == Unlinked || i.receipted) then i.(state := Ended, open := false)
      else i
    case MarkSent => if Current(i) && i.state == Claimed then i.(state := Sent) else i
    case RestartRequeue => if Unadmitted(i) && i.state == Sent then i.(state := Queued) else i
    case SettledRequeue =>
      if Unadmitted(i) && (i.state == Sent || i.state == Claimed) then i.(state := Queued) else i
    case Admit => if Admissible(i) then i.(leased := true, admitted := true) else i
    case Receipt => if Current(i) && i.admitted && i.state != Ended then i.(receipted := true) else i
    case ReleaseLease => i.(leased := false)
    case Timeout(inactive) =>
      if i.receipted || i.lifecycle == Unlinked || i.lifecycle == Closed then i
      else if inactive || i.attempt == Cancelled then
        i.(lifecycle := Closed, state := if i.state == Queued || i.state == Claimed then Ended else i.state)
      else Recover(i.(leased := false))
    case Settle => if i.attempt == Awaiting then i.(attempt := Settled) else i
    case Withdraw => i.(attempt := Cancelled)
    case Fence =>
      if i.lifecycle == Unlinked then i
      else i.(lifecycle := Closed, attempt := Settled, leased := false, state := Ended, open := false)
    case Supersede => i.(active := false)
    case CloseWorkflow => i.(open := false)
  }

  /** The ways back into the queue: a failed direct send, a claim that expired or is given back, a restart
      or a settled observation of a turn that nobody holds, and the one same-child retry. */
  predicate Requeues(i: Input, op: Op) {
    var retried := !i.receipted && i.lifecycle == Fresh;
    match op
    case Enqueue => i.bound && i.open && i.active && i.state == Sent && (i.lifecycle == Unlinked || retried)
    case ExpireClaim => i.open && i.state == Claimed
    case RequeueClaim => i.open && i.state == Claimed && (i.lifecycle == Unlinked || i.receipted || retried)
    case RestartRequeue => i.bound && i.open && i.active && i.state == Sent && !i.leased && !i.receipted
    case SettledRequeue =>
      i.bound && i.open && i.active && (i.state == Sent || i.state == Claimed) && !i.leased && !i.receipted
    case Timeout(inactive) => !inactive && retried && i.attempt != Cancelled
    case _ => false
  }

  /** The ways to the end of the turn: a claim of an attempt that may not be executed, a retry that is
      used up, too many claims, a timeout of a closed case, and a fence. */
  predicate EndsTurn(i: Input, op: Op) {
    var usedUp := !i.receipted && i.lifecycle == Retried;
    match op
    case ClaimTurn =>
      i.bound && i.open && i.active && i.state == Queued && i.lifecycle != Unlinked
      && (i.attempt == Cancelled || i.lifecycle == Closed)
    case Enqueue => i.bound && i.open && i.active && i.state == Sent && usedUp
    case RequeueClaim => i.open && i.state == Claimed && usedUp
    case ExhaustRetries => i.open && i.state == Claimed && (i.lifecycle == Unlinked || i.receipted)
    case Timeout(inactive) =>
      !i.receipted && (i.lifecycle == Fresh || i.lifecycle == Retried)
      && (if inactive || i.attempt == Cancelled then i.state == Queued || i.state == Claimed else usedUp)
    case Fence => i.lifecycle != Unlinked
    case _ => false
  }

  /** Exactly these put a turn back into the queue. */
  lemma QueuedExactly(i: Input, op: Op)
    requires i.state != Queued
    ensures Do(i, op).state == Queued <==> Requeues(i, op)
  {
    match op {
      case Enqueue =>
      case RequeueClaim =>
      case Timeout(_) =>
      case _ =>
    }
  }

  /** And exactly these end it. */
  lemma EndedExactly(i: Input, op: Op)
    requires i.state != Ended
    ensures Do(i, op).state == Ended <==> EndsTurn(i, op)
  {
    match op {
      case Enqueue =>
      case RequeueClaim =>
      case Timeout(_) =>
      case _ =>
    }
  }

  function DoAll(i: Input, ops: seq<Op>): Input
    decreases |ops|
  {
    if ops == [] then i else DoAll(Do(i, ops[0]), ops[1..])
  }

  /** In every state that can arise: an input without a binding has no delivery state, and a lease or
      a receipt means the provider was admitted. */
  predicate Sane(i: Input) {
    && (!i.bound ==> i.state == Sent && !i.leased && !i.admitted && !i.receipted && i.lifecycle == Unlinked)
    && (i.leased || i.receipted ==> i.admitted)
  }

  lemma SaneStep(i: Input, op: Op)
    requires Sane(i)
    ensures var j := Do(i, op); Sane(j) && j.bound == i.bound && j.review == i.review && (i.admitted ==> j.admitted)
  {
  }

  lemma {:induction false} SaneAlways(i: Input, ops: seq<Op>)
    requires Sane(i)
    ensures var j := DoAll(i, ops); Sane(j) && j.bound == i.bound && j.review == i.review && (i.admitted ==> j.admitted)
    decreases |ops|
  {
    hide Do, Sane;
    if ops != [] {
      SaneStep(i, ops[0]);
      SaneAlways(Do(i, ops[0]), ops[1..]);
    }
  }

  lemma {:induction false} DoAllConcat(i: Input, a: seq<Op>, b: seq<Op>)
    ensures DoAll(i, a + b) == DoAll(DoAll(i, a), b)
    decreases |a|
  {
    if a == [] {
      assert a + b == b;
    } else {
      assert (a + b)[1..] == a[1..] + b;
      DoAllConcat(Do(i, a[0]), a[1..], b);
    }
  }

  // ---------------------------------------------------------------- never delivered

  /** No future admits the provider for this input. */
  ghost predicate Never(i: Input) {
    forall ops :: !DoAll(i, ops).admitted
  }

  /** The input was admitted, or its turn is current and one of the ways to the provider is open. */
  predicate CanReachChild(i: Input) {
    || i.admitted
    || (Current(i) && (i.review ==> i.attempt == Awaiting)
        && match i.state
           case Sent => true
           case Claimed => true
           case Queued => !Refused(i)
           case Ended => i.lifecycle == Fresh && i.attempt != Cancelled)
  }

  lemma OutStep(i: Input, op: Op)
    requires Sane(i) && !CanReachChild(i)
    ensures !CanReachChild(Do(i, op))
  {
  }

  lemma {:induction false} StaysOut(i: Input, ops: seq<Op>)
    requires Sane(i) && !CanReachChild(i)
    ensures !CanReachChild(DoAll(i, ops))
    decreases |ops|
  {
    hide Do, CanReachChild, Sane;
    if ops != [] {
      SaneStep(i, ops[0]);
      OutStep(i, ops[0]);
      StaysOut(Do(i, ops[0]), ops[1..]);
    }
  }

  /** A way to the provider. */
  function WayIn(i: Input): seq<Op> {
    match i.state
    case Sent => [Admit]
    case Claimed => [Admit]
    case Queued => [ClaimTurn, Admit]
    case Ended => [Timeout(false), ClaimTurn, Admit]
  }

  lemma WayInAdmits(i: Input)
    requires Sane(i) && CanReachChild(i)
    ensures DoAll(i, WayIn(i)).admitted && (!i.admitted ==> DoAll(i, WayIn(i)).leased)
  {
    SaneAlways(i, WayIn(i));
    if !i.admitted {
      var ops := WayIn(i);
      assert forall op: Op :: [op][1..] == [];
      assert [ClaimTurn, Admit][1..] == [Admit];
      assert [Timeout(false), ClaimTurn, Admit][1..] == [ClaimTurn, Admit];
      var j := if i.state == Ended then Do(i, Timeout(false)) else i;
      var k := if j.state == Queued then Do(j, ClaimTurn) else j;
      assert Admissible(k);
      assert DoAll(k, [Admit]) == Do(k, Admit);
    }
  }

  /** Exactly when an input is never delivered, whatever anybody does. */
  lemma NeverExactly(i: Input)
    requires Sane(i)
    ensures Never(i) <==> !CanReachChild(i)
  {
    if CanReachChild(i) {
      WayInAdmits(i);
    } else {
      forall ops ensures !DoAll(i, ops).admitted { StaysOut(i, ops); }
    }
  }

  // ---------------------------------------------------------------- the caller after a failed send

  datatype Report = Proceeds | Failed

  /** The exception handler: read, cancel, read again; `first`, `second` and `third` are what the
      others do before each of its steps. */
  function AfterFailedSend(i: Input, first: seq<Op>, second: seq<Op>, third: seq<Op>): (Input, Report) {
    var i1 := DoAll(i, first);
    if Accepted(i1) then (i1, Proceeds)
    else
      var (i2, cancelled) := CancelAttempt(DoAll(i1, second));
      if cancelled || !i.bound then (i2, Failed)
      else
        var i3 := DoAll(i2, third);
        (i3, if Accepted(i3) then Proceeds else Failed)
  }

  class DeliveryRows {
    var row: Input

    constructor (i: Input)
      ensures row == i
    {
      row := i;
    }

    method Others(ops: seq<Op>)
      modifies this
      ensures row == DoAll(old(row), ops)
    {
      var k := 0;
      assert ops[0..] == ops;
      while k < |ops|
        invariant 0 <= k <= |ops|
        invariant DoAll(row, ops[k..]) == DoAll(old(row), ops)
      {
        assert ops[k..][1..] == ops[k + 1..];
        row := Do(row, ops[k]);
        k := k + 1;
      }
    }

    method Cancel() returns (cancelled: bool)
      modifies this
      ensures (row, cancelled) == CancelAttempt(old(row))
    {
      if row.attempt == Cancelled { return true; }
      if row.attempt != Awaiting { return false; }
      if row.bound && (row.state == Queued || row.state == Claimed || row.leased || row.receipted) { return false; }
      row := row.(attempt := Cancelled);
      return true;
    }

    /** The handler of both delegation tools, for a request that carries a workflow effect. */
    method HandleFailedSend(bindingKnown: bool, first: seq<Op>, second: seq<Op>, third: seq<Op>) returns (r: Report)
      requires bindingKnown == row.bound && Sane(row)
      modifies this
      ensures (row, r) == AfterFailedSend(old(row), first, second, third)
    {
      SaneAlways(row, first);
      Others(first);
      var retained := if bindingKnown then Delivery(row) else None;
      if retained == Some(true) { return Proceeds; }
      SaneAlways(row, second);
      Others(second);
      var cancelled := Cancel();
      if !cancelled && bindingKnown {
        Others(third);
        retained := Delivery(row);
        return if retained == Some(true) then Proceeds else Failed;
      }
      return Failed;
    }
  }

  // ---------------------------------------------------------------- what the report is worth

  /** The two promises: a reported failure is never delivered, and the caller proceeds only with an
      input that is current and owned. */
  ghost predicate Right(i: Input, first: seq<Op>, second: seq<Op>, third: seq<Op>) {
    var (after, r) := AfterFailedSend(i, first, second, third);
    if r == Failed then Never(after) else Accepted(after)
  }

  lemma CancelKeeps(i: Input)
    requires Sane(i)
    ensures var c := CancelAttempt(i).0; Sane(c) && c.bound == i.bound && c.admitted == i.admitted
    ensures !CanReachChild(i) ==> !CanReachChild(CancelAttempt(i).0)
  {
  }

  /** Exactly for which inputs the report is right in every interleaving: those that cannot reach the
      child any more.  Every other input can be reported failed and be delivered. */
  lemma ReportRightExactly(i: Input)
    requires Sane(i) && i.attempt == Awaiting
    ensures (forall first, second, third :: Right(i, first, second, third)) <==> !CanReachChild(i)
  {
    if CanReachChild(i) {
      WrongReport(i);
    } else {
      forall first, second, third ensures Right(i, first, second, third) {
        OutOfReachRight(i, first, second, third);
      }
    }
  }

  lemma OutOfReachRight(i: Input, first: seq<Op>, second: seq<Op>, third: seq<Op>)
    requires Sane(i) && !CanReachChild(i)
    ensures Right(i, first, second, third)
  {
    hide Do, CanReachChild;
    var i1 := DoAll(i, first);
    StaysOut(i, first);
    SaneAlways(i, first);
    StaysOut(i1, second);
    SaneAlways(i1, second);
    CancelKeeps(DoAll(i1, second));
    var i2 := CancelAttempt(DoAll(i1, second)).0;
    StaysOut(i2, third);
    SaneAlways(i2, third);
    NeverExactly(AfterFailedSend(i, first, second, third).0);
  }

  /** The provider is admitted, and a newer input takes the workflow before the first read. */
  lemma WrongReport(i: Input)
    requires Sane(i) && i.attempt == Awaiting && CanReachChild(i)
    ensures !Right(i, WayIn(i) + [Supersede], [], [])
  {
    var first := WayIn(i) + [Supersede];
    var taken := DoAll(i, WayIn(i));
    WayInAdmits(i);
    DoAllConcat(i, WayIn(i), [Supersede]);
    assert [Supersede][1..] == [];
    var i1 := DoAll(i, first);
    assert i1 == Do(taken, Supersede) && !Accepted(i1) && i1.admitted;
    SaneAlways(i, first);
    CancelKeeps(i1);
    assert DoAll(i1, []) == i1;
    assert AfterFailedSend(i, first, [], []) == (CancelAttempt(i1).0, Failed);
    assert DoAll(CancelAttempt(i1).0, []).admitted;
  }

  /** Exactly when a cancellation that succeeded is final: the provider was never admitted, and the
      turn can no longer be resolved or requeued, or the attempt is a review's. */
  lemma CancelledFinalExactly(i: Input)
    requires Sane(i) && i.attempt == Awaiting && CancelAttempt(i).1
    ensures Never(CancelAttempt(i).0) <==> !i.admitted && (!Current(i) || i.review || i.state == Ended)
  {
    CancelKeeps(i);
    NeverExactly(CancelAttempt(i).0);
  }

  /** With nothing in between, the caller proceeds exactly when the turn is current and somebody has it:
      queued, claimed, leased to the provider or received.  Otherwise an awaited attempt is cancelled,
      unless a turn that is not current is owned, and every other attempt stays as it is. */
  lemma HandlerExactly(i: Input)
    requires Sane(i)
    ensures var (after, r) := AfterFailedSend(i, [], [], []);
      var current := i.bound && i.open && i.active;
      var owned := i.bound && (i.state == Queued || i.state == Claimed || i.leased || i.receipted);
      && (r == Proceeds <==> current && owned)
      && (r == Failed ==> after == if i.attempt == Awaiting && !owned then i.(attempt := Cancelled) else i)
      && (r == Proceeds ==> after == i)
  {
  }

  // ---------------------------------------------------------------- while nobody takes the turn away

  /** The others leave the turn current, its owner in place and the attempt awaited. */
  predicate Keeps(i: Input, ops: seq<Op>)
    decreases |ops|
  {
    ops == [] ||
    (var j := Do(i, ops[0]);
     && j.open && j.active && j.attempt == i.attempt && (Owned(i) ==> Owned(j)) && (j.admitted ==> Owned(j))
     && Keeps(j, ops[1..]))
  }

  lemma {:induction false} KeptThroughout(i: Input, ops: seq<Op>)
    requires Keeps(i, ops) && i.open && i.active && (i.admitted ==> Owned(i))
    ensures var j := DoAll(i, ops);
      j.open && j.active && j.attempt == i.attempt && (Owned(i) ==> Owned(j)) && (j.admitted ==> Owned(j))
    decreases |ops|
  {
    hide Do, Owned;
    if ops != [] { KeptThroughout(Do(i, ops[0]), ops[1..]); }
  }

  /** While nobody takes the turn away, a refused cancellation is always seen by the second read: a
      failure is reported exactly when the attempt was cancelled.  For a review that failure is final;
      for any other input it is not, as long as the turn is bound and not ended. */
  lemma FailureWhileCurrent(i: Input, first: seq<Op>, second: seq<Op>, third: seq<Op>)
    requires Sane(i) && i.attempt == Awaiting && i.open && i.active && (i.admitted ==> Owned(i))
    requires Keeps(i, first) && Keeps(DoAll(i, first), second)
    requires Keeps(CancelAttempt(DoAll(DoAll(i, first), second)).0, third)
    ensures var (after, r) := AfterFailedSend(i, first, second, third);
      && (r == Failed <==> after.attempt == Cancelled)
      && (r == Proceeds ==> Accepted(after))
      && (r == Failed ==> (Never(after) <==> !i.bound || i.review || after.state == Ended))
  {
    hide Do, CanReachChild;
    var i1 := DoAll(i, first);
    KeptThroughout(i, first);
    SaneAlways(i, first);
    KeptThroughout(i1, second);
    SaneAlways(i1, second);
    var before := DoAll(i1, second);
    var (i2, cancelled) := CancelAttempt(before);
    CancelKeeps(before);
    if cancelled {
      CancelledFinalExactly(before);
    } else {
      KeptThroughout(i2, third);
      SaneAlways(i2, third);
    }
  }

  // ---------------------------------------------------------------- concrete failures

  /** The connection of the send drops while its server thread still waits at the admission fence: the
      attempt is cancelled and reported failed, and then the provider is admitted and the child takes
      the input. */
  lemma CancelledInputDelivered(lifecycle: Lifecycle)
    ensures var i := JustBound(lifecycle, false);
      var after := i.(attempt := Cancelled);
      && Sane(i) && AfterFailedSend(i, [], [], []) == (after, Failed)
      && DoAll(after, [Admit, Receipt]).receipted && DoAll(after, [Admit, Receipt]).attempt == Cancelled
  {
    var after := JustBound(lifecycle, false).(attempt := Cancelled);
    assert [Admit, Receipt][1..] == [Receipt] && [Receipt][1..] == [];
    assert DoAll(Do(after, Admit), [Receipt]) == Do(Do(after, Admit), Receipt);
  }

  /** After a restart the queue honours the cancellation exactly for a turn that binding has linked to
      its managed attempt; a send that failed at binding has none. */
  lemma RestartHonoursLinkedOnly(i: Input)
    requires Sane(i) && Unadmitted(i) && i.state == Sent && !i.admitted && i.attempt == Cancelled
    ensures DoAll(i, [RestartRequeue, ClaimTurn, Admit]).admitted <==> i.lifecycle == Unlinked && !i.review
  {
    var q := Do(i, RestartRequeue);
    var c := Do(q, ClaimTurn);
    assert [RestartRequeue, ClaimTurn, Admit][1..] == [ClaimTurn, Admit];
    assert [ClaimTurn, Admit][1..] == [Admit] && [Admit][1..] == [];
    assert DoAll(c, [Admit]) == Do(c, Admit);
    assert DoAll(q, [ClaimTurn, Admit]) == DoAll(c, [Admit]);
  }

  /** Or the child takes the input at once and its workflow closes between the two reads. */
  lemma FastChildReportedFailed(lifecycle: Lifecycle, review: bool)
    ensures var (after, r) := AfterFailedSend(JustBound(lifecycle, review), [], [Admit, Receipt], [CloseWorkflow]);
      r == Failed && after.receipted && after.attempt == Awaiting
  {
    var i := JustBound(lifecycle, review);
    var i1 := Do(i, Admit);
    assert [Admit, Receipt][1..] == [Receipt] && [Receipt][1..] == [] && [CloseWorkflow][1..] == [];
    assert DoAll(i1, [Receipt]) == Do(i1, Receipt);
    assert DoAll(Do(i1, Receipt), [CloseWorkflow]) == Do(Do(i1, Receipt), CloseWorkflow);
  }
}
