/** The durable relation between a parent and a child that was handed one task, and the store
    operations on it. */
module HandoffResults {
  import opened Common
  import opened RetirementStore

  type Output = string

  /** `Claimed`: the live call owns a validated capture whose cleanup is not acknowledged yet.
      `Queued`, `Undelivered` and `Delivered`: the parent's inbox carries the result, except that a
      direct acknowledgement also ends in `Delivered`.  `Withdrawn`: cancelled or fenced. */
  datatype Status =
    Unregistered | Awaiting | Recovering | Claimed | Queued | Undelivered | Delivered | Acknowledged | Withdrawn

  /** The immutable result row. */
  datatype ResultRow = Open | Unsuccessful | Complete(output: Output)

  /** `inboxed`: a notice was queued for the parent.  `structured`: only an authenticated submission may
      complete the child.  `left`: an exit request was confirmed, or the child was seen not running.
      `exited`: its runtime is durably exited.  `acks` counts direct acknowledgements, and `bypassed`
      records one that was made before the cleanup was done. */
  datatype Handoff = Handoff(
    status: Status, result: ResultRow, inboxed: bool, managed: bool, structured: bool, row: Row,
    left: bool, exited: bool, cleaned: bool, acks: nat, bypassed: bool)

  /** A relation that is registered or not, before anything has happened. */
  function Fresh(registered: bool, managed: bool, structured: bool): Handoff {
    Handoff.Handoff(if registered then Awaiting else Unregistered, Open, false, managed, structured, Unclaimed,
            false, false, false, 0, false)
  }

  predicate Visible(h: Handoff) { h.status != Unregistered && h.status != Withdrawn }

  predicate Final(s: Status) { s in {Claimed, Queued, Delivered, Acknowledged} }

  /** Exit, worktree cleanup and seal: what has to come before the acknowledgement. */
  predicate CleanupDone(h: Handoff) { h.left && (h.managed ==> h.row.completed) }

  function OutputOf(r: ResultRow): Option<Output> { if r.Complete? then Some(r.output) else None }

  /** `get_claimed_handoff_child_result_direct`. */
  function ClaimedOutput(h: Handoff): Option<Output> { if h.status == Claimed then OutputOf(h.result) else None }

  /** `get_acknowledged_handoff_child_result_direct`. */
  function DeliveredOutput(h: Handoff): Option<Output> {
    if h.status == Delivered || h.status == Acknowledged then OutputOf(h.result) else None
  }

  /** `acknowledge_handoff_child_result_direct`. */
  function AcknowledgeDirect(h: Handoff): (Handoff, Option<Output>) {
    if h.status == Claimed && h.result.Complete? then
      (h.(status := Delivered, acks := h.acks + 1, bypassed := h.bypassed || !CleanupDone(h)), Some(h.result.output))
    else (h, DeliveredOutput(h))
  }

  /** A result row that is final keeps what it says. */
  function Finalized(r: ResultRow, o: Output): ResultRow { if r.Open? then Complete(o) else r }

  function Failed(r: ResultRow): ResultRow { if r.Open? then Unsuccessful else r }

  /** `claim_handoff_child_result_direct`; a cancelled relation counts as none. */
  function ClaimDirect(h: Handoff, output: Output, parentOpen: bool): (Handoff, Option<bool>) {
    if !Visible(h) then (h, None)
    else if h.structured || !parentOpen then (h, Some(false))
    else if h.status == Claimed then (h, Some(true))
    else if h.status != Awaiting then (h, Some(false))
    else (h.(status := Claimed, result := Finalized(h.result, output)), Some(true))
  }

  datatype Staged = NoStaged | StagedRefused | StagedOutput(output: Output)

  /** `claim_staged_handoff_result_direct`: an accepted submission is queued for the parent's inbox,
      and the answer is the same as for a claim of the live call. */
  function ClaimStaged(h: Handoff, staged: Staged, open: bool): (Handoff, Option<bool>) {
    if !Visible(h) then (h, None)
    else if h.status == Claimed then (h, Some(true))
    else if h.status != Awaiting || !open || !h.result.Open? then (h, Some(false))
    else match staged
      case NoStaged => (h, None)
      case StagedRefused => (h, Some(false))
      case StagedOutput(o) => (h.(status := Queued, inboxed := true, result := Complete(o)), Some(true))
  }

  /** `cancel_child_assignments_for_terminal` for the child: a result that is final survives, and a
      structured child is recovered until its attempts are exhausted. */
  function CancelForChild(h: Handoff, exhausted: bool, parentOpen: bool): Handoff {
    if h.status != Awaiting && h.status != Recovering then h
    else if !h.structured then h.(status := Withdrawn, result := Failed(h.result))
    else if !exhausted then h.(status := Recovering)
    else if !h.result.Open? then h
    else if parentOpen then h.(status := Queued, inboxed := true, result := Unsuccessful)
    else h.(status := Undelivered, result := Unsuccessful)
  }

  /** The same for the parent, or a fence of the attempt: only an acknowledged relation survives. */
  function CancelForParent(h: Handoff): Handoff {
    if h.status == Unregistered || h.status == Acknowledged then h
    else h.(status := Withdrawn, result := Failed(h.result))
  }

  // ---------------------------------------------------------------- what the store answers

  /** Exactly what a direct claim answers and leaves: nothing for a relation that is none, no for one that
      is structured, past awaiting or of a closed parent, yes for the live call's own. */
  lemma DirectClaimExactly(h: Handoff, o: Output, parentOpen: bool)
    ensures var (n, a) := ClaimDirect(h, o, parentOpen);
      && (a == None <==> h.status == Unregistered || h.status == Withdrawn)
      && (a == Some(true) <==> !h.structured && parentOpen && (h.status == Claimed || h.status == Awaiting))
      && (h.status == Awaiting && a == Some(true) ==>
            n == h.(status := Claimed, result := if h.result == Open then Complete(o) else h.result))
      && (h.status != Awaiting || a != Some(true) ==> n == h)
  {
  }

  /** So it is with a staged result, which is taken only while the result is open, and queued. */
  lemma StagedClaimExactly(h: Handoff, staged: Staged, open: bool)
    ensures var (n, a) := ClaimStaged(h, staged, open);
      var takeable := h.status == Awaiting && open && h.result == Open;
      && (a == None <==> h.status == Unregistered || h.status == Withdrawn || (takeable && staged == NoStaged))
      && (a == Some(true) <==> h.status == Claimed || (takeable && staged.StagedOutput?))
      && (takeable && staged.StagedOutput? ==> n == h.(status := Queued, inboxed := true, result := Complete(staged.output)))
      && (!(takeable && staged.StagedOutput?) ==> n == h)
  {
  }

  /** Exactly what is read as claimed and as delivered, and what an acknowledgement returns and leaves. */
  lemma AcknowledgedExactly(h: Handoff)
    ensures forall o :: ClaimedOutput(h) == Some(o) <==> h.status == Claimed && h.result == Complete(o)
    ensures forall o :: DeliveredOutput(h) == Some(o) <==> (h.status == Delivered || h.status == Acknowledged) && h.result == Complete(o)
    ensures var (n, a) := AcknowledgeDirect(h);
      && (forall o :: a == Some(o) <==>
            h.result == Complete(o) && (h.status == Claimed || h.status == Delivered || h.status == Acknowledged))
      && (h.status == Claimed && h.result.Complete? ==>
            n.status == Delivered && n.result == h.result && n.acks == h.acks + 1 && n.inboxed == h.inboxed && n.row == h.row)
      && (h.status != Claimed || !h.result.Complete? ==> n == h)
  {
  }

  /** The end of the child touches only what is still awaited or recovered: without structure the relation
      is withdrawn and its result failed; with structure it is recovered, until its attempts are used up
      and the failure is queued for the parent. */
  lemma ChildCancelledExactly(h: Handoff, exhausted: bool, parentOpen: bool)
    ensures var n := CancelForChild(h, exhausted, parentOpen);
      var touched := h.status == Awaiting || h.status == Recovering;
      var failed := if h.result == Open then Unsuccessful else h.result;
      && (!touched ==> n == h)
      && (touched && !h.structured ==> n == h.(status := Withdrawn, result := failed))
      && (touched && h.structured && !exhausted ==> n == h.(status := Recovering))
      && (touched && h.structured && exhausted && h.result != Open ==> n == h)
      && (touched && h.structured && exhausted && h.result == Open ==>
            n == if parentOpen then h.(status := Queued, inboxed := true, result := Unsuccessful)
                 else h.(status := Undelivered, result := Unsuccessful))
  {
  }

  /** The parent's end withdraws every registered relation that is not acknowledged, and fails its result
      if that is open. */
  lemma ParentCancelledExactly(h: Handoff)
    ensures var n := CancelForParent(h);
      && (h.status == Unregistered || h.status == Acknowledged ==> n == h)
      && (h.status != Unregistered && h.status != Acknowledged ==>
            n == h.(status := Withdrawn, result := if h.result == Open then Unsuccessful else h.result))
  {
  }

  // ---------------------------------------------------------------- retirement

  /** `_handoff_retirement_eligible`, as far as this relation decides it. */
  predicate Retirable(h: Handoff) { Final(h.status) && h.result.Complete? && h.exited }

  function Limited(h: Handoff, e: Evidence): Evidence { e.(eligible := e.eligible && Retirable(h)) }

  function ClaimRetirement(h: Handoff, mode: Mode, e: Evidence): (Handoff, Grant) {
    var (row, grant) := Claim(h.row, mode, Limited(h, e));
    (h.(row := row), grant)
  }

  /** A sealing transaction with this token can succeed. */
  predicate MaySeal(h: Handoff, t: Token) { CanSeal(h.row, t) && Retirable(h) }

  // ---------------------------------------------------------------- what others do to the relation

  /** `Recover`: the recovery finalizes a result and, if the parent can take it, queues its notice.
      `Retire…`: housekeeping carries the retirement of the exited child through. */
  datatype Act =
    | ChildLeaves | ChildExits
    | ArmRecovery
    | Recover(output: Output, queued: bool)
    | FinalizeIncomplete
    | InboxDelivers | InboxFails | InboxRequeues
    | ParentAcknowledges
    | ParentExits
    | WorkflowCancelled
    | ExitCancels(exhausted: bool, parentOpen: bool)
    | SweepClaims
    | RetireClaims(evidence: Evidence)
    | RetireCleans
    | RetireSeals(token: Token)

  function Do(h: Handoff, a: Act): Handoff {
    match a
    case ChildLeaves => h.(left := true)
    case ChildExits => h.(left := true, exited := true)
    case ArmRecovery => if h.status == Awaiting then h.(status := Recovering) else h
    case Recover(o, queued) =>
      if h.status != Awaiting && h.status != Recovering then h
      else if !queued then h.(result := Finalized(h.result, o))
      else h.(status := Queued, inboxed := true, result := Finalized(h.result, o))
    case FinalizeIncomplete => h.(result := Failed(h.result))
    case InboxDelivers => if h.status == Queued then h.(status := Delivered) else h
    case InboxFails => if h.status == Queued then h.(status := Undelivered) else h
    case InboxRequeues =>
      if h.inboxed && h.status in {Queued, Undelivered, Delivered} then h.(status := Queued) else h
    case ParentAcknowledges => if h.status == Delivered then h.(status := Acknowledged) else h
    case ParentExits => CancelForParent(h)
    case WorkflowCancelled => if h.status == Claimed then h else CancelForParent(h)
    case ExitCancels(exhausted, open) => CancelForChild(h, exhausted, open)
    case SweepClaims => h.(row := Restarted(h.row))
    case RetireClaims(e) => ClaimRetirement(h, RequireExited, e).0
    case RetireCleans => if h.row.claim.Some? then h.(cleaned := true) else h
    case RetireSeals(t) => if h.cleaned && MaySeal(h, t) then h.(row := Sealed(h.row, t, true)) else h
  }

  /** Exactly what the recovery changes, and when: it finalizes what is still open and queues its notice. */
  lemma RecoveredExactly(h: Handoff, o: Output)
    ensures var running := h.status == Awaiting || h.status == Recovering;
      var final := if h.result == Open then Complete(o) else h.result;
      && Do(h, Recover(o, true)) == (if running then h.(status := Queued, inboxed := true, result := final) else h)
      && Do(h, Recover(o, false)) == (if running then h.(result := final) else h)
  {
  }

  /** So it is with the inbox and the parent: a notice is delivered, failed or queued again, a delivered
      result is acknowledged, and a cancelled workflow spares only a live claim. */
  lemma NoticedExactly(h: Handoff)
    ensures Do(h, InboxDelivers) == if h.status == Queued then h.(status := Delivered) else h
    ensures Do(h, InboxFails) == if h.status == Queued then h.(status := Undelivered) else h
    ensures Do(h, InboxRequeues) ==
      if h.inboxed && (h.status == Queued || h.status == Undelivered || h.status == Delivered) then h.(status := Queued) else h
    ensures Do(h, ParentAcknowledges) == if h.status == Delivered then h.(status := Acknowledged) else h
    ensures Do(h, WorkflowCancelled) == if h.status == Claimed then h else Do(h, ParentExits)
  {
  }

  /** Housekeeping seals exactly an exited and cleaned child with its own token and a final result. */
  lemma SealedExactly(h: Handoff, t: Token)
    ensures Do(h, RetireSeals(t)).row.completed <==>
      h.row.completed
      || (h.cleaned && h.exited && h.result.Complete? && h.row.claim == Some(t) && h.row.intent
          && (h.status == Claimed || h.status == Queued || h.status == Delivered || h.status == Acknowledged))
  {
  }

  // ---------------------------------------------------------------- what every operation keeps

  /** The order of one result's life, and what each status rests on. */
  ghost predicate Orderly(h: Handoff) {
    && (h.exited ==> h.left) && (h.cleaned ==> h.exited) && (h.row.completed ==> h.cleaned)
    && (h.row.claim.Some? ==> h.exited && h.row.exitSet && h.row.intent)
    && (h.row.completed ==> h.result.Complete? && (Final(h.status) || h.status in {Undelivered, Withdrawn}))
    && (h.status in {Unregistered, Awaiting, Recovering, Claimed} ==> !h.inboxed && h.acks == 0)
    && (h.status == Claimed ==> !h.result.Open? && !h.structured)
    && (h.status == Queued ==> h.inboxed)
    && (h.status in {Delivered, Acknowledged} ==> h.acks == 1 || h.inboxed)
    && h.acks <= 1
    && (h.acks == 1 ==> h.result.Complete? && h.left && !h.inboxed && h.status in {Delivered, Acknowledged, Withdrawn})
    && (h.acks == 1 && !h.bypassed ==> CleanupDone(h))
    && (h.bypassed ==> h.acks == 1 && h.managed)
  }

  /** What never goes back. */
  ghost predicate Later(a: Handoff, b: Handoff) {
    && a.managed == b.managed && a.structured == b.structured
    && (!a.result.Open? ==> b.result == a.result)
    && (a.left ==> b.left) && (a.exited ==> b.exited) && (a.cleaned ==> b.cleaned)
    && (a.row.completed ==> b.row.completed) && (a.bypassed ==> b.bypassed) && a.acks <= b.acks
    && (a.inboxed ==> b.inboxed)
    && (a.status == Claimed ==> b.status in {Claimed, Delivered, Acknowledged, Withdrawn} && !b.inboxed)
    && (a.acks == 1 ==> b.status in {Delivered, Acknowledged, Withdrawn} && !b.inboxed)
    && (a.status !in {Unregistered, Awaiting} ==> b.status !in {Unregistered, Awaiting})
    && (a.status == Withdrawn ==> b.status == Withdrawn && b.inboxed == a.inboxed)
    && (a.status == Unregistered <==> b.status == Unregistered)
  }

  lemma FreshOrderly(registered: bool, managed: bool, structured: bool)
    ensures Orderly(Fresh(registered, managed, structured))
  {
  }

  /** Every act keeps the order, takes nothing back, and neither acknowledges nor claims. */
  lemma DoKeepsOrder(h: Handoff, a: Act)
    requires Orderly(h)
    ensures Orderly(Do(h, a)) && Later(h, Do(h, a))
    ensures Do(h, a).bypassed == h.bypassed && Do(h, a).acks == h.acks
    ensures Do(h, a).status == Claimed ==> h.status == Claimed
  {
    hide Orderly, Later, Do;
    if a.SweepClaims? || a.RetireClaims? || a.RetireCleans? || a.RetireSeals? {
      RetiringKeepsOrder(h, a);
    } else {
      MovingKeepsOrder(h, a);
    }
  }

  lemma RetiringKeepsOrder(h: Handoff, a: Act)
    requires Orderly(h) && (a.SweepClaims? || a.RetireClaims? || a.RetireCleans? || a.RetireSeals?)
    ensures Orderly(Do(h, a)) && Later(h, Do(h, a))
    ensures Do(h, a).bypassed == h.bypassed && Do(h, a).acks == h.acks && Do(h, a).status == h.status
  {
    if a.RetireClaims? { ClaimingKeepsOrder(h, RequireExited, a.evidence); }
  }

  lemma ClaimingKeepsOrder(h: Handoff, mode: Mode, e: Evidence)
    requires Orderly(h) && mode != Own
    ensures var (n, g) := ClaimRetirement(h, mode, e);
      && Orderly(n) && Later(h, n) && n == h.(row := n.row) && n.row.completed == h.row.completed
      && (g.Granted? ==> Retirable(h) && n.row.claim == Some(g.token) && n.row.exitSet && n.row.intent)
      && (g.AlreadyRetired? ==> h.row.completed)
  {
  }

  predicate EndsRelation(a: Act) { a.ParentExits? || a.WorkflowCancelled? || a.ExitCancels? || a.Recover? }

  lemma MovingKeepsOrder(h: Handoff, a: Act)
    requires Orderly(h) && !a.SweepClaims? && !a.RetireClaims? && !a.RetireCleans? && !a.RetireSeals?
    ensures var n := Do(h, a);
      && Orderly(n) && Later(h, n) && n.bypassed == h.bypassed && n.acks == h.acks && (n.status == Claimed ==> h.status == Claimed)
  {
    hide Orderly, Later, Do;
    if EndsRelation(a) {
      EndingKeepsOrder(h, a);
    } else {
      CarryingKeepsOrder(h, a);
    }
  }

  /** Only the status, the result and its notice may differ. */
  ghost predicate Ends(h: Handoff, n: Handoff) {
    && Orderly(n) && Later(h, n) && n == h.(status := n.status, result := n.result, inboxed := n.inboxed)
    && (n.status == Claimed ==> h.status == Claimed)
  }

  lemma ParentCancelKeepsOrder(h: Handoff)
    requires Orderly(h)
    ensures Ends(h, CancelForParent(h)) && Ends(h, h)
  {
  }

  lemma ChildCancelKeepsOrder(h: Handoff, exhausted: bool, parentOpen: bool)
    requires Orderly(h)
    ensures Ends(h, CancelForChild(h, exhausted, parentOpen))
  {
  }

  lemma RecoveryKeepsOrder(h: Handoff, output: Output, queued: bool)
    requires Orderly(h)
    ensures Ends(h, Do(h, Recover(output, queued)))
  {
  }

  lemma EndingKeepsOrder(h: Handoff, a: Act)
    requires Orderly(h) && EndsRelation(a)
    ensures Ends(h, Do(h, a))
  {
    hide Orderly, Ends;
    match a {
      case ExitCancels(exhausted, open) => ChildCancelKeepsOrder(h, exhausted, open);
      case Recover(o, queued) => RecoveryKeepsOrder(h, o, queued);
      case _ => ParentCancelKeepsOrder(h);
    }
  }

  lemma CarryingKeepsOrder(h: Handoff, a: Act)
    requires Orderly(h) && !a.SweepClaims? && !a.RetireClaims? && !a.RetireCleans? && !a.RetireSeals? && !EndsRelation(a)
    ensures var n := Do(h, a);
      && Orderly(n) && Later(h, n) && n.bypassed == h.bypassed && n.acks == h.acks && (n.status == Claimed ==> h.status == Claimed)
  {
    if a.InboxDelivers? || a.InboxFails? || a.InboxRequeues? || a.ParentAcknowledges? {
      InboxKeepsOrder(h, a);
    } else {
      ChildKeepsOrder(h, a);
    }
    hide Orderly, Later;
  }

  lemma InboxKeepsOrder(h: Handoff, a: Act)
    requires Orderly(h) && (a.InboxDelivers? || a.InboxFails? || a.InboxRequeues? || a.ParentAcknowledges?)
    ensures Ends(h, Do(h, a))
  {
  }

  lemma ChildKeepsOrder(h: Handoff, a: Act)
    requires Orderly(h) && (a.ChildLeaves? || a.ChildExits? || a.ArmRecovery? || a.FinalizeIncomplete?)
    ensures var n := Do(h, a);
      && Orderly(n) && Later(h, n) && n.bypassed == h.bypassed && n.acks == h.acks && (n.status == Claimed ==> h.status == Claimed)
  {
  }

  lemma LaterTransitive(a: Handoff, b: Handoff, c: Handoff)
    requires Later(a, b) && Later(b, c) && Orderly(b)
    ensures Later(a, c)
  {
  }

  /** A claim of the live call is retired only with its exit recorded, so it can never be released:
      that is the answer a waiter always gets when it tries to at a runtime fence. */
  lemma ClaimNeverReleased(h: Handoff, t: Token)
    requires Orderly(h)
    ensures !CanRelease(h.row, t) && Released(h.row, t) == h.row && Restarted(h.row) == h.row
  {
  }
}
