/** The numbered slices of one resumable wait: a slice is admitted only after its predecessor has a
    durable resumable outcome, and a recorded slice is replayed without looking at the child again. */
module WaitSlices {
  import opened Common
  import opened Numbers
  import opened WorkflowEffects

  // ---------------------------------------------------------------- slice identities

  /** Slice zero keeps the older key; each resumed slice has a key of its own. */
  function SliceKey(owner: Terminal, turn: Turn, child: Terminal, n: nat): Key {
    Key(owner, turn, "await_handoff", if n == 0 then [child] else [child, "wait-slice:" + Decimal(n)])
  }

  lemma SliceKeysDiffer(owner: Terminal, turn: Turn, child: Terminal, m: nat, n: nat)
    requires SliceKey(owner, turn, child, m) == SliceKey(owner, turn, child, n)
    ensures m == n
  {
    var a, b := SliceKey(owner, turn, child, m).identity, SliceKey(owner, turn, child, n).identity;
    if m != 0 && n != 0 {
      assert a[1] == b[1];
      assert Decimal(m) == a[1][11..] && Decimal(n) == b[1][11..];
      DecimalInjective(m, n);
    } else {
      assert |a| == |b|;
    }
  }

  // ---------------------------------------------------------------- outcomes

  datatype WaitState = Completed | Waiting | Failed

  datatype Reason =
    | SliceExpired | ContentUnavailable | NotResumable | ValidationFailed | WorkerError
    | IdentityUnavailable | ReconnectRequired | OtherReason

  /** `_await_handoff_effect_outcome`. */
  function OutcomeOf(s: WaitState, r: Reason): EffectState {
    match s
    case Completed => EffectState.Completed
    case Waiting => if r == SliceExpired then WaitTimeout else WaitRetryable
    case Failed =>
      if r in {NotResumable, ValidationFailed, WorkerError} then Rejected
      else if r in {IdentityUnavailable, ReconnectRequired} then WaitRetryable
      else Indeterminate
  }

  /** What a slice that observed this has to leave behind: a completed child completes it, a child that
      is still waited for leaves it expired or to be tried again, and a failure is rejected, to be
      tried again or unknown by its reason. */
  predicate Records(state: WaitState, r: Reason, s: EffectState) {
    && (s == EffectState.Completed <==> state == WaitState.Completed)
    && (s == WaitTimeout <==> state == Waiting && r == SliceExpired)
    && (s == WaitRetryable <==>
          (state == Waiting && r != SliceExpired) || (state == Failed && (r == IdentityUnavailable || r == ReconnectRequired)))
    && (s == Rejected <==> state == Failed && (r == NotResumable || r == ValidationFailed || r == WorkerError))
    && (s == Indeterminate <==> state == Failed && (r == SliceExpired || r == ContentUnavailable || r == OtherReason))
  }

  lemma OutcomeRecords(state: WaitState, r: Reason)
    ensures Records(state, r, OutcomeOf(state, r)) && OutcomeOf(state, r) !in {Claimed, Retired}
  {
  }

  predicate Resumable(s: EffectState) { s == WaitTimeout || s == WaitRetryable }

  predicate Recorded(l: Ledger, k: Key) { k in l.rows && Resumable(l.rows[k].state) }

  /** The check a slice after the first makes before it claims anything. */
  predicate GuardPasses(l: Ledger, owner: Terminal, turn: Turn, child: Terminal, n: nat) {
    n > 0 ==> StateOf(l, SliceKey(owner, turn, child, n - 1)) in {Some(WaitTimeout), Some(WaitRetryable)}
  }

  datatype Reply =
    | PredecessorRequired
    | Replayed(next: nat)
    | NotClaimed
    | Observed(state: WaitState, named: Option<nat>)
    | Raised

  /** The diagnosis of a refused claim looks the row up under any turn of an open workflow. */
  predicate Replayable(l: Ledger, k: Key) { k.receiver in l.active && Recorded(l, k) }

  class AwaitTool {
    const ledger: EffectLedger

    constructor (ledger: EffectLedger)
      ensures this.ledger == ledger
    {
      this.ledger := ledger;
    }

    /** `await_handoff`.  `before` and `during` are what others do to the ledger between the guard
        and the claim, and while the child is observed. */
    method AwaitHandoff(owner: Terminal, turn: Turn, child: Terminal, n: nat, state: WaitState, reason: Reason,
                        before: seq<Op>, during: seq<Op>)
        returns (r: Reply, observed: bool)
      modifies ledger
      ensures var k := SliceKey(owner, turn, child, n);
        var l := old(ledger.State());
        && (r == PredecessorRequired <==> !GuardPasses(l, owner, turn, child, n))
        && (observed <==> GuardPasses(l, owner, turn, child, n) && Claimable(DoAll(l, before), k))
        && (r.Observed? ==> k in ledger.State().rows && Records(state, reason, ledger.State().rows[k].state))
        && (r.Replayed? ==> !observed && r.next == n + 1 && Recorded(ledger.State(), k))
        && (GuardPasses(l, owner, turn, child, n) ==>
              var met := DoAll(l, before);
              (r == Replayed(n + 1) <==>
                 owner in met.active && k in met.rows && met.rows[k].state in {WaitTimeout, WaitRetryable}))
        && (r.Observed? && r.named.Some? ==> r.named.value == n + 1 && Recorded(ledger.State(), k))
      ensures observed ==> r == Raised || r == Observed(state, if state == Waiting then Some(n + 1) else None)
      ensures var k := SliceKey(owner, turn, child, n);
        var claimed := Do(DoAll(old(ledger.State()), before), Claim(k));
        var token := DoAll(old(ledger.State()), before).next;
        && (observed ==> (r == Raised <==> !Finishable(DoAll(claimed, during), k, token)))
        && (TokenUnknown(during, token) && Unsettled(during, k) ==> r != Raised)
    {
      hide DoAll;
      var k := SliceKey(owner, turn, child, n);
      if n > 0 {
        var predecessor := CurrentState(SliceKey(owner, turn, child, n - 1));
        if predecessor.None? || !Resumable(predecessor.value) { return PredecessorRequired, false; }
      }
      hide SliceKey;
      Others(before);
      var token := ledger.ClaimEffect(k);
      if token.None? {
        if k.receiver in ledger.active && k in ledger.rows && Resumable(ledger.rows[k].state) {
          return Replayed(n + 1), false;
        }
        return NotClaimed, false;
      }
      r := ObserveAndRecord(k, n, token.value, state, reason, during);
      return r, true;
    }

    /** Observes the child and records the outcome, or raises when the recording is not confirmed. */
    method ObserveAndRecord(k: Key, n: nat, token: Token, state: WaitState, reason: Reason, during: seq<Op>) returns (r: Reply)
      requires Finishable(ledger.State(), k, token)
      modifies ledger
      ensures r == Raised || r == Observed(state, if state == Waiting then Some(n + 1) else None)
      ensures r != Raised ==> k in ledger.State().rows && Records(state, reason, ledger.State().rows[k].state)
      ensures r == Raised <==> !Finishable(DoAll(old(ledger.State()), during), k, token)
      ensures TokenUnknown(during, token) && Unsettled(during, k) ==> r != Raised
    {
      ghost var claimed := ledger.State();
      OutcomeRecords(state, reason);
      hide OutcomeOf, Records, Unsettled, TokenUnknown;
      Others(during);
      if TokenUnknown(during, token) && Unsettled(during, k) { HeldDuring(claimed, during, k, token); }
      hide DoAll;
      var confirmed := ledger.FinishEffect(k, token, OutcomeOf(state, reason));
      if !confirmed {
        var late := ledger.FinishEffect(k, token, Indeterminate);
        return Raised;
      }
      return Observed(state, if state == Waiting then Some(n + 1) else None);
    }

    method CurrentState(k: Key) returns (s: Option<EffectState>)
      ensures s == StateOf(ledger.State(), k)
    {
      if k.receiver in ledger.active && ledger.active[k.receiver] == k.turn && k in ledger.rows {
        return Some(ledger.rows[k].state);
      }
      return None;
    }

    method Others(ops: seq<Op>)
      modifies ledger
      ensures ledger.State() == DoAll(old(ledger.State()), ops)
    {
      var i := 0;
      assert ops[0..] == ops;
      while i < |ops|
        invariant 0 <= i <= |ops|
        invariant DoAll(ledger.State(), ops[i..]) == DoAll(old(ledger.State()), ops)
      {
        assert ops[i..][1..] == ops[i + 1..];
        Apply(ops[i]);
        i := i + 1;
      }
    }

    method Apply(op: Op)
      modifies ledger
      ensures ledger.State() == Do(old(ledger.State()), op)
    {
      match op {
        case Claim(k) => var t := ledger.ClaimEffect(k);
        case Finish(k, t, o) => var b := ledger.FinishEffect(k, t, o);
        case Activate(t, turn) => ledger.active := ledger.active[t := turn];
        case Close(t) => ledger.active := ledger.active - {t};
        case Resume(r, target, source, older, retryable) =>
          if Resumes(ledger.State(), op) { ledger.ResumeTurn(r, target, source, older, retryable); }
        case RuntimeExits(t, turn) => ledger.ReconcileExitedTurn(t, turn);
        case OperatorRetires(k) => ledger.RetireByOperator(k);
      }
    }
  }

  lemma HeldDuring(l: Ledger, ops: seq<Op>, k: Key, token: Token)
    requires Finishable(l, k, token) && TokenUnknown(ops, token) && Unsettled(ops, k)
    ensures Finishable(DoAll(l, ops), k, token)
  {
    AbandonedForever(l, ops, k, token);
  }

  // ---------------------------------------------------------------- what a recorded slice gives

  /** Once a slice is recorded as resumable it stays so: the guard of the next slice passes whenever
      the turn is current, the slice itself is never granted again, and a replay finds it. */
  lemma RecordedForever(l: Ledger, ops: seq<Op>, owner: Terminal, turn: Turn, child: Terminal, n: nat)
    requires Recorded(l, SliceKey(owner, turn, child, n))
    ensures var later := DoAll(l, ops);
      && Recorded(later, SliceKey(owner, turn, child, n))
      && (Current(later, SliceKey(owner, turn, child, n)) ==> GuardPasses(later, owner, turn, child, n + 1))
      && !Claimable(later, SliceKey(owner, turn, child, n))
      && Grants(l, ops, SliceKey(owner, turn, child, n)) == 0
  {
    FinalForever(l, ops, SliceKey(owner, turn, child, n));
  }

  /** A slice that observed the completion ends the wait: in every later history and in every turn that
      resumes its own it stays completed, is never granted again and never replayed as resumable, and
      the guard of the next slice never passes. */
  lemma CompletedSliceEnds(l: Ledger, ops: seq<Op>, owner: Terminal, turn: Turn, child: Terminal, n: nat, heir: Turn)
    requires SliceKey(owner, turn, child, n) in l.rows && l.rows[SliceKey(owner, turn, child, n)].state == EffectState.Completed
    requires heir in Line(l, ops, owner, {turn})
    ensures var later := DoAll(l, ops);
      && !GuardPasses(later, owner, heir, child, n + 1)
      && !Claimable(later, SliceKey(owner, heir, child, n))
      && !Replayable(later, SliceKey(owner, heir, child, n))
    ensures var k := SliceKey(owner, turn, child, n);
      k in DoAll(l, ops).rows && DoAll(l, ops).rows[k].state == EffectState.Completed
      && GrantsInLine(l, ops, k, {turn}) == 0
  {
    var k := SliceKey(owner, turn, child, n);
    assert k.(turn := turn) == k;
    NeverAgain(l, ops, k, {turn}, None);
    assert k.(turn := heir) == SliceKey(owner, heir, child, n);
    FinalForever(l, ops, k);
  }

  /** A slice whose holder died is never recorded, never granted again and never replayed: neither in
      its own turn nor in any turn that resumes it can the wait go on past it. */
  lemma AbandonedSliceBlocks(l: Ledger, ops: seq<Op>, owner: Terminal, turn: Turn, child: Terminal, n: nat,
                             token: Token, heir: Turn)
    requires Finishable(l, SliceKey(owner, turn, child, n), token)
    requires TokenUnknown(ops, token)
    requires heir in Line(l, ops, owner, {turn})
    ensures var later := DoAll(l, ops);
      && !GuardPasses(later, owner, heir, child, n + 1)
      && !Claimable(later, SliceKey(owner, heir, child, n))
      && !Replayable(later, SliceKey(owner, heir, child, n))
    ensures GrantsInLine(l, ops, SliceKey(owner, turn, child, n), {turn}) == 0
  {
    var k := SliceKey(owner, turn, child, n);
    assert k.(turn := turn) == k;
    NeverAgain(l, ops, k, {turn}, Some(token));
    assert k.(turn := heir) == SliceKey(owner, heir, child, n);
  }

  // ---------------------------------------------------------------- every run of many calls

  /** One child awaited in any turns of its owner by any number of calls; `passed` are the slices for
      which some call has passed its guard and not yet claimed. */
  datatype Run = Run(ledger: Ledger, passed: set<(Turn, nat)>)

  datatype Move =
    | Guard(turn: Turn, n: nat)
    | Begin(turn: Turn, n: nat)
    | End(turn: Turn, n: nat, token: Token, outcome: EffectState)
    | Other(op: Op)

  function Step(w: Run, owner: Terminal, child: Terminal, move: Move): Run {
    match move
    case Guard(turn, n) =>
      if GuardPasses(w.ledger, owner, turn, child, n) then w.(passed := w.passed + {(turn, n)}) else w
    case Begin(turn, n) =>
      if (turn, n) in w.passed then w.(ledger := Do(w.ledger, Claim(SliceKey(owner, turn, child, n)))) else w
    case End(turn, n, token, outcome) =>
      w.(ledger := Do(w.ledger, Finish(SliceKey(owner, turn, child, n), token, outcome)))
    case Other(op) => w.(ledger := Do(w.ledger, op))
  }

  function Steps(w: Run, owner: Terminal, child: Terminal, moves: seq<Move>): Run
    decreases |moves|
  {
    if moves == [] then w else Steps(Step(w, owner, child, moves[0]), owner, child, moves[1..])
  }

  /** Other effects have other keys; a resumption inherits from one turn. */
  ghost predicate Foreign(op: Op, owner: Terminal, child: Terminal) {
    && (op.Claim? || op.Finish? ==> forall turn: Turn, n: nat :: op.key != SliceKey(owner, turn, child, n))
    && (op.Resume? ==> op.older == None || op.older == Some(op.source))
  }

  ghost predicate Linked(w: Run, owner: Terminal, child: Terminal) {
    && (forall turn: Turn, n: nat :: (turn, n) in w.passed && n > 0 ==>
          Recorded(w.ledger, SliceKey(owner, turn, child, n - 1)))
    && (forall turn: Turn, n: nat :: n > 0 && SliceKey(owner, turn, child, n) in w.ledger.rows ==>
          Recorded(w.ledger, SliceKey(owner, turn, child, n - 1)))
  }

  lemma RecordedKept(l: Ledger, op: Op, k: Key)
    requires Recorded(l, k)
    ensures Recorded(Do(l, op), k)
  {
    RowSteps(l, op, k);
  }

  /** What a resumption copies is linked again. */
  lemma RecordedInherited(l: Ledger, op: Op, k: Key)
    requires Resumes(l, op) && (op.older == None || op.older == Some(op.source))
    requires k.receiver == op.receiver && k.turn == op.target && Recorded(l, k.(turn := op.source))
    ensures Recorded(Do(l, op), k)
  {
    hide Do;
    InheritAt(l, op, k);
  }

  lemma LinkedRow(w: Run, owner: Terminal, child: Terminal, move: Move, turn: Turn, n: nat)
    requires Linked(w, owner, child) && (move.Other? ==> Foreign(move.op, owner, child))
    requires n > 0 && SliceKey(owner, turn, child, n) in Step(w, owner, child, move).ledger.rows
    ensures Recorded(Step(w, owner, child, move).ledger, SliceKey(owner, turn, child, n - 1))
  {
    var k := SliceKey(owner, turn, child, n);
    var below := SliceKey(owner, turn, child, n - 1);
    if k in w.ledger.rows {
      KeptBy(w, owner, child, move, below);
    } else if move.Begin? {
      assert (move.turn, move.n) in w.passed;
      SliceKeysDiffer(owner, turn, child, move.n, n);
      KeptBy(w, owner, child, move, below);
    } else {
      var op := move.op;
      InheritAt(w.ledger, op, k);
      assert k.(turn := op.source) == SliceKey(owner, op.source, child, n);
      assert below.(turn := op.source) == SliceKey(owner, op.source, child, n - 1);
      RecordedInherited(w.ledger, op, below);
    }
  }

  lemma KeptBy(w: Run, owner: Terminal, child: Terminal, move: Move, k: Key)
    requires Recorded(w.ledger, k)
    ensures Recorded(Step(w, owner, child, move).ledger, k)
  {
    match move {
      case Guard(_, _) =>
      case Begin(turn, n) => RecordedKept(w.ledger, Claim(SliceKey(owner, turn, child, n)), k);
      case End(turn, n, token, outcome) =>
        RecordedKept(w.ledger, Finish(SliceKey(owner, turn, child, n), token, outcome), k);
      case Other(op) => RecordedKept(w.ledger, op, k);
    }
  }

  lemma LinkedStep(w: Run, owner: Terminal, child: Terminal, move: Move)
    requires Linked(w, owner, child) && (move.Other? ==> Foreign(move.op, owner, child))
    ensures Linked(Step(w, owner, child, move), owner, child)
  {
    var next := Step(w, owner, child, move);
    forall turn: Turn, n: nat | n > 0 && (turn, n) in next.passed
      ensures Recorded(next.ledger, SliceKey(owner, turn, child, n - 1))
    {
      if (turn, n) in w.passed { KeptBy(w, owner, child, move, SliceKey(owner, turn, child, n - 1)); }
    }
    forall turn: Turn, n: nat | n > 0 && SliceKey(owner, turn, child, n) in next.ledger.rows
      ensures Recorded(next.ledger, SliceKey(owner, turn, child, n - 1))
    {
      LinkedRow(w, owner, child, move, turn, n);
    }
  }

  lemma {:induction false} LinkedAlways(w: Run, owner: Terminal, child: Terminal, moves: seq<Move>)
    requires Linked(w, owner, child)
    requires forall move :: move in moves && move.Other? ==> Foreign(move.op, owner, child)
    ensures Linked(Steps(w, owner, child, moves), owner, child)
    decreases |moves|
  {
    if moves != [] {
      assert moves[0] in moves;
      assert forall move :: move in moves[1..] ==> move in moves;
      LinkedStep(w, owner, child, moves[0]);
      LinkedAlways(Step(w, owner, child, moves[0]), owner, child, moves[1..]);
    }
  }

  lemma {:induction false} ChainBelow(w: Run, owner: Terminal, turn: Turn, child: Terminal, n: nat, m: nat)
    requires Linked(w, owner, child) && m < n && SliceKey(owner, turn, child, n) in w.ledger.rows
    ensures Recorded(w.ledger, SliceKey(owner, turn, child, m))
    decreases n
  {
    assert Recorded(w.ledger, SliceKey(owner, turn, child, n - 1));
    if m < n - 1 {
      ChainBelow(w, owner, turn, child, n - 1, m);
    }
  }

  /** In every run of any number of calls, in every turn, resumed or not: when slice n exists at all,
      every slice before it has a durable resumable outcome in that turn. */
  lemma AdmittedAfterAllPredecessors(owner: Terminal, child: Terminal, moves: seq<Move>, turn: Turn, n: nat, m: nat)
    requires forall move :: move in moves && move.Other? ==> Foreign(move.op, owner, child)
    requires var w := Steps(Run(EmptyLedger, {}), owner, child, moves);
      m < n && SliceKey(owner, turn, child, n) in w.ledger.rows
    ensures Recorded(Steps(Run(EmptyLedger, {}), owner, child, moves).ledger, SliceKey(owner, turn, child, m))
  {
    LinkedAlways(Run(EmptyLedger, {}), owner, child, moves);
    ChainBelow(Steps(Run(EmptyLedger, {}), owner, child, moves), owner, turn, child, n, m);
  }

  // ---------------------------------------------------------------- two ledgers combined

  /** One turn went on past a slice that the other has settled otherwise. */
  predicate Clash(l: Ledger, owner: Terminal, a: Turn, b: Turn, child: Terminal, n: nat) {
    && SliceKey(owner, a, child, n + 1) in l.rows
    && SliceKey(owner, b, child, n) in l.rows
    && l.rows[SliceKey(owner, b, child, n)].state in {EffectState.Completed, Retired, Indeterminate, Claimed}
  }

  ghost predicate NoClash(l: Ledger, owner: Terminal, a: Turn, b: Turn, child: Terminal) {
    forall n: nat :: !Clash(l, owner, a, b, child, n) && !Clash(l, owner, b, a, child, n)
  }

  lemma CombinedRow(w: Run, owner: Terminal, child: Terminal, op: Op, n: nat)
    requires Linked(w, owner, child) && Resumes(w.ledger, op) && op.receiver == owner && op.older.Some?
    requires SliceKey(owner, op.target, child, n + 1) in Do(w.ledger, op).rows
    ensures Recorded(Do(w.ledger, op), SliceKey(owner, op.target, child, n)) <==>
      !Clash(w.ledger, owner, op.source, op.older.value, child, n)
      && !Clash(w.ledger, owner, op.older.value, op.source, child, n)
  {
    hide Do;
    var k, below := SliceKey(owner, op.target, child, n + 1), SliceKey(owner, op.target, child, n);
    InheritAt(w.ledger, op, k);
    InheritAt(w.ledger, op, below);
    assert k.(turn := op.source) == SliceKey(owner, op.source, child, n + 1);
    assert k.(turn := op.older.value) == SliceKey(owner, op.older.value, child, n + 1);
    assert below.(turn := op.source) == SliceKey(owner, op.source, child, n);
    assert below.(turn := op.older.value) == SliceKey(owner, op.older.value, child, n);
  }

  /** When a successor inherits from two turns, its slices are in order exactly when neither turn went
      on past a slice that the other one has settled otherwise. */
  lemma CombinedLinkedExactly(w: Run, owner: Terminal, child: Terminal, op: Op)
    requires Linked(w, owner, child) && Resumes(w.ledger, op) && op.receiver == owner && op.older.Some?
    ensures Linked(Step(w, owner, child, Other(op)), owner, child) <==>
      NoClash(w.ledger, owner, op.source, op.older.value, child)
  {
    var next := Step(w, owner, child, Other(op));
    if NoClash(w.ledger, owner, op.source, op.older.value, child) {
      forall turn: Turn, n: nat | n > 0 && SliceKey(owner, turn, child, n) in next.ledger.rows
        ensures Recorded(next.ledger, SliceKey(owner, turn, child, n - 1))
      {
        if turn == op.target {
          CombinedRow(w, owner, child, op, n - 1);
        } else {
          InheritAt(w.ledger, op, SliceKey(owner, turn, child, n));
          KeptBy(w, owner, child, Other(op), SliceKey(owner, turn, child, n - 1));
        }
      }
      forall turn: Turn, n: nat | (turn, n) in next.passed && n > 0
        ensures Recorded(next.ledger, SliceKey(owner, turn, child, n - 1))
      {
        KeptBy(w, owner, child, Other(op), SliceKey(owner, turn, child, n - 1));
      }
    } else {
      var n: nat :| Clash(w.ledger, owner, op.source, op.older.value, child, n)
                    || Clash(w.ledger, owner, op.older.value, op.source, child, n);
      var k := SliceKey(owner, op.target, child, n + 1);
      InheritAt(w.ledger, op, k);
      assert k.(turn := op.source) == SliceKey(owner, op.source, child, n + 1);
      assert k.(turn := op.older.value) == SliceKey(owner, op.older.value, child, n + 1);
      CombinedRow(w, owner, child, op, n);
    }
  }

  /** Turn 1 waited twice and turn 2 saw the child complete in its first slice: in the turn that
      resumes both, slice 1 stands above a slice that is not resumable. */
  lemma CombinedOutOfOrder(owner: Terminal, child: Terminal)
    ensures var slices := map[
        SliceKey(owner, 1, child, 0) := Effect(WaitTimeout, 0),
        SliceKey(owner, 1, child, 1) := Effect(WaitTimeout, 1),
        SliceKey(owner, 2, child, 0) := Effect(EffectState.Completed, 2)];
      var w := Run(Ledger(slices, map[owner := 2], 3), {});
      && Linked(w, owner, child)
      && !Linked(Step(w, owner, child, Other(Resume(owner, 3, 1, Some(2), {}))), owner, child)
  {
    var a0, a1 := SliceKey(owner, 1, child, 0), SliceKey(owner, 1, child, 1);
    var b0 := SliceKey(owner, 2, child, 0);
    var slices := map[a0 := Effect(WaitTimeout, 0), a1 := Effect(WaitTimeout, 1), b0 := Effect(EffectState.Completed, 2)];
    var w := Run(Ledger(slices, map[owner := 2], 3), {});
    forall turn: Turn, n: nat | n > 0 && SliceKey(owner, turn, child, n) in slices
      ensures turn == 1 && n == 1
    {
      assert |SliceKey(owner, turn, child, n).identity| == 2;
      SliceKeysDiffer(owner, 1, child, n, 1);
    }
    assert Clash(w.ledger, owner, 1, 2, child, 0);
    CombinedLinkedExactly(w, owner, child, Resume(owner, 3, 1, Some(2), {}));
  }
}
