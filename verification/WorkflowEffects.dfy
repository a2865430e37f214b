/** The ledger of privileged workflow effects: one row per logical effect and turn, claimed once,
    finished once, and never run again unless it was proven not to have been admitted; a turn that
    resumes another one inherits its rows. */
module WorkflowEffects {
  import opened Common

  type Terminal = string
  type Turn = nat
  type Token = nat

  /** `identity` holds the parts that the stored key is a digest of; digests are taken to be collision
      free. */
  datatype Key = Key(receiver: Terminal, turn: Turn, kind: string, identity: seq<string>)

  /** `Retired` is an unknown outcome that the operator has given up on. */
  datatype EffectState =
    | Claimed | Completed | Indeterminate | Rejected | NotAdmitted | WaitTimeout | WaitRetryable | Retired

  datatype Effect = Effect(state: EffectState, token: Token)

  /** `active` is the current admitted turn of each open workflow; `next` the next unused token. */
  datatype Ledger = Ledger(rows: map<Key, Effect>, active: map<Terminal, Turn>, next: Token)

  const EmptyLedger := Ledger(map[], map[], 0)

  predicate Current(l: Ledger, k: Key) {
    k.receiver in l.active && l.active[k.receiver] == k.turn
  }

  /** The unique row may be inserted, or taken over from a claim that was not admitted. */
  predicate Claimable(l: Ledger, k: Key) {
    Current(l, k) && (k in l.rows ==> l.rows[k].state == NotAdmitted)
  }

  predicate Finishable(l: Ledger, k: Key, token: Token) {
    k in l.rows && l.rows[k] == Effect(Claimed, token)
  }

  /** Neither `claimed` nor the operator's state is an accepted outcome. */
  predicate Finishes(l: Ledger, k: Key, token: Token, outcome: EffectState) {
    Finishable(l, k, token) && outcome !in {Claimed, Retired}
  }

  // ---------------------------------------------------------------- resuming a turn

  /** The effects whose rejection may be tried again by a successor. */
  type Retryable = set<(string, seq<string>)>

  /** What a successor inherits from one row. */
  function CopyOf(s: EffectState, retryable: bool): EffectState {
    if s == Claimed then Indeterminate else if s == Rejected && retryable then NotAdmitted else s
  }

  /** The stronger fence of two rows of one effect. */
  function Strongest(a: EffectState, b: EffectState): EffectState {
    if a == Completed || b == Completed then Completed
    else if a == Retired || b == Retired then Retired
    else if a == Indeterminate || b == Indeterminate || a == Claimed || b == Claimed then Indeterminate
    else if a == WaitRetryable || b == WaitRetryable then WaitRetryable
    else if a == WaitTimeout || b == WaitTimeout then WaitTimeout
    else if a == Rejected || b == Rejected then Rejected
    else NotAdmitted
  }

  function Copies(rows: map<Key, Effect>, receiver: Terminal, source: Turn, target: Turn): (r: set<Key>)
    ensures forall k :: k in r <==> k.receiver == receiver && k.turn == target && k.(turn := source) in rows
  {
    var r := set k | k in rows && k.receiver == receiver && k.turn == source :: k.(turn := target);
    assert forall k: Key :: k.receiver == receiver && k.turn == target && k.(turn := source) in rows ==>
      k.(turn := source).(turn := target) == k;
    r
  }

  function CopiedRow(rows: map<Key, Effect>, source: Turn, k: Key, retryable: Retryable, token: Token): Effect
    requires k.(turn := source) in rows
  {
    var s := CopyOf(rows[k.(turn := source)].state, (k.kind, k.identity) in retryable);
    if k in rows then rows[k].(state := Strongest(rows[k].state, s)) else Effect(s, token)
  }

  /** `_mirror_workflow_effect_ledger`.  One unused token stands for those of all the copies: it is
      never handed out. */
  function Mirrored(rows: map<Key, Effect>, receiver: Terminal, source: Turn, target: Turn, retryable: Retryable,
                    token: Token): map<Key, Effect>
  {
    WithCopies(rows, receiver, source, target, Copies(rows, receiver, source, target), retryable, token)
  }

  function WithCopies(rows: map<Key, Effect>, receiver: Terminal, source: Turn, target: Turn, keys: set<Key>,
                      retryable: Retryable, token: Token): map<Key, Effect>
    requires keys <= Copies(rows, receiver, source, target)
  {
    rows + map k | k in keys :: CopiedRow(rows, source, k, retryable, token)
  }

  lemma NoCopies(rows: map<Key, Effect>, receiver: Terminal, source: Turn, target: Turn, retryable: Retryable,
                 token: Token)
    ensures WithCopies(rows, receiver, source, target, {}, retryable, token) == rows
  {
  }

  lemma CopyNext(rows: map<Key, Effect>, receiver: Terminal, source: Turn, target: Turn, todo: set<Key>, k: Key,
                 retryable: Retryable, token: Token)
    requires source != target && todo <= Copies(rows, receiver, source, target) && k in todo
    ensures var all := Copies(rows, receiver, source, target);
      var m := WithCopies(rows, receiver, source, target, all - todo, retryable, token);
      && k.(turn := source) in m
      && m[k := CopiedRow(m, source, k, retryable, token)]
           == WithCopies(rows, receiver, source, target, all - (todo - {k}), retryable, token)
  {
    var all := Copies(rows, receiver, source, target);
    var m := WithCopies(rows, receiver, source, target, all - todo, retryable, token);
    assert k.(turn := source) !in all;
    assert CopiedRow(m, source, k, retryable, token) == CopiedRow(rows, source, k, retryable, token);
    OneMoreCopy(rows, receiver, source, target, all - todo, k, retryable, token);
    hide Copies, CopiedRow, WithCopies;
    assert all - (todo - {k}) == (all - todo) + {k};
  }

  lemma OneMoreCopy(rows: map<Key, Effect>, receiver: Terminal, source: Turn, target: Turn, keys: set<Key>, k: Key,
                    retryable: Retryable, token: Token)
    requires keys + {k} <= Copies(rows, receiver, source, target)
    ensures WithCopies(rows, receiver, source, target, keys + {k}, retryable, token) ==
      WithCopies(rows, receiver, source, target, keys, retryable, token)[k := CopiedRow(rows, source, k, retryable, token)]
  {
    hide CopiedRow;
  }

  /** A successor is a turn inserted by the same transaction, so it has no rows. */
  predicate NewTurn(l: Ledger, receiver: Terminal, turn: Turn) {
    forall k :: k in l.rows && k.receiver == receiver ==> k.turn != turn
  }

  function Inherit(l: Ledger, receiver: Terminal, target: Turn, source: Turn, older: Option<Turn>, retryable: Retryable)
    : Ledger
  {
    var rows := Mirrored(l.rows, receiver, source, target, retryable, l.next);
    l.(rows := if older.Some? && older.value != source
               then Mirrored(rows, receiver, older.value, target, retryable, l.next) else rows,
       next := l.next + 1)
  }

  // ---------------------------------------------------------------- what happens to the ledger

  datatype Op =
    | Claim(key: Key)
    | Finish(key: Key, token: Token, outcome: EffectState)
    | Activate(terminal: Terminal, turn: Turn)
    | Close(terminal: Terminal)
    | Resume(receiver: Terminal, target: Turn, source: Turn, older: Option<Turn>, retryable: Retryable)
    | RuntimeExits(terminal: Terminal, turn: Turn)
    | OperatorRetires(key: Key)

  predicate Resumes(l: Ledger, op: Op) {
    op.Resume? && NewTurn(l, op.receiver, op.target) && op.target != op.source && op.older != Some(op.target)
  }

  function Settled(e: Effect): Effect {
    if e.state == Claimed then e.(state := Indeterminate) else e
  }

  predicate Owns(terminal: Terminal, turn: Turn, k: Key) { k.receiver == terminal && k.turn == turn }

  function Exited(rows: map<Key, Effect>, terminal: Terminal, turn: Turn): map<Key, Effect> {
    SettledBut(rows, terminal, turn, {})
  }

  /** All claims of the turn but those in `todo` are settled. */
  function SettledBut(rows: map<Key, Effect>, terminal: Terminal, turn: Turn, todo: set<Key>): map<Key, Effect> {
    map k | k in rows :: if Owns(terminal, turn, k) && k !in todo then Settled(rows[k]) else rows[k]
  }

  function ClaimsOf(rows: map<Key, Effect>, terminal: Terminal, turn: Turn): set<Key> {
    set k | k in rows && Owns(terminal, turn, k) && rows[k].state == Claimed
  }

  lemma NoneSettled(rows: map<Key, Effect>, terminal: Terminal, turn: Turn)
    ensures SettledBut(rows, terminal, turn, ClaimsOf(rows, terminal, turn)) == rows
  {
  }

  lemma SettleNext(rows: map<Key, Effect>, terminal: Terminal, turn: Turn, todo: set<Key>, k: Key)
    requires todo <= ClaimsOf(rows, terminal, turn) && k in todo
    ensures var m := SettledBut(rows, terminal, turn, todo);
      && k in m
      && m[k := m[k].(state := Indeterminate)] == SettledBut(rows, terminal, turn, todo - {k})
  {
  }

  function Do(l: Ledger, op: Op): Ledger {
    match op
    case Claim(k) =>
      if Claimable(l, k) then l.(rows := l.rows[k := Effect(Claimed, l.next)], next := l.next + 1) else l
    case Finish(k, token, outcome) =>
      if Finishes(l, k, token, outcome) then l.(rows := l.rows[k := Effect(outcome, token)]) else l
    case Activate(t, turn) => l.(active := l.active[t := turn])
    case Close(t) => l.(active := l.active - {t})
    case Resume(r, target, source, older, retryable) =>
      if Resumes(l, op) then Inherit(l, r, target, source, older, retryable) else l
    case RuntimeExits(t, turn) =>
      l.(rows := Exited(l.rows, t, turn))
    case OperatorRetires(k) =>
      if k in l.rows && l.rows[k].state in {Claimed, Indeterminate} then
        l.(rows := l.rows[k := l.rows[k].(state := Retired)])
      else l
  }

  /** `get_workflow_effect_state`: visible only to the turn that is current. */
  function StateOf(l: Ledger, k: Key): Option<EffectState> {
    if Current(l, k) && k in l.rows then Some(l.rows[k].state) else None
  }

  // ---------------------------------------------------------------- the store itself

  class EffectLedger {
    var rows: map<Key, Effect>
    var active: map<Terminal, Turn>
    var next: Token

    constructor ()
      ensures State() == EmptyLedger
    {
      rows, active, next := map[], map[], 0;
    }

    function State(): Ledger
      reads this
    {
      Ledger(rows, active, next)
    }

    method ClaimEffect(k: Key) returns (token: Option<Token>)
      modifies `rows, `next
      ensures State() == Do(old(State()), Claim(k))
      ensures token == if Claimable(old(State()), k) then Some(old(next)) else None
    {
      if k.receiver !in active || active[k.receiver] != k.turn { return None; }
      if k in rows && rows[k].state != NotAdmitted { return None; }
      rows := rows[k := Effect(Claimed, next)];
      next := next + 1;
      return Some(next - 1);
    }

    method FinishEffect(k: Key, token: Token, outcome: EffectState) returns (updated: bool)
      modifies `rows
      ensures State() == Do(old(State()), Finish(k, token, outcome))
      ensures updated == Finishes(old(State()), k, token, outcome)
    {
      if outcome in {Claimed, Retired} || k !in rows || rows[k].token != token || rows[k].state != Claimed { return false; }
      rows := rows[k := rows[k].(state := outcome)];
      return true;
    }

    /** Copies the rows of one turn to another one, row by row. */
    method MirrorLedger(receiver: Terminal, source: Turn, target: Turn, retryable: Retryable, token: Token)
      requires source != target
      modifies `rows
      ensures rows == Mirrored(old(rows), receiver, source, target, retryable, token)
    {
      ghost var was := rows;
      var todo := Copies(rows, receiver, source, target);
      ghost var all := todo;
      hide Copies, WithCopies, CopiedRow;
      NoCopies(was, receiver, source, target, retryable, token);
      assert all - todo == {};
      while todo != {}
        invariant todo <= all
        invariant rows == WithCopies(was, receiver, source, target, all - todo, retryable, token)
        decreases |todo|
      {
        var k :| k in todo;
        CopyNext(was, receiver, source, target, todo, k, retryable, token);
        rows := rows[k := CopiedRow(rows, source, k, retryable, token)];
        todo := todo - {k};
      }
      assert all - todo == all;
    }

    /** A successor turn with the ledger of the turn it resumes, and of an older callback transport
        when one is combined with it. */
    method ResumeTurn(receiver: Terminal, target: Turn, source: Turn, older: Option<Turn>, retryable: Retryable)
      requires Resumes(State(), Resume(receiver, target, source, older, retryable))
      modifies `rows, `next
      ensures State() == Do(old(State()), Resume(receiver, target, source, older, retryable))
    {
      MirrorLedger(receiver, source, target, retryable, next);
      if older.Some? && older.value != source {
        MirrorLedger(receiver, older.value, target, retryable, next);
      }
      next := next + 1;
    }

    /** The claims of a turn whose runtime is gone have an unknown outcome. */
    method ReconcileExitedTurn(terminal: Terminal, turn: Turn)
      modifies `rows
      ensures State() == Do(old(State()), RuntimeExits(terminal, turn))
    {
      ghost var was := rows;
      var todo := ClaimsOf(rows, terminal, turn);
      NoneSettled(was, terminal, turn);
      hide ClaimsOf, SettledBut;
      while todo != {}
        invariant todo <= ClaimsOf(was, terminal, turn)
        invariant rows == SettledBut(was, terminal, turn, todo)
        decreases |todo|
      {
        var k :| k in todo;
        SettleNext(was, terminal, turn, todo, k);
        rows := rows[k := rows[k].(state := Indeterminate)];
        todo := todo - {k};
      }
    }

    method RetireByOperator(k: Key)
      modifies `rows
      ensures State() == Do(old(State()), OperatorRetires(k))
    {
      if k in rows && rows[k].state in {Claimed, Indeterminate} {
        rows := rows[k := rows[k].(state := Retired)];
      }
    }
  }

  // ---------------------------------------------------------------- all histories

  function DoAll(l: Ledger, ops: seq<Op>): Ledger
    decreases |ops|
  {
    if ops == [] then l else DoAll(Do(l, ops[0]), ops[1..])
  }

  /** How often the effect `k` was handed out in a history. */
  function Grants(l: Ledger, ops: seq<Op>, k: Key): nat
    decreases |ops|
  {
    if ops == [] then 0
    else (if ops[0] == Claim(k) && Claimable(l, k) then 1 else 0) + Grants(Do(l, ops[0]), ops[1..], k)
  }

  /** How often a grant of `k` was given back as not admitted. */
  function Returns(l: Ledger, ops: seq<Op>, k: Key): nat
    decreases |ops|
  {
    if ops == [] then 0
    else (if ops[0].Finish? && ops[0].key == k && ops[0].outcome == NotAdmitted && Finishable(l, k, ops[0].token)
          then 1 else 0)
         + Returns(Do(l, ops[0]), ops[1..], k)
  }

  /** How often a resumption gave `k` a row that nobody may claim. */
  function Inheritances(l: Ledger, ops: seq<Op>, k: Key): nat
    decreases |ops|
  {
    if ops == [] then 0
    else (if Resumes(l, ops[0]) && Spent(l, k) < Spent(Do(l, ops[0]), k) then 1 else 0)
         + Inheritances(Do(l, ops[0]), ops[1..], k)
  }

  /** One for a row that nobody may claim: held, or finished for good. */
  function Spent(l: Ledger, k: Key): nat {
    if k in l.rows && l.rows[k].state != NotAdmitted then 1 else 0
  }

  // ---------------------------------------------------------------- single steps

  predicate Copied(rows: map<Key, Effect>, receiver: Terminal, source: Turn, target: Turn, k: Key) {
    k.receiver == receiver && k.turn == target && k.(turn := source) in rows
  }

  lemma MirroredAt(rows: map<Key, Effect>, receiver: Terminal, source: Turn, target: Turn, retryable: Retryable,
                   token: Token, k: Key)
    ensures var m := Mirrored(rows, receiver, source, target, retryable, token);
      if Copied(rows, receiver, source, target, k)
      then k in m && m[k] == CopiedRow(rows, source, k, retryable, token)
      else (k in m <==> k in rows) && (k in rows ==> m[k] == rows[k])
  {
    var copies := Copies(rows, receiver, source, target);
    assert k in copies <==> Copied(rows, receiver, source, target, k);
  }

  /** The successor's rows are put together from those of the turns it resumes; all others stay. */
  predicate InheritsAt(l: Ledger, op: Op, k: Key, after: Ledger)
    requires op.Resume?
  {
    if k.receiver != op.receiver || k.turn != op.target
    then (k in after.rows <==> k in l.rows) && (k in l.rows ==> after.rows[k] == l.rows[k])
    else
      var a, b := k.(turn := op.source), if op.older.Some? then k.(turn := op.older.value) else k;
      && k !in l.rows
      && (k in after.rows <==> a in l.rows || b in l.rows)
      && (k in after.rows ==>
            after.rows[k] == Effect(Heritage(l, a, b, (k.kind, k.identity) in op.retryable), l.next))
  }

  lemma InheritAt(l: Ledger, op: Op, k: Key)
    requires Resumes(l, op)
    ensures InheritsAt(l, op, k, Do(l, op))
  {
    hide Mirrored, Copies;
    MirroredAt(l.rows, op.receiver, op.source, op.target, op.retryable, l.next, k);
    var rows := Mirrored(l.rows, op.receiver, op.source, op.target, op.retryable, l.next);
    if op.older.Some? {
      MirroredAt(l.rows, op.receiver, op.source, op.target, op.retryable, l.next, k.(turn := op.older.value));
      MirroredAt(rows, op.receiver, op.older.value, op.target, op.retryable, l.next, k);
    }
  }

  function Heritage(l: Ledger, a: Key, b: Key, retryable: bool): EffectState
    requires a in l.rows || b in l.rows
  {
    if a !in l.rows then CopyOf(l.rows[b].state, retryable)
    else if b !in l.rows then CopyOf(l.rows[a].state, retryable)
    else Strongest(CopyOf(l.rows[a].state, retryable), CopyOf(l.rows[b].state, retryable))
  }

  /** A resumption touches no row of any turn but the new one, and gives that one no claimed row. */
  lemma ResumeRows(l: Ledger, op: Op, k: Key)
    requires Resumes(l, op)
    ensures k in l.rows ==> k in Do(l, op).rows && Do(l, op).rows[k] == l.rows[k]
    ensures k !in l.rows && k in Do(l, op).rows ==>
      k.receiver == op.receiver && k.turn == op.target
      && Do(l, op).rows[k].state != Claimed && Do(l, op).rows[k].token == l.next
  {
    hide Do;
    InheritAt(l, op, k);
  }

  /** What one operation may do to a row: hand it out again when it was not admitted, finish it with
      its token, or settle an unknown outcome. */
  predicate RowStep(l: Ledger, op: Op, k: Key, e: Effect)
    requires k in Do(l, op).rows
  {
    || Do(l, op).rows[k] == e
    || (op == Claim(k) && e.state == NotAdmitted)
    || (op.Finish? && op.key == k && op.token == e.token && e.state == Claimed
        && Do(l, op).rows[k] == Effect(op.outcome, e.token) && op.outcome !in {Claimed, Retired})
    || (op.RuntimeExits? && op.terminal == k.receiver && op.turn == k.turn
        && e.state == Claimed && Do(l, op).rows[k] == e.(state := Indeterminate))
    || (op == OperatorRetires(k) && e.state in {Claimed, Indeterminate} && Do(l, op).rows[k] == e.(state := Retired))
  }

  lemma RowSteps(l: Ledger, op: Op, k: Key)
    requires k in l.rows
    ensures k in Do(l, op).rows && RowStep(l, op, k, l.rows[k])
  {
    if Resumes(l, op) { ResumeRows(l, op, k); }
  }

  lemma SpentStep(l: Ledger, op: Op, k: Key)
    ensures Spent(l, k) + Grants(l, [op], k) + Inheritances(l, [op], k) == Returns(l, [op], k) + Spent(Do(l, op), k)
  {
    if k in l.rows { RowSteps(l, op, k); }
    if Resumes(l, op) { ResumeRows(l, op, k); }
  }

  /** Exactly when a finish takes effect, by name of the outcome: for the holder of the claim, with one of
      the six accepted outcomes. */
  lemma FinishedExactly(l: Ledger, k: Key, token: Token, outcome: EffectState)
    ensures var after := Do(l, Finish(k, token, outcome));
      && (after != l <==>
            k in l.rows && l.rows[k].state == Claimed && l.rows[k].token == token
            && (outcome == Completed || outcome == Indeterminate || outcome == Rejected || outcome == NotAdmitted
                || outcome == WaitTimeout || outcome == WaitRetryable))
      && (after != l ==> after == l.(rows := l.rows[k := Effect(outcome, token)]))
  {
    var after := Do(l, Finish(k, token, outcome));
    if Finishes(l, k, token, outcome) { assert after.rows[k].state != l.rows[k].state; }
  }

  /** The operator retires exactly what is claimed or unknown. */
  lemma RetiredByOperatorExactly(l: Ledger, k: Key)
    ensures var after := Do(l, OperatorRetires(k));
      && (after != l <==> k in l.rows && (l.rows[k].state == Claimed || l.rows[k].state == Indeterminate))
      && (after != l ==> after == l.(rows := l.rows[k := Effect(Retired, l.rows[k].token)]))
  {
    if k in l.rows && l.rows[k].state in {Claimed, Indeterminate} {
      assert Do(l, OperatorRetires(k)).rows[k].state != l.rows[k].state;
    }
  }

  // ---------------------------------------------------------------- what every history keeps

  /** Grants are conserved: every grant or inherited fence but those returned as not admitted is
      still spent. */
  lemma {:induction false} GrantsConserved(l: Ledger, ops: seq<Op>, k: Key)
    ensures Spent(l, k) + Grants(l, ops, k) + Inheritances(l, ops, k) == Returns(l, ops, k) + Spent(DoAll(l, ops), k)
    decreases |ops|
  {
    if ops != [] {
      SpentStep(l, ops[0], k);
      assert [ops[0]][1..] == [];
      GrantsConserved(Do(l, ops[0]), ops[1..], k);
    }
  }

  /** An unknown outcome may be retired by the operator; no other outcome ever changes. */
  predicate Kept(was: Effect, e: Effect) {
    e == was || (was.state == Indeterminate && e == was.(state := Retired))
  }

  /** A finished effect keeps its outcome in every later history, and is never granted again. */
  lemma {:induction false} FinalForever(l: Ledger, ops: seq<Op>, k: Key)
    requires k in l.rows && l.rows[k].state !in {Claimed, NotAdmitted}
    ensures k in DoAll(l, ops).rows && Kept(l.rows[k], DoAll(l, ops).rows[k])
    ensures Grants(l, ops, k) == 0
    decreases |ops|
  {
    if ops != [] {
      RowSteps(l, ops[0], k);
      FinalForever(Do(l, ops[0]), ops[1..], k);
    }
  }

  /** Nobody finishes with this token. */
  ghost predicate TokenUnknown(ops: seq<Op>, token: Token) {
    forall op :: op in ops && op.Finish? ==> op.token != token
  }

  /** Neither the exit of the turn's runtime nor the operator settles the row. */
  ghost predicate Unsettled(ops: seq<Op>, k: Key) {
    forall op :: op in ops ==> op != RuntimeExits(k.receiver, k.turn) && op != OperatorRetires(k)
  }

  /** A holder that dies without finishing leaves the effect claimed, or unknown once its runtime is
      gone: nobody else gets it. */
  lemma {:induction false} AbandonedForever(l: Ledger, ops: seq<Op>, k: Key, token: Token)
    requires k in l.rows && l.rows[k].token == token && l.rows[k].state in {Claimed, Indeterminate, Retired}
    requires TokenUnknown(ops, token)
    ensures k in DoAll(l, ops).rows && DoAll(l, ops).rows[k].token == token
    ensures DoAll(l, ops).rows[k].state in {Claimed, Indeterminate, Retired}
    ensures Finishable(l, k, token) && Unsettled(ops, k) ==> Finishable(DoAll(l, ops), k, token)
    ensures Grants(l, ops, k) == 0
    decreases |ops|
  {
    if ops != [] {
      assert ops[0] in ops;
      assert forall op :: op in ops[1..] ==> op in ops;
      RowSteps(l, ops[0], k);
      AbandonedForever(Do(l, ops[0]), ops[1..], k, token);
    }
  }

  ghost predicate Fresh(l: Ledger) {
    forall k :: k in l.rows ==> l.rows[k].token < l.next
  }

  lemma FreshStep(l: Ledger, op: Op)
    requires Fresh(l)
    ensures Fresh(Do(l, op)) && l.next <= Do(l, op).next
  {
    forall k | k in Do(l, op).rows ensures Do(l, op).rows[k].token < Do(l, op).next {
      if k in l.rows { RowSteps(l, op, k); }
      if Resumes(l, op) { ResumeRows(l, op, k); }
    }
  }

  /** A finish with the token of one grant can only touch that grant: once another grant of the
      same key has been made, the old token finishes nothing. */
  lemma {:induction false} OldTokenPowerless(l: Ledger, ops: seq<Op>, k: Key, token: Token, outcome: EffectState)
    requires Fresh(l) && Finishable(l, k, token)
    requires Grants(l, ops, k) > 0
    ensures Do(DoAll(l, ops), Finish(k, token, outcome)) == DoAll(l, ops)
    decreases |ops|
  {
    FreshStep(l, ops[0]);
    if Finishable(Do(l, ops[0]), k, token) {
      OldTokenPowerless(Do(l, ops[0]), ops[1..], k, token, outcome);
    } else {
      StaleToken(Do(l, ops[0]), ops[1..], k, token);
    }
  }

  lemma {:induction false} StaleToken(l: Ledger, ops: seq<Op>, k: Key, token: Token)
    requires Fresh(l) && token < l.next && !Finishable(l, k, token)
    ensures !Finishable(DoAll(l, ops), k, token)
    decreases |ops|
  {
    if ops != [] {
      FreshStep(l, ops[0]);
      StaleStep(l, ops[0], k, token);
      StaleToken(Do(l, ops[0]), ops[1..], k, token);
    }
  }

  lemma StaleStep(l: Ledger, op: Op, k: Key, token: Token)
    requires token < l.next && !Finishable(l, k, token)
    ensures !Finishable(Do(l, op), k, token)
  {
    if k in l.rows { RowSteps(l, op, k); }
    if Resumes(l, op) { ResumeRows(l, op, k); }
  }

  // ---------------------------------------------------------------- resumed turns

  /** What one turn's row hands on: a fence, unless there is no row, the effect was not admitted, or
      its rejection may be tried again. */
  predicate HandsOn(l: Ledger, turn: Turn, k: Key, retryable: Retryable) {
    && k.(turn := turn) in l.rows
    && l.rows[k.(turn := turn)].state != NotAdmitted
    && (l.rows[k.(turn := turn)].state == Rejected ==> (k.kind, k.identity) !in retryable)
  }

  /** An effect is fenced in a resumed turn exactly when one of the turns it resumes hands a fence on. */
  lemma ResumeFencesExactly(l: Ledger, op: Op, k: Key)
    requires Resumes(l, op) && k.receiver == op.receiver && k.turn == op.target
    ensures Spent(Do(l, op), k) == 1 <==>
      HandsOn(l, op.source, k, op.retryable) || (op.older.Some? && HandsOn(l, op.older.value, k, op.retryable))
  {
    hide Do;
    InheritAt(l, op, k);
  }

  /** A row of one of the turns that `op` resumes. */
  predicate Comes(l: Ledger, op: Op, k: Key, s: EffectState)
    requires op.Resume?
  {
    || (k.(turn := op.source) in l.rows && l.rows[k.(turn := op.source)].state == s)
    || (op.older.Some? && k.(turn := op.older.value) in l.rows && l.rows[k.(turn := op.older.value)].state == s)
  }

  /** A turn that resumes one other inherits each of its rows as it is, except that a claim is unknown
      from then on, and a rejection that may be tried again is not admitted. */
  lemma InheritedFromOne(l: Ledger, op: Op, k: Key)
    requires Resumes(l, op) && (op.older == None || op.older == Some(op.source))
    requires k.receiver == op.receiver && k.turn == op.target
    ensures var rows := Do(l, op).rows;
      var was := k.(turn := op.source);
      && (k in rows <==> was in l.rows)
      && (was in l.rows ==>
            var again := l.rows[was].state == Rejected && (k.kind, k.identity) in op.retryable;
            && (l.rows[was].state == Claimed ==> rows[k].state == Indeterminate)
            && (again ==> rows[k].state == NotAdmitted)
            && (l.rows[was].state != Claimed && !again ==> rows[k].state == l.rows[was].state))
  {
    hide Do;
    InheritAt(l, op, k);
  }

  /** Exactly when the inherited row has which state, whether it comes from one turn or from two. */
  lemma InheritedExactly(l: Ledger, op: Op, k: Key)
    requires Resumes(l, op) && k.receiver == op.receiver && k.turn == op.target && k in Do(l, op).rows
    ensures var s := Do(l, op).rows[k].state;
      var done, retired := Comes(l, op, k, Completed), Comes(l, op, k, Retired);
      var unknown := Comes(l, op, k, Indeterminate) || Comes(l, op, k, Claimed);
      var again, expired := Comes(l, op, k, WaitRetryable), Comes(l, op, k, WaitTimeout);
      var refused := Comes(l, op, k, Rejected) && (k.kind, k.identity) !in op.retryable;
      && (s == Completed <==> done)
      && (s == Retired <==> !done && retired)
      && (s == Indeterminate <==> !done && !retired && unknown)
      && (s == WaitRetryable <==> !done && !retired && !unknown && again)
      && (s == WaitTimeout <==> !done && !retired && !unknown && !again && expired)
      && (s == Rejected <==> !done && !retired && !unknown && !again && !expired && refused)
      && (s == NotAdmitted <==> !done && !retired && !unknown && !again && !expired && !refused)
      && s != Claimed
  {
    hide Do;
    InheritAt(l, op, k);
  }

  /** How strong a fence is. */
  function Level(s: EffectState): nat {
    match s
    case NotAdmitted => 0
    case Rejected => 1
    case WaitTimeout => 2
    case WaitRetryable => 3
    case Indeterminate => 4
    case Claimed => 4
    case Retired => 5
    case Completed => 6
  }

  /** Merging two ledgers keeps the stronger fence, in whatever order and however often it is done. */
  lemma MergeNeverLowers(a: EffectState, b: EffectState, c: EffectState)
    ensures Level(Strongest(a, b)) == if Level(a) >= Level(b) then Level(a) else Level(b)
    ensures Strongest(a, b) == Strongest(b, a) && Strongest(a, Strongest(b, c)) == Strongest(Strongest(a, b), c)
    ensures Strongest(a, a) == (if a == Claimed then Indeterminate else a) && Strongest(a, b) != Claimed
  {
    StrongestLevel(a, b);
    StrongestLevel(b, a);
    StrongestLevel(b, c);
    StrongestLevel(a, Strongest(b, c));
    StrongestLevel(Strongest(a, b), c);
    hide Strongest;
  }

  /** But for a claim, which counts as unknown, the level names the state. */
  lemma StrongestLevel(a: EffectState, b: EffectState)
    ensures Level(Strongest(a, b)) == if Level(a) >= Level(b) then Level(a) else Level(b)
    ensures Strongest(a, b) != Claimed && Strongest(a, a) == (if a == Claimed then Indeterminate else a)
  {
  }

  /** The turns resumed in a history from one of `turns`, directly or through others. */
  function Line(l: Ledger, ops: seq<Op>, receiver: Terminal, turns: set<Turn>): set<Turn>
    decreases |ops|
  {
    if ops == [] then turns else Line(Do(l, ops[0]), ops[1..], receiver, Grown(l, ops[0], receiver, turns))
  }

  function Grown(l: Ledger, op: Op, receiver: Terminal, turns: set<Turn>): set<Turn> {
    if Resumes(l, op) && op.receiver == receiver && (op.source in turns || (op.older.Some? && op.older.value in turns))
    then turns + {op.target} else turns
  }

  /** How often the effect of `k` is granted to the turns of a line, while it grows. */
  function GrantsInLine(l: Ledger, ops: seq<Op>, k: Key, turns: set<Turn>): nat
    decreases |ops|
  {
    if ops == [] then 0
    else (if ops[0].Claim? && ops[0].key.turn in turns && ops[0].key == k.(turn := ops[0].key.turn)
             && Claimable(l, ops[0].key) then 1 else 0)
         + GrantsInLine(Do(l, ops[0]), ops[1..], k, Grown(l, ops[0], k.receiver, turns))
  }

  /** A fence that no successor may lift.  A claimed row is one only when its holder, whose token is
      `dead`, never finishes it. */
  predicate Lasting(l: Ledger, k: Key, dead: Option<Token>) {
    && k in l.rows
    && l.rows[k].state !in {NotAdmitted, Rejected}
    && (l.rows[k].state == Claimed ==> dead == Some(l.rows[k].token))
  }

  predicate Waits(l: Ledger, k: Key) {
    k in l.rows && l.rows[k].state in {WaitTimeout, WaitRetryable}
  }

  lemma LastingInherited(l: Ledger, op: Op, k: Key, source: Turn, dead: Option<Token>)
    requires Resumes(l, op) && k.receiver == op.receiver && k.turn == op.target
    requires source == op.source || op.older == Some(source)
    requires Lasting(l, k.(turn := source), dead)
    ensures Lasting(Do(l, op), k, dead)
    ensures Waits(Do(l, op), k) ==> Waits(l, k.(turn := source))
  {
    hide Do;
    InheritAt(l, op, k);
  }

  lemma LastingKept(l: Ledger, op: Op, k: Key, dead: Option<Token>)
    requires Lasting(l, k, dead) && (op.Finish? ==> dead != Some(op.token))
    ensures Lasting(Do(l, op), k, dead)
    ensures Waits(Do(l, op), k) ==> Waits(l, k)
  {
    RowSteps(l, op, k);
    hide Do;
  }

  lemma LastingStep(l: Ledger, op: Op, k: Key, turns: set<Turn>, dead: Option<Token>, t: Turn)
    requires forall t :: t in turns ==> Lasting(l, k.(turn := t), dead)
    requires op.Finish? ==> dead != Some(op.token)
    requires t in Grown(l, op, k.receiver, turns)
    ensures Lasting(Do(l, op), k.(turn := t), dead)
    ensures Waits(Do(l, op), k.(turn := t)) ==> exists s :: s in turns && Waits(l, k.(turn := s))
  {
    hide Do;
    if t in turns {
      LastingKept(l, op, k.(turn := t), dead);
    } else {
      var source := if op.source in turns then op.source else op.older.value;
      assert k.(turn := t).(turn := source) == k.(turn := source);
      LastingInherited(l, op, k.(turn := t), source, dead);
    }
  }

  /** An effect that completed, or whose outcome is unknown, or whose holder died, is never granted
      again to the turn that ran it nor to any turn that resumes it, however often and along whatever
      histories; and it never becomes one that may be waited for again. */
  lemma {:induction false} NeverAgain(l: Ledger, ops: seq<Op>, k: Key, turns: set<Turn>, dead: Option<Token>)
    requires forall t :: t in turns ==> Lasting(l, k.(turn := t), dead)
    requires dead.Some? ==> TokenUnknown(ops, dead.value)
    ensures forall t :: t in Line(l, ops, k.receiver, turns) ==> Lasting(DoAll(l, ops), k.(turn := t), dead)
    ensures GrantsInLine(l, ops, k, turns) == 0
    ensures (forall t :: t in turns ==> !Waits(l, k.(turn := t))) ==>
      forall t :: t in Line(l, ops, k.receiver, turns) ==> !Waits(DoAll(l, ops), k.(turn := t))
    decreases |ops|
  {
    if ops != [] {
      assert ops[0] in ops;
      assert forall op :: op in ops[1..] ==> op in ops;
      var grown := Grown(l, ops[0], k.receiver, turns);
      forall t | t in grown
        ensures Lasting(Do(l, ops[0]), k.(turn := t), dead)
        ensures Waits(Do(l, ops[0]), k.(turn := t)) ==> exists s :: s in turns && Waits(l, k.(turn := s))
      {
        LastingStep(l, ops[0], k, turns, dead, t);
      }
      hide Do, Grown;
      NeverAgain(Do(l, ops[0]), ops[1..], k, grown, dead);
    }
  }
}
