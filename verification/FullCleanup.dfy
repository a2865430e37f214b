/** The durable authority of one Full Cleanup run, and the reconciler that ends it when its helper can
    no longer publish a result. */
module FullCleanup {
  import opened Common
  import opened Numbers

  // ---------------------------------------------------------------- process identity

  predicate Blank(c: char) { c == ' ' || '\t' <= c <= '\r' }

  /** `str.split()`: the words between runs of white space. */
  function Words(s: string): seq<string>
    decreases |s|
  {
    if s == "" then []
    else if Blank(s[0]) then Words(s[1..])
    else
      var n := WordEnd(s);
      [s[..n]] + Words(s[n..])
  }

  function WordEnd(s: string): (n: nat)
    ensures n <= |s| && (s != "" && !Blank(s[0]) ==> n > 0)
    ensures forall i :: 0 <= i < n ==> !Blank(s[i])
    ensures n < |s| ==> Blank(s[n])
  {
    if s == "" || Blank(s[0]) then 0 else 1 + WordEnd(s[1..])
  }

  /** `rsplit(")", 1)`: what follows the last closing parenthesis. */
  function AfterLastParen(s: string): Option<string>
    decreases |s|
  {
    if s == "" then None
    else if s[|s| - 1] == ')' then Some("")
    else
      var rest := AfterLastParen(s[..|s| - 1]);
      if rest.None? then None else Some(rest.value + [s[|s| - 1]])
  }

  /** `process_start_ticks` on what the stat file holds; None when it cannot be read. */
  function StartTicks(stat: Option<string>): (ticks: Option<nat>)
    ensures ticks.Some? ==> ticks.value > 0
  {
    if stat.None? then None
    else
      var suffix := AfterLastParen(stat.value);
      if suffix.None? then None
      else
        var words := Words(suffix.value);
        if |words| < 20 then None
        else
          var ticks := ParseNat(words[19]);
          if ticks.None? || ticks.value == 0 then None else ticks
  }

  function Spaced(words: seq<string>): string {
    if words == [] then "" else " " + words[0] + Spaced(words[1..])
  }

  ghost predicate PlainWord(w: string) { w != "" && forall i :: 0 <= i < |w| ==> !Blank(w[i]) && w[i] != ')' }

  lemma {:induction false} LastParen(before: string, after: string)
    requires forall i :: 0 <= i < |after| ==> after[i] != ')'
    ensures AfterLastParen(before + ")" + after) == Some(after)
    decreases |after|
  {
    var s := before + ")" + after;
    if after != "" {
      assert s[..|s| - 1] == before + ")" + after[..|after| - 1];
      LastParen(before, after[..|after| - 1]);
      assert after == after[..|after| - 1] + [after[|after| - 1]];
    }
  }

  lemma WordEndAt(w: string, rest: string)
    requires w != "" && (forall i :: 0 <= i < |w| ==> !Blank(w[i])) && (rest == "" || Blank(rest[0]))
    ensures WordEnd(w + rest) == |w|
  {
    var s := w + rest;
    assert forall i :: 0 <= i < |w| ==> s[i] == w[i];
    assert rest != "" ==> s[|w|] == rest[0];
  }

  lemma WordsStep(s: string)
    requires s != ""
    ensures Blank(s[0]) ==> Words(s) == Words(s[1..])
    ensures !Blank(s[0]) ==> Words(s) == [s[..WordEnd(s)]] + Words(s[WordEnd(s)..])
  {
  }

  lemma FirstWord(w: string, rest: string)
    requires PlainWord(w) && (rest == "" || Blank(rest[0]))
    ensures Words(" " + w + rest) == [w] + Words(rest)
  {
    hide Words, WordEnd;
    var s := w + rest;
    var spaced := " " + w + rest;
    assert spaced[1..] == s && s[..|w|] == w && s[|w|..] == rest;
    WordEndAt(w, rest);
    WordsStep(spaced);
    WordsStep(s);
    assert Blank(spaced[0]) && s[0] == w[0];
  }

  lemma {:induction false} WordsOfSpaced(words: seq<string>)
    requires forall i :: 0 <= i < |words| ==> PlainWord(words[i])
    ensures Words(Spaced(words)) == words
    ensures forall i :: 0 <= i < |Spaced(words)| ==> Spaced(words)[i] != ')'
  {
    if words != [] {
      assert PlainWord(words[0]);
      WordsOfSpaced(words[1..]);
      FirstWord(words[0], Spaced(words[1..]));
      hide Words, Blank;
    }
  }

  /** The start ticks of a process are read correctly whatever its name is: a name that contains
      spaces or closing parentheses moves no field. */
  lemma StartTicksIgnoreTheName(pid: string, name: string, fields: seq<string>, ticks: nat)
    requires (forall i :: 0 <= i < |fields| ==> PlainWord(fields[i])) && |fields| >= 20
    requires fields[19] == Decimal(ticks) && ticks > 0
    ensures StartTicks(Some(pid + " (" + name + ")" + Spaced(fields))) == Some(ticks)
  {
    WordsOfSpaced(fields);
    LastParen(pid + " (" + name, Spaced(fields));
    ParseDecimal(ticks);
  }

  // ---------------------------------------------------------------- the durable operations

  type Id = string
  type Report = string

  datatype OpState = Admitted | Running | Completed | CompletedWithIssues | Failed | Indeterminate

  /** `active` is the unique active key; `pid` and `ticks` the helper that claimed the run. */
  datatype Operation = Operation(
    state: OpState, active: bool, pid: Option<int>, ticks: Option<int>, report: Option<Report>, reason: Option<string>)

  type Store = map<Id, Operation>

  datatype StoreOp =
    | Admit(id: Id)
    | ClaimRun(id: Id, pid: int, ticks: int)
    | Publish(id: Id, pid: int, ticks: int, state: OpState, report: Report)
    | Terminalize(id: Id, reason: string, indeterminate: bool, helper: Option<(int, int)>)

  predicate HasActive(s: Store) { exists id :: id in s && s[id].active }

  predicate ExactHelper(o: Operation, pid: int, ticks: int) {
    o.state == Running && o.active && o.pid == Some(pid) && o.ticks == Some(ticks)
  }

  predicate CanTerminalize(s: Store, id: Id, helper: Option<(int, int)>) {
    && id in s && s[id].active
    && (if helper.None? then s[id].state == Admitted
        else s[id].state == Running && s[id].pid == Some(helper.value.0) && s[id].ticks == Some(helper.value.1))
  }

  /** The reason that a published report leaves. */
  function ReasonFor(state: OpState): Option<string> {
    if state == Failed then Some("FULL_CLEANUP_EXECUTION_FAILED") else None
  }

  function Do(s: Store, op: StoreOp): Store {
    match op
    case Admit(id) =>
      if id in s || HasActive(s) then s else s[id := Operation(Admitted, true, None, None, None, None)]
    case ClaimRun(id, pid, ticks) =>
      if pid > 1 && ticks > 0 && id in s && s[id].state == Admitted && s[id].active
      then s[id := s[id].(state := Running, pid := Some(pid), ticks := Some(ticks))] else s
    case Publish(id, pid, ticks, state, report) =>
      if id in s && ExactHelper(s[id], pid, ticks) && state in {Completed, CompletedWithIssues, Failed}
      then s[id := s[id].(state := state, active := false, report := Some(report), reason := ReasonFor(state))] else s
    case Terminalize(id, reason, indeterminate, helper) =>
      if CanTerminalize(s, id, helper)
      then s[id := s[id].(state := if indeterminate then Indeterminate else Failed, active := false, reason := Some(reason))]
      else s
  }

  function DoAll(s: Store, ops: seq<StoreOp>): Store
    decreases |ops|
  {
    if ops == [] then s else DoAll(Do(s, ops[0]), ops[1..])
  }

  /** At most one operation is active, it is admitted or running, and a running one names its helper. */
  ghost predicate Sane(s: Store) {
    && (forall i, j :: i in s && j in s && s[i].active && s[j].active ==> i == j)
    && (forall i :: i in s ==> (s[i].active <==> s[i].state in {Admitted, Running}))
    && (forall i :: i in s && s[i].state == Running ==> s[i].pid.Some? && s[i].ticks.Some?)
  }

  lemma {:induction false} SaneAlways(s: Store, ops: seq<StoreOp>)
    requires Sane(s)
    ensures Sane(DoAll(s, ops))
    decreases |ops|
  {
    if ops != [] {
      SaneAlways(Do(s, ops[0]), ops[1..]);
    }
  }

  /** Whatever any process does later, a finished operation keeps its state, its report and its
      reason: a published result is never overwritten. */
  lemma {:induction false} FinishedForever(s: Store, ops: seq<StoreOp>, id: Id)
    requires id in s && !s[id].active
    ensures id in DoAll(s, ops) && DoAll(s, ops)[id] == s[id]
    decreases |ops|
  {
    if ops != [] { FinishedForever(Do(s, ops[0]), ops[1..], id); }
  }

  // ---------------------------------------------------------------- the reconciler

  const BEFORE_START := "FULL_CLEANUP_INTERRUPTED_BEFORE_START"
  const WITHOUT_RECEIPT := "FULL_CLEANUP_HELPER_EXITED_WITHOUT_RECEIPT"

  datatype Counts = Counts(inspected: nat, active: nat, terminalized: nat)

  /** What the reconciler tries to do with one listed operation, given what /proc shows. */
  function Attempt(id: Id, o: Operation, includeAdmitted: bool, stat: Option<string>): Option<StoreOp> {
    if o.state == Admitted then
      if includeAdmitted then Some(Terminalize(id, BEFORE_START, false, None)) else None
    else if o.pid.Some? && o.ticks.Some? && StartTicks(stat).Some? && StartTicks(stat).value == o.ticks.value then None
    else
      Some(Terminalize(id, WITHOUT_RECEIPT, true,
                       Some((if o.pid.Some? then o.pid.value else -1, if o.ticks.Some? then o.ticks.value else -1))))
  }

  /** The helper that a listed operation names is the process that /proc shows. */
  predicate HelperSeenLive(o: Operation, stat: Option<string>) {
    o.state == Running && o.pid.Some? && o.ticks.Some? && StartTicks(stat).Some? && StartTicks(stat).value == o.ticks.value
  }

  class OperationStore {
    var rows: Store

    constructor (rows: Store)
      ensures this.rows == rows
    {
      this.rows := rows;
    }

    /** Other processes, among them a helper that may publish. */
    method Others(ops: seq<StoreOp>)
      modifies this
      ensures rows == DoAll(old(rows), ops)
    {
      var i := 0;
      assert ops[0..] == ops;
      while i < |ops|
        invariant 0 <= i <= |ops|
        invariant DoAll(rows, ops[i..]) == DoAll(old(rows), ops)
      {
        assert ops[i..][1..] == ops[i + 1..];
        rows := Do(rows, ops[i]);
        i := i + 1;
      }
    }

    method TerminalizeOperation(id: Id, reason: string, indeterminate: bool, helper: Option<(int, int)>) returns (done: bool)
      modifies this
      ensures rows == Do(old(rows), Terminalize(id, reason, indeterminate, helper))
      ensures done == CanTerminalize(old(rows), id, helper)
    {
      if id !in rows || !rows[id].active { return false; }
      if helper.None? {
        if rows[id].state != Admitted { return false; }
      } else if rows[id].state != Running || rows[id].pid != Some(helper.value.0) || rows[id].ticks != Some(helper.value.1) {
        return false;
      }
      rows := rows[id := rows[id].(state := if indeterminate then Indeterminate else Failed, active := false, reason := Some(reason))];
      return true;
    }

    /** One listed operation: `o` as it was listed, `stat` as /proc shows it now, and what others do
        before the compare-and-set. */
    method ReconcileOne(id: Id, o: Operation, includeAdmitted: bool, stat: Option<string>, others: seq<StoreOp>)
        returns (terminalized: bool)
      requires o.state == Admitted || o.state == Running
      modifies this
      ensures var before := DoAll(old(rows), others);
        var attempt := Attempt(id, o, includeAdmitted, stat);
        && rows == (if attempt.None? then before else Do(before, attempt.value))
        && (terminalized <==> attempt.Some? && CanTerminalize(before, id, attempt.value.helper))
    {
      Others(others);
      if o.state == Admitted {
        if includeAdmitted { terminalized := TerminalizeOperation(id, BEFORE_START, false, None); }
        else { terminalized := false; }
        return;
      }
      var ticks := StartTicks(stat);
      if o.pid.Some? && o.ticks.Some? && ticks.Some? && ticks.value == o.ticks.value { return false; }
      terminalized := TerminalizeOperation(id, WITHOUT_RECEIPT, true,
                                           Some((if o.pid.Some? then o.pid.value else -1, if o.ticks.Some? then o.ticks.value else -1)));
    }

    /** `reconcile_interrupted_full_cleanup_operations`: `listed` is what the listing returned, `stats`
        and `others` what happens around each operation.  None stands for the raised ambiguity. */
    method Reconcile(listed: seq<(Id, Operation)>, includeAdmitted: bool, stats: nat -> Option<string>, others: nat -> seq<StoreOp>)
        returns (r: Option<Counts>)
      modifies this
      ensures r.None? <==> exists k :: 0 <= k < |listed| && listed[k].1.state !in {Admitted, Running}
      ensures r.Some? ==>
        && r.value.inspected == |listed| == r.value.active + r.value.terminalized
        && r.value.terminalized == Ended(old(rows), listed, includeAdmitted, stats, others, |listed|)
        && rows == Swept(old(rows), listed, includeAdmitted, stats, others, |listed|)
    {
      hide Attempt, Do, DoAll, CanTerminalize, StartTicks;
      var counts := Counts(0, 0, 0);
      var k := 0;
      while k < |listed|
        invariant 0 <= k <= |listed|
        invariant forall j :: 0 <= j < k ==> listed[j].1.state in {Admitted, Running}
        invariant counts.inspected == k == counts.active + counts.terminalized
        invariant counts.terminalized == Ended(old(rows), listed, includeAdmitted, stats, others, k)
        invariant rows == Swept(old(rows), listed, includeAdmitted, stats, others, k)
      {
        var (id, o) := listed[k];
        if o.state != Admitted && o.state != Running { return None; }
        var terminalized := ReconcileOne(id, o, includeAdmitted, stats(k), others(k));
        counts := if terminalized
          then counts.(inspected := k + 1, terminalized := counts.terminalized + 1)
          else counts.(inspected := k + 1, active := counts.active + 1);
        k := k + 1;
      }
      return Some(counts);
    }
  }

  /** How many of the first `k` listed operations the sweep ended. */
  function Ended(s: Store, listed: seq<(Id, Operation)>, includeAdmitted: bool, stats: nat -> Option<string>,
                 others: nat -> seq<StoreOp>, k: nat): nat
    requires k <= |listed|
  {
    if k == 0 then 0
    else
      var before := DoAll(Swept(s, listed, includeAdmitted, stats, others, k - 1), others(k - 1));
      var attempt := Attempt(listed[k - 1].0, listed[k - 1].1, includeAdmitted, stats(k - 1));
      Ended(s, listed, includeAdmitted, stats, others, k - 1)
      + if attempt.Some? && CanTerminalize(before, listed[k - 1].0, attempt.value.helper) then 1 else 0
  }

  /** The store after the first `k` listed operations. */
  function Swept(s: Store, listed: seq<(Id, Operation)>, includeAdmitted: bool, stats: nat -> Option<string>,
                 others: nat -> seq<StoreOp>, k: nat): Store
    requires k <= |listed|
  {
    if k == 0 then s
    else
      var before := DoAll(Swept(s, listed, includeAdmitted, stats, others, k - 1), others(k - 1));
      var attempt := Attempt(listed[k - 1].0, listed[k - 1].1, includeAdmitted, stats(k - 1));
      if attempt.None? then before else Do(before, attempt.value)
  }

  // ---------------------------------------------------------------- what a sweep can and cannot do

  predicate Finished(s: Store, id: Id) { id in s && !s[id].active }

  /** The store that the attempt at place `k` of the sweep meets. */
  function Before(s: Store, listed: seq<(Id, Operation)>, includeAdmitted: bool, stats: nat -> Option<string>,
                  others: nat -> seq<StoreOp>, k: nat): Store
    requires k < |listed|
  {
    DoAll(Swept(s, listed, includeAdmitted, stats, others, k), others(k))
  }

  /** The others finished it while the sweep was about to attempt place `k`. */
  ghost predicate EndedByOthers(s: Store, listed: seq<(Id, Operation)>, includeAdmitted: bool, stats: nat -> Option<string>,
                                others: nat -> seq<StoreOp>, id: Id, k: nat) {
    && k < |listed|
    && !Finished(Swept(s, listed, includeAdmitted, stats, others, k), id)
    && Finished(Before(s, listed, includeAdmitted, stats, others, k), id)
  }

  /** The sweep ended it at place `k`: it was listed there, and met in the very state it was listed in;
      an admitted one was to be included, and the helper of a running one was the listed one and was not
      seen alive. */
  ghost predicate EndedBySweep(s: Store, listed: seq<(Id, Operation)>, includeAdmitted: bool, stats: nat -> Option<string>,
                               others: nat -> seq<StoreOp>, id: Id, k: nat) {
    && k < |listed| && listed[k].0 == id && !HelperSeenLive(listed[k].1, stats(k))
    && (listed[k].1.state == Admitted ==> includeAdmitted)
    && var met := Before(s, listed, includeAdmitted, stats, others, k);
       && id in met && met[id].active && met[id].state == listed[k].1.state
       && (listed[k].1.state == Running && listed[k].1.pid.Some? && listed[k].1.ticks.Some? ==>
             met[id].pid == listed[k].1.pid && met[id].ticks == listed[k].1.ticks)
  }

  ghost predicate Ends(s: Store, listed: seq<(Id, Operation)>, includeAdmitted: bool, stats: nat -> Option<string>,
                       others: nat -> seq<StoreOp>, id: Id, k: nat) {
    || EndedByOthers(s, listed, includeAdmitted, stats, others, id, k)
    || EndedBySweep(s, listed, includeAdmitted, stats, others, id, k)
  }

  lemma AttemptEnds(s: Store, listed: seq<(Id, Operation)>, includeAdmitted: bool, stats: nat -> Option<string>,
                    others: nat -> seq<StoreOp>, id: Id, k: nat)
    requires k < |listed| && listed[k].1.state in {Admitted, Running}
    requires !Finished(Before(s, listed, includeAdmitted, stats, others, k), id)
    requires Finished(Swept(s, listed, includeAdmitted, stats, others, k + 1), id)
    ensures EndedBySweep(s, listed, includeAdmitted, stats, others, id, k)
  {
    hide DoAll, StartTicks;
  }

  /** Whatever a sweep meets: an operation that is finished after it was finished before, or others
      finished it, or the sweep ended what was listed as admitted and to be included, or as run by a
      helper that was not seen alive at its turn. */
  lemma {:induction false} TerminalizesOnlyTheDead(
      s: Store, listed: seq<(Id, Operation)>, includeAdmitted: bool, stats: nat -> Option<string>,
      others: nat -> seq<StoreOp>, n: nat, id: Id)
    requires n <= |listed| && forall k :: 0 <= k < |listed| ==> listed[k].1.state in {Admitted, Running}
    requires Finished(Swept(s, listed, includeAdmitted, stats, others, n), id)
    ensures Finished(s, id) || (exists k: nat :: k < n && Ends(s, listed, includeAdmitted, stats, others, id, k))
  {
    if n > 0 {
      hide Attempt, Do, DoAll, EndedBySweep;
      if Finished(Swept(s, listed, includeAdmitted, stats, others, n - 1), id) {
        TerminalizesOnlyTheDead(s, listed, includeAdmitted, stats, others, n - 1, id);
      } else if Finished(Before(s, listed, includeAdmitted, stats, others, n - 1), id) {
        assert Ends(s, listed, includeAdmitted, stats, others, id, n - 1);
      } else {
        AttemptEnds(s, listed, includeAdmitted, stats, others, id, n - 1);
        assert Ends(s, listed, includeAdmitted, stats, others, id, n - 1);
      }
    }
  }

  /** What an operation that the sweep ended says from then on: failed before its start, or of unknown
      outcome because its helper left no receipt; nothing else of it has changed. */
  lemma SweepOutcome(
      s: Store, listed: seq<(Id, Operation)>, includeAdmitted: bool, stats: nat -> Option<string>,
      others: nat -> seq<StoreOp>, id: Id, k: nat)
    requires k < |listed| && listed[k].1.state in {Admitted, Running}
    requires !Finished(Before(s, listed, includeAdmitted, stats, others, k), id)
    requires Finished(Swept(s, listed, includeAdmitted, stats, others, k + 1), id)
    ensures id in Before(s, listed, includeAdmitted, stats, others, k)
    ensures id in Swept(s, listed, includeAdmitted, stats, others, |listed|)
    ensures var was := Before(s, listed, includeAdmitted, stats, others, k)[id];
      Swept(s, listed, includeAdmitted, stats, others, |listed|)[id] ==
        if was.state == Admitted
        then was.(state := Failed, active := false, reason := Some("FULL_CLEANUP_INTERRUPTED_BEFORE_START"))
        else was.(state := Indeterminate, active := false, reason := Some("FULL_CLEANUP_HELPER_EXITED_WITHOUT_RECEIPT"))
  {
    PublishedSurvivesSweep(s, listed, includeAdmitted, stats, others, k + 1, |listed|, id);
    AttemptEnds(s, listed, includeAdmitted, stats, others, id, k);
    hide DoAll, StartTicks;
  }

  /** The sweep ends the operation listed at place `k` itself. */
  ghost predicate EndsHere(s: Store, listed: seq<(Id, Operation)>, includeAdmitted: bool, stats: nat -> Option<string>,
                           others: nat -> seq<StoreOp>, k: nat)
    requires k < |listed|
  {
    && !Finished(Before(s, listed, includeAdmitted, stats, others, k), listed[k].0)
    && Finished(Swept(s, listed, includeAdmitted, stats, others, k + 1), listed[k].0)
  }

  /** The count of terminalized operations starts at nothing, and grows by one exactly where the sweep
      ends the operation it has listed. */
  lemma CountsExactly(s: Store, listed: seq<(Id, Operation)>, includeAdmitted: bool, stats: nat -> Option<string>,
                      others: nat -> seq<StoreOp>, k: nat)
    requires k < |listed|
    ensures Ended(s, listed, includeAdmitted, stats, others, 0) == 0
    ensures Ended(s, listed, includeAdmitted, stats, others, k + 1) ==
      Ended(s, listed, includeAdmitted, stats, others, k) + if EndsHere(s, listed, includeAdmitted, stats, others, k) then 1 else 0
  {
    hide DoAll, StartTicks;
  }

  /** A report is recorded exactly when it comes from the helper that claimed the running operation, and
      then with the state it names. */
  lemma PublishedExactly(s: Store, id: Id, pid: int, ticks: int, state: OpState, report: Report)
    requires id in s && s[id].active
    ensures var after := Do(s, Publish(id, pid, ticks, state, report));
      && id in after
      && (!after[id].active <==>
            s[id].state == Running && s[id].pid == Some(pid) && s[id].ticks == Some(ticks)
            && (state == Completed || state == CompletedWithIssues || state == Failed))
      && (after[id].active ==> after == s)
      && (!after[id].active ==>
            && after == s[id := after[id]] && after[id].state == state && after[id].report == Some(report)
            && after[id].pid == Some(pid) && after[id].ticks == Some(ticks)
            && (state == Failed ==> after[id].reason == Some("FULL_CLEANUP_EXECUTION_FAILED"))
            && (state != Failed ==> after[id].reason == None))
  {
  }

  /** A run is claimed once: by the first helper that names itself while the operation is admitted. */
  lemma ClaimedRunExactly(s: Store, id: Id, pid: int, ticks: int)
    requires id in s && s[id].state == Admitted && s[id].active
    ensures var after := Do(s, ClaimRun(id, pid, ticks));
      && (after != s <==> pid > 1 && ticks > 0)
      && (after != s ==> after == s[id := s[id].(state := Running, pid := Some(pid), ticks := Some(ticks))]
                         && forall p, t :: Do(after, ClaimRun(id, p, t)) == after)
  {
  }

  /** A run whose helper is seen alive at each of its turns is not ended by the sweep: if it is finished
      afterwards, others have finished it. */
  lemma LiveHelperUntouched(
      s: Store, listed: seq<(Id, Operation)>, includeAdmitted: bool, stats: nat -> Option<string>,
      others: nat -> seq<StoreOp>, id: Id)
    requires forall k :: 0 <= k < |listed| ==> listed[k].1.state in {Admitted, Running}
    requires forall k :: 0 <= k < |listed| && listed[k].0 == id ==> HelperSeenLive(listed[k].1, stats(k))
    requires !Finished(s, id) && Finished(Swept(s, listed, includeAdmitted, stats, others, |listed|), id)
    ensures exists k: nat :: EndedByOthers(s, listed, includeAdmitted, stats, others, id, k)
  {
    TerminalizesOnlyTheDead(s, listed, includeAdmitted, stats, others, |listed|, id);
    var k: nat :| k < |listed| && Ends(s, listed, includeAdmitted, stats, others, id, k);
    hide HelperSeenLive, Swept;
    assert EndedByOthers(s, listed, includeAdmitted, stats, others, id, k);
  }

  /** What others publish at any point of a sweep survives the whole sweep and everything after it. */
  lemma {:induction false} PublishedSurvivesSweep(
      s: Store, listed: seq<(Id, Operation)>, includeAdmitted: bool, stats: nat -> Option<string>,
      others: nat -> seq<StoreOp>, k: nat, n: nat, id: Id)
    requires k <= n <= |listed|
    requires id in Swept(s, listed, includeAdmitted, stats, others, k)
    requires !Swept(s, listed, includeAdmitted, stats, others, k)[id].active
    ensures id in Swept(s, listed, includeAdmitted, stats, others, n)
    ensures Swept(s, listed, includeAdmitted, stats, others, n)[id] == Swept(s, listed, includeAdmitted, stats, others, k)[id]
    decreases n - k
  {
    if k < n {
      PublishedSurvivesSweep(s, listed, includeAdmitted, stats, others, k, n - 1, id);
      FinishedForever(Swept(s, listed, includeAdmitted, stats, others, n - 1), others(n - 1), id);
    }
  }

  // ---------------------------------------------------------------- start-up

  /** The listing: the one active operation, if there is one. */
  ghost predicate Lists(listed: seq<(Id, Operation)>, s: Store) {
    && |listed| <= 1
    && (listed == [] <==> !HasActive(s))
    && (listed != [] ==> listed[0].0 in s && s[listed[0].0] == listed[0].1 && listed[0].1.active)
  }

  /** At start-up nobody else writes: afterwards the fence for new work raises exactly when the active
      operation is run by a helper that is still alive. */
  lemma StartupFenceExactly(s: Store, listed: seq<(Id, Operation)>, stats: nat -> Option<string>, others: nat -> seq<StoreOp>)
    requires Sane(s) && Lists(listed, s) && others(0) == []
    ensures HasActive(Swept(s, listed, true, stats, others, |listed|)) <==>
      exists id :: id in s && s[id].active && HelperSeenLive(s[id], stats(0))
  {
    if listed != [] {
      var (id, o) := listed[0];
      assert Swept(s, listed, true, stats, others, 0) == s;
      var after := Swept(s, listed, true, stats, others, 1);
      if HelperSeenLive(o, stats(0)) {
        assert after == s;
      } else {
        assert CanTerminalize(s, id, Attempt(id, o, true, stats(0)).value.helper);
        forall i | i in after ensures !after[i].active {
          assert i in s && (i != id ==> s[i] == after[i]);
        }
      }
    }
  }

  /** A row that claims to run without naming its helper could never be ended: both placeholders miss
      it.  No operation of the store makes such a row. */
  lemma NamelessRunNeverEnds(s: Store, id: Id, o: Operation, stat: Option<string>)
    requires id in s && s[id] == o && o.state == Running && (o.pid.None? || o.ticks.None?)
    ensures var a := Attempt(id, o, true, stat); a.Some? && Do(s, a.value) == s
  {
  }
}
