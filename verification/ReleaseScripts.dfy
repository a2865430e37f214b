/** The promotion and staging scripts in their own form: an object whose fields are the control
    files, and methods that check them and rewrite them one file at a time. */
module ReleaseScripts {
  import opened Common
  import opened Releases
  import opened Promotion
  import opened PromotionOutcomes

  datatype Outcome = Promoted(rollbacks: seq<Path>) | DryRun(rollbacks: seq<Path>) | Crashed | Refused(reason: Reason)

  class ControlFiles {
    var roots: set<Path>
    var intact: set<Path>
    var markers: map<Path, Marker>
    var link: Option<Path>
    var active: Option<Path>
    var rollbacks: seq<Path>
    var candidates: seq<Path>

    constructor ()
      ensures State() == FreshInstall
    {
      roots, intact, markers, link := {}, {}, map[], None;
      active, rollbacks, candidates := None, [], [];
    }

    function State(): Control
      reads this
    {
      Control(roots, intact, markers, link, Metadata(active, rollbacks, candidates))
    }

    /** One atomic rename of a marker file. */
    method PutMarker(p: Path, m: Marker)
      modifies `markers
      ensures State() == Apply(old(State()), SetMarker(p, m))
    {
      markers := markers[p := m];
    }

    method PutMetadata(m: Metadata)
      modifies `active, `rollbacks, `candidates
      ensures State() == Apply(old(State()), SetMeta(m))
    {
      active, rollbacks, candidates := m.active, m.rollbacks, m.candidates;
    }

    /** The loop that gathers the rollback list, or finds one it may not use. */
    method GatherRollbacks(a: Args) returns (values: seq<Path>, usable: bool)
      ensures usable == Usable(State(), RollbackValues(State(), a))
      ensures usable ==> values == RollbackValues(State(), a)
    {
      hide RollbackSources, Valid;
      var sources := RollbackSources(State(), a);
      values := [];
      var i := 0;
      while i < |sources|
        invariant 0 <= i <= |sources|
        invariant Usable(State(), values)
        invariant Collect(values, sources[i..], a.candidate) == RollbackValues(State(), a)
      {
        var value := sources[i];
        assert sources[i..][1..] == sources[i + 1..];
        if value != a.candidate && value !in values {
          if !Valid(State(), value, {Active, Rollback}) {
            assert value in sources[i..];
            return values, false;
          }
          values := values + [value];
        }
        i := i + 1;
      }
      assert sources[i..] == [];
      return values, true;
    }

    /** Every check made under the lock. */
    method CheckLocked(a: Args) returns (r: Result<seq<Path>, Reason>)
      ensures r == Admit(State(), a)
    {
      var k := 0;
      while k < |candidates|
        invariant 0 <= k <= |candidates|
        invariant forall p :: p in candidates[..k] && p != a.candidate ==> Valid(State(), p, {Candidate})
      {
        var p := candidates[k];
        if p != a.candidate && !Valid(State(), p, {Candidate}) {
          return Err(ReleaseMarkerInvalid);
        }
        k := k + 1;
      }
      assert candidates[..k] == candidates;
      if active != Some(a.candidate) && a.candidate !in candidates {
        return Err(CandidateNotStaged);
      }
      if link.Some? && link.value != a.candidate && active != link {
        return Err(ActiveReleaseIdentityMismatch);
      }
      if active.Some? && active.value != a.candidate && !Valid(State(), active.value, {Active, Rollback}) {
        assert active.value in Present(Previous(State(), a));
        return Err(ReleaseMarkerInvalid);
      }
      var values, usable := GatherRollbacks(a);
      if !usable {
        return Err(ReleaseMarkerInvalid);
      }
      return Ok(values);
    }

    /** Marks one rollback value, unless its marker already says so. */
    method DemoteOne(value: Path, budget: nat, ghost rest: seq<Path>, ghost tail: seq<Write>) returns (left: nat, alive: bool)
      requires value in markers && value !in rest && forall v :: v in rest ==> v in markers
      modifies `markers
      ensures markers.Keys == old(markers.Keys)
      ensures !alive ==>
        budget == 0 && State() == old(State()) && Demotions(old(State()), [value] + rest) != []
      ensures alive ==> SameEnd(old(State()), Demotions(old(State()), [value] + rest) + tail, budget,
                                State(), Demotions(State(), rest) + tail, left)
    {
      assert ([value] + rest)[1..] == rest;
      var marker := markers[value];
      if marker.stage == Rollback {
        assert Demotions(State(), [value] + rest) == Demotions(State(), rest);
        return budget, true;
      }
      if budget == 0 { return 0, false; }
      ghost var before := State();
      PutMarker(value, marker.(stage := Rollback));
      DemotionsFrame(before, State(), rest);
      ghost var w := SetMarker(value, Demoted(marker));
      assert Demotions(before, [value] + rest) + tail == [w] + (Demotions(before, rest) + tail);
      OneWrite(before, w, Demotions(before, rest) + tail, budget);
      return budget - 1, true;
    }

    /** Marks the first two rollback values.  Of a budget of writes `left` remain; `tail` is
        what the promotion still has to write. */
    method Demote(two: seq<Path>, budget: nat, ghost tail: seq<Write>) returns (left: nat, alive: bool)
      requires Distinct(two) && tail != [] && forall v :: v in two ==> v in markers
      modifies `markers
      ensures forall v :: v in two ==> v in old(markers)
      ensures alive ==> SameEnd(old(State()), Demotions(old(State()), two) + tail, budget, State(), tail, left)
      ensures !alive ==>
        && |Demotions(old(State()), two) + tail| > budget
        && State() == Upto(old(State()), Demotions(old(State()), two) + tail, budget)
    {
      ghost var start := State();
      left := budget;
      var i := 0;
      assert two[0..] == two;
      while i < |two|
        invariant 0 <= i <= |two|
        invariant forall v :: v in two ==> v in markers
        invariant SameEnd(start, Demotions(start, two) + tail, budget, State(), Demotions(State(), two[i..]) + tail, left)
      {
        DistinctFrom(two, i);
        left, alive := DemoteOne(two[i], left, two[i + 1..], tail);
        if !alive { return 0, false; }
        i := i + 1;
      }
      assert Demotions(State(), two[i..]) + tail == tail;
      return left, true;
    }

    /** The last two writes. */
    method Close(a: Args, values: seq<Path>, budget: nat) returns (completed: bool)
      modifies this
      ensures State() == Upto(old(State()), ClosingWrites(old(State()), a, values), budget)
      ensures completed == (|ClosingWrites(old(State()), a, values)| <= budget)
    {
      ghost var meta := SetMeta(PromotedMetadata(State(), a, values));
      var left := budget;
      if link != Some(a.candidate) {
        if left == 0 { return false; }
        OneWrite(State(), SetLink(a.candidate), [meta], left);
        link := Some(a.candidate);
        left := left - 1;
      } else {
        assert ClosingWrites(State(), a, values) == [meta];
      }
      if left == 0 { return false; }
      OneWrite(State(), meta, [], left);
      assert [meta] + [] == [meta];
      PutMetadata(Metadata(Some(a.candidate), Take(values, 2), Take(Without(candidates, a.candidate), 2)));
      return true;
    }

    /** The writes of an admitted promotion, in order. */
    method WriteAll(a: Args, seen: Marker, values: seq<Path>, budget: nat) returns (completed: bool)
      requires Distinct(values) && a.candidate !in values && forall v :: v in values ==> v in markers
      modifies this
      ensures forall v :: v in values ==> v in old(markers)
      ensures State() == Upto(old(State()), Plan(old(State()), a, seen, values), budget)
      ensures completed == (|Plan(old(State()), a, seen, values)| <= budget)
    {
      hide ApplyAll;
      assert forall v :: v in Take(values, 2) ==> v in markers && v != a.candidate;
      ghost var start := State();
      ghost var later := LaterWrites(start, a, values);
      var left := budget;
      if seen.stage != Active {
        ghost var w := SetMarker(a.candidate, Releases.Promoted(seen));
        MarkerThenLater(start, a, seen, values);
        if left == 0 { return false; }
        OneWrite(start, w, later, left);
        PutMarker(a.candidate, seen.(stage := Active));
        left := left - 1;
      } else {
        assert Plan(start, a, seen, values) == later;
      }
      hide Plan;
      completed := WriteLater(a, values, left);
    }

    /** The writes after the candidate's own marker. */
    method WriteLater(a: Args, values: seq<Path>, budget: nat) returns (completed: bool)
      requires Distinct(values) && forall v :: v in values ==> v in markers
      modifies this
      ensures forall v :: v in values ==> v in old(markers)
      ensures State() == Upto(old(State()), LaterWrites(old(State()), a, values), budget)
      ensures completed == (|LaterWrites(old(State()), a, values)| <= budget)
    {
      hide ApplyAll, Demotions;
      assert forall v :: v in Take(values, 2) ==> v in markers;
      var left, alive := Demote(Take(values, 2), budget, ClosingWrites(State(), a, values));
      if !alive { return false; }
      completed := Close(a, values, left);
    }

    /** The part of a promotion that runs under the lock.  `seen` is the candidate's marker as
        read before the lock; the process dies when it has made `budget` writes and needs
        another. */
    method PromoteLocked(a: Args, seen: Marker, dryRun: bool, budget: nat) returns (outcome: Outcome)
      modifies this
      ensures forall v :: Admit(old(State()), a).Ok? && v in Admit(old(State()), a).value ==> v in old(markers)
      ensures Admit(old(State()), a).Err? ==>
        State() == old(State()) && outcome == Refused(Admit(old(State()), a).error)
      ensures Admit(old(State()), a).Ok? && dryRun ==>
        State() == old(State()) && outcome == DryRun(Take(Admit(old(State()), a).value, 2))
      ensures Admit(old(State()), a).Ok? && !dryRun ==>
        var plan := Plan(old(State()), a, seen, Admit(old(State()), a).value);
        && State() == Upto(old(State()), plan, budget)
        && outcome == if |plan| <= budget then Outcome.Promoted(Take(Admit(old(State()), a).value, 2)) else Crashed
      ensures outcome.Promoted? && CurrentMarker(old(State()), a, seen) ==> Fulfilled(old(State()), a, State())
    {
      if Admit(State(), a).Ok? && CurrentMarker(State(), a, seen) {
        PromotionFulfils(State(), a);
        PlanReachesFinal(State(), a, seen);
      }
      hide Fulfilled, Final;
      var checked := CheckLocked(a);
      match checked {
        case Err(reason) => return Refused(reason);
        case Ok(values) =>
          if dryRun {
            return DryRun(Take(values, 2));
          }
          var completed := WriteAll(a, seen, values, budget);
          return if completed then Outcome.Promoted(Take(values, 2)) else Crashed;
      }
    }

    /** `_stage_candidate_runtime` and `_record_staged_candidate`.  `sound`: the copied runtime passes
        its validation; one that does not is removed again, which is a write as well. */
    method Stage(p: Path, commit: string, sound: bool, budget: nat) returns (outcome: bool)
      modifies this
      ensures p in old(roots) ==> !outcome && State() == old(State())
      ensures p !in old(roots) && sound ==>
        var plan := StagePlan(old(State()), p, commit);
        State() == Upto(old(State()), plan, budget) && outcome == (|plan| <= budget)
      ensures outcome ==> Staged(old(State()), p, commit, State())
      ensures p !in old(roots) && !sound ==>
        !outcome && State() == if budget == 0 then old(State())
                               else if budget == 1 then Apply(old(State()), MakeRoot(p))
                               else old(State()).(intact := old(State()).intact - {p})
    {
      if p in roots {
        return false;
      }
      StagingStages(State(), p, commit);
      hide ApplyAll, Staged;
      var left := budget;
      ghost var marker := SetMarker(p, Marker(commit, Candidate));
      ghost var meta := SetMeta(StagePlan(State(), p, commit)[3].meta);
      assert StagePlan(State(), p, commit) == [MakeRoot(p)] + [SealRoot(p), marker, meta];
      if left == 0 { return false; }
      OneWrite(State(), MakeRoot(p), [SealRoot(p), marker, meta], left);
      roots := roots + {p};
      left := left - 1;
      if left == 0 { return false; }
      if !sound {
        roots, intact := roots - {p}, intact - {p};
        assert State().roots == old(State()).roots;
        return false;
      }
      assert [SealRoot(p)] + [marker, meta] == [SealRoot(p), marker, meta];
      OneWrite(State(), SealRoot(p), [marker, meta], left);
      intact := intact + {p};
      left := left - 1;
      if left == 0 { return false; }
      assert [marker] + [meta] == [marker, meta];
      OneWrite(State(), marker, [meta], left);
      PutMarker(p, Marker(commit, Candidate));
      left := left - 1;
      if left == 0 { return false; }
      OneWrite(State(), meta, [], left);
      assert [meta] + [] == [meta];
      PutMetadata(Metadata(active, rollbacks, Take([p] + Without(candidates, p), 2)));
      return true;
    }
  }

  /** The marker that was read before the lock is still there. */
  ghost predicate CurrentMarker(s: Control, a: Args, seen: Marker) {
    a.candidate in s.markers && s.markers[a.candidate] == seen && seen.commit == a.commit && seen.stage in {Candidate, Active}
  }

  lemma PlanReachesFinal(s: Control, a: Args, seen: Marker)
    requires Admit(s, a).Ok? && CurrentMarker(s, a, seen)
    ensures forall v :: v in RollbackValues(s, a) ==> v in s.markers
    ensures Admit(s, a).value == RollbackValues(s, a)
    ensures ApplyAll(s, Plan(s, a, seen, RollbackValues(s, a))) == Final(s, a, RollbackValues(s, a))
  {
    AdmittedFacts(s, a);
    FullRunReachesFinal(s, a);
    hide *;
  }

  /** The candidate's own marker comes first, and does not change what comes after it. */
  lemma MarkerThenLater(s: Control, a: Args, seen: Marker, values: seq<Path>)
    requires seen.stage != Active && a.candidate !in values && forall v :: v in values ==> v in s.markers
    ensures var w := SetMarker(a.candidate, Releases.Promoted(seen));
      && Plan(s, a, seen, values) == [w] + LaterWrites(s, a, values)
      && LaterWrites(Apply(s, w), a, values) == LaterWrites(s, a, values)
  {
    var t := Apply(s, SetMarker(a.candidate, Releases.Promoted(seen)));
    assert forall v :: v in Take(values, 2) ==> v in values;
    DemotionsFrame(s, t, Take(values, 2));
  }

  /** The state after the first `budget` of the writes `ws`. */
  function Upto(s: Control, ws: seq<Write>, budget: nat): (t: Control)
    ensures budget == 0 || ws == [] ==> t == s
  {
    ApplyAll(s, Take(ws, budget))
  }

  /** Making `ws` from `s` within `budget` and `rest` from `t` within `left` is the same. */
  ghost predicate SameEnd(s: Control, ws: seq<Write>, budget: nat, t: Control, rest: seq<Write>, left: nat) {
    Upto(s, ws, budget) == Upto(t, rest, left) && (|ws| <= budget <==> |rest| <= left)
  }

  lemma OneWrite(s: Control, w: Write, rest: seq<Write>, left: nat)
    requires left > 0
    ensures SameEnd(s, [w] + rest, left, Apply(s, w), rest, left - 1)
  {
    assert ([w] + rest)[1..] == rest;
    assert Take([w] + rest, left)[1..] == Take(rest, left - 1);
  }

  lemma DistinctFrom(s: seq<Path>, i: nat)
    requires Distinct(s) && i < |s|
    ensures s[i] !in s[i + 1..]
  {
  }
}
