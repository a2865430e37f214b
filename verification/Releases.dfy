/** Release control files: what one promotion and one staging write, and in which order.

    A `Control` value is everything the two deployment scripts keep on disk: the release
    directories, the marker file inside each release, the `active` symbolic link and the
    release metadata.  Every write is one atomic rename, so a crash falls between writes. */
module Releases {
  import opened Common

  type Path = string

  datatype Stage = Candidate | Active | Rollback

  datatype Marker = Marker(commit: string, stage: Stage)

  datatype Metadata = Metadata(active: Option<Path>, rollbacks: seq<Path>, candidates: seq<Path>)

  /** `intact` holds the release trees that pass the ownership, mode and executable checks. */
  datatype Control = Control(
    roots: set<Path>, intact: set<Path>, markers: map<Path, Marker>,
    link: Option<Path>, meta: Metadata)

  const FreshInstall := Control({}, {}, map[], None, Metadata(None, [], []))

  datatype Reason = ReleaseMarkerInvalid | CandidateNotStaged | ActiveReleaseIdentityMismatch

  datatype Args = Args(candidate: Path, commit: string, rollback: Option<Path>)

  datatype Write =
    | SetMarker(path: Path, marker: Marker)
    | SetLink(target: Path)
    | SetMeta(meta: Metadata)
    | MakeRoot(root: Path)
    | SealRoot(root: Path)

  function Apply(s: Control, w: Write): Control {
    match w
    case SetMarker(p, m) => s.(markers := s.markers[p := m])
    case SetLink(p) => s.(link := Some(p))
    case SetMeta(m) => s.(meta := m)
    case MakeRoot(p) => s.(roots := s.roots + {p})
    case SealRoot(p) => s.(intact := s.intact + {p})
  }

  /** A staging that fails removes its directory again. */
  function Removed(s: Control, p: Path): Control {
    s.(roots := s.roots - {p}, intact := s.intact - {p})
  }

  function ApplyAll(s: Control, ws: seq<Write>): Control
    decreases |ws|
  {
    if ws == [] then s else ApplyAll(Apply(s, ws[0]), ws[1..])
  }

  lemma ApplyAllSplit(s: Control, ws: seq<Write>, k: nat)
    requires k <= |ws|
    ensures ApplyAll(ApplyAll(s, ws[..k]), ws[k..]) == ApplyAll(s, ws)
    decreases k
  {
    if k == 0 {
      assert ws[..0] == [] && ws[0..] == ws;
    } else {
      assert ws[..k][0] == ws[0] && ws[..k][1..] == ws[1..][..k - 1] && ws[k..] == ws[1..][k - 1..];
      ApplyAllSplit(Apply(s, ws[0]), ws[1..], k - 1);
    }
  }

  // ---------------------------------------------------------------- validation

  /** `_validate_release`: tree intact and the marker's state one of those allowed here. */
  predicate Valid(s: Control, p: Path, allowed: set<Stage>) {
    p in s.intact && p in s.markers && s.markers[p].stage in allowed
  }

  /** The reads before the lock: the candidate's marker, then the rollback argument's. */
  predicate CandidateReadable(s: Control, a: Args) {
    Valid(s, a.candidate, {Candidate, Active}) && s.markers[a.candidate].commit == a.commit
  }

  predicate RollbackReadable(s: Control, a: Args) {
    a.rollback.Some? ==> Valid(s, a.rollback.value, {Active, Rollback})
  }

  /** Appends to `acc` the values that are new and differ from the candidate, in order. */
  function Collect(acc: seq<Path>, values: seq<Path>, candidate: Path): (r: seq<Path>)
    ensures forall x :: x in r <==> x in acc || (x in values && x != candidate)
    ensures Distinct(acc) ==> Distinct(r)
    ensures acc <= r
    decreases |values|
  {
    if values == [] then acc
    else if values[0] == candidate || values[0] in acc then Collect(acc, values[1..], candidate)
    else Collect(acc + [values[0]], values[1..], candidate)
  }

  function Previous(s: Control, a: Args): Option<Path> {
    if s.meta.active.Some? && s.meta.active.value != a.candidate then s.meta.active else None
  }

  /** What the rollback list is drawn from: the argument, the recorded active, the old rollbacks. */
  function RollbackSources(s: Control, a: Args): seq<Path> {
    Present(a.rollback) + Present(Previous(s, a)) + s.meta.rollbacks
  }

  function RollbackValues(s: Control, a: Args): (r: seq<Path>)
    ensures Distinct(r)
  {
    Collect([], RollbackSources(s, a), a.candidate)
  }

  predicate OthersStaged(s: Control, a: Args) {
    forall p :: p in s.meta.candidates && p != a.candidate ==> Valid(s, p, {Candidate})
  }

  predicate Listed(s: Control, a: Args) {
    s.meta.active == Some(a.candidate) || a.candidate in s.meta.candidates
  }

  predicate LinkAgrees(s: Control, a: Args) {
    s.link.Some? ==> s.link == Some(a.candidate) || s.link == s.meta.active
  }

  predicate Usable(s: Control, values: seq<Path>) {
    forall p :: p in values ==> Valid(s, p, {Active, Rollback})
  }

  /** The checks made while the lock is held, in the order the script makes them. */
  function Admit(s: Control, a: Args): Result<seq<Path>, Reason> {
    if !OthersStaged(s, a) then Err(ReleaseMarkerInvalid)
    else if !Listed(s, a) then Err(CandidateNotStaged)
    else if !LinkAgrees(s, a) then Err(ActiveReleaseIdentityMismatch)
    else if !Usable(s, Present(Previous(s, a))) then Err(ReleaseMarkerInvalid)
    else if !Usable(s, RollbackValues(s, a)) then Err(ReleaseMarkerInvalid)
    else Ok(RollbackValues(s, a))
  }

  ghost predicate Admitted(s: Control, a: Args) {
    && a.candidate in s.markers
    && s.markers[a.candidate].commit == a.commit
    && s.markers[a.candidate].stage in {Candidate, Active}
    && Admit(s, a).Ok?
  }

  // ---------------------------------------------------------------- the promotion's writes

  function Promoted(m: Marker): Marker { m.(stage := Active) }

  function Demoted(m: Marker): Marker { m.(stage := Rollback) }

  function Demotions(s: Control, values: seq<Path>): seq<Write>
    requires forall v :: v in values ==> v in s.markers
  {
    if values == [] then []
    else
      (if s.markers[values[0]].stage == Rollback then []
       else [SetMarker(values[0], Demoted(s.markers[values[0]]))])
      + Demotions(s, values[1..])
  }

  function PromotedMetadata(s: Control, a: Args, values: seq<Path>): Metadata {
    Metadata(Some(a.candidate), Take(values, 2), Take(Without(s.meta.candidates, a.candidate), 2))
  }

  /** The link, unless it is already right, and the metadata. */
  function ClosingWrites(s: Control, a: Args, values: seq<Path>): seq<Write> {
    (if s.link == Some(a.candidate) then [] else [SetLink(a.candidate)])
    + [SetMeta(PromotedMetadata(s, a, values))]
  }

  /** The writes after the candidate's own marker. */
  function LaterWrites(s: Control, a: Args, values: seq<Path>): seq<Write>
    requires forall v :: v in values ==> v in s.markers
  {
    Demotions(s, Take(values, 2)) + ClosingWrites(s, a, values)
  }

  /** All writes of a promotion that read the marker `seen` before it took the lock. */
  function Plan(s: Control, a: Args, seen: Marker, values: seq<Path>): seq<Write>
    requires forall v :: v in values ==> v in s.markers
  {
    (if seen.stage == Active then [] else [SetMarker(a.candidate, Promoted(seen))])
    + LaterWrites(s, a, values)
  }

  /** The writes still missing in `s`: the plan of a promotion that reads a current marker. */
  function Missing(s: Control, a: Args, values: seq<Path>): seq<Write>
    requires a.candidate in s.markers
    requires forall v :: v in values ==> v in s.markers
  {
    Plan(s, a, s.markers[a.candidate], values)
  }

  /** The state a promotion is for, in one expression. */
  function Final(s: Control, a: Args, values: seq<Path>): Control
    requires a.candidate in s.markers
  {
    s.(markers := map p | p in s.markers ::
         if p == a.candidate then Promoted(s.markers[p])
         else if p in Take(values, 2) then Demoted(s.markers[p])
         else s.markers[p],
       link := Some(a.candidate),
       meta := PromotedMetadata(s, a, values))
  }

  // ---------------------------------------------------------------- the staging's writes

  /** `candidate_root.exists()` refuses a path that is already there. */
  function StagePlan(s: Control, p: Path, commit: string): seq<Write> {
    [MakeRoot(p), SealRoot(p), SetMarker(p, Marker(commit, Candidate)),
     SetMeta(s.meta.(candidates := Take([p] + Without(s.meta.candidates, p), 2)))]
  }

  // ---------------------------------------------------------------- one write at a time

  /** Consequences of admission that the proofs use. */
  lemma AdmittedFacts(s: Control, a: Args)
    requires Admitted(s, a)
    ensures Admit(s, a).value == RollbackValues(s, a)
    ensures forall v :: v in RollbackValues(s, a) ==>
      v != a.candidate && v in s.markers && s.markers[v].stage in {Active, Rollback}
    ensures forall p :: p in s.meta.candidates && p != a.candidate ==>
      p in s.markers && s.markers[p].stage == Candidate
  {
  }

  lemma {:induction false} DemotionsAdvance(s: Control, values: seq<Path>)
    requires forall v :: v in values ==> v in s.markers
    requires Distinct(values)
    requires Demotions(s, values) != []
    ensures var w := Demotions(s, values)[0];
      && w.SetMarker? && w.path in values
      && s.markers[w.path].stage != Rollback && w.marker == Demoted(s.markers[w.path])
      && Demotions(Apply(s, w), values) == Demotions(s, values)[1..]
  {
    var v := values[0];
    if s.markers[v].stage == Rollback {
      DemotionsAdvance(s, values[1..]);
      assert forall x :: x in values[1..] ==> x in values;
    } else {
      var w := Demotions(s, values)[0];
      DemotionsFrame(s, Apply(s, w), values[1..]);
    }
  }

  lemma {:induction false} DemotionsFrame(s: Control, t: Control, values: seq<Path>)
    requires forall v :: v in values ==> v in s.markers && v in t.markers && s.markers[v] == t.markers[v]
    ensures Demotions(s, values) == Demotions(t, values)
  {
    if values != [] {
      DemotionsFrame(s, t, values[1..]);
    }
  }

  lemma {:induction false} DemotionsDone(s: Control, values: seq<Path>)
    requires forall v :: v in values ==> v in s.markers
    requires Demotions(s, values) == []
    ensures forall v :: v in values ==> s.markers[v].stage == Rollback
  {
    if values != [] {
      DemotionsDone(s, values[1..]);
    }
  }

  /** A write of this promotion that leaves the metadata alone. */
  ghost predicate OwnWrite(s: Control, a: Args, w: Write)
    requires a.candidate in s.markers
  {
    || w == SetLink(a.candidate)
    || w == SetMarker(a.candidate, Promoted(s.markers[a.candidate]))
    || (w.SetMarker? && w.path in RollbackValues(s, a) && w.path in s.markers
        && w.marker == Demoted(s.markers[w.path]))
  }

  lemma OwnWriteKeepsStages(s: Control, a: Args, w: Write, p: Path, allowed: set<Stage>)
    requires Admitted(s, a) && OwnWrite(s, a, w)
    requires Valid(s, p, allowed)
    requires p == a.candidate ==> Active in allowed
    requires p != a.candidate ==> allowed == {Active, Rollback} || p !in RollbackValues(s, a)
    ensures Valid(Apply(s, w), p, allowed)
  {
  }

  lemma OwnWriteKeepsSources(s: Control, a: Args, w: Write)
    requires Admitted(s, a) && OwnWrite(s, a, w)
    ensures var t := Apply(s, w);
      && t.meta == s.meta && t.markers.Keys == s.markers.Keys && RollbackSources(t, a) == RollbackSources(s, a)
      && RollbackValues(t, a) == RollbackValues(s, a) && Previous(t, a) == Previous(s, a)
  {
    AdmittedFacts(s, a);
    hide Admit, Collect;
    assert RollbackSources(Apply(s, w), a) == RollbackSources(s, a);
  }

  lemma OthersStayStaged(s: Control, a: Args, w: Write)
    requires Admitted(s, a) && OwnWrite(s, a, w)
    ensures OthersStaged(Apply(s, w), a)
  {
    AdmittedFacts(s, a);
    OwnWriteKeepsSources(s, a, w);
    forall p | p in s.meta.candidates && p != a.candidate ensures Valid(Apply(s, w), p, {Candidate}) {
      assert Valid(s, p, {Candidate});
      assert p !in RollbackValues(s, a);
      OwnWriteKeepsStages(s, a, w, p, {Candidate});
    }
  }

  lemma StaysUsable(s: Control, a: Args, w: Write, values: seq<Path>)
    requires Admitted(s, a) && OwnWrite(s, a, w)
    requires Usable(s, values) && a.candidate !in values
    ensures Usable(Apply(s, w), values)
  {
    forall p | p in values ensures Valid(Apply(s, w), p, {Active, Rollback}) {
      OwnWriteKeepsStages(s, a, w, p, {Active, Rollback});
    }
  }

  /** Such a write leaves the promotion admitted with the same rollback values. */
  lemma AdmissionStable(s: Control, a: Args, w: Write)
    requires Admitted(s, a) && OwnWrite(s, a, w)
    ensures Admitted(Apply(s, w), a)
    ensures RollbackValues(Apply(s, w), a) == RollbackValues(s, a)
  {
    OwnWriteKeepsSources(s, a, w);
    OthersStayStaged(s, a, w);
    StaysUsable(s, a, w, Present(Previous(s, a)));
    StaysUsable(s, a, w, RollbackValues(s, a));
    hide RollbackValues, OthersStaged, Usable, Previous;
  }

  lemma FinalStable(s: Control, a: Args, w: Write)
    requires Admitted(s, a) && OwnWrite(s, a, w)
    requires w.SetMarker? ==> w.path == a.candidate || w.path in Take(RollbackValues(s, a), 2)
    ensures Final(Apply(s, w), a, RollbackValues(s, a)) == Final(s, a, RollbackValues(s, a))
  {
    AdmittedFacts(s, a);
    hide Admit, RollbackSources, Collect;
    var values := RollbackValues(s, a);
    var t := Apply(s, w);
    assert t.markers.Keys == s.markers.Keys;
    assert Final(t, a, values).markers == Final(s, a, values).markers;
  }

  /** With the markers and the link right, the metadata write ends the promotion. */
  lemma LastWrite(s: Control, a: Args, values: seq<Path>)
    requires a.candidate in s.markers && s.markers[a.candidate].stage == Active
    requires forall v :: v in Take(values, 2) ==> v in s.markers && s.markers[v].stage == Rollback
    requires s.link == Some(a.candidate)
    ensures Apply(s, SetMeta(PromotedMetadata(s, a, values))) == Final(s, a, values)
  {
    assert Final(s, a, values).markers == s.markers;
  }

  ghost predicate Planable(s: Control, a: Args, values: seq<Path>) {
    && a.candidate in s.markers && a.candidate !in values && Distinct(values)
    && forall v :: v in values ==> v in s.markers
  }

  /** A first write other than the metadata write: which writes it can be, and what is missing
      once it is made. */
  ghost predicate EarlyWrite(s: Control, a: Args, values: seq<Path>, w: Write)
    requires Planable(s, a, values)
  {
    var t := Apply(s, w);
    && (|| w == SetLink(a.candidate)
        || w == SetMarker(a.candidate, Promoted(s.markers[a.candidate]))
        || (w.SetMarker? && w.path in Take(values, 2) && w.marker == Demoted(s.markers[w.path])))
    && Planable(t, a, values)
    && Missing(s, a, values) == [w] + Missing(t, a, values)
  }

  lemma MarkerFirst(s: Control, a: Args, values: seq<Path>)
    requires Planable(s, a, values) && s.markers[a.candidate].stage != Active
    ensures EarlyWrite(s, a, values, SetMarker(a.candidate, Promoted(s.markers[a.candidate])))
  {
    DemotionsFrame(s, Apply(s, SetMarker(a.candidate, Promoted(s.markers[a.candidate]))), Take(values, 2));
  }

  lemma DemotionFirst(s: Control, a: Args, values: seq<Path>)
    requires Planable(s, a, values) && s.markers[a.candidate].stage == Active
    requires Demotions(s, Take(values, 2)) != []
    ensures EarlyWrite(s, a, values, Demotions(s, Take(values, 2))[0])
  {
    var two := Take(values, 2);
    DemotionsAdvance(s, two);
    var w := Demotions(s, two)[0];
    assert Demotions(s, two) == [w] + Demotions(Apply(s, w), two);
  }

  lemma LinkFirst(s: Control, a: Args, values: seq<Path>)
    requires Planable(s, a, values) && s.markers[a.candidate].stage == Active
    requires Demotions(s, Take(values, 2)) == [] && s.link != Some(a.candidate)
    ensures EarlyWrite(s, a, values, SetLink(a.candidate))
  {
    DemotionsFrame(s, Apply(s, SetLink(a.candidate)), Take(values, 2));
  }

  /** The shape of the plan alone: its first write, and what is missing after it. */
  lemma MissingShape(s: Control, a: Args, values: seq<Path>)
    requires Planable(s, a, values)
    ensures |Missing(s, a, values)| >= 1
    ensures |Missing(s, a, values)| == 1 ==> Apply(s, Missing(s, a, values)[0]) == Final(s, a, values)
    ensures |Missing(s, a, values)| > 1 ==> EarlyWrite(s, a, values, Missing(s, a, values)[0])
  {
    hide Final, EarlyWrite;
    if s.markers[a.candidate].stage != Active {
      MarkerFirst(s, a, values);
    } else if Demotions(s, Take(values, 2)) != [] {
      DemotionFirst(s, a, values);
    } else if s.link != Some(a.candidate) {
      LinkFirst(s, a, values);
    } else {
      assert Missing(s, a, values) == [SetMeta(PromotedMetadata(s, a, values))];
      DemotionsDone(s, Take(values, 2));
      LastWrite(s, a, values);
    }
  }

  /** `t` is `s` with the first missing write of the promotion done. */
  ghost predicate Advanced(s: Control, t: Control, a: Args)
    requires Admitted(s, a)
    requires forall v :: v in RollbackValues(s, a) ==> v in s.markers
  {
    var values := RollbackValues(s, a);
    && Admitted(t, a)
    && RollbackValues(t, a) == values
    && (forall v :: v in values ==> v in t.markers)
    && Missing(t, a, values) == Missing(s, a, values)[1..]
    && Final(t, a, values) == Final(s, a, values)
  }

  /** The plan is re-entrant: after its first write, what is missing is exactly the rest. */
  lemma MissingAdvances(s: Control, a: Args)
    requires Admitted(s, a)
    ensures forall v :: v in RollbackValues(s, a) ==> v in s.markers
    ensures |Missing(s, a, RollbackValues(s, a))| >= 1
    ensures |Missing(s, a, RollbackValues(s, a))| == 1 ==>
      Apply(s, Missing(s, a, RollbackValues(s, a))[0]) == Final(s, a, RollbackValues(s, a))
    ensures |Missing(s, a, RollbackValues(s, a))| > 1 ==>
      Advanced(s, Apply(s, Missing(s, a, RollbackValues(s, a))[0]), a)
  {
    AdmittedFacts(s, a);
    var values := RollbackValues(s, a);
    MissingShape(s, a, values);
    if |Missing(s, a, values)| > 1 {
      var w := Missing(s, a, values)[0];
      AdmissionStable(s, a, w);
      FinalStable(s, a, w);
    }
  }
}
