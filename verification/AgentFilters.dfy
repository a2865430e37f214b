/** The agent filter state in the address bar: what is written for a state, and what is read back.
    Values are sequences of UTF-16 code units, in whose order the browser sorts them. */
module AgentFilters {
  import opened Common

  type Text = seq<nat>

  const COMMA: nat := 44

  function Ascii(s: string): Text
    requires forall i :: 0 <= i < |s| ==> s[i] < 128 as char
  {
    seq(|s|, i requires 0 <= i < |s| => s[i] as nat)
  }

  // ---------------------------------------------------------------- order

  /** Lexicographic order by code units. */
  predicate Less(a: Text, b: Text)
    decreases |a|
  {
    if b == [] then false
    else if a == [] then true
    else a[0] < b[0] || (a[0] == b[0] && Less(a[1..], b[1..]))
  }

  lemma {:induction false} LessTotal(a: Text, b: Text)
    ensures a == b || Less(a, b) || Less(b, a)
    ensures Less(a, b) ==> a != b && !Less(b, a)
    decreases |a|
  {
    if a != [] && b != [] {
      LessTotal(a[1..], b[1..]);
      assert a == [a[0]] + a[1..] && b == [b[0]] + b[1..];
    }
  }

  lemma {:induction false} LessTransitive(a: Text, b: Text, c: Text)
    requires Less(a, b) && Less(b, c)
    ensures Less(a, c)
    decreases |a|
  {
    if a != [] && a[0] == b[0] == c[0] {
      LessTransitive(a[1..], b[1..], c[1..]);
    }
  }

  ghost predicate Ascending(s: seq<Text>) {
    forall i, j :: 0 <= i < j < |s| ==> Less(s[i], s[j])
  }

  /** Puts `x` in its place among ascending values, unless it is there. */
  function Insert(x: Text, s: seq<Text>): seq<Text> {
    if s == [] then [x]
    else if x == s[0] then s
    else if Less(x, s[0]) then [x] + s
    else [s[0]] + Insert(x, s[1..])
  }

  /** `Array.from(new Set(values)).sort()`. */
  function StableList(values: seq<Text>): seq<Text> {
    if values == [] then [] else Insert(values[0], StableList(values[1..]))
  }

  lemma {:induction false} InsertKeepsOrder(x: Text, s: seq<Text>)
    requires Ascending(s)
    ensures Ascending(Insert(x, s))
    ensures forall y :: y in Insert(x, s) <==> y == x || y in s
  {
    if s != [] {
      LessTotal(x, s[0]);
      assert forall y :: y in s <==> y == s[0] || y in s[1..];
      if x != s[0] && Less(x, s[0]) {
        AscendingCons(x, s);
      } else if x != s[0] {
        InsertKeepsOrder(x, s[1..]);
        var rest := Insert(x, s[1..]);
        forall y | y in rest ensures Less(s[0], y) {
          if y in s[1..] {
            var i :| 1 <= i < |s| && s[i] == y;
          }
        }
        ConsAscending(s[0], rest);
      }
    }
  }

  lemma AscendingCons(x: Text, s: seq<Text>)
    requires Ascending(s) && s != [] && Less(x, s[0])
    ensures Ascending([x] + s)
  {
    forall y | y in s ensures Less(x, y) {
      var i :| 0 <= i < |s| && s[i] == y;
      if i > 0 { LessTransitive(x, s[0], s[i]); }
    }
    ConsAscending(x, s);
  }

  lemma ConsAscending(x: Text, s: seq<Text>)
    requires Ascending(s) && forall y :: y in s ==> Less(x, y)
    ensures Ascending([x] + s)
  {
    var t := [x] + s;
    forall i, j | 0 <= i < j < |t| ensures Less(t[i], t[j]) {
      assert t[j] == s[j - 1] && s[j - 1] in s;
      assert i > 0 ==> t[i] == s[i - 1];
    }
  }

  /** The result is ascending without repetition and holds exactly the given values. */
  lemma {:induction false} StableListSorts(values: seq<Text>)
    ensures Ascending(StableList(values))
    ensures forall y :: y in StableList(values) <==> y in values
  {
    if values != [] {
      StableListSorts(values[1..]);
      InsertKeepsOrder(values[0], StableList(values[1..]));
      assert forall y :: y in values <==> y == values[0] || y in values[1..];
    }
  }

  /** There is only one ascending list of given values. */
  lemma {:induction false} AscendingUnique(s: seq<Text>, t: seq<Text>)
    requires Ascending(s) && Ascending(t) && forall y :: y in s <==> y in t
    ensures s == t
    decreases |s|
  {
    FirstIn(t);
    if s != [] {
      FirstIn(s);
      SameHead(s, t);
      forall y | y in s[1..] ensures y in t[1..] { TailMember(s, t, y); }
      forall y | y in t[1..] ensures y in s[1..] { TailMember(t, s, y); }
      AscendingUnique(s[1..], t[1..]);
      assert s == [s[0]] + s[1..] && t == [t[0]] + t[1..];
    }
  }

  lemma FirstIn(s: seq<Text>)
    ensures s != [] ==> s[0] in s
  {
  }

  lemma SameHead(s: seq<Text>, t: seq<Text>)
    requires Ascending(s) && Ascending(t) && s != [] && t != [] && s[0] in t && t[0] in s
    ensures s[0] == t[0]
  {
    var i :| 0 <= i < |t| && t[i] == s[0];
    var j :| 0 <= j < |s| && s[j] == t[0];
    LessTotal(s[0], t[0]);
  }

  lemma TailMember(s: seq<Text>, t: seq<Text>, y: Text)
    requires s != [] && t != [] && s[0] == t[0] && Ascending(s) && y in s[1..] && y in t
    ensures y in t[1..]
  {
    var i :| 1 <= i < |s| && s[i] == y;
    LessTotal(s[0], y);
    var j :| 0 <= j < |t| && t[j] == y;
    assert t[1..][j - 1] == y;
  }

  /** The list depends only on the set of its elements, and any sort would give the same. */
  lemma StableListDependsOnSet(a: seq<Text>, b: seq<Text>)
    requires forall y :: y in a <==> y in b
    ensures StableList(a) == StableList(b)
  {
    StableListSorts(a);
    StableListSorts(b);
    AscendingUnique(StableList(a), StableList(b));
  }

  lemma StableListAgain(values: seq<Text>)
    ensures StableList(StableList(values)) == StableList(values)
  {
    StableListSorts(values);
    StableListDependsOnSet(StableList(values), values);
  }

  // ---------------------------------------------------------------- scalar strings

  predicate High(c: nat) { 0xD800 <= c <= 0xDBFF }

  predicate Low(c: nat) { 0xDC00 <= c <= 0xDFFF }

  predicate Plain(c: nat) { !High(c) && !Low(c) }

  /** What `URLSearchParams` makes of a string: a surrogate that is not half of a pair is replaced. */
  function Scalar(s: Text): (r: Text)
    ensures |r| == |s|
  {
    if s == [] then []
    else if High(s[0]) && |s| > 1 && Low(s[1]) then s[..2] + Scalar(s[2..])
    else [if Plain(s[0]) then s[0] else 0xFFFD] + Scalar(s[1..])
  }

  predicate Paired(s: Text) { Scalar(s) == s }

  lemma {:induction false} ScalarPaired(s: Text)
    ensures Paired(Scalar(s))
    decreases |s|
  {
    if s != [] {
      if High(s[0]) && |s| > 1 && Low(s[1]) {
        ScalarPaired(s[2..]);
        var r := Scalar(s);
        assert r[0] == s[0] && r[1] == s[1] && r[2..] == Scalar(s[2..]) && r[..2] == s[..2];
      } else {
        ScalarPaired(s[1..]);
        assert Scalar(s)[1..] == Scalar(s[1..]);
      }
    }
  }

  /** A unit that is no surrogate separates what comes before it from what comes after. */
  lemma {:induction false} ScalarAround(a: Text, c: nat, b: Text)
    requires Plain(c)
    ensures Scalar(a + [c] + b) == Scalar(a) + [c] + Scalar(b)
    decreases |a|
  {
    var s := a + [c] + b;
    if a == [] {
      assert s[1..] == b;
    } else if High(a[0]) && |a| > 1 && Low(a[1]) {
      ScalarAround(a[2..], c, b);
      assert s[2..] == a[2..] + [c] + b && s[..2] == a[..2];
    } else {
      ScalarAround(a[1..], c, b);
      assert s[1..] == a[1..] + [c] + b;
      assert s[0] == a[0] && (|s| > 1 ==> s[1] == if |a| > 1 then a[1] else c);
    }
  }

  lemma PairedAround(a: Text, c: nat, b: Text)
    requires Plain(c)
    ensures Paired(a + [c] + b) <==> Paired(a) && Paired(b)
  {
    ScalarAround(a, c, b);
    var s, r := a + [c] + b, Scalar(a) + [c] + Scalar(b);
    if r == s {
      assert r[..|a|] == Scalar(a) && s[..|a|] == a;
      assert r[|a| + 1..] == Scalar(b) && s[|a| + 1..] == b;
    }
  }

  // ---------------------------------------------------------------- list parameters

  predicate IsSpace(c: nat) {
    || 9 <= c <= 13 || c in {0x20, 0xA0, 0x1680} || 0x2000 <= c <= 0x200A
    || c in {0x2028, 0x2029, 0x202F, 0x205F, 0x3000, 0xFEFF}
  }

  function TrimStart(s: Text): (r: Text)
    ensures r != [] ==> !IsSpace(r[0])
    ensures |r| <= |s| && r == s[|s| - |r|..]
  {
    if s != [] && IsSpace(s[0]) then TrimStart(s[1..]) else s
  }

  function TrimEnd(s: Text): (r: Text)
    ensures r != [] ==> !IsSpace(r[|r| - 1])
    ensures r <= s
  {
    if s != [] && IsSpace(s[|s| - 1]) then TrimEnd(s[..|s| - 1]) else s
  }

  function Trim(s: Text): Text { TrimEnd(TrimStart(s)) }

  function FirstComma(s: Text): (i: nat)
    ensures i <= |s| && (i < |s| ==> s[i] == COMMA)
    ensures forall k :: 0 <= k < i ==> s[k] != COMMA
  {
    if s == [] || s[0] == COMMA then 0 else 1 + FirstComma(s[1..])
  }

  function SplitCommas(s: Text): seq<Text>
    decreases |s|
  {
    var i := FirstComma(s);
    if i == |s| then [s] else [s[..i]] + SplitCommas(s[i + 1..])
  }

  function JoinCommas(values: seq<Text>): Text {
    if values == [] then [] else if |values| == 1 then values[0] else values[0] + [COMMA] + JoinCommas(values[1..])
  }

  /** `.map(trim).filter(Boolean)`. */
  function TrimmedNonEmpty(parts: seq<Text>): seq<Text> {
    if parts == [] then []
    else
      var rest := TrimmedNonEmpty(parts[1..]);
      if Trim(parts[0]) == [] then rest else [Trim(parts[0])] + rest
  }

  function ListOf(value: Text): seq<Text> { TrimmedNonEmpty(SplitCommas(value)) }

  /** A value that a comma-separated list can carry. */
  predicate Clean(v: Text) { v != [] && Trim(v) == v && COMMA !in v && Paired(v) }

  ghost predicate AllClean(values: seq<Text>) { forall v :: v in values ==> Clean(v) }

  lemma CommaAt(v: Text, rest: Text)
    requires COMMA !in v
    ensures FirstComma(v + [COMMA] + rest) == |v|
  {
    var s := v + [COMMA] + rest;
    assert s[|v|] == COMMA;
    assert forall k :: 0 <= k < |v| ==> s[k] == v[k] && v[k] in v;
  }

  lemma {:induction false} SplitJoined(values: seq<Text>)
    requires values != [] && forall v :: v in values ==> COMMA !in v
    ensures SplitCommas(JoinCommas(values)) == values
  {
    if |values| == 1 {
      var i := FirstComma(values[0]);
      assert values[0] in values;
      assert forall k :: 0 <= k < |values[0]| ==> values[0][k] in values[0];
    } else {
      var v, rest := values[0], JoinCommas(values[1..]);
      assert v in values && forall x :: x in values[1..] ==> x in values;
      CommaAt(v, rest);
      SplitJoined(values[1..]);
      assert JoinCommas(values)[..|v|] == v && JoinCommas(values)[|v| + 1..] == rest;
    }
  }

  lemma {:induction false} CleanStays(values: seq<Text>)
    requires AllClean(values)
    ensures TrimmedNonEmpty(values) == values
  {
    if values != [] {
      CleanTail(values);
      CleanStays(values[1..]);
      assert [values[0]] + values[1..] == values;
      hide Trim, AllClean;
    }
  }

  lemma CleanTail(values: seq<Text>)
    requires AllClean(values) && values != []
    ensures Clean(values[0]) && AllClean(values[1..])
  {
    assert values[0] in values && forall x :: x in values[1..] ==> x in values;
  }

  lemma {:induction false} JoinedPaired(values: seq<Text>)
    requires AllClean(values)
    ensures Paired(JoinCommas(values))
  {
    if values != [] {
      CleanTail(values);
      hide AllClean, Clean, Scalar;
      if |values| > 1 {
        JoinedPaired(values[1..]);
        PairedAround(values[0], COMMA, JoinCommas(values[1..]));
      } else {
        CleanPaired(values[0]);
      }
      CleanPaired(values[0]);
    }
  }

  lemma CleanPaired(v: Text)
    requires Clean(v)
    ensures Paired(v)
  {
  }

  /** Clean values are read back as they were joined. */
  lemma ListReadBack(values: seq<Text>)
    requires values != [] && AllClean(values)
    ensures ListOf(Scalar(JoinCommas(values))) == values
  {
    JoinedPaired(values);
    SplitJoined(values);
    CleanStays(values);
    hide AllClean;
  }

  lemma {:induction false} SplitCommaFree(s: Text)
    requires Paired(s)
    ensures forall p :: p in SplitCommas(s) ==> COMMA !in p && Paired(p)
    decreases |s|
  {
    var i := FirstComma(s);
    assert COMMA !in s[..i];
    hide Scalar;
    if i < |s| {
      assert s == s[..i] + [COMMA] + s[i + 1..];
      PairedAround(s[..i], COMMA, s[i + 1..]);
      SplitCommaFree(s[i + 1..]);
    } else {
      assert s[..i] == s;
    }
  }

  lemma {:induction false} TrimStartPaired(s: Text)
    requires Paired(s)
    ensures Paired(TrimStart(s))
  {
    if s != [] && IsSpace(s[0]) {
      assert s == [] + [s[0]] + s[1..];
      PairedAround([], s[0], s[1..]);
      hide Scalar;
      TrimStartPaired(s[1..]);
    }
  }

  lemma {:induction false} TrimEndPaired(s: Text)
    requires Paired(s)
    ensures Paired(TrimEnd(s))
  {
    var n := |s| - 1;
    if s != [] && IsSpace(s[n]) {
      assert s == s[..n] + [s[n]] + [];
      PairedAround(s[..n], s[n], []);
      hide Scalar;
      TrimEndPaired(s[..n]);
    }
  }

  lemma TrimIsClean(p: Text)
    requires COMMA !in p && Paired(p) && Trim(p) != []
    ensures Clean(Trim(p))
  {
    TrimStartPaired(p);
    TrimEndPaired(TrimStart(p));
    hide Scalar;
    var a := TrimStart(p);
    var b := TrimEnd(a);
    assert b[0] == a[0];
    assert forall x :: x in b ==> x in a;
    assert forall x :: x in a ==> x in p;
    assert TrimStart(b) == b;
  }

  lemma {:induction false} TrimmedClean(parts: seq<Text>)
    requires forall p :: p in parts ==> COMMA !in p && Paired(p)
    ensures AllClean(TrimmedNonEmpty(parts))
  {
    hide Scalar;
    if parts != [] {
      assert parts[0] in parts && forall x :: x in parts[1..] ==> x in parts;
      TrimmedClean(parts[1..]);
      if Trim(parts[0]) != [] { TrimIsClean(parts[0]); }
    }
  }

  /** Whatever a parameter holds, only clean values are read from it. */
  lemma OnlyCleanRead(value: Text)
    requires Paired(value)
    ensures AllClean(ListOf(value))
  {
    hide Scalar;
    SplitCommaFree(value);
    TrimmedClean(SplitCommas(value));
  }

  // ---------------------------------------------------------------- parameters and states

  type Params = seq<(string, Text)>

  datatype ViewMode = Sessions | Statuses | Profiles

  datatype HomeFilter = All | Active | WaitingAgents | OwnerGate | CancelledAgents | CompletedAgents

  datatype State = State(
    view: ViewMode, providerStatuses: seq<Text>, workflowStates: seq<Text>, profiles: seq<Text>,
    homeFilter: Option<HomeFilter>)

  const KEYS := ["agentView", "providerStatus", "workflowState", "agentProfile", "agentFilter"]

  function Get(ps: Params, name: string): Option<Text> {
    if ps == [] then None else if ps[0].0 == name then Some(ps[0].1) else Get(ps[1..], name)
  }

  function Delete(ps: Params, name: string): Params {
    if ps == [] then [] else if ps[0].0 == name then Delete(ps[1..], name) else [ps[0]] + Delete(ps[1..], name)
  }

  /** `set`: the first pair with the name takes the value and the others go; without one it is appended. */
  function Set(ps: Params, name: string, value: Text): Params {
    if ps == [] then [(name, value)]
    else if ps[0].0 == name then [(name, value)] + Delete(ps[1..], name)
    else [ps[0]] + Set(ps[1..], name, value)
  }

  function ViewText(v: ViewMode): Text {
    match v
    case Sessions => Ascii("sessions")
    case Statuses => Ascii("statuses")
    case Profiles => Ascii("profiles")
  }

  function HomeText(f: HomeFilter): Text {
    match f
    case All => Ascii("all")
    case Active => Ascii("active")
    case WaitingAgents => Ascii("waiting")
    case OwnerGate => Ascii("owner_gate")
    case CancelledAgents => Ascii("cancelled")
    case CompletedAgents => Ascii("completed")
  }

  function ViewOf(t: Option<Text>): ViewMode {
    if t == Some(ViewText(Statuses)) then Statuses else if t == Some(ViewText(Profiles)) then Profiles else Sessions
  }

  function HomeOf(t: Option<Text>): Option<HomeFilter> {
    if t == Some(HomeText(All)) then Some(All)
    else if t == Some(HomeText(Active)) then Some(Active)
    else if t == Some(HomeText(WaitingAgents)) then Some(WaitingAgents)
    else if t == Some(HomeText(OwnerGate)) then Some(OwnerGate)
    else if t == Some(HomeText(CancelledAgents)) then Some(CancelledAgents)
    else if t == Some(HomeText(CompletedAgents)) then Some(CompletedAgents)
    else None
  }

  function ListParam(ps: Params, name: string): seq<Text> {
    var value := Get(ps, name);
    if value.None? then [] else ListOf(value.value)
  }

  function Parse(ps: Params): State {
    State(ViewOf(Get(ps, "agentView")), StableList(ListParam(ps, "providerStatus")),
          StableList(ListParam(ps, "workflowState")), StableList(ListParam(ps, "agentProfile")),
          HomeOf(Get(ps, "agentFilter")))
  }

  function WithoutKeys(ps: Params, keys: seq<string>): Params {
    if ps == [] then []
    else if ps[0].0 in keys then WithoutKeys(ps[1..], keys)
    else [ps[0]] + WithoutKeys(ps[1..], keys)
  }

  function Unrelated(ps: Params): Params { WithoutKeys(ps, KEYS) }

  function OwnList(name: string, values: seq<Text>): Params {
    if values == [] then [] else [(name, Scalar(JoinCommas(StableList(values))))]
  }

  /** The parameters a state adds, in the order it adds them. */
  function Own(s: State): Params {
    (if s.view == Sessions then [] else [("agentView", ViewText(s.view))])
    + OwnList("providerStatus", s.providerStatuses)
    + OwnList("workflowState", s.workflowStates)
    + OwnList("agentProfile", s.profiles)
    + (if s.homeFilter.None? then [] else [("agentFilter", HomeText(s.homeFilter.value))])
  }

  function Normal(s: State): State {
    s.(providerStatuses := StableList(s.providerStatuses), workflowStates := StableList(s.workflowStates),
       profiles := StableList(s.profiles))
  }

  // ---------------------------------------------------------------- writing a state

  ghost predicate Absent(ps: Params, name: string) { forall i :: 0 <= i < |ps| ==> ps[i].0 != name }

  lemma {:induction false} DeleteOneMore(ps: Params, keys: seq<string>, name: string)
    ensures Delete(WithoutKeys(ps, keys), name) == WithoutKeys(ps, keys + [name])
  {
    if ps != [] { DeleteOneMore(ps[1..], keys, name); }
  }

  lemma {:induction false} WithoutKeysAbsent(ps: Params, keys: seq<string>)
    ensures forall i :: 0 <= i < |WithoutKeys(ps, keys)| ==> WithoutKeys(ps, keys)[i].0 !in keys
  {
    if ps != [] { WithoutKeysAbsent(ps[1..], keys); }
  }

  lemma {:induction false} SetAppends(ps: Params, name: string, value: Text)
    requires Absent(ps, name)
    ensures Set(ps, name, value) == ps + [(name, value)]
  {
    if ps != [] {
      assert ps[0].0 != name;
      assert forall i :: 0 <= i < |ps[1..]| ==> ps[1..][i] == ps[i + 1];
      SetAppends(ps[1..], name, value);
    }
  }

  /** `applyAgentFilterState`: a copy loses the five keys, then gets the state's own. */
  method Apply(params: Params, state: State) returns (next: Params)
    ensures next == Unrelated(params) + Own(state)
  {
    next := params;
    var k := 0;
    WithoutNothing(params);
    while k < |KEYS|
      invariant 0 <= k <= |KEYS|
      invariant next == WithoutKeys(params, KEYS[..k])
    {
      DeleteOneMore(params, KEYS[..k], KEYS[k]);
      assert KEYS[..k] + [KEYS[k]] == KEYS[..k + 1];
      next := Delete(next, KEYS[k]);
      k := k + 1;
    }
    assert KEYS[..k] == KEYS;
    WithoutKeysAbsent(params, KEYS);
    next := SetOwn(next, state);
  }

  lemma {:induction false} WithoutNothing(ps: Params)
    ensures WithoutKeys(ps, []) == ps
  {
    if ps != [] { WithoutNothing(ps[1..]); }
  }

  method SetList(params: Params, name: string, values: seq<Text>) returns (next: Params)
    requires Absent(params, name)
    ensures next == params + OwnList(name, values)
  {
    if values == [] { return params; }
    hide Scalar;
    SetAppends(params, name, Scalar(JoinCommas(StableList(values))));
    return Set(params, name, Scalar(JoinCommas(StableList(values))));
  }

  method SetOne(params: Params, name: string, value: Option<Text>) returns (next: Params)
    requires Absent(params, name)
    ensures next == params + if value.None? then [] else [(name, value.value)]
  {
    if value.None? { return params; }
    SetAppends(params, name, value.value);
    return Set(params, name, value.value);
  }

  method SetOwn(params: Params, state: State) returns (next: Params)
    requires forall i :: 0 <= i < |params| ==> params[i].0 !in KEYS
    ensures next == params + Own(state)
  {
    hide Set, StableList, JoinCommas, Scalar, ViewText, HomeText;
    KeysDiffer();
    KeysAreKeys();
    next := SetOne(params, "agentView", if state.view == Sessions then None else Some(ViewText(state.view)));
    next := SetList(next, "providerStatus", state.providerStatuses);
    next := SetList(next, "workflowState", state.workflowStates);
    next := SetList(next, "agentProfile", state.profiles);
    next := SetOne(next, "agentFilter", if state.homeFilter.None? then None else Some(HomeText(state.homeFilter.value)));
  }

  /** The result of applying, as a value. */
  function Applied(ps: Params, s: State): Params { Unrelated(ps) + Own(s) }

  // ---------------------------------------------------------------- what applying keeps

  lemma {:induction false} WithoutKeysConcat(ps: Params, qs: Params, keys: seq<string>)
    ensures WithoutKeys(ps + qs, keys) == WithoutKeys(ps, keys) + WithoutKeys(qs, keys)
  {
    if ps == [] {
      assert ps + qs == qs;
    } else {
      assert (ps + qs)[1..] == ps[1..] + qs;
      WithoutKeysConcat(ps[1..], qs, keys);
    }
  }

  lemma {:induction false} WithoutKeysTwice(ps: Params, keys: seq<string>)
    ensures WithoutKeys(WithoutKeys(ps, keys), keys) == WithoutKeys(ps, keys)
  {
    if ps != [] { WithoutKeysTwice(ps[1..], keys); }
  }

  lemma {:induction false} OnlyKeysGone(ps: Params, keys: seq<string>)
    requires forall i :: 0 <= i < |ps| ==> ps[i].0 in keys
    ensures WithoutKeys(ps, keys) == []
  {
    if ps != [] {
      assert forall i :: 0 <= i < |ps[1..]| ==> ps[1..][i] == ps[i + 1];
      OnlyKeysGone(ps[1..], keys);
    }
  }

  /** Parameters the filters do not own keep their values and their order. */
  lemma UnrelatedKept(ps: Params, s: State)
    ensures Unrelated(Applied(ps, s)) == Unrelated(ps)
  {
    WithoutKeysConcat(Unrelated(ps), Own(s), KEYS);
    WithoutKeysTwice(ps, KEYS);
    OwnKeys(s);
    OnlyKeysGone(Own(s), KEYS);
    hide Own, WithoutKeys;
  }

  lemma OwnKeys(s: State)
    ensures forall i :: 0 <= i < |Own(s)| ==> Own(s)[i].0 in KEYS
  {
    hide JoinCommas, StableList, Scalar, ViewText, HomeText;
    assert KEYS[0] in KEYS && KEYS[1] in KEYS && KEYS[2] in KEYS && KEYS[3] in KEYS && KEYS[4] in KEYS;
  }

  /** A later state overrides an earlier one completely. */
  lemma LaterApplyWins(ps: Params, first: State, second: State)
    ensures Applied(Applied(ps, first), second) == Applied(ps, second)
  {
    UnrelatedKept(ps, first);
  }

  // ---------------------------------------------------------------- reading a state back

  lemma {:induction false} GetConcat(ps: Params, qs: Params, name: string)
    ensures Get(ps + qs, name) == if Get(ps, name).Some? then Get(ps, name) else Get(qs, name)
  {
    if ps == [] {
      assert ps + qs == qs;
    } else {
      assert (ps + qs)[1..] == ps[1..] + qs;
      GetConcat(ps[1..], qs, name);
    }
  }

  lemma {:induction false} GetAbsent(ps: Params, name: string)
    requires Absent(ps, name)
    ensures Get(ps, name).None?
  {
    if ps != [] {
      assert forall i :: 0 <= i < |ps[1..]| ==> ps[1..][i] == ps[i + 1];
      GetAbsent(ps[1..], name);
    }
  }

  function ListText(values: seq<Text>): Option<Text> {
    if values == [] then None else Some(Scalar(JoinCommas(StableList(values))))
  }

  /** What each key reads after a state was written. */
  lemma OwnValues(s: State)
    ensures Get(Own(s), "agentView") == if s.view == Sessions then None else Some(ViewText(s.view))
    ensures Get(Own(s), "providerStatus") == ListText(s.providerStatuses)
    ensures Get(Own(s), "workflowState") == ListText(s.workflowStates)
    ensures Get(Own(s), "agentProfile") == ListText(s.profiles)
    ensures Get(Own(s), "agentFilter") == if s.homeFilter.None? then None else Some(HomeText(s.homeFilter.value))
  {
    hide JoinCommas, StableList, Scalar, ViewText, HomeText;
    var a := if s.view == Sessions then [] else [("agentView", ViewText(s.view))];
    var b, c, d := OwnList("providerStatus", s.providerStatuses), OwnList("workflowState", s.workflowStates), OwnList("agentProfile", s.profiles);
    var e := if s.homeFilter.None? then [] else [("agentFilter", HomeText(s.homeFilter.value))];
    KeysDiffer();
    FirstOf(a, b, c, d, e, "agentView");
    FirstOf(a, b, c, d, e, "providerStatus");
    FirstOf(a, b, c, d, e, "workflowState");
    FirstOf(a, b, c, d, e, "agentProfile");
    FirstOf(a, b, c, d, e, "agentFilter");
  }

  lemma KeysAreKeys()
    ensures "agentView" in KEYS && "providerStatus" in KEYS && "workflowState" in KEYS
    ensures "agentProfile" in KEYS && "agentFilter" in KEYS
  {
    assert KEYS[0] in KEYS && KEYS[1] in KEYS && KEYS[2] in KEYS && KEYS[3] in KEYS && KEYS[4] in KEYS;
  }

  lemma KeysDiffer()
    ensures Distinct(["agentView", "providerStatus", "workflowState", "agentProfile", "agentFilter"])
    ensures "agentView" != "providerStatus" && "agentView" != "workflowState" && "agentView" != "agentProfile"
    ensures "agentView" != "agentFilter" && "providerStatus" != "workflowState" && "providerStatus" != "agentProfile"
    ensures "providerStatus" != "agentFilter" && "workflowState" != "agentProfile"
    ensures "workflowState" != "agentFilter" && "agentProfile" != "agentFilter"
  {
    assert |"agentView"| == 9 && |"providerStatus"| == 14 && |"workflowState"| == 13;
    assert |"agentProfile"| == 12 && |"agentFilter"| == 11;
  }

  lemma FirstOf(a: Params, b: Params, c: Params, d: Params, e: Params, name: string)
    ensures Get(a + b + c + d + e, name)
      == if Get(a, name).Some? then Get(a, name) else if Get(b, name).Some? then Get(b, name)
         else if Get(c, name).Some? then Get(c, name) else if Get(d, name).Some? then Get(d, name) else Get(e, name)
  {
    GetConcat(a + b + c + d, e, name);
    GetConcat(a + b + c, d, name);
    GetConcat(a + b, c, name);
    GetConcat(a, b, name);
  }

  lemma AppliedValue(ps: Params, s: State, name: string)
    requires name in KEYS
    ensures Get(Applied(ps, s), name) == Get(Own(s), name)
  {
    WithoutKeysAbsent(ps, KEYS);
    GetAbsent(Unrelated(ps), name);
    GetConcat(Unrelated(ps), Own(s), name);
  }

  lemma TextsDiffer()
    ensures ViewText(Statuses) != ViewText(Profiles)
    ensures forall f, g :: HomeText(f) == HomeText(g) ==> f == g
  {
    assert ViewText(Statuses)[0] == 's' as nat && ViewText(Profiles)[0] == 'p' as nat;
    assert |HomeText(All)| == 3 && |HomeText(Active)| == 6 && |HomeText(WaitingAgents)| == 7;
    assert |HomeText(OwnerGate)| == 10 && |HomeText(CancelledAgents)| == 9 && |HomeText(CompletedAgents)| == 9;
    assert HomeText(CancelledAgents)[1] == 'a' as nat && HomeText(CompletedAgents)[1] == 'o' as nat;
  }

  ghost predicate CleanState(s: State) {
    AllClean(s.providerStatuses) && AllClean(s.workflowStates) && AllClean(s.profiles)
  }

  /** A written list is read back as its stable form if and only if all its values are clean. */
  lemma ListExactly(values: seq<Text>)
    ensures StableList(if values == [] then [] else ListOf(Scalar(JoinCommas(StableList(values))))) == StableList(values)
       <==> AllClean(values)
  {
    StableListSorts(values);
    if values != [] {
      assert values[0] in StableList(values);
      var back := ListOf(Scalar(JoinCommas(StableList(values))));
      if AllClean(values) {
        ListReadBack(StableList(values));
        StableListAgain(values);
      } else {
        ScalarPaired(JoinCommas(StableList(values)));
        OnlyCleanRead(Scalar(JoinCommas(StableList(values))));
        StableListSorts(back);
        var v :| v in values && !Clean(v);
        assert v !in back;
      }
    }
  }

  /** What is read for one list. */
  function ReadList(values: seq<Text>): seq<Text> {
    StableList(if values == [] then [] else ListOf(Scalar(JoinCommas(StableList(values)))))
  }

  lemma ViewReadBack(v: ViewMode)
    ensures ViewOf(if v == Sessions then None else Some(ViewText(v))) == v
  {
    TextsDiffer();
    hide ViewText;
  }

  lemma HomeReadBack(f: Option<HomeFilter>)
    ensures HomeOf(if f.None? then None else Some(HomeText(f.value))) == f
  {
    TextsDiffer();
    hide HomeText;
  }

  lemma ListParamReadBack(ps: Params, name: string, values: seq<Text>)
    requires Get(ps, name) == ListText(values)
    ensures StableList(ListParam(ps, name)) == ReadList(values)
  {
    hide StableList, ListOf, JoinCommas, Scalar, Get;
  }

  lemma FieldsReadBack(ps: Params, s: State)
    ensures Parse(Applied(ps, s))
         == State(s.view, ReadList(s.providerStatuses), ReadList(s.workflowStates), ReadList(s.profiles), s.homeFilter)
  {
    OwnValues(s);
    KeysAreKeys();
    var read := Applied(ps, s);
    AppliedValue(ps, s, "agentView");
    AppliedValue(ps, s, "providerStatus");
    AppliedValue(ps, s, "workflowState");
    AppliedValue(ps, s, "agentProfile");
    AppliedValue(ps, s, "agentFilter");
    ViewReadBack(s.view);
    HomeReadBack(s.homeFilter);
    hide Applied, Own, Scalar, StableList, ListOf, JoinCommas, ViewText, HomeText, Get, ViewOf, HomeOf, ReadList, ListText, ListParam;
    ListParamReadBack(read, "providerStatus", s.providerStatuses);
    ListParamReadBack(read, "workflowState", s.workflowStates);
    ListParamReadBack(read, "agentProfile", s.profiles);
  }

  /** Reading what was written for a state gives the state with each list sorted and without
      repetition, if and only if all its list values are trimmed, not empty, free of commas and made of
      paired surrogates. */
  lemma ReadBackExactly(ps: Params, s: State)
    ensures Parse(Applied(ps, s)) == Normal(s) <==> CleanState(s)
  {
    FieldsReadBack(ps, s);
    ListExactly(s.providerStatuses);
    ListExactly(s.workflowStates);
    ListExactly(s.profiles);
    hide Applied, Parse, StableList, ListOf, JoinCommas, Scalar, AllClean;
  }
}
