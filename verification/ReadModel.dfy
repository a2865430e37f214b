/** The progressively loaded list of the web interface: requests tagged with a generation, state that
    is set when they complete, and references that follow the state only when it is committed. */
module ReadModel {
  import opened Common

  type Id = string
  type Ticket = nat

  datatype Mode = Initial | Append | Refresh

  datatype Page = Page(items: seq<Id>, total: nat, nextOffset: Option<nat>)

  datatype Pending = Pending(generation: nat, mode: Mode, offset: nat, limit: nat, page: Page)

  datatype Config = Config(pageSize: nat, maxItems: nat)

  /** `list` is what the server holds for the current key.  `nextOffsetRef` and `itemsRefLength` are the
      references; `error` is left out, because its setter is not fenced by the generation. */
  datatype View = View(
    list: seq<Id>, enabled: bool,
    items: seq<Id>, total: nat, nextOffset: Option<nat>, loading: bool, latestPage: Option<Page>,
    generation: nat, inFlight: bool, nextOffsetRef: Option<nat>, itemsRefLength: nat,
    pending: map<Ticket, Pending>, nextTicket: Ticket)

  function Min(a: nat, b: nat): nat { if a < b then a else b }

  function Max(a: nat, b: nat): nat { if a < b then b else a }

  /** The server's page: a slice, the size of the whole, and where to go on. */
  function PageOf(list: seq<Id>, offset: nat, limit: nat): Page {
    var from := Min(offset, |list|);
    var items := list[from..Min(from + limit, |list|)];
    Page(items, |list|, if offset + |items| < |list| then Some(offset + |items|) else None)
  }

  function Unknown(page: seq<Id>, known: seq<Id>): (r: seq<Id>)
    ensures forall x :: x in r <==> x in page && x !in known
    ensures Distinct(page) ==> Distinct(r)
  {
    if page == [] then []
    else
      var rest := Unknown(page[1..], known);
      assert forall x :: x in page[1..] ==> x in page;
      assert Distinct(page) ==> Distinct(page[1..]) && page[0] !in page[1..];
      if page[0] in known then rest else [page[0]] + rest
  }

  datatype Event =
    | Request(mode: Mode)
    | Complete(t: Ticket)
    | Fail(t: Ticket)
    | ChangeKey(list: seq<Id>, enabled: bool)
    | Commit

  predicate Starts(v: View, mode: Mode) {
    !v.inFlight && v.enabled && (mode == Append ==> v.nextOffsetRef.Some?)
  }

  function StartRequest(c: Config, v: View, mode: Mode): View {
    if !Starts(v, mode) then v
    else
      var offset := if mode == Append then v.nextOffsetRef.value else 0;
      var limit := if mode == Refresh then Min(c.maxItems, Max(c.pageSize, v.itemsRefLength)) else c.pageSize;
      v.(inFlight := true, loading := v.loading || mode != Refresh,
         pending := v.pending[v.nextTicket := Pending(v.generation, mode, offset, limit, PageOf(v.list, offset, limit))],
         nextTicket := v.nextTicket + 1)
  }

  /** What a completion of the current generation makes of the list. */
  function Loaded(c: Config, items: seq<Id>, p: Pending): seq<Id> {
    if p.mode == Append then Take(items + Unknown(p.page.items, items), c.maxItems) else Take(p.page.items, c.maxItems)
  }

  function CompleteRequest(c: Config, v: View, t: Ticket): View {
    if t !in v.pending then v
    else
      var p := v.pending[t];
      var rest := v.(pending := v.pending - {t});
      if p.generation != v.generation then rest
      else rest.(
        items := Loaded(c, v.items, p), total := p.page.total, latestPage := Some(p.page),
        nextOffset := if p.offset + |p.page.items| >= c.maxItems then None else p.page.nextOffset,
        loading := false, inFlight := false)
  }

  function FailRequest(v: View, t: Ticket): View {
    if t !in v.pending then v
    else
      var rest := v.(pending := v.pending - {t});
      if v.pending[t].generation != v.generation then rest else rest.(loading := false, inFlight := false)
  }

  /** The effect for a new key starts a new generation and resets everything; a first request follows. */
  function Reset(v: View, list: seq<Id>, enabled: bool): View {
    v.(list := list, enabled := enabled, items := [], total := 0, nextOffset := None, loading := enabled,
       generation := v.generation + 1, inFlight := false, nextOffsetRef := None)
  }

  function Step(c: Config, v: View, e: Event): View {
    match e
    case Request(mode) => StartRequest(c, v, mode)
    case Complete(t) => CompleteRequest(c, v, t)
    case Fail(t) => FailRequest(v, t)
    case ChangeKey(list, enabled) => StartRequest(c, Reset(v, list, enabled), Initial)
    case Commit => v.(nextOffsetRef := v.nextOffset, itemsRefLength := |v.items|)
  }

  const Blank := View([], false, [], 0, None, true, None, 0, false, None, 0, map[], 0)

  function Run(c: Config, v: View, es: seq<Event>): View
    decreases |es|
  {
    if es == [] then v else Run(c, Step(c, v, es[0]), es[1..])
  }

  // ---------------------------------------------------------------- the hook's own object

  class ProgressiveList {
    const pageSize: nat
    const maxItems: nat
    var list: seq<Id>
    var enabled: bool
    var items: seq<Id>
    var total: nat
    var nextOffset: Option<nat>
    var loading: bool
    var latestPage: Option<Page>
    var generation: nat
    var inFlight: bool
    var nextOffsetRef: Option<nat>
    var itemsRefLength: nat
    var pending: map<Ticket, Pending>
    var nextTicket: Ticket

    constructor (pageSize: nat, maxItems: nat)
      ensures State() == Blank && Limits() == Config(pageSize, maxItems)
    {
      this.pageSize, this.maxItems, list, enabled := pageSize, maxItems, [], false;
      items, total, nextOffset, loading, latestPage := [], 0, None, true, None;
      generation, inFlight, nextOffsetRef, itemsRefLength, pending, nextTicket := 0, false, None, 0, map[], 0;
    }

    function State(): View
      reads this
    {
      View(list, enabled, items, total, nextOffset, loading, latestPage, generation, inFlight, nextOffsetRef,
           itemsRefLength, pending, nextTicket)
    }

    function Limits(): Config { Config(pageSize, maxItems) }

    /** `request` up to its await; the ticket stands for the pending fetch. */
    method RequestPage(mode: Mode) returns (t: Option<Ticket>)
      modifies this
      ensures State() == Step(Limits(), old(State()), Request(mode))
      ensures t == if Starts(old(State()), mode) then Some(old(nextTicket)) else None
    {
      if inFlight || !enabled { return None; }
      var offset := 0;
      if mode == Append {
        if nextOffsetRef.None? { return None; }
        offset := nextOffsetRef.value;
      }
      var limit := if mode == Refresh then Min(maxItems, Max(pageSize, itemsRefLength)) else pageSize;
      inFlight := true;
      if mode != Refresh { loading := true; }
      t := Some(nextTicket);
      pending := pending[nextTicket := Pending(generation, mode, offset, limit, PageOf(list, offset, limit))];
      nextTicket := nextTicket + 1;
    }

    /** The setters of a completion that is still current. */
    method ShowPage(p: Pending)
      modifies `items, `total, `latestPage, `nextOffset, `loading, `inFlight
      ensures items == Loaded(Limits(), old(items), p) && total == p.page.total && latestPage == Some(p.page)
      ensures nextOffset == if p.offset + |p.page.items| >= maxItems then None else p.page.nextOffset
      ensures !loading && !inFlight
    {
      hide Unknown, Take;
      total, latestPage := p.page.total, Some(p.page);
      if p.mode == Append {
        items := Take(items + Unknown(p.page.items, items), maxItems);
      } else {
        items := Take(p.page.items, maxItems);
      }
      nextOffset := if p.offset + |p.page.items| >= maxItems then None else p.page.nextOffset;
      loading, inFlight := false, false;
    }

    /** The rest of `request` when the fetch succeeds. */
    method CompletePage(t: Ticket)
      requires t in pending
      modifies this
      ensures State() == Step(Limits(), old(State()), Complete(t))
    {
      hide Loaded, StartRequest, Reset, FailRequest, Starts;
      var p := pending[t];
      pending := pending - {t};
      if p.generation == generation { ShowPage(p); }
    }

    /** The rest of `request` when the fetch fails or is aborted. */
    method FailPage(t: Ticket)
      requires t in pending
      modifies `pending, `loading, `inFlight
      ensures State() == Step(Limits(), old(State()), Fail(t))
    {
      if pending[t].generation == generation { loading, inFlight := false, false; }
      pending := pending - {t};
    }

    /** The two effects that run when the state is committed. */
    method CommitReferences()
      modifies `nextOffsetRef, `itemsRefLength
      ensures State() == Step(Limits(), old(State()), Commit)
    {
      nextOffsetRef := nextOffset;
      itemsRefLength := |items|;
    }

    method ClearShown(nowEnabled: bool)
      modifies `items, `total, `nextOffset, `loading
      ensures items == [] && total == 0 && nextOffset == None && loading == nowEnabled
    {
      items, total, nextOffset, loading := [], 0, None, nowEnabled;
    }

    method ResetTo(newList: seq<Id>, nowEnabled: bool)
      modifies this
      ensures State() == Reset(old(State()), newList, nowEnabled)
    {
      generation := generation + 1;
      inFlight, nextOffsetRef := false, None;
      ClearShown(nowEnabled);
      list, enabled := newList, nowEnabled;
    }

    /** The effect that runs for a new key. */
    method ChangeTo(newList: seq<Id>, nowEnabled: bool)
      modifies this
      ensures State() == Step(Limits(), old(State()), ChangeKey(newList, nowEnabled))
    {
      hide CompleteRequest, FailRequest, PageOf;
      ResetTo(newList, nowEnabled);
      if nowEnabled { var t := RequestPage(Initial); }
    }
  }

  // ---------------------------------------------------------------- every interleaving

  ghost predicate Part(items: seq<Id>, list: seq<Id>) {
    Distinct(items) && forall x :: x in items ==> x in list
  }

  /** Only `t` may be pending for the current generation, and its page is the server's. */
  ghost predicate Tagged(v: View) {
    && (forall t :: t in v.pending ==> t < v.nextTicket && v.pending[t].generation <= v.generation)
    && (forall t :: t in v.pending && v.pending[t].generation == v.generation ==>
          && v.inFlight && v.pending[t].page.total == |v.list|
          && Part(v.pending[t].page.items, v.list))
    && (forall t, u :: t in v.pending && u in v.pending && v.pending[t].generation == v.generation == v.pending[u].generation ==>
          t == u)
  }

  ghost predicate Sound(c: Config, v: View) {
    Distinct(v.list) && Part(v.items, v.list) && |v.items| <= c.maxItems && Tagged(v)
  }

  lemma PageIsPart(list: seq<Id>, offset: nat, limit: nat)
    requires Distinct(list)
    ensures Part(PageOf(list, offset, limit).items, list) && PageOf(list, offset, limit).total == |list|
  {
  }

  lemma LoadedIsPart(c: Config, v: View, p: Pending)
    requires Part(v.items, v.list) && Part(p.page.items, v.list)
    ensures Part(Loaded(c, v.items, p), v.list) && |Loaded(c, v.items, p)| <= c.maxItems
  {
    DistinctConcat(v.items, Unknown(p.page.items, v.items));
  }

  lemma DistinctConcat(a: seq<Id>, b: seq<Id>)
    requires Distinct(a) && Distinct(b) && forall x :: x in b ==> x !in a
    ensures Distinct(a + b)
  {
    var s := a + b;
    forall i, j | 0 <= i < j < |s| ensures s[i] != s[j] {
      if j >= |a| { assert s[j] == b[j - |a|] && s[j] in b; }
      if i >= |a| { assert s[i] == b[i - |a|]; } else { assert s[i] in a; }
    }
  }

  lemma SoundStart(c: Config, v: View, mode: Mode)
    requires Sound(c, v)
    requires forall t :: t in v.pending && v.pending[t].generation == v.generation ==> v.inFlight
    ensures Sound(c, StartRequest(c, v, mode))
  {
    if Starts(v, mode) {
      var offset := if mode == Append then v.nextOffsetRef.value else 0;
      var limit := if mode == Refresh then Min(c.maxItems, Max(c.pageSize, v.itemsRefLength)) else c.pageSize;
      PageIsPart(v.list, offset, limit);
      hide PageOf, Part, Distinct;
    }
  }

  lemma SoundStep(c: Config, v: View, e: Event)
    requires Sound(c, v) && (e.ChangeKey? ==> Distinct(e.list))
    ensures Sound(c, Step(c, v, e))
  {
    match e {
      case Request(mode) => SoundStart(c, v, mode);
      case ChangeKey(list, enabled) =>
        SoundStart(c, Reset(v, list, enabled), Initial);
      case Complete(t) =>
        if t in v.pending && v.pending[t].generation == v.generation { LoadedIsPart(c, v, v.pending[t]); }
        hide Loaded, Part, Distinct;
      case _ =>
    }
  }

  ghost predicate DistinctLists(es: seq<Event>) {
    forall e :: e in es && e.ChangeKey? ==> Distinct(e.list)
  }

  /** For every interleaving: the list shows no duplicate, nothing that the current key's list does not
      hold, and never more than its limit; and at most one request of the current generation is
      pending. */
  lemma {:induction false} SoundAlways(c: Config, v: View, es: seq<Event>)
    requires Sound(c, v) && DistinctLists(es)
    ensures Sound(c, Run(c, v, es))
    decreases |es|
  {
    if es != [] {
      assert es[0] in es;
      assert forall e :: e in es[1..] ==> e in es;
      SoundStep(c, v, es[0]);
      SoundAlways(c, Step(c, v, es[0]), es[1..]);
    }
  }

  lemma BlankSound(c: Config)
    ensures Sound(c, Blank)
  {
  }

  lemma StaleStep(c: Config, v: View, t: Ticket)
    requires t in v.pending && v.pending[t].generation != v.generation
    ensures Step(c, v, Complete(t)) == v.(pending := v.pending - {t}) == Step(c, v, Fail(t))
  {
  }

  /** `w` is `v` without the fetch `t`, which is stale. */
  ghost predicate WithoutStale(v: View, w: View, t: Ticket) {
    && w == v.(pending := v.pending - {t}) && t < v.nextTicket
    && (t in v.pending ==> v.pending[t].generation < v.generation)
  }

  predicate Ends(e: Event, t: Ticket) { e == Complete(t) || e == Fail(t) }

  function WithoutEnding(es: seq<Event>, t: Ticket): seq<Event> {
    if es == [] then []
    else if Ends(es[0], t) then WithoutEnding(es[1..], t)
    else [es[0]] + WithoutEnding(es[1..], t)
  }

  lemma WithoutStaleStarts(c: Config, v: View, w: View, t: Ticket, mode: Mode)
    requires WithoutStale(v, w, t)
    ensures WithoutStale(StartRequest(c, v, mode), StartRequest(c, w, mode), t)
  {
    hide PageOf;
    if Starts(v, mode) {
      var x, y := StartRequest(c, v, mode), StartRequest(c, w, mode);
      assert y.pending == x.pending - {t};
    }
  }

  lemma WithoutStaleStep(c: Config, v: View, w: View, t: Ticket, e: Event)
    requires WithoutStale(v, w, t) && !Ends(e, t)
    ensures WithoutStale(Step(c, v, e), Step(c, w, e), t)
  {
    match e {
      case Request(mode) => WithoutStaleStarts(c, v, w, t, mode);
      case ChangeKey(list, enabled) =>
        WithoutStaleStarts(c, Reset(v, list, enabled), Reset(w, list, enabled), t, Initial);
      case Complete(u) => assert v.pending - {t} - {u} == v.pending - {u} - {t};
      case Fail(u) => assert v.pending - {t} - {u} == v.pending - {u} - {t};
      case Commit =>
    }
    hide StartRequest, Loaded, PageOf;
  }

  /** A fetch that a new key has made stale never shows anything: whenever it completes or fails, every
      later run shows what it would have shown without that fetch. */
  lemma {:induction false} StaleChangesNothing(c: Config, v: View, w: View, es: seq<Event>, t: Ticket)
    requires WithoutStale(v, w, t)
    ensures WithoutStale(Run(c, v, es), Run(c, w, WithoutEnding(es, t)), t)
    decreases |es|
  {
    if es != [] {
      var e := es[0];
      if Ends(e, t) {
        if t in v.pending { StaleStep(c, v, t); }
        var next := Step(c, v, e);
        assert WithoutStale(next, w, t) by {
          assert v.pending - {t} - {t} == v.pending - {t};
        }
        hide Step;
        StaleChangesNothing(c, next, w, es[1..], t);
      } else {
        WithoutStaleStep(c, v, w, t, e);
        hide Step;
        StaleChangesNothing(c, Step(c, v, e), Step(c, w, e), es[1..], t);
        assert WithoutEnding(es, t)[1..] == WithoutEnding(es[1..], t);
      }
    }
  }

  // ---------------------------------------------------------------- the list is a prefix

  /** What a caller can check before asking for more: the offset it would start from is not beyond the
      list that is shown. */
  predicate Careful(v: View, e: Event) {
    e == Request(Append) && Starts(v, Append) ==> v.nextOffsetRef.value <= |v.items|
  }

  predicate CarefulRun(c: Config, v: View, es: seq<Event>)
    decreases |es|
  {
    es == [] || (Careful(v, es[0]) && CarefulRun(c, Step(c, v, es[0]), es[1..]))
  }

  ghost predicate FairPending(c: Config, v: View, p: Pending) {
    && p.page == PageOf(v.list, p.offset, p.limit) && p.limit > 0
    && (if p.mode == Append then p.offset <= |v.items| && p.offset < c.maxItems else p.offset == 0)
  }

  /** A prefix of the server's list; the next offset lies in it and is not at its end, and once
      everything is loaded there is none. */
  ghost predicate Ordered(c: Config, v: View) {
    && v.items <= v.list
    && (forall t :: t in v.pending && v.pending[t].generation == v.generation ==> FairPending(c, v, v.pending[t]))
    && (v.nextOffset.Some? ==>
          v.nextOffset.value <= |v.items| && v.nextOffset.value < |v.list| && v.nextOffset.value < c.maxItems
          && v.total == |v.list|)
    && (v.nextOffset.None? && v.total == |v.list| ==> |v.items| == Min(c.maxItems, |v.list|))
    && (v.nextOffsetRef.Some? ==> v.nextOffsetRef.value < c.maxItems)
  }

  lemma {:induction false} UnknownSplit(a: seq<Id>, b: seq<Id>, known: seq<Id>)
    requires forall x :: x in a ==> x in known
    requires forall x :: x in b ==> x !in known
    ensures Unknown(a + b, known) == b
  {
    if a == [] {
      UnknownNone(b, known);
      assert a + b == b;
    } else {
      assert a[0] in a;
      assert (a + b)[1..] == a[1..] + b;
      assert forall x :: x in a[1..] ==> x in a;
      UnknownSplit(a[1..], b, known);
    }
  }

  lemma {:induction false} UnknownNone(b: seq<Id>, known: seq<Id>)
    requires forall x :: x in b ==> x !in known
    ensures Unknown(b, known) == b
  {
    if b != [] {
      assert b[0] in b && forall x :: x in b[1..] ==> x in b;
      UnknownNone(b[1..], known);
    }
  }

  lemma SliceJoin(list: seq<Id>, a: nat, b: nat, d: nat)
    requires a <= b <= d <= |list|
    ensures list[a..b] + list[b..d] == list[a..d]
  {
  }

  /** Appending a slice that starts inside the shown prefix extends the prefix. */
  lemma AppendSlice(list: seq<Id>, k: nat, from: nat, to: nat)
    requires Distinct(list) && from <= k <= |list| && from <= to <= |list|
    ensures list[..k] + Unknown(list[from..to], list[..k]) == list[..Max(k, to)]
  {
    if to <= k {
      SliceKnown(list, k, from, to);
      hide Unknown, Distinct;
      assert list[from..to] + [] == list[from..to];
      UnknownSplit(list[from..to], [], list[..k]);
    } else {
      SliceKnown(list, k, from, k);
      SliceNew(list, k, k, to);
      hide Unknown, Distinct;
      SliceJoin(list, from, k, to);
      SliceJoin(list, 0, k, to);
      UnknownSplit(list[from..k], list[k..to], list[..k]);
    }
  }

  lemma SliceKnown(list: seq<Id>, k: nat, from: nat, to: nat)
    requires from <= to <= k <= |list|
    ensures forall x :: x in list[from..to] ==> x in list[..k]
  {
    forall x | x in list[from..to] ensures x in list[..k] {
      var i :| from <= i < to && list[i] == x;
      assert list[..k][i] == x;
    }
  }

  lemma SliceNew(list: seq<Id>, k: nat, from: nat, to: nat)
    requires Distinct(list) && k <= from <= to <= |list|
    ensures forall x :: x in list[from..to] ==> x !in list[..k]
  {
    forall x | x in list[from..to] ensures x !in list[..k] {
      var i :| from <= i < to && list[i] == x;
    }
  }

  /** What a fair completion shows: the prefix up to what was shown and what was fetched. */
  lemma LoadedPrefix(c: Config, v: View, p: Pending)
    requires Distinct(v.list) && v.items <= v.list && FairPending(c, v, p)
    ensures var end := Min(p.offset + p.limit, |v.list|);
      var shown := if p.mode == Append then Max(|v.items|, end) else end;
      Loaded(c, v.items, p) == v.list[..Min(shown, c.maxItems)]
  {
    var end := Min(p.offset + p.limit, |v.list|);
    if p.mode == Append {
      assert v.items == v.list[..|v.items|];
      AppendPage(v.list, |v.items|, p.offset, p.limit, c.maxItems);
      hide PageOf, Unknown, Take;
    } else {
      assert p.page.items == v.list[..end];
      TakeSlice(v.list, end, c.maxItems);
    }
  }

  lemma TakeSlice(list: seq<Id>, end: nat, most: nat)
    requires end <= |list|
    ensures Take(list[..end], most) == list[..Min(end, most)]
  {
  }

  lemma AppendPage(list: seq<Id>, k: nat, o: nat, limit: nat, most: nat)
    requires Distinct(list) && o <= k <= |list|
    ensures Take(list[..k] + Unknown(PageOf(list, o, limit).items, list[..k]), most)
         == list[..Min(Max(k, Min(o + limit, |list|)), most)]
  {
    var end := Min(o + limit, |list|);
    assert PageOf(list, o, limit).items == list[o..end];
    AppendSlice(list, k, o, end);
    TakeSlice(list, Max(k, end), most);
  }

  lemma OrderedComplete(c: Config, v: View, t: Ticket)
    requires Sound(c, v) && Ordered(c, v) && t in v.pending && v.pending[t].generation == v.generation
    ensures Ordered(c, Step(c, v, Complete(t)))
  {
    var p := v.pending[t];
    var next := Step(c, v, Complete(t));
    LoadedPrefix(c, v, p);
    assert next.total == |v.list|;
    assert forall u :: u in next.pending ==> next.pending[u].generation != next.generation;
    hide Loaded, Unknown, Part, Distinct;
  }

  lemma OrderedStart(c: Config, v: View, mode: Mode)
    requires c.pageSize > 0 && c.maxItems > 0 && Ordered(c, v)
    requires mode == Append && Starts(v, Append) ==> v.nextOffsetRef.value <= |v.items|
    ensures Ordered(c, StartRequest(c, v, mode))
  {
    hide PageOf;
  }

  lemma OrderedStep(c: Config, v: View, e: Event)
    requires c.pageSize > 0 && c.maxItems > 0 && Sound(c, v) && Ordered(c, v) && Careful(v, e)
    ensures Ordered(c, Step(c, v, e))
  {
    match e {
      case Request(mode) => OrderedStart(c, v, mode);
      case ChangeKey(list, enabled) => OrderedStart(c, Reset(v, list, enabled), Initial);
      case Complete(t) => OrderedCompleted(c, v, t);
      case Fail(t) => OrderedFailed(c, v, t);
      case Commit =>
    }
    hide StartRequest, CompleteRequest, FailRequest, PageOf, Loaded;
  }

  lemma OrderedCompleted(c: Config, v: View, t: Ticket)
    requires c.pageSize > 0 && c.maxItems > 0 && Sound(c, v) && Ordered(c, v)
    ensures Ordered(c, CompleteRequest(c, v, t))
  {
    if t in v.pending && v.pending[t].generation == v.generation {
      OrderedComplete(c, v, t);
      hide Ordered;
    }
  }

  lemma OrderedFailed(c: Config, v: View, t: Ticket)
    requires Ordered(c, v)
    ensures Ordered(c, FailRequest(v, t))
  {
    hide PageOf;
  }

  /** While no request for more starts beyond what is shown, the list is at every moment a prefix of
      the current key's list. */
  lemma {:induction false} PrefixAlways(c: Config, v: View, es: seq<Event>)
    requires c.pageSize > 0 && c.maxItems > 0
    requires Sound(c, v) && Ordered(c, v) && DistinctLists(es) && CarefulRun(c, v, es)
    ensures Ordered(c, Run(c, v, es)) && Run(c, v, es).items <= Run(c, v, es).list
    decreases |es|
  {
    if es != [] {
      assert es[0] in es;
      assert forall e :: e in es[1..] ==> e in es;
      SoundStep(c, v, es[0]);
      OrderedStep(c, v, es[0]);
      PrefixAlways(c, Step(c, v, es[0]), es[1..]);
    }
  }

  /** So it is in every such run of a new list. */
  lemma PrefixFromBlank(c: Config, es: seq<Event>)
    requires c.pageSize > 0 && c.maxItems > 0 && DistinctLists(es) && CarefulRun(c, Blank, es)
    ensures Run(c, Blank, es).items <= Run(c, Blank, es).list
  {
    BlankSound(c);
    PrefixAlways(c, Blank, es);
  }

  /** The condition is exact: a page fetched for the current list from offset `o` extends the shown
      prefix to a prefix if and only if it starts inside it, or is empty, or nothing more fits. */
  lemma AppendExactly(c: Config, v: View, o: nat, limit: nat)
    requires Distinct(v.list) && v.items <= v.list && limit > 0 && |v.items| <= c.maxItems
    ensures Loaded(c, v.items, Pending(v.generation, Append, o, limit, PageOf(v.list, o, limit))) <= v.list <==>
      o <= |v.items| || o >= |v.list| || |v.items| == c.maxItems
  {
    var page := PageOf(v.list, o, limit);
    var k := |v.items|;
    assert v.items == v.list[..k];
    if o <= k {
      AppendPage(v.list, k, o, limit, c.maxItems);
      hide PageOf, Unknown, Take;
    } else if o >= |v.list| {
      assert page.items == [];
      assert v.items + [] == v.items;
    } else {
      FarPage(v.list, k, o, limit, c.maxItems);
      hide PageOf, Unknown, Take;
    }
  }

  lemma FarPage(list: seq<Id>, k: nat, o: nat, limit: nat, most: nat)
    requires Distinct(list) && k < o < |list| && limit > 0 && k <= most
    ensures Take(list[..k] + Unknown(PageOf(list, o, limit).items, list[..k]), most) <= list <==> k == most
  {
    var end := Min(o + limit, |list|);
    assert PageOf(list, o, limit).items == list[o..end];
    SliceNew(list, k, o, end);
    UnknownNone(list[o..end], list[..k]);
    if k < most {
      GapShows(list, k, o, end, most);
    } else {
      assert Take(list[..k] + list[o..end], most) == list[..k];
    }
  }

  lemma GapShows(list: seq<Id>, k: nat, o: nat, end: nat, most: nat)
    requires Distinct(list) && k < o < end <= |list| && k < most
    ensures !(Take(list[..k] + list[o..end], most) <= list)
  {
    assert Take(list[..k] + list[o..end], most)[k] == list[o];
  }

  // ---------------------------------------------------------------- when it is not one

  const ONE_A_PAGE := Config(1, 10)

  const ABC: seq<Id> := ["a", "b", "c"]

  lemma PagesOfAbc()
    ensures Distinct(ABC)
    ensures PageOf(ABC, 0, 1) == Page(["a"], 3, Some(1)) && PageOf(ABC, 1, 1) == Page(["b"], 3, Some(2))
    ensures PageOf(ABC, 2, 1) == Page(["c"], 3, None)
    ensures Unknown(["b"], ["a"]) == ["b"] && Unknown(["c"], ["a"]) == ["c"] && Unknown(["a"], []) == ["a"]
  {
    assert "a"[0] != "b"[0] && "a"[0] != "c"[0] && "b"[0] != "c"[0];
  }

  /** Two pages of one item each, shown and committed. */
  ghost predicate TwoShown(v: View) {
    && v.list == ABC && v.items == ["a", "b"] && v.enabled && !v.inFlight && v.nextOffsetRef == Some(2)
    && v.nextTicket == 2
  }

  lemma ShowTwo()
    ensures TwoShown(Run(ONE_A_PAGE, Blank, [ChangeKey(ABC, true), Complete(0), Commit]
                                            + [Request(Append), Complete(1), Commit] + []))
  {
    var c := ONE_A_PAGE;
    PagesOfAbc();
    var v1 := Step(c, Blank, ChangeKey(ABC, true));
    assert v1.pending == map[0 := Pending(1, Initial, 0, 1, Page(["a"], 3, Some(1)))];
    var v2 := Step(c, v1, Complete(0));
    assert v2.items == ["a"] && v2.nextOffset == Some(1);
    var v3 := Step(c, v2, Commit);
    var v4 := Step(c, v3, Request(Append));
    assert v4.pending[1] == Pending(1, Append, 1, 1, Page(["b"], 3, Some(2)));
    var v5 := Step(c, v4, Complete(1));
    assert v5.items == ["a"] + ["b"] == ["a", "b"] && v5.nextOffset == Some(2);
    hide Step;
    RunThree(c, v3, Request(Append), Complete(1), Commit, []);
    RunThree(c, Blank, ChangeKey(ABC, true), Complete(0), Commit, [Request(Append), Complete(1), Commit] + []);
    Regroup([ChangeKey(ABC, true), Complete(0), Commit], [Request(Append), Complete(1), Commit], []);
  }

  lemma Regroup(a: seq<Event>, b: seq<Event>, d: seq<Event>)
    ensures a + (b + d) == a + b + d
  {
  }

  /** Two pages are shown and committed, a reload shrinks the list to one, and before that is committed
      the old reference starts the next page one item too far. */
  lemma ReloadLeavesGap(v: View)
    requires TwoShown(v)
    ensures var end := Run(ONE_A_PAGE, v, [Request(Initial), Complete(2), Request(Append), Complete(3)]);
      end.items == ["a", "c"] && end.list == ABC && !(end.items <= end.list)
  {
    var c := ONE_A_PAGE;
    PagesOfAbc();
    var v1 := Step(c, v, Request(Initial));
    var v2 := Step(c, v1, Complete(2));
    assert v2.items == ["a"] && v2.nextOffsetRef == Some(2) && !v2.inFlight;
    var v3 := Step(c, v2, Request(Append));
    var v4 := Step(c, v3, Complete(3));
    assert v4.items == ["a"] + ["c"] == ["a", "c"];
    assert v4.items[1] == "c" && v.list[1] == "b" && "c"[0] != "b"[0];
    hide Step;
    RunFour(c, v, Request(Initial), Complete(2), Request(Append), Complete(3));
  }

  lemma RunFour(c: Config, v: View, e1: Event, e2: Event, e3: Event, e4: Event)
    ensures Run(c, v, [e1, e2, e3, e4]) == Step(c, Step(c, Step(c, Step(c, v, e1), e2), e3), e4)
  {
    hide Step;
    assert [e1, e2, e3, e4][1..] == [e2, e3, e4] && [e2, e3, e4][1..] == [e3, e4];
    assert [e3, e4][1..] == [e4] && [e4][1..] == [];
    var v1 := Step(c, v, e1);
    var v2 := Step(c, v1, e2);
    assert Run(c, v, [e1, e2, e3, e4]) == Run(c, v1, [e2, e3, e4]);
    assert Run(c, v1, [e2, e3, e4]) == Run(c, v2, [e3, e4]);
    assert Run(c, v2, [e3, e4]) == Run(c, Step(c, v2, e3), [e4]);
  }

  // ---------------------------------------------------------------- loading to the end

  lemma RunThree(c: Config, v: View, e1: Event, e2: Event, e3: Event, rest: seq<Event>)
    ensures Run(c, v, [e1, e2, e3] + rest) == Run(c, Step(c, Step(c, Step(c, v, e1), e2), e3), rest)
  {
    hide Step;
    var es := [e1, e2, e3] + rest;
    assert es[1..] == [e2, e3] + rest && ([e2, e3] + rest)[1..] == [e3] + rest && ([e3] + rest)[1..] == rest;
    assert Run(c, v, es) == Run(c, Step(c, v, e1), [e2, e3] + rest);
    assert Run(c, Step(c, v, e1), [e2, e3] + rest) == Run(c, Step(c, Step(c, v, e1), e2), [e3] + rest);
  }

  /** One committed round of loading more. */
  lemma OneMorePage(c: Config, v: View)
    requires c.pageSize > 0 && c.maxItems > 0 && Sound(c, v) && Ordered(c, v)
    requires v.enabled && !v.inFlight && v.nextOffset.Some?
    ensures var next := Step(c, Step(c, Step(c, v, Commit), Request(Append)), Complete(v.nextTicket));
      && Sound(c, next) && Ordered(c, next) && next.enabled && !next.inFlight
      && next.list == v.list && next.total == |v.list|
      && (next.nextOffset.Some? ==> next.nextOffset.value > v.nextOffset.value)
  {
    var v1 := Step(c, v, Commit);
    var v2 := Step(c, v1, Request(Append));
    SoundStep(c, v, Commit);
    OrderedStep(c, v, Commit);
    SoundStep(c, v1, Request(Append));
    OrderedStep(c, v1, Request(Append));
    SoundStep(c, v2, Complete(v.nextTicket));
    OrderedStep(c, v2, Complete(v.nextTicket));
    hide Sound, Ordered, Loaded;
  }

  /** Asking for more again and again shows the whole list, or as much of it as the limit allows. */
  lemma {:induction false} LoadsEverything(c: Config, v: View) returns (es: seq<Event>)
    requires c.pageSize > 0 && c.maxItems > 0 && Sound(c, v) && Ordered(c, v)
    requires v.enabled && !v.inFlight && v.total == |v.list|
    ensures Run(c, v, es).items == v.list[..Min(c.maxItems, |v.list|)]
    decreases if v.nextOffset.Some? then |v.list| - v.nextOffset.value + 1 else 0
  {
    if v.nextOffset.None? {
      return [];
    }
    OneMorePage(c, v);
    var next := Step(c, Step(c, Step(c, v, Commit), Request(Append)), Complete(v.nextTicket));
    var rest := LoadsEverything(c, next);
    es := [Commit, Request(Append), Complete(v.nextTicket)] + rest;
    RunThree(c, v, Commit, Request(Append), Complete(v.nextTicket), rest);
  }

  // ---------------------------------------------------------------- refreshing

  /** A refresh that is answered reloads as much as was shown, and at least a page, up to the limit: of an
      unchanged list nothing that was shown disappears, and the user never sees it loading. */
  lemma RefreshReloadsShown(c: Config, v: View)
    requires Starts(v, Refresh) && v.itemsRefLength == |v.items| <= c.maxItems && v.nextTicket !in v.pending
    ensures var asked := Step(c, v, Request(Refresh));
      var w := Step(c, asked, Complete(v.nextTicket));
      && asked.loading == v.loading && asked.items == v.items && !w.loading && !w.inFlight
      && w.items <= v.list && w.total == |v.list|
      && |w.items| == Min(|v.list|, Min(c.maxItems, Max(c.pageSize, |v.items|)))
      && (v.items <= v.list ==> v.items <= w.items)
  {
  }

  /** A reload shows the first page again, and the list is loading meanwhile. */
  lemma ReloadShowsFirstPage(c: Config, v: View)
    requires Starts(v, Initial) && v.nextTicket !in v.pending && c.pageSize <= c.maxItems
    ensures var asked := Step(c, v, Request(Initial));
      var w := Step(c, asked, Complete(v.nextTicket));
      && asked.loading && asked.items == v.items && !w.loading && !w.inFlight
      && w.items <= v.list && w.total == |v.list| && |w.items| == Min(|v.list|, c.pageSize)
  {
  }

  /** A fetch that fails changes nothing shown, and leaves the list ready for the next request exactly
      when it was the current one. */
  lemma FailureUnlocks(c: Config, v: View, t: Ticket)
    requires t in v.pending
    ensures var w := Step(c, v, Fail(t));
      var current := v.pending[t].generation == v.generation;
      && w == v.(pending := v.pending - {t}, loading := w.loading, inFlight := w.inFlight)
      && w.loading == (v.loading && !current) && w.inFlight == (v.inFlight && !current)
      && (current && v.enabled ==> Starts(w, Initial) && Starts(w, Refresh))
  {
  }

  /** A new key shows nothing of the old one, whatever is still in flight, and when it is enabled its own
      first page is fetched at once. */
  lemma NewKeyLoads(c: Config, v: View, list: seq<Id>, enabled: bool)
    requires v.nextTicket !in v.pending && c.pageSize <= c.maxItems
    ensures var w := Step(c, v, ChangeKey(list, enabled));
      && w.items == [] && w.total == 0 && w.nextOffset == None && w.nextOffsetRef == None
      && w.loading == enabled && w.inFlight == enabled && w.generation > v.generation
      && (enabled ==>
            var shown := Step(c, w, Complete(v.nextTicket));
            shown.items <= list && |shown.items| == Min(|list|, c.pageSize) && shown.total == |list|)
      && (!enabled ==> w.pending == v.pending)
  {
  }
}
