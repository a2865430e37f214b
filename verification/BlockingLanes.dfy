/** A lane for blocking work: a limiter with a fixed capacity, runner tasks that own its tokens, and
    callers that may be cancelled at any moment.  A cancellation travels along what a task awaits. */
module BlockingLanes {
  import opened Common

  type Id = nat

  /** A runner task.  `Acquiring`: it waits for a token.  `Handing`: it holds one, and its work is queued.
      `Working`: it waits for its worker.  `Returning`: the worker has ended, and the token is to be given
      back.  `Over`: it has ended, and its completion callback is still to run. */
  datatype Phase = Acquiring | Handing | Working | Returning | Over

  datatype Caller = Waiting | Stopped | Answered

  /** `workers` are the threads that are alive, whatever has become of their runners; `retained` is the
      module's set of runners.  `shielded`: callers wait for a shield around their runner. */
  datatype Lane = Lane(
    capacity: nat, shielded: bool, next: Id, runners: map<Id, Phase>, callers: map<Id, Caller>,
    tokens: set<Id>, workers: set<Id>, retained: set<Id>)

  function Empty(capacity: nat, shielded: bool): Lane { Lane(capacity, shielded, 0, map[], map[], {}, {}, {}) }

  // ---------------------------------------------------------------- cancellation

  datatype Node = CallerTask(id: Id) | ShieldFuture(id: Id) | RunnerTask(id: Id)

  /** What this node hands a cancellation on to: the shield keeps it, and a runner waits for no task. */
  function Awaited(l: Lane, n: Node): Option<Node> {
    match n
    case CallerTask(id) =>
      if id in l.callers && l.callers[id] == Waiting then Some(if l.shielded then ShieldFuture(id) else RunnerTask(id)) else None
    case ShieldFuture(_) => None
    case RunnerTask(_) => None
  }

  /** The runner that a cancellation of this node gets to, if any. */
  function Hit(l: Lane, n: Node): Option<Id>
    decreases if n.CallerTask? then 1 else 0
  {
    match Awaited(l, n)
    case None => if n.RunnerTask? then Some(n.id) else None
    case Some(m) => Hit(l, m)
  }

  predicate In(l: Lane, id: Id, p: Phase) { id in l.runners && l.runners[id] == p }

  function Enter(l: Lane, id: Id, p: Phase): Lane { l.(runners := l.runners[id := p]) }

  /** A cancelled runner stops waiting and gives its token back at once.  Work that is still queued is
      never started, but a worker that is alive cannot be stopped. */
  function StopRunner(l: Lane, id: Id): Lane {
    if id in l.runners && l.runners[id] != Over then Enter(l, id, Over).(tokens := l.tokens - {id}) else l
  }

  function StopCaller(l: Lane, id: Id): Lane {
    if id in l.callers && l.callers[id] == Waiting then l.(callers := l.callers[id := Stopped]) else l
  }

  function Deliver(l: Lane, n: Node): Lane {
    match n
    case CallerTask(id) => StopCaller(l, id)
    case ShieldFuture(_) => l
    case RunnerTask(id) => StopRunner(l, id)
  }

  /** Cancels a node and whatever that reaches. */
  function Cancel(l: Lane, n: Node): Lane
    decreases if n.CallerTask? then 1 else 0
  {
    match Awaited(l, n)
    case None => Deliver(l, n)
    case Some(m) => Deliver(Cancel(l, m), n)
  }

  predicate IsWaiting(l: Lane, id: Id) { id in l.callers && l.callers[id] == Waiting }

  /** The cancellation of a caller, with and without its shield. */
  lemma CancelCaller(l: Lane, id: Id)
    ensures var n := CallerTask(id);
      var hit := IsWaiting(l, id) && !l.shielded;
      && Cancel(l, n) == StopCaller(if hit then StopRunner(l, id) else l, id)
      && Hit(l, n) == if hit then Some(id) else None
  {
    var inner := if l.shielded then ShieldFuture(id) else RunnerTask(id);
    assert Awaited(l, inner) == None;
    assert Cancel(l, inner) == Deliver(l, inner);
  }

  /** Exactly what a cancelled caller and a cancelled runner lose: a caller its wait, and only while it
      waits; a runner that has not ended its token, and never its worker. */
  lemma CancelledExactly(l: Lane, id: Id)
    ensures l.shielded && id in l.callers && l.callers[id] == Waiting ==>
      Cancel(l, CallerTask(id)) == l.(callers := l.callers[id := Stopped])
    ensures !(id in l.callers && l.callers[id] == Waiting) ==> Cancel(l, CallerTask(id)) == l
    ensures id in l.runners && l.runners[id] != Over ==>
      Cancel(l, RunnerTask(id)) == l.(runners := l.runners[id := Over], tokens := l.tokens - {id})
    ensures id !in l.runners || l.runners[id] == Over ==> Cancel(l, RunnerTask(id)) == l
  {
    CancelCaller(l, id);
    assert Awaited(l, RunnerTask(id)) == None;
  }

  // ---------------------------------------------------------------- what happens in a lane

  datatype Event =
    | Call
    | CancelTask(node: Node)
    | Grant(id: Id)
    | WorkerStarts(id: Id)
    | WorkerEnds(id: Id)
    | ReturnToken(id: Id)
    | Callback(id: Id)

  /** The limiter grants a token only while one is free. */
  function Step(l: Lane, e: Event): Lane {
    match e
    case Call =>
      Enter(l, l.next, Acquiring).(next := l.next + 1, retained := l.retained + {l.next}, callers := l.callers[l.next := Waiting])
    case CancelTask(n) => Cancel(l, n)
    case Grant(id) =>
      if In(l, id, Acquiring) && |l.tokens| < l.capacity then Enter(l, id, Handing).(tokens := l.tokens + {id}) else l
    case WorkerStarts(id) => if In(l, id, Handing) then Enter(l, id, Working).(workers := l.workers + {id}) else l
    case WorkerEnds(id) =>
      if id !in l.workers then l
      else (if In(l, id, Working) then Enter(l, id, Returning) else l).(workers := l.workers - {id})
    case ReturnToken(id) => if In(l, id, Returning) then Enter(l, id, Over).(tokens := l.tokens - {id}) else l
    case Callback(id) =>
      if !In(l, id, Over) then l
      else
        l.(runners := l.runners - {id}, retained := l.retained - {id},
           callers := if id in l.callers && l.callers[id] == Waiting then l.callers[id := Answered] else l.callers)
  }

  function Run(l: Lane, es: seq<Event>): Lane
    decreases |es|
  {
    if es == [] then l else Run(Step(l, es[0]), es[1..])
  }

  /** The end of a runner answers its caller exactly if that still waits, and changes no other caller. */
  lemma AnsweredExactly(l: Lane, id: Id, c: Id)
    requires In(l, id, Over) && c in l.callers
    ensures var m := Step(l, Callback(id));
      && c in m.callers
      && m.callers[c] == (if c == id && l.callers[c] == Waiting then Answered else l.callers[c])
      && id !in m.retained && id !in m.runners
  {
  }

  // ---------------------------------------------------------------- the module's own object

  class BlockingLane {
    const capacity: nat
    var next: Id
    var runners: map<Id, Phase>
    var callers: map<Id, Caller>
    var tokens: set<Id>
    var workers: set<Id>
    var retained: set<Id>

    constructor (capacity: nat)
      ensures State() == Empty(capacity, true)
    {
      this.capacity, next, runners, callers := capacity, 0, map[], map[];
      tokens, workers, retained := {}, {}, {};
    }

    function State(): Lane
      reads this
    {
      Lane(capacity, true, next, runners, callers, tokens, workers, retained)
    }

    /** `_run_bounded_blocking` up to its shielded wait: the runner is created and retained. */
    method RunBoundedBlocking() returns (id: Id)
      modifies this
      ensures State() == Step(old(State()), Call) && id == old(next)
    {
      id := next;
      next := next + 1;
      runners := runners[id := Acquiring];
      retained := retained + {id};
      callers := callers[id := Waiting];
    }

    /** A request is cancelled while it waits: the shield takes the cancellation, only the wait ends. */
    method CancelWait(id: Id)
      modifies `callers
      ensures State() == Step(old(State()), CancelTask(CallerTask(id)))
    {
      CancelCaller(State(), id);
      if id in callers && callers[id] == Waiting { callers := callers[id := Stopped]; }
    }

    /** `_finish_blocking_runner`. */
    method FinishBlockingRunner(id: Id)
      requires In(State(), id, Over)
      modifies `runners, `retained, `callers
      ensures State() == Step(old(State()), Callback(id))
    {
      runners := runners - {id};
      retained := retained - {id};
      if id in callers && callers[id] == Waiting { callers := callers[id := Answered]; }
    }
  }

  // ---------------------------------------------------------------- every interleaving

  predicate HoldsToken(p: Phase) { p == Handing || p == Working || p == Returning }

  /** Kept by every event, also by cancellations that reach a runner. */
  ghost predicate Sound(l: Lane) {
    && l.retained == l.runners.Keys
    && (forall id :: id in l.tokens <==> id in l.runners && HoldsToken(l.runners[id]))
    && (forall id :: In(l, id, Working) ==> id in l.workers)
    && (forall id :: id in l.workers && id in l.runners ==> l.runners[id] == Working || l.runners[id] == Over)
    && (forall id :: id in l.runners || id in l.workers ==> id < l.next)
    && |l.tokens| <= l.capacity
  }

  /** Every worker that is alive is covered by a token. */
  ghost predicate Covered(l: Lane) { l.workers <= l.tokens }

  /** Exactly the runner that is hit loses its token, and no other is touched. */
  ghost predicate Stops(l: Lane, m: Lane, hit: Option<Id>) {
    && Sound(m) && m == l.(runners := m.runners, tokens := m.tokens, callers := m.callers)
    && m.tokens == (if hit.Some? then l.tokens - {hit.value} else l.tokens)
    && (forall id :: id in l.runners && hit != Some(id) ==> id in m.runners && m.runners[id] == l.runners[id])
  }

  lemma StopSound(l: Lane, id: Id)
    requires Sound(l)
    ensures Stops(l, StopRunner(l, id), Some(id))
  {
    SubsetSize(l.tokens - {id}, l.tokens);
    if id !in l.runners || l.runners[id] == Over {
      assert l.tokens - {id} == l.tokens;
    }
  }

  lemma CallersApart(l: Lane, m: Lane, hit: Option<Id>, id: Id)
    requires Stops(l, m, hit)
    ensures Stops(l, StopCaller(m, id), hit)
  {
  }

  lemma CancelSound(l: Lane, n: Node)
    requires Sound(l)
    ensures Stops(l, Cancel(l, n), Hit(l, n))
  {
    assert Stops(l, l, None);
    match n {
      case CallerTask(id) =>
        CancelCaller(l, id);
        StopSound(l, id);
        hide StopRunner, StopCaller, Hit, Cancel, Sound, Stops;
        var hit := IsWaiting(l, id) && !l.shielded;
        CallersApart(l, if hit then StopRunner(l, id) else l, if hit then Some(id) else None, id);
      case RunnerTask(id) => StopSound(l, id);
      case ShieldFuture(_) =>
    }
  }

  lemma SoundStep(l: Lane, e: Event)
    requires Sound(l)
    ensures Sound(Step(l, e)) && Step(l, e).capacity == l.capacity && Step(l, e).shielded == l.shielded
  {
    match e {
      case Call => CallSound(l);
      case CancelTask(n) => CancelSound(l, n);
      case Grant(id) => GrantSound(l, id);
      case WorkerStarts(id) => WorkerSound(l, id);
      case WorkerEnds(id) => WorkerSound(l, id);
      case ReturnToken(id) => ReturnSound(l, id);
      case Callback(id) => CallbackSound(l, id);
    }
    hide Cancel, Hit, Sound;
  }

  lemma CallSound(l: Lane)
    requires Sound(l)
    ensures Sound(Step(l, Call))
  {
  }

  lemma GrantSound(l: Lane, id: Id)
    requires Sound(l)
    ensures Sound(Step(l, Grant(id)))
  {
  }

  lemma WorkerSound(l: Lane, id: Id)
    requires Sound(l)
    ensures Sound(Step(l, WorkerStarts(id))) && Sound(Step(l, WorkerEnds(id)))
  {
  }

  lemma ReturnSound(l: Lane, id: Id)
    requires Sound(l)
    ensures Sound(Step(l, ReturnToken(id)))
  {
    SubsetSize(l.tokens - {id}, l.tokens);
  }

  lemma CallbackSound(l: Lane, id: Id)
    requires Sound(l)
    ensures Sound(Step(l, Callback(id)))
  {
  }

  lemma {:induction false} SoundRun(l: Lane, es: seq<Event>)
    requires Sound(l)
    ensures Sound(Run(l, es)) && Run(l, es).capacity == l.capacity && Run(l, es).shielded == l.shielded
    decreases |es|
  {
    hide Step;
    if es != [] {
      SoundStep(l, es[0]);
      SoundRun(Step(l, es[0]), es[1..]);
    }
  }

  lemma {:induction false} SubsetSize(a: set<Id>, b: set<Id>)
    requires a <= b
    ensures |a| <= |b|
    decreases |a|
  {
    if a != {} {
      var x :| x in a;
      SubsetSize(a - {x}, b - {x});
    }
  }

  // ---------------------------------------------------------------- exactly when workers stay covered

  /** A cancellation reaches the runner of a worker that is alive. */
  ghost predicate Hits(l: Lane, e: Event) {
    e.CancelTask? && Hit(l, e.node).Some? && In(l, Hit(l, e.node).value, Working)
  }

  lemma CoverStep(l: Lane, e: Event)
    requires Sound(l) && Covered(l)
    ensures Covered(Step(l, e)) <==> !Hits(l, e)
  {
    if e.CancelTask? { CancelSound(l, e.node); }
    hide Cancel, Hit;
    assert forall id :: id in l.workers ==> id in l.tokens && In(l, id, Working);
  }

  ghost predicate AlwaysCovered(l: Lane, es: seq<Event>)
    decreases |es|
  {
    Covered(l) && (es != [] ==> AlwaysCovered(Step(l, es[0]), es[1..]))
  }

  ghost predicate NeverHit(l: Lane, es: seq<Event>)
    decreases |es|
  {
    es != [] ==> !Hits(l, es[0]) && NeverHit(Step(l, es[0]), es[1..])
  }

  /** In every run, whatever is cancelled: the tokens cover the live workers at every moment if and only
      if no cancellation ever reaches the runner of a live worker. */
  lemma {:induction false} CoveredExactly(l: Lane, es: seq<Event>)
    requires Sound(l) && Covered(l)
    ensures AlwaysCovered(l, es) <==> NeverHit(l, es)
    decreases |es|
  {
    hide Step, Sound, Covered, Hits;
    if es != [] {
      SoundStep(l, es[0]);
      CoverStep(l, es[0]);
      if !Hits(l, es[0]) { CoveredExactly(Step(l, es[0]), es[1..]); }
      assert AlwaysCovered(Step(l, es[0]), es[1..]) ==> Covered(Step(l, es[0]));
    }
  }

  /** A caller's cancellation reaches its runner exactly when the caller is still waiting without a shield. */
  lemma ShieldExactly(l: Lane, id: Id, r: Id)
    ensures Hit(l, CallerTask(id)) == Some(r) <==> !l.shielded && r == id && IsWaiting(l, id)
  {
    CancelCaller(l, id);
  }

  /** Nobody cancels a runner task itself. */
  predicate RunnersLeftAlone(es: seq<Event>) {
    forall e :: e in es ==> !(e.CancelTask? && e.node.RunnerTask?)
  }

  lemma {:induction false} ShieldedNeverHit(l: Lane, es: seq<Event>)
    requires l.shielded && RunnersLeftAlone(es) && Sound(l)
    ensures NeverHit(l, es)
    decreases |es|
  {
    if es != [] {
      var e := es[0];
      assert e in es && forall f :: f in es[1..] ==> f in es;
      SoundStep(l, e);
      if e.CancelTask? && e.node.CallerTask? { CancelCaller(l, e.node.id); }
      hide Step, Sound;
      ShieldedNeverHit(Step(l, e), es[1..]);
    }
  }

  lemma {:induction false} CoveredAtEnd(l: Lane, es: seq<Event>)
    requires AlwaysCovered(l, es)
    ensures Covered(Run(l, es))
    decreases |es|
  {
    hide Step, Covered;
    if es != [] { CoveredAtEnd(Step(l, es[0]), es[1..]); }
  }

  /** Nobody is between holding a token and running, or between having run and giving it back. */
  predicate NoHandover(l: Lane) {
    forall id :: id in l.runners ==> l.runners[id] != Handing && l.runners[id] != Returning
  }

  /** For every interleaving of calls, cancelled callers and completions in a shielded lane: live workers
      hold tokens, tokens never exceed the capacity, every token's runner is retained, and without a
      handover in progress the tokens in use are exactly the live workers. */
  lemma NeverOverCapacity(capacity: nat, es: seq<Event>)
    requires RunnersLeftAlone(es)
    ensures var l := Run(Empty(capacity, true), es);
      && |l.workers| <= |l.tokens| <= capacity
      && l.workers <= l.tokens <= l.retained
      && (NoHandover(l) ==> l.tokens == l.workers)
  {
    var start := Empty(capacity, true);
    SoundRun(start, es);
    ShieldedNeverHit(start, es);
    CoveredExactly(start, es);
    CoveredAtEnd(start, es);
    var l := Run(start, es);
    SubsetSize(l.workers, l.tokens);
  }

  // ---------------------------------------------------------------- a cancelled caller changes nothing

  function WithoutCallers(es: seq<Event>): seq<Event> {
    if es == [] then []
    else if es[0].CancelTask? && es[0].node.CallerTask? then WithoutCallers(es[1..])
    else [es[0]] + WithoutCallers(es[1..])
  }

  /** The lanes differ at most in what has become of the callers. */
  ghost predicate SameWork(l: Lane, m: Lane) {
    l.shielded && m.shielded && m == l.(callers := m.callers)
  }

  lemma CallerCancelled(l: Lane, id: Id)
    requires l.shielded
    ensures SameWork(l, Step(l, CancelTask(CallerTask(id))))
  {
    CancelCaller(l, id);
    hide Cancel;
  }

  lemma SameStep(l: Lane, m: Lane, e: Event)
    requires SameWork(l, m) && !(e.CancelTask? && e.node.CallerTask?)
    ensures SameWork(Step(l, e), Step(m, e))
  {
  }

  /** With or without the cancellations of its callers, every run of a shielded lane ends with the same
      tokens, workers, queue and retained runners. */
  lemma {:induction false} CallersChangeNothing(l: Lane, m: Lane, es: seq<Event>)
    requires SameWork(l, m)
    ensures SameWork(Run(l, es), Run(m, WithoutCallers(es)))
    decreases |es|
  {
    if es != [] {
      var e := es[0];
      if e.CancelTask? && e.node.CallerTask? {
        CallerCancelled(l, e.node.id);
        hide Step;
        CallersChangeNothing(Step(l, e), m, es[1..]);
      } else {
        SameStep(l, m, e);
        hide Step;
        CallersChangeNothing(Step(l, e), Step(m, e), es[1..]);
        assert WithoutCallers(es)[1..] == WithoutCallers(es[1..]);
      }
    }
  }

  /** Until its own worker ends, a working runner keeps its token and stays retained, whatever else
      happens, unless a cancellation reaches it. */
  lemma {:induction false} RetainedUntilWorkerEnds(l: Lane, es: seq<Event>, id: Id)
    requires Sound(l) && In(l, id, Working) && NeverHit(l, es) && WorkerEnds(id) !in es
    ensures In(Run(l, es), id, Working) && id in Run(l, es).tokens && id in Run(l, es).retained
    decreases |es|
  {
    if es != [] {
      assert es[0] in es;
      assert forall e :: e in es[1..] ==> e in es;
      SoundStep(l, es[0]);
      if es[0].CancelTask? { CancelSound(l, es[0].node); }
      RetainedUntilWorkerEnds(Step(l, es[0]), es[1..], id);
    }
  }

  // ---------------------------------------------------------------- without the shield

  /** One disconnect of a caller that waits for its runner directly. */
  function Disconnect(id: Id): seq<Event> {
    [Call, Grant(id), WorkerStarts(id), CancelTask(CallerTask(id))]
  }

  /** The worker of the new call is alive. */
  lemma CallStarted(l: Lane)
    requires Sound(l) && l.tokens == {} && l.capacity > 0
    ensures var id := l.next;
      var c := Step(Step(Step(l, Call), Grant(id)), WorkerStarts(id));
      && In(c, id, Working) && IsWaiting(c, id) && c.tokens == {id} && c.workers == l.workers + {id}
      && c.shielded == l.shielded
  {
    var id := l.next;
    var a := Step(l, Call);
    assert In(a, id, Acquiring) && a.tokens == {} && IsWaiting(a, id);
    assert a.workers == l.workers && a.capacity == l.capacity && a.shielded == l.shielded;
    TokenStarted(a, id);
  }

  lemma TokenStarted(a: Lane, id: Id)
    requires In(a, id, Acquiring) && a.tokens == {} && a.capacity > 0
    ensures var c := Step(Step(a, Grant(id)), WorkerStarts(id));
      && In(c, id, Working) && c.tokens == {id} && c.workers == a.workers + {id} && c.callers == a.callers
      && c.shielded == a.shielded
  {
    var b := Step(a, Grant(id));
    assert b == Enter(a, id, Handing).(tokens := a.tokens + {id});
  }

  lemma DisconnectLeavesWorker(l: Lane)
    requires Sound(l) && !l.shielded && l.tokens == {} && l.capacity > 0
    ensures var m := Run(l, Disconnect(l.next));
      Sound(m) && !m.shielded && m.tokens == {} && m.workers == l.workers + {l.next} && m.capacity == l.capacity
  {
    var id := l.next;
    var c := Step(Step(Step(l, Call), Grant(id)), WorkerStarts(id));
    CallStarted(l);
    SoundRun(l, Disconnect(id));
    CancelCaller(c, id);
    hide Cancel, Sound;
    RunFour(l, Call, Grant(id), WorkerStarts(id), CancelTask(CallerTask(id)));
    var d := Step(c, CancelTask(CallerTask(id)));
    assert d == StopCaller(StopRunner(c, id), id);
    assert d.tokens == {} && d.workers == c.workers;
    hide Step, Run;
  }

  lemma RunFour(l: Lane, a: Event, b: Event, c: Event, d: Event)
    ensures Run(l, [a, b, c, d]) == Step(Step(Step(Step(l, a), b), c), d)
  {
    hide Step;
    var es := [a, b, c, d];
    assert es[1..] == [b, c, d] && es[1..][1..] == [c, d] && es[1..][1..][1..] == [d] && es[1..][1..][1..][1..] == [];
    var l1 := Step(l, a);
    var l2 := Step(l1, b);
    assert Run(l, es) == Run(l1, es[1..]) == Run(l2, es[1..][1..]) == Run(Step(l2, c), es[1..][1..][1..]);
  }

  /** No token is in use, and that many workers are alive. */
  ghost predicate Stormed(l: Lane, capacity: nat, n: nat) {
    Sound(l) && !l.shielded && l.capacity == capacity && l.tokens == {} && |l.workers| == n
  }

  lemma OneMore(l: Lane, n: nat)
    requires Stormed(l, l.capacity, n) && l.capacity > 0
    ensures Stormed(Run(l, Disconnect(l.next)), l.capacity, n + 1)
  {
    DisconnectLeavesWorker(l);
    assert l.next !in l.workers;
    hide Run, Sound;
  }

  lemma LeftAlone(es: seq<Event>, id: Id)
    requires RunnersLeftAlone(es)
    ensures RunnersLeftAlone(es + Disconnect(id))
  {
  }

  /** Without the shield a storm of disconnects goes over any capacity: for every number there is a run
      of calls and cancelled callers that leaves that many workers alive, however small the lane. */
  lemma {:induction false} StormWithoutShield(capacity: nat, n: nat) returns (es: seq<Event>)
    requires capacity > 0
    ensures RunnersLeftAlone(es)
    ensures var l := Run(Empty(capacity, false), es);
      Stormed(l, capacity, n) && l.tokens == {} && |l.workers| == n
    decreases n
  {
    var start := Empty(capacity, false);
    if n == 0 {
      es := [];
    } else {
      var before := StormWithoutShield(capacity, n - 1);
      var l := Run(start, before);
      hide Run, Disconnect, Stormed, RunnersLeftAlone;
      StormedMeans(l, capacity, n - 1);
      OneMore(l, n - 1);
      RunSplit(start, before, Disconnect(l.next));
      LeftAlone(before, l.next);
      es := before + Disconnect(l.next);
      assert Stormed(Run(start, es), capacity, n);
      StormedMeans(Run(start, es), capacity, n);
    }
  }

  lemma StormedMeans(l: Lane, capacity: nat, n: nat)
    requires Stormed(l, capacity, n)
    ensures l.capacity == capacity && l.tokens == {} && |l.workers| == n
  {
  }

  // ---------------------------------------------------------------- nothing is leaked

  /** The runner is gone, its worker too, and no other runner or worker has changed. */
  ghost predicate Removed(l: Lane, m: Lane, id: Id) {
    && m == l.(runners := l.runners - {id}, tokens := l.tokens - {id}, workers := l.workers - {id},
               retained := l.retained - {id}, callers := m.callers)
  }

  function Steps(l: Lane, id: Id): nat
    requires id in l.runners
  {
    match l.runners[id]
    case Acquiring => 6
    case Handing => 5
    case Working => 4
    case Returning => 3
    case Over => if id in l.workers then 2 else 1
  }

  function NextEvent(l: Lane, id: Id): Event
    requires id in l.runners
  {
    match l.runners[id]
    case Acquiring => Grant(id)
    case Handing => WorkerStarts(id)
    case Working => WorkerEnds(id)
    case Returning => ReturnToken(id)
    case Over => if id in l.workers then WorkerEnds(id) else Callback(id)
  }

  /** Runner `id` has gone on to `p`, and nothing else has changed. */
  ghost predicate Goes(l: Lane, n: Lane, id: Id, p: Phase) {
    && n == l.(runners := l.runners[id := p], tokens := n.tokens, workers := n.workers)
    && n.tokens - {id} == l.tokens - {id} && n.workers - {id} == l.workers - {id}
  }

  function NextPhase(p: Phase): Phase {
    match p
    case Acquiring => Handing
    case Handing => Working
    case Working => Returning
    case Returning => Over
    case Over => Over
  }

  lemma TokenGoes(l: Lane, id: Id)
    ensures In(l, id, Acquiring) && |l.tokens| < l.capacity ==> Goes(l, Step(l, Grant(id)), id, Handing)
    ensures In(l, id, Returning) ==> Goes(l, Step(l, ReturnToken(id)), id, Over)
  {
  }

  lemma WorkerGoes(l: Lane, id: Id)
    ensures In(l, id, Handing) ==> Goes(l, Step(l, WorkerStarts(id)), id, Working)
    ensures In(l, id, Working) && id in l.workers ==> Goes(l, Step(l, WorkerEnds(id)), id, Returning)
    ensures In(l, id, Over) && id in l.workers ==>
      Goes(l, Step(l, WorkerEnds(id)), id, Over) && id !in Step(l, WorkerEnds(id)).workers
  {
    assert In(l, id, Over) ==> l.runners[id := Over] == l.runners;
  }

  lemma LastGoes(l: Lane, id: Id)
    requires Sound(l) && In(l, id, Over) && id !in l.workers
    ensures Removed(l, Step(l, Callback(id)), id)
  {
    assert l.tokens - {id} == l.tokens && l.workers - {id} == l.workers;
  }

  lemma NextStep(l: Lane, id: Id)
    requires Sound(l) && id in l.runners && (l.runners[id] == Acquiring ==> |l.tokens| < l.capacity)
    ensures var e := NextEvent(l, id);
      if e.Callback? then Removed(l, Step(l, e), id)
      else Goes(l, Step(l, e), id, NextPhase(l.runners[id])) && Steps(Step(l, e), id) < Steps(l, id)
  {
    TokenGoes(l, id);
    WorkerGoes(l, id);
    assert In(l, id, l.runners[id]) && (l.runners[id] == Working ==> id in l.workers);
    if l.runners[id] == Over && id !in l.workers { LastGoes(l, id); }
    hide Step, Sound;
  }

  lemma GoneAfter(l: Lane, n: Lane, m: Lane, id: Id, p: Phase)
    requires Goes(l, n, id, p) && Removed(n, m, id)
    ensures Removed(l, m, id)
  {
    assert l.runners[id := p] - {id} == l.runners - {id};
  }

  /** One runner can be driven to its end without touching the others. */
  lemma {:induction false} DriveToEnd(l: Lane, id: Id) returns (es: seq<Event>)
    requires Sound(l) && id in l.runners && (l.runners[id] == Acquiring ==> |l.tokens| < l.capacity)
    ensures Removed(l, Run(l, es), id)
    decreases Steps(l, id)
  {
    var e := NextEvent(l, id);
    var n := Step(l, e);
    SoundStep(l, e);
    NextStep(l, id);
    hide Step, Sound, NextEvent, Steps;
    if e.Callback? {
      es := [e];
      assert es[1..] == [];
    } else {
      var rest := DriveToEnd(n, id);
      es := [e] + rest;
      assert es[1..] == rest;
      GoneAfter(l, n, Run(n, rest), id, NextPhase(l.runners[id]));
    }
  }

  /** A lane with capacity always drains: from any reachable state, also after cancellations that hit
      runners, some completions leave no token in use and no runner retained. */
  lemma {:induction false} Drains(l: Lane) returns (es: seq<Event>)
    requires Sound(l) && l.capacity > 0
    ensures Run(l, es).tokens == {} && Run(l, es).retained == {}
    decreases |l.retained|
  {
    if l.retained == {} {
      return [];
    }
    var id: Id;
    if l.tokens != {} { id :| id in l.tokens; } else { id :| id in l.retained; }
    var first := DriveToEnd(l, id);
    SoundRun(l, first);
    var rest := Drains(Run(l, first));
    es := first + rest;
    RunSplit(l, first, rest);
  }

  lemma {:induction false} RunSplit(l: Lane, xs: seq<Event>, ys: seq<Event>)
    ensures Run(l, xs + ys) == Run(Run(l, xs), ys)
    decreases |xs|
  {
    hide Step;
    if xs == [] {
      assert xs + ys == ys;
    } else {
      assert (xs + ys)[1..] == xs[1..] + ys;
      RunSplit(Step(l, xs[0]), xs[1..], ys);
    }
  }
}
