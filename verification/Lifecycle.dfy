/**
 * Runs of the server in which every handler is one uninterrupted step and every streaming
 * worker advances statement by statement, in any interleaving.
 */
module Lifecycle {
  import opened Schema
  import opened Decimal
  import opened SecondaryAuth
  import opened StoreModel
  import opened Handlers
  import opened Workers

  /** `passed` numbers the workers in the order in which they passed their completed touch. */
  datatype World = World(store: StoreVal, workers: seq<Worker>, passed: map<nat, nat>, ticks: nat)

  const START := World(EMPTY, [], map[], 0)

  datatype Step =
    | Handle(impl: Impl, req: Request, now: Time)
    | Advance(i: nat, now: Time)

  function Spawn(workers: seq<Worker>, spawned: Option<string>): seq<Worker> {
    if spawned.Some? then workers + [NewWorker(spawned.value)] else workers
  }

  function Next(gate: Gate, w: World, st: Step): World {
    match st
    case Handle(impl, req, now) =>
      var o := Serve(impl, gate, w.store, req, now);
      w.(store := o.store, workers := Spawn(w.workers, o.spawned))
    case Advance(i, now) =>
      if i < |w.workers| && w.workers[i].task in w.store.items then
        var (s, k) := Work(w.store, w.workers[i], now);
        var moved := w.(store := s, workers := w.workers[i := k]);
        if w.workers[i].pc.AtTouchCompleted? then moved.(passed := w.passed[i := w.ticks], ticks := w.ticks + 1)
        else moved
      else w
  }

  /** The world after the given steps. */
  function After(gate: Gate, w: World, steps: seq<Step>): World {
    if steps == [] then w else Next(gate, After(gate, w, steps[..|steps| - 1]), steps[|steps| - 1])
  }

  function Run(gate: Gate, steps: seq<Step>): World {
    After(gate, START, steps)
  }

  lemma {:induction false} AfterJoin(gate: Gate, w: World, a: seq<Step>, b: seq<Step>)
    ensures After(gate, w, a + b) == After(gate, After(gate, w, a), b)
    decreases |b|
  {
    if b == [] {
      assert a + b == a;
    } else {
      assert (a + b)[..|a + b| - 1] == a + b[..|b| - 1];
      AfterJoin(gate, w, a, b[..|b| - 1]);
    }
  }

  lemma AfterOne(gate: Gate, w: World, st: Step)
    ensures After(gate, w, [st]) == Next(gate, w, st)
  {
    assert [st][..0] == [];
    assert After(gate, w, []) == w;
  }

  function StateOf(w: World, t: string): TaskState
    requires t in w.store.items
  {
    w.store.items[t].status.state
  }

  predicate Ended(s: TaskState) {
    s == Completed || s == Canceled
  }

  ghost predicate HasWorker(w: World, t: string) {
    exists i :: 0 <= i < |w.workers| && w.workers[i].task == t
  }

  /** Every worker of the task has passed its completed touch. */
  ghost predicate Settled(w: World, t: string) {
    forall i :: 0 <= i < |w.workers| && w.workers[i].task == t ==> !Underway(w.workers[i])
  }

  // The invariants.

  ghost predicate Grounded(w: World) {
    && Intact(w.store)
    && (forall i :: 0 <= i < |w.workers| ==> w.workers[i].task in w.store.items)
  }

  ghost predicate StreamsEnd(w: World) {
    forall t :: t in w.store.items && HasWorker(w, t) && Settled(w, t) ==> Ended(StateOf(w, t))
  }

  /** Status, artifact, final status: never more, never in another order, and all for the worker's own task. */
  predicate InOrder(k: Worker) {
    match k.pc
    case AtTouchRunning => k.events == []
    case AtSendStatus => k.events == []
    case AtSendArtifact => |k.events| == 1 && IsStatus(k, 0, false)
    case AtTouchCompleted(art) => |k.events| == 2 && IsStatus(k, 0, false) && IsArtifact(k, 1, art)
    case AtAppendArtifact(art) => |k.events| == 2 && IsStatus(k, 0, false) && IsArtifact(k, 1, art)
    case AtEnd => |k.events| == 3 && IsStatus(k, 0, false) && IsSomeArtifact(k, 1) && IsStatus(k, 2, true)
    case _ => |k.events| == 2 && IsStatus(k, 0, false) && IsSomeArtifact(k, 1)
  }

  predicate IsStatus(k: Worker, i: nat, final: bool) {
    i < |k.events| && k.events[i].StatusUpdate? && k.events[i].final == final && k.events[i].taskID == k.task
  }

  /** An artifact event for the worker's own task, the first chunk and not the last. */
  predicate IsSomeArtifact(k: Worker, i: nat) {
    && i < |k.events| && k.events[i].ArtifactUpdate? && k.events[i].taskID == k.task
    && k.events[i].artifact.id == "a-" + k.task && k.events[i].artifact.text == "processing..."
    && k.events[i].append && !k.events[i].lastChunk
  }

  predicate IsArtifact(k: Worker, i: nat, art: Artifact) {
    IsSomeArtifact(k, i) && k.events[i].artifact == art
  }

  ghost predicate EventsInOrder(w: World) {
    forall i :: 0 <= i < |w.workers| ==> InOrder(w.workers[i])
  }

  /** Worker j has yet to pass its completed touch, or passed it after worker i did. */
  predicate Outlasts(w: World, j: nat, i: nat)
    requires i < |w.workers| && j < |w.workers|
  {
    Underway(w.workers[j]) || (i in w.passed && j in w.passed && w.passed[j] > w.passed[i])
  }

  ghost predicate PassesNumbered(w: World) {
    && (forall i :: i in w.passed ==> i < |w.workers| && w.passed[i] < w.ticks)
    && (forall i :: 0 <= i < |w.workers| ==> (i in w.passed <==> !Underway(w.workers[i])))
  }

  /** A final event that is not an ending was sent while another worker of the task was still going to touch it. */
  ghost predicate FinalExplained(w: World, i: nat)
    requires i < |w.workers|
  {
    var k := w.workers[i];
    k.pc.AtEnd? && IsStatus(k, 2, true) && !Ended(k.events[2].status.state) ==>
      exists j :: 0 <= j < |w.workers| && w.workers[j].task == k.task && Outlasts(w, j, i)
  }

  ghost predicate FinalsExplained(w: World) {
    forall i :: 0 <= i < |w.workers| ==> FinalExplained(w, i)
  }

  // What a handler may do to a task it finds.

  predicate Allowed(a: TaskVal, b: TaskVal) {
    || b == a
    || b.status.state == Canceled
    || (!IsTerminal(a.status.state) && (b.status.state == Completed || b.status.state == AuthRequired))
  }

  /** Known tasks stay and change as allowed. */
  ghost predicate AllowedAll(s: StoreVal, t: StoreVal) {
    forall id :: id in s.items ==> id in t.items && Allowed(s.items[id], t.items[id])
  }

  lemma SendEffect(impl: Impl, s: StoreVal, params: Params<SendParams>, now: Time)
    requires NextID(s) !in s.items
    ensures AllowedAll(s, SendOutcome(impl, s, params, now).store)
  {
  }

  lemma StreamEffect(impl: Impl, gate: Gate, s: StoreVal, params: Params<SendParams>, now: Time)
    requires NextID(s) !in s.items
    ensures AllowedAll(s, StreamOutcome(impl, gate, s, params, now).store)
    ensures var o := StreamOutcome(impl, gate, s, params, now); o.spawned.Some? ==> o.spawned.value in o.store.items
  {
  }

  lemma SharedEffect(gate: Gate, s: StoreVal, req: Request, now: Time)
    requires Shared(req)
    ensures AllowedAll(s, SharedOutcome(gate, s, req, now).store)
    ensures SharedOutcome(gate, s, req, now).spawned.None?
  {
  }

  lemma ServeEffect(impl: Impl, gate: Gate, s: StoreVal, req: Request, now: Time)
    requires Intact(s)
    ensures var o := Serve(impl, gate, s, req, now);
      AllowedAll(s, o.store) && (o.spawned.Some? ==> o.spawned.value in o.store.items)
  {
    NextIsFree(s);
    match req
    case Send(p) => SendEffect(impl, s, p, now);
    case Stream(p) => StreamEffect(impl, gate, s, p, now);
    case Resubscribe(p) =>
    case _ => SharedEffect(gate, s, req, now);
  }

  // What a worker's statement does.

  lemma WorkEffect(s: StoreVal, k: Worker, now: Time)
    requires Intact(s) && k.task in s.items
    ensures var (t, k') := Work(s, k, now);
      && Intact(t) && t.created == s.created && k'.task == k.task
      && t.items.Keys == s.items.Keys
      && (forall id :: id in s.items && id != k.task ==> t.items[id] == s.items[id])
      && (k.pc.AtTouchCompleted? ==> t.items[k.task].status.state == Completed)
      && (!Underway(k) ==> t.items[k.task].status == s.items[k.task].status)
      && (Underway(k') <==> Underway(k) && !k.pc.AtTouchCompleted?)
  {
    WorkIsUpdate(s, k, now);
    UpdateKeepsIntact(s, k.task, Worked(s.items[k.task], k, now).0);
  }

  lemma WorkInOrder(s: StoreVal, k: Worker, now: Time)
    requires k.task in s.items && s.items[k.task].id == k.task && InOrder(k)
    ensures InOrder(Work(s, k, now).1)
    ensures var k' := Work(s, k, now).1;
      k'.pc.AtEnd? ==> k' == k || k'.events[2] == NewStatusEvent(s.items[k.task], true)
  {
  }

  // The two kinds of step, as relations between worlds.

  ghost predicate Handled(w: World, v: World) {
    && AllowedAll(w.store, v.store)
    && (v.store.created < TWO_64 ==> Intact(v.store))
    && v.passed == w.passed && v.ticks == w.ticks
    && (v.workers == w.workers ||
        exists t :: t in v.store.items && v.workers == w.workers + [NewWorker(t)])
  }

  ghost predicate Moved(w: World, v: World, i: nat) {
    && i < |w.workers| == |v.workers|
    && w.workers[i].task in w.store.items
    && (forall j :: 0 <= j < |w.workers| && j != i ==> v.workers[j] == w.workers[j])
    && Intact(v.store) && v.store.created == w.store.created
    && v.store.items.Keys == w.store.items.Keys
    && var k, k' := w.workers[i], v.workers[i];
      && k'.task == k.task
      && (forall id :: id in w.store.items && id != k.task ==> v.store.items[id] == w.store.items[id])
      && (k.pc.AtTouchCompleted? ==> StateOf(v, k.task) == Completed)
      && (!Underway(k) ==> StateOf(v, k.task) == StateOf(w, k.task))
      && (Underway(k') <==> Underway(k) && !k.pc.AtTouchCompleted?)
      && (k'.pc.AtEnd? ==> !Underway(k))
      && (InOrder(k) ==> InOrder(k'))
      && (InOrder(k) && k'.pc.AtEnd? ==> k' == k || k'.events[2] == NewStatusEvent(w.store.items[k.task], true))
      && (if k.pc.AtTouchCompleted? then v.passed == w.passed[i := w.ticks] && v.ticks == w.ticks + 1
          else v.passed == w.passed && v.ticks == w.ticks)
  }

  ghost predicate Stepped(w: World, v: World) {
    v == w || Handled(w, v) || exists i :: Moved(w, v, i)
  }

  lemma HandleShape(gate: Gate, w: World, st: Step)
    requires Grounded(w) && st.Handle?
    ensures Handled(w, Next(gate, w, st))
  {
    ServeKeepsIntact(st.impl, gate, w.store, st.req, st.now);
    ServeEffect(st.impl, gate, w.store, st.req, st.now);
  }

  lemma AdvanceShape(gate: Gate, w: World, st: Step)
    requires Grounded(w) && st.Advance? && st.i < |w.workers|
    ensures Moved(w, Next(gate, w, st), st.i)
  {
    var k := w.workers[st.i];
    WorkEffect(w.store, k, st.now);
    if InOrder(k) {
      WorkInOrder(w.store, k, st.now);
    }
  }

  lemma StepShape(gate: Gate, w: World, st: Step)
    requires Grounded(w)
    ensures Stepped(w, Next(gate, w, st))
  {
    if st.Handle? {
      HandleShape(gate, w, st);
    } else if st.i < |w.workers| {
      AdvanceShape(gate, w, st);
    }
  }

  // Each invariant is kept by each kind of step.

  lemma GroundedStep(w: World, v: World)
    requires Grounded(w) && Stepped(w, v) && v.store.created < TWO_64
    ensures Grounded(v)
  {
  }

  lemma EventsStep(w: World, v: World)
    requires EventsInOrder(w) && Stepped(w, v)
    ensures EventsInOrder(v)
  {
  }

  lemma PassesStep(w: World, v: World)
    requires PassesNumbered(w) && Stepped(w, v)
    ensures PassesNumbered(v)
  {
  }

  lemma StreamsEndStep(w: World, v: World)
    requires Grounded(w) && StreamsEnd(w) && Stepped(w, v)
    ensures StreamsEnd(v)
  {
    forall t | t in v.store.items && HasWorker(v, t) && Settled(v, t)
      ensures Ended(StateOf(v, t))
    {
      if Handled(w, v) {
        HandledKeepsEnding(w, v, t);
      } else if v != w {
        var i :| Moved(w, v, i);
        MovedKeepsEnding(w, v, i, t);
      }
    }
  }

  lemma HandledKeepsEnding(w: World, v: World, t: string)
    requires Grounded(w) && StreamsEnd(w) && Handled(w, v)
    requires t in v.store.items && HasWorker(v, t) && Settled(v, t)
    ensures Ended(StateOf(v, t))
  {
    var i :| 0 <= i < |v.workers| && v.workers[i].task == t;
    assert i < |w.workers| && w.workers[i] == v.workers[i];
    assert forall j :: 0 <= j < |w.workers| ==> v.workers[j] == w.workers[j];
    assert HasWorker(w, t) && Settled(w, t);
  }

  lemma MovedKeepsEnding(w: World, v: World, i: nat, t: string)
    requires StreamsEnd(w) && Moved(w, v, i)
    requires t in v.store.items && HasWorker(v, t) && Settled(v, t)
    ensures Ended(StateOf(v, t))
  {
    var k := w.workers[i];
    var j :| 0 <= j < |v.workers| && v.workers[j].task == t;
    assert w.workers[j].task == t;
    assert v.workers[i].task == k.task;
    if k.task != t || !Underway(k) {
      assert Settled(w, t) && HasWorker(w, t);
    }
  }

  /** Outlasting is not lost: a worker underway that passes is numbered last. */
  lemma OutlastsStep(w: World, v: World, j: nat, i: nat)
    requires PassesNumbered(w) && Stepped(w, v)
    requires i < |w.workers| && j < |w.workers| && i in w.passed && Outlasts(w, j, i)
    ensures i < |v.workers| && j < |v.workers| && v.workers[j].task == w.workers[j].task && Outlasts(v, j, i)
  {
  }

  lemma FinalKept(w: World, v: World, i: nat)
    requires PassesNumbered(w) && Stepped(w, v)
    requires i < |w.workers| && FinalExplained(w, i)
    requires i < |v.workers| && v.workers[i] == w.workers[i]
    ensures FinalExplained(v, i)
  {
    var k := w.workers[i];
    if k.pc.AtEnd? && IsStatus(k, 2, true) && !Ended(k.events[2].status.state) {
      var j :| 0 <= j < |w.workers| && w.workers[j].task == k.task && Outlasts(w, j, i);
      OutlastsStep(w, v, j, i);
    }
  }

  /** A final event reports the task's state: an ending, unless another worker is underway. */
  lemma FinalSent(w: World, v: World, i: nat)
    requires StreamsEnd(w) && EventsInOrder(w) && Moved(w, v, i) && v.workers[i] != w.workers[i]
    ensures FinalExplained(v, i)
  {
    var k := w.workers[i];
    if v.workers[i].pc.AtEnd? && !Ended(StateOf(w, k.task)) {
      assert HasWorker(w, k.task) && !Settled(w, k.task);
      var j :| 0 <= j < |w.workers| && w.workers[j].task == k.task && Underway(w.workers[j]);
      assert v.workers[j] == w.workers[j];
      assert Outlasts(v, j, i);
    }
  }

  lemma FinalsStep(w: World, v: World)
    requires Grounded(w) && StreamsEnd(w) && PassesNumbered(w) && EventsInOrder(w) && FinalsExplained(w)
    requires Stepped(w, v)
    ensures FinalsExplained(v)
  {
    forall i | 0 <= i < |v.workers|
      ensures FinalExplained(v, i)
    {
      if i < |w.workers| {
        if v.workers[i] == w.workers[i] {
          FinalKept(w, v, i);
        } else {
          assert Moved(w, v, i);
          FinalSent(w, v, i);
        }
      }
    }
  }

  ghost predicate Invariant(w: World) {
    Grounded(w) && StreamsEnd(w) && EventsInOrder(w) && PassesNumbered(w) && FinalsExplained(w)
  }

  lemma InvariantStep(w: World, v: World)
    requires Invariant(w) && Stepped(w, v) && v.store.created < TWO_64
    ensures Invariant(v)
  {
    GroundedStep(w, v);
    EventsStep(w, v);
    PassesStep(w, v);
    StreamsEndStep(w, v);
    FinalsStep(w, v);
  }

  /** Every run that has created fewer than 2^64 tasks keeps all of them, at every step. */
  lemma {:induction false} Reachable(gate: Gate, steps: seq<Step>)
    requires Run(gate, steps).store.created < TWO_64
    ensures Invariant(Run(gate, steps))
    decreases |steps|
  {
    if steps != [] {
      var before, st := steps[..|steps| - 1], steps[|steps| - 1];
      CountNeverFalls(gate, Run(gate, before), st);
      Reachable(gate, before);
      StepShape(gate, Run(gate, before), st);
      InvariantStep(Run(gate, before), Run(gate, steps));
    }
  }

  /** The count of created tasks never falls, whatever the state. */
  lemma CountNeverFalls(gate: Gate, w: World, st: Step)
    ensures w.store.created <= Next(gate, w, st).store.created
  {
    match st
    case Handle(impl, req, now) => CountKept(impl, gate, w.store, req, now);
    case Advance(i, now) =>
  }

  lemma CountKept(impl: Impl, gate: Gate, s: StoreVal, req: Request, now: Time)
    ensures s.created <= Serve(impl, gate, s, req, now).store.created
  {
    match req
    case Send(p) => assert s.created <= SendOutcome(impl, s, p, now).store.created;
    case Stream(p) => assert s.created <= StreamOutcome(impl, gate, s, p, now).store.created;
    case Resubscribe(p) =>
    case _ => assert SharedOutcome(gate, s, req, now).store.created == s.created;
  }

  // The laws of runs.

  /** The stored tasks are exactly the issued ids, as many as were created, and the next id is free. */
  lemma TasksConserved(gate: Gate, steps: seq<Step>)
    requires Run(gate, steps).store.created < TWO_64
    ensures var s := Run(gate, steps).store;
      && (forall id :: id in s.items <==> exists k: nat :: 1 <= k <= s.created && id == TaskID(k))
      && |s.items| == s.created && NextID(s) !in s.items
      && forall id :: id in s.items ==> s.items[id].id == id
  {
    Reachable(gate, steps);
    var s := Run(gate, steps).store;
    IssuedCount(s.created);
    NextIsFree(s);
    assert |s.items| == |s.items.Keys|;
    forall id: string {
      IssuedMembers(s.created, id);
    }
  }

  /** Once every worker of a streamed task has passed its completed touch, the task is completed or canceled. */
  lemma StreamingEndsTerminal(gate: Gate, steps: seq<Step>, t: string)
    requires var w := Run(gate, steps);
      w.store.created < TWO_64 && t in w.store.items && HasWorker(w, t) && Settled(w, t)
    ensures Ended(StateOf(Run(gate, steps), t))
  {
    Reachable(gate, steps);
  }

  /** Each worker has sent a prefix of status, artifact, final status, all about its own task. */
  lemma WorkerEvents(gate: Gate, steps: seq<Step>, i: nat)
    requires var w := Run(gate, steps); w.store.created < TWO_64 && i < |w.workers|
    ensures InOrder(Run(gate, steps).workers[i])
  {
    Reachable(gate, steps);
  }

  /** The last worker of a task to pass its completed touch closes its stream with an ending. */
  lemma {:induction false} LastFinalEventEnds(gate: Gate, steps: seq<Step>, i: nat)
    requires var w := Run(gate, steps);
      && w.store.created < TWO_64 && i < |w.workers| && w.workers[i].pc.AtEnd?
      && forall j :: 0 <= j < |w.workers| && w.workers[j].task == w.workers[i].task ==> !Outlasts(w, j, i)
    ensures var k := Run(gate, steps).workers[i]; IsStatus(k, 2, true) && Ended(k.events[2].status.state)
  {
    Reachable(gate, steps);
    assert FinalExplained(Run(gate, steps), i);
  }

  /** If another worker touches the task just before a final event, that event reports it running. */
  lemma EarlierFinalEventMayNotEnd(gate: Gate, w: World, i: nat, j: nat, now: Time)
    requires i < |w.workers| && j < |w.workers|
    requires w.workers[i].task == w.workers[j].task && w.workers[i].task in w.store.items
    requires w.workers[i].pc.AtSendFinal? && w.workers[j].pc.AtTouchRunning? && EventsInOrder(w)
    ensures var v := Next(gate, Next(gate, w, Advance(j, now)), Advance(i, now));
      && |v.workers[i].events| == 3 && v.workers[i].events[2].StatusUpdate?
      && v.workers[i].events[2].status.state == Running
  {
  }

  /** A request for a new stream that asks for no credentials. */
  const HELLO := SendParams(None, None, [Message("user", [])])

  lemma HelloAsksNothing()
    ensures !NeedsAuth(Detected(HELLO.messages))
  {
    assert HELLO.messages[..0] == [];
    assert Flatten(HELLO.messages) == Flatten([]) + [] == [];
  }

  /** A new stream through opsImpl: one more running task, and one worker about to touch it. */
  lemma NewStream(gate: Gate, s: StoreVal, now: Time)
    requires gate.streaming
    ensures var id := NextID(s);
      StreamOutcome(Ops, gate, s, Parsed(HELLO), now) ==
      Outcome(AfterNewTask(s, None, now), TaskResult(NewTaskVal(id, None, now)), Some(id))
  {
    HelloAsksNothing();
  }

  /** No terminal state is final: after any run, a stream, a cancel and the first touch leave the task running. */
  lemma TerminalCanBeLeft(gate: Gate, steps: seq<Step>, now: Time)
    requires gate.streaming
    ensures var u := Run(gate, steps);
      var t := NextID(u.store);
      var w := Next(gate, Next(gate, u, Handle(Ops, Stream(Parsed(HELLO)), now)), Handle(Ops, Cancel(Parsed(t)), now));
      var v := Next(gate, w, Advance(|u.workers|, now));
      && t in w.store.items && StateOf(w, t) == Canceled
      && t in v.store.items && StateOf(v, t) == Running
  {
    var u := Run(gate, steps);
    NewStream(gate, u.store, now);
    assert NextID(u.store) != "";
  }

  // Auth-required explains itself.

  /** The step is a send or stream that works on `t` and is missing the credential it requires. */
  predicate AsksFor(gate: Gate, s: StoreVal, st: Step, t: string, a: SecAuth) {
    && st.Handle? && st.impl == Ops
    && ((st.req.Send? && AsksWith(s, st.req.send, t, a))
        || (st.req.Stream? && gate.streaming && AsksWith(s, st.req.stream, t, a)))
  }

  predicate AsksWith(s: StoreVal, params: Params<SendParams>, t: string, a: SecAuth) {
    && Works(Ops, s, params) && Target(s, params.value) == t
    && a == Detected(params.value.messages) && NeedsAuth(a)
  }

  /** Some earlier request asked for credentials on `t`, and the task still carries its message. */
  ghost predicate Explained(gate: Gate, steps: seq<Step>, t: string, message: Option<DataPart>) {
    exists i, a :: 0 <= i < |steps| && AsksFor(gate, Run(gate, steps[..i]).store, steps[i], t, a)
                   && message == Some(BuildAuthMessage(a))
  }

  /** A step that leaves a task in auth-required either asked for it, or found it so and kept its status. */
  ghost predicate AskedOrKept(gate: Gate, w: World, st: Step, t: string) {
    var v := Next(gate, w, st);
    t in v.store.items && StateOf(v, t) == AuthRequired ==>
      || (t in w.store.items && v.store.items[t].status == w.store.items[t].status)
      || exists a :: AsksFor(gate, w.store, st, t, a) && v.store.items[t].status.message == Some(BuildAuthMessage(a))
  }

  /** The same for an outcome of opsImpl, or of any other implementation. */
  ghost predicate Asked(impl: Impl, s: StoreVal, p: Params<SendParams>, o: Outcome, t: string) {
    t in o.store.items && o.store.items[t].status.state == AuthRequired ==>
      || (t in s.items && o.store.items[t].status == s.items[t].status)
      || (impl == Ops && Works(Ops, s, p) && Target(s, p.value) == t && NeedsAuth(Detected(p.value.messages))
          && o.store.items[t].status.message == Some(BuildAuthMessage(Detected(p.value.messages))))
  }

  lemma SendAsked(impl: Impl, s: StoreVal, p: Params<SendParams>, now: Time, t: string)
    ensures Asked(impl, s, p, SendOutcome(impl, s, p, now), t)
  {
  }

  lemma StreamAsked(impl: Impl, gate: Gate, s: StoreVal, p: Params<SendParams>, now: Time, t: string)
    ensures Asked(impl, s, p, StreamOutcome(impl, gate, s, p, now), t)
    ensures !gate.streaming ==> StreamOutcome(impl, gate, s, p, now).store == s
  {
  }

  lemma SendAskedOrKept(gate: Gate, w: World, st: Step, t: string)
    requires st.Handle? && st.req.Send?
    ensures AskedOrKept(gate, w, st, t)
  {
    SendAsked(st.impl, w.store, st.req.send, st.now, t);
    if st.req.send.Parsed? {
      assert AsksFor(gate, w.store, st, t, Detected(st.req.send.value.messages)) <==>
             st.impl == Ops && AsksWith(w.store, st.req.send, t, Detected(st.req.send.value.messages));
    }
  }

  lemma StreamAskedOrKept(gate: Gate, w: World, st: Step, t: string)
    requires st.Handle? && st.req.Stream?
    ensures AskedOrKept(gate, w, st, t)
  {
    StreamAsked(st.impl, gate, w.store, st.req.stream, st.now, t);
    if st.req.stream.Parsed? {
      assert AsksFor(gate, w.store, st, t, Detected(st.req.stream.value.messages)) <==>
             st.impl == Ops && gate.streaming
             && AsksWith(w.store, st.req.stream, t, Detected(st.req.stream.value.messages));
    }
  }

  lemma HandleAskedOrKept(gate: Gate, w: World, st: Step, t: string)
    requires st.Handle?
    ensures AskedOrKept(gate, w, st, t)
  {
    match st.req
    case Send(p) => SendAskedOrKept(gate, w, st, t);
    case Stream(p) => StreamAskedOrKept(gate, w, st, t);
    case Resubscribe(p) =>
    case _ => assert Next(gate, w, st).store == SharedOutcome(gate, w.store, st.req, st.now).store;
  }

  lemma AdvanceAskedOrKept(gate: Gate, w: World, st: Step, t: string)
    requires Grounded(w) && st.Advance?
    ensures AskedOrKept(gate, w, st, t)
  {
    if st.i < |w.workers| {
      WorkIsUpdate(w.store, w.workers[st.i], st.now);
    }
  }

  /** An explanation stays one in every longer run. */
  lemma ExplainedLater(gate: Gate, before: seq<Step>, st: Step, t: string, message: Option<DataPart>)
    requires Explained(gate, before, t, message)
    ensures Explained(gate, before + [st], t, message)
  {
    var steps := before + [st];
    var i, a :| 0 <= i < |before| && AsksFor(gate, Run(gate, before[..i]).store, before[i], t, a)
                && message == Some(BuildAuthMessage(a));
    assert before[..i] == steps[..i] && before[i] == steps[i];
    assert AsksFor(gate, Run(gate, steps[..i]).store, steps[i], t, a);
  }

  lemma ExplainedNow(gate: Gate, before: seq<Step>, st: Step, t: string, a: SecAuth)
    requires AsksFor(gate, Run(gate, before).store, st, t, a)
    ensures Explained(gate, before + [st], t, Some(BuildAuthMessage(a)))
  {
    var steps, n := before + [st], |before|;
    assert steps[..n] == before && steps[n] == st;
    assert AsksFor(gate, Run(gate, steps[..n]).store, steps[n], t, a);
  }

  lemma StepAskedOrKept(gate: Gate, w: World, st: Step, t: string)
    requires Grounded(w)
    ensures AskedOrKept(gate, w, st, t)
  {
    if st.Handle? {
      HandleAskedOrKept(gate, w, st, t);
    } else {
      AdvanceAskedOrKept(gate, w, st, t);
    }
  }

  /**
   * In every reachable state, a task in auth-required carries the message of some earlier
   * request on it that required a credential and brought none.
   */
  lemma {:induction false} AuthRequiredExplained(gate: Gate, steps: seq<Step>, t: string)
    requires var w := Run(gate, steps); w.store.created < TWO_64 && t in w.store.items && StateOf(w, t) == AuthRequired
    ensures Explained(gate, steps, t, Run(gate, steps).store.items[t].status.message)
    decreases |steps|
  {
    var n := |steps| - 1;
    var before, st := steps[..n], steps[n];
    assert steps == before + [st];
    var w := Run(gate, before);
    CountNeverFalls(gate, w, st);
    Reachable(gate, before);
    StepAskedOrKept(gate, w, st, t);
    if t in w.store.items && Run(gate, steps).store.items[t].status == w.store.items[t].status {
      AuthRequiredExplained(gate, before, t);
      ExplainedLater(gate, before, st, t, w.store.items[t].status.message);
    } else {
      var a :| AsksFor(gate, w.store, st, t, a)
               && Run(gate, steps).store.items[t].status.message == Some(BuildAuthMessage(a));
      ExplainedNow(gate, before, st, t, a);
    }
  }

  /** No statement of a worker drops a task's message; a completed send does. */
  lemma MessageKeptAndCleared(s: StoreVal, k: Worker, impl: Impl, p: Params<SendParams>, now: Time)
    requires k.task in s.items && s.items[k.task].id == k.task
    ensures Work(s, k, now).0.items[k.task].status.message == s.items[k.task].status.message
    ensures var r := SendOutcome(impl, s, p, now).response;
      r.TaskResult? && r.task.status.state == Completed ==> r.task.status.message == None && |r.task.artifacts| == 1
  {
    WorkIsUpdate(s, k, now);
  }
}
