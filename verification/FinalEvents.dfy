/** Which streams are sure to close with an ending, in runs with atomic handlers: the exact condition. */
module FinalEvents {
  import opened Schema
  import opened Decimal
  import opened StoreModel
  import opened Handlers
  import opened Workers
  import opened Lifecycle

  /** A worker of the task has yet to touch it for the first time. */
  ghost predicate Starting(w: World, t: string) {
    exists j :: 0 <= j < |w.workers| && w.workers[j].task == t && w.workers[j].pc.AtTouchRunning?
  }

  /** Worker i has not sent its final event, or its final event reported an ending. */
  predicate Unspoiled(w: World, i: nat) {
    i < |w.workers| &&
    var k := w.workers[i];
    k.pc.AtEnd? ==> IsStatus(k, 2, true) && Ended(k.events[2].status.state)
  }

  /** Whatever happens next, the stream of worker i does not close with anything but an ending. */
  ghost predicate SureToEnd(gate: Gate, w: World, i: nat) {
    forall steps: seq<Step> :: After(gate, w, steps).store.created < TWO_64 ==> Unspoiled(After(gate, w, steps), i)
  }

  /** No worker can reopen the task, none can be started on it, and worker i reports an ending or will make one. */
  ghost predicate Safe(w: World, i: nat)
    requires i < |w.workers| && w.workers[i].task in w.store.items
  {
    var k := w.workers[i];
    var state := StateOf(w, k.task);
    !Starting(w, k.task) && IsTerminal(state) && (Ended(state) || Underway(k))
  }

  // Safety is kept.

  ghost predicate StaysSafe(w: World, i: nat) {
    && EventsInOrder(w) && Unspoiled(w, i)
    && w.workers[i].task in w.store.items && Safe(w, i)
  }

  /** No worker is started on a terminal task. */
  lemma TerminalStartsNothing(impl: Impl, gate: Gate, s: StoreVal, req: Request, now: Time, t: string)
    requires Intact(s) && t in s.items && IsTerminal(s.items[t].status.state)
    ensures Serve(impl, gate, s, req, now).spawned != Some(t)
  {
    NextIsFree(s);
    match req
    case Send(p) =>
    case Stream(p) => assert StreamOutcome(impl, gate, s, p, now).spawned != Some(t);
    case Resubscribe(p) =>
    case _ => SharedEffect(gate, s, req, now);
  }

  lemma HandleStaysSafe(gate: Gate, w: World, st: Step, i: nat)
    requires Grounded(w) && StaysSafe(w, i) && st.Handle?
    ensures StaysSafe(Next(gate, w, st), i)
  {
    var v, t := Next(gate, w, st), w.workers[i].task;
    HandleShape(gate, w, st);
    EventsStep(w, v);
    TerminalStartsNothing(st.impl, gate, w.store, st.req, st.now, t);
    assert v.workers[i] == w.workers[i];
    assert Allowed(w.store.items[t], v.store.items[t]);
  }

  /** Past its first touch, a worker's statements leave the state alone or complete the task. */
  lemma LaterStatements(s: StoreVal, k: Worker, now: Time)
    requires k.task in s.items && s.items[k.task].id == k.task && !k.pc.AtTouchRunning?
    ensures var (s', k') := Work(s, k, now);
      && !k'.pc.AtTouchRunning? && k.task in s'.items
      && s'.items[k.task].status.state == if k.pc.AtTouchCompleted? then Completed else s.items[k.task].status.state
  {
    WorkIsUpdate(s, k, now);
  }

  /** Nor does a statement make a worker start over. */
  lemma AdvanceStartsNothing(gate: Gate, w: World, st: Step, t: string)
    requires Grounded(w) && st.Advance? && st.i < |w.workers| && !Starting(w, t)
    ensures !Starting(Next(gate, w, st), t)
  {
    var v, k := Next(gate, w, st), w.workers[st.i];
    assert v.workers[st.i] == Work(w.store, k, st.now).1;
    if k.task == t {
      LaterStatements(w.store, k, st.now);
    }
    forall j | 0 <= j < |v.workers| && v.workers[j].task == t
      ensures !v.workers[j].pc.AtTouchRunning?
    {
      assert j != st.i ==> v.workers[j] == w.workers[j];
    }
  }

  lemma AdvanceStaysSafe(gate: Gate, w: World, st: Step, i: nat)
    requires Grounded(w) && StaysSafe(w, i) && st.Advance? && st.i < |w.workers|
    ensures StaysSafe(Next(gate, w, st), i)
  {
    var t := w.workers[i].task;
    AdvanceShape(gate, w, st);
    MovedStaysSafe(w, Next(gate, w, st), st.i, i) by {
      if w.workers[st.i].task == t {
        LaterStatements(w.store, w.workers[st.i], st.now);
      }
      AdvanceStartsNothing(gate, w, st, t);
    }
  }

  lemma MovedStaysSafe(w: World, v: World, j: nat, i: nat)
    requires StaysSafe(w, i) && Moved(w, v, j)
    requires var t := w.workers[i].task;
      && !Starting(v, t)
      && (w.workers[j].task == t ==>
            StateOf(v, t) == if w.workers[j].pc.AtTouchCompleted? then Completed else StateOf(w, t))
    ensures StaysSafe(v, i)
  {
    EventsStep(w, v);
  }

  lemma {:induction false} SafeForever(gate: Gate, w: World, steps: seq<Step>, i: nat)
    requires Grounded(w) && StaysSafe(w, i) && After(gate, w, steps).store.created < TWO_64
    ensures Grounded(After(gate, w, steps)) && StaysSafe(After(gate, w, steps), i)
    decreases |steps|
  {
    if steps != [] {
      var u, st := After(gate, w, steps[..|steps| - 1]), steps[|steps| - 1];
      CountNeverFalls(gate, u, st);
      SafeForever(gate, w, steps[..|steps| - 1], i);
      StepShape(gate, u, st);
      GroundedStep(u, Next(gate, u, st));
      if st.Handle? {
        HandleStaysSafe(gate, u, st, i);
      } else if st.i < |u.workers| {
        AdvanceStaysSafe(gate, u, st, i);
      }
    }
  }

  // Otherwise some schedule spoils it.

  lemma AfterTwo(gate: Gate, w: World, a: Step, b: Step)
    ensures After(gate, w, [a, b]) == Next(gate, Next(gate, w, a), b)
  {
    assert [a, b][..1] == [a];
    AfterOne(gate, w, a);
  }

  /** One statement of worker i: the others wait, and nothing is created. */
  lemma Advanced(gate: Gate, w: World, i: nat)
    requires Grounded(w) && EventsInOrder(w) && i < |w.workers|
    ensures var v := Next(gate, w, Advance(i, 0));
      && Grounded(v) && EventsInOrder(v)
      && v.store.created == w.store.created && |v.workers| == |w.workers|
      && v.workers[i] == Work(w.store, w.workers[i], 0).1 && v.workers[i].task == w.workers[i].task
      && forall j :: 0 <= j < |w.workers| && j != i ==> v.workers[j] == w.workers[j]
  {
    AdvanceShape(gate, w, Advance(i, 0));
    var v := Next(gate, w, Advance(i, 0));
    GroundedStep(w, v);
    EventsStep(w, v);
  }

  lemma OneLess(gate: Gate, w: World, i: nat)
    requires Grounded(w) && i < |w.workers| && Left(w.workers[i].pc) > 0
    ensures Left(Next(gate, w, Advance(i, 0)).workers[i].pc) == Left(w.workers[i].pc) - 1
  {
    assert Next(gate, w, Advance(i, 0)).workers[i] == Work(w.store, w.workers[i], 0).1;
  }

  /** Worker i closed its stream with a task that was running again, and worker j was still to complete it. */
  predicate ClosedRunning(w: World, i: nat, j: nat) {
    && i < |w.workers| && j < |w.workers| && w.workers[i].task == w.workers[j].task
    && w.workers[i].pc.AtEnd? && IsStatus(w.workers[i], 2, true) && w.workers[i].events[2].status.state == Running
    && Underway(w.workers[j])
  }

  lemma SentWhileRunning(gate: Gate, w: World, i: nat, j: nat)
    requires Grounded(w) && EventsInOrder(w) && i < |w.workers| && j < |w.workers| && i != j
    requires w.workers[i].task == w.workers[j].task && Underway(w.workers[j])
    requires w.workers[i].pc.AtSendFinal? && StateOf(w, w.workers[i].task) == Running
    ensures var v := Next(gate, w, Advance(i, 0));
      v.store.created == w.store.created && ClosedRunning(v, i, j)
  {
    Advanced(gate, w, i);
    assert InOrder(w.workers[i]);
  }

  lemma TouchedThenSent(gate: Gate, w: World, i: nat, j: nat)
    requires Grounded(w) && EventsInOrder(w) && i < |w.workers| && j < |w.workers| && i != j
    requires w.workers[i].task == w.workers[j].task
    requires w.workers[j].pc.AtTouchRunning? && w.workers[i].pc.AtSendFinal?
    ensures var v := Next(gate, Next(gate, w, Advance(j, 0)), Advance(i, 0));
      v.store.created == w.store.created && ClosedRunning(v, i, j)
  {
    Advanced(gate, w, j);
    FirstTouch(w.store, w.workers[j]);
    SentWhileRunning(gate, Next(gate, w, Advance(j, 0)), i, j);
  }

  lemma FirstTouch(s: StoreVal, k: Worker)
    requires k.task in s.items && s.items[k.task].id == k.task && k.pc.AtTouchRunning?
    ensures var (s', k') := Work(s, k, 0);
      Underway(k') && k.task in s'.items && s'.items[k.task].status.state == Running
  {
    WorkIsUpdate(s, k, 0);
  }

  /** Let worker i run up to its final event, then let worker j touch the task first. */
  lemma {:induction false} SpoiledByOther(gate: Gate, w: World, i: nat, j: nat) returns (steps: seq<Step>)
    requires Grounded(w) && EventsInOrder(w) && i < |w.workers| && j < |w.workers| && i != j
    requires w.workers[i].task == w.workers[j].task && w.workers[j].pc.AtTouchRunning? && !w.workers[i].pc.AtEnd?
    ensures var v := After(gate, w, steps); v.store.created == w.store.created && ClosedRunning(v, i, j)
    decreases Left(w.workers[i].pc)
  {
    if w.workers[i].pc.AtSendFinal? {
      steps := [Advance(j, 0), Advance(i, 0)];
      TouchedThenSent(gate, w, i, j);
      AfterTwo(gate, w, steps[0], steps[1]);
    } else {
      Advanced(gate, w, i);
      OneLess(gate, w, i);
      var rest := SpoiledByOther(gate, Next(gate, w, Advance(i, 0)), i, j);
      steps := [Advance(i, 0)] + rest;
      AfterOne(gate, w, Advance(i, 0));
      AfterJoin(gate, w, [Advance(i, 0)], rest);
    }
  }

  /** Worker i, past its completed touch, reports the state as it finds it. */
  lemma {:induction false} SpoiledAlone(gate: Gate, w: World, i: nat) returns (steps: seq<Step>)
    requires Grounded(w) && EventsInOrder(w) && i < |w.workers|
    requires !Underway(w.workers[i]) && !w.workers[i].pc.AtEnd? && !Ended(StateOf(w, w.workers[i].task))
    ensures var v := After(gate, w, steps); v.store.created == w.store.created && !Unspoiled(v, i)
    decreases Left(w.workers[i].pc)
  {
    var v := Next(gate, w, Advance(i, 0));
    Advanced(gate, w, i);
    OneLess(gate, w, i);
    AdvanceShape(gate, w, Advance(i, 0));
    AfterOne(gate, w, Advance(i, 0));
    if w.workers[i].pc.AtSendFinal? {
      steps := [Advance(i, 0)];
    } else {
      var rest := SpoiledAlone(gate, v, i);
      steps := [Advance(i, 0)] + rest;
      AfterJoin(gate, w, [Advance(i, 0)], rest);
    }
  }

  /** A request without demands that continues the task. */
  function Again(t: string): Request {
    Stream(Parsed(SendParams(None, Some(t), HELLO.messages)))
  }

  lemma AgainStarts(gate: Gate, s: StoreVal, t: string)
    requires gate.streaming && Intact(s) && t in s.items && !IsTerminal(s.items[t].status.state)
    ensures Serve(Ops, gate, s, Again(t), 0) == Outcome(s, TaskResult(s.items[t]), Some(t))
  {
    IssuedMembers(s.created, t);
    HelloAsksNothing();
  }

  /** Streaming to a task that is not terminal starts one more worker on it, and changes nothing else. */
  lemma OneMoreWorker(gate: Gate, w: World, t: string)
    requires gate.streaming && Intact(w.store) && t in w.store.items && !IsTerminal(StateOf(w, t))
    ensures Next(gate, w, Handle(Ops, Again(t), 0)) == w.(workers := w.workers + [NewWorker(t)])
  {
    AgainStarts(gate, w.store, t);
  }

  /** While the task is open another worker can be started on it, and be late. */
  lemma SpoiledByStream(gate: Gate, w: World, i: nat) returns (steps: seq<Step>)
    requires gate.streaming && Grounded(w) && EventsInOrder(w) && i < |w.workers| && !w.workers[i].pc.AtEnd?
    requires !IsTerminal(StateOf(w, w.workers[i].task))
    ensures var v := After(gate, w, steps); v.store.created == w.store.created && !Unspoiled(v, i)
  {
    var t := w.workers[i].task;
    var st := Handle(Ops, Again(t), 0);
    var v := Next(gate, w, st);
    OneMoreWorker(gate, w, t);
    var rest := SpoiledByOther(gate, v, i, |w.workers|);
    steps := [st] + rest;
    AfterOne(gate, w, st);
    AfterJoin(gate, w, [st], rest);
  }

  /** A worker that starts reopens the task itself. */
  lemma SpoiledFromStart(gate: Gate, w: World, i: nat) returns (steps: seq<Step>)
    requires gate.streaming && Grounded(w) && EventsInOrder(w) && i < |w.workers| && w.workers[i].pc.AtTouchRunning?
    ensures var v := After(gate, w, steps); v.store.created == w.store.created && !Unspoiled(v, i)
  {
    var v := Next(gate, w, Advance(i, 0));
    Advanced(gate, w, i);
    FirstTouch(w.store, w.workers[i]);
    var rest := SpoiledByStream(gate, v, i);
    steps := [Advance(i, 0)] + rest;
    AfterOne(gate, w, Advance(i, 0));
    AfterJoin(gate, w, [Advance(i, 0)], rest);
  }

  lemma Spoiled(gate: Gate, w: World, i: nat) returns (steps: seq<Step>)
    requires gate.streaming && Grounded(w) && EventsInOrder(w) && i < |w.workers| && !w.workers[i].pc.AtEnd?
    requires !Safe(w, i)
    ensures var v := After(gate, w, steps); v.store.created == w.store.created && !Unspoiled(v, i)
  {
    var t := w.workers[i].task;
    if w.workers[i].pc.AtTouchRunning? {
      steps := SpoiledFromStart(gate, w, i);
    } else if Starting(w, t) {
      var j :| 0 <= j < |w.workers| && w.workers[j].task == t && w.workers[j].pc.AtTouchRunning?;
      steps := SpoiledByOther(gate, w, i, j);
    } else if !IsTerminal(StateOf(w, t)) {
      steps := SpoiledByStream(gate, w, i);
    } else {
      steps := SpoiledAlone(gate, w, i);
    }
  }

  /**
   * The stream of a worker is sure to close with an ending exactly when its task is terminal
   * already, no worker of the task has yet to touch it for the first time, and the state is an
   * ending or will be made one by the worker itself.
   */
  lemma FinalEventLaw(gate: Gate, w: World, i: nat)
    requires gate.streaming && Grounded(w) && EventsInOrder(w) && i < |w.workers| && !w.workers[i].pc.AtEnd?
    ensures SureToEnd(gate, w, i) <==> Safe(w, i)
  {
    if Safe(w, i) {
      forall steps: seq<Step> | After(gate, w, steps).store.created < TWO_64
        ensures Unspoiled(After(gate, w, steps), i)
      {
        SafeForever(gate, w, steps, i);
      }
    } else if SureToEnd(gate, w, i) {
      var steps := Spoiled(gate, w, i);
      assert false;
    }
  }

  // In reachable states.

  /** The states the handlers and workers write. */
  predicate EverWritten(s: TaskState) {
    s == Running || s == AuthRequired || Ended(s)
  }

  lemma ServeWrites(impl: Impl, gate: Gate, s: StoreVal, req: Request, now: Time, id: string)
    requires id in Serve(impl, gate, s, req, now).store.items
    requires id in s.items ==> EverWritten(s.items[id].status.state)
    ensures EverWritten(Serve(impl, gate, s, req, now).store.items[id].status.state)
  {
    match req
    case Send(p) => SendWrites(impl, s, p, now, id);
    case Stream(p) => StreamWrites(impl, gate, s, p, now, id);
    case Resubscribe(p) =>
    case _ => SharedWrites(gate, s, req, now, id);
  }

  lemma SendWrites(impl: Impl, s: StoreVal, p: Params<SendParams>, now: Time, id: string)
    requires id in SendOutcome(impl, s, p, now).store.items
    requires id in s.items ==> EverWritten(s.items[id].status.state)
    ensures EverWritten(SendOutcome(impl, s, p, now).store.items[id].status.state)
  {
  }

  lemma StreamWrites(impl: Impl, gate: Gate, s: StoreVal, p: Params<SendParams>, now: Time, id: string)
    requires id in StreamOutcome(impl, gate, s, p, now).store.items
    requires id in s.items ==> EverWritten(s.items[id].status.state)
    ensures EverWritten(StreamOutcome(impl, gate, s, p, now).store.items[id].status.state)
  {
  }

  lemma SharedWrites(gate: Gate, s: StoreVal, req: Request, now: Time, id: string)
    requires Shared(req) && id in SharedOutcome(gate, s, req, now).store.items
    requires id in s.items ==> EverWritten(s.items[id].status.state)
    ensures EverWritten(SharedOutcome(gate, s, req, now).store.items[id].status.state)
  {
  }

  lemma NoStreamNoWorker(impl: Impl, gate: Gate, s: StoreVal, req: Request, now: Time)
    requires !gate.streaming
    ensures Serve(impl, gate, s, req, now).spawned.None?
  {
    match req
    case Send(p) =>
    case Stream(p) => assert StreamOutcome(impl, gate, s, p, now).spawned.None?;
    case Resubscribe(p) =>
    case _ => SharedEffect(gate, s, req, now);
  }

  /** No task ever fails, and there are workers only where streaming is supported. */
  lemma {:induction false} OnlyWritten(gate: Gate, steps: seq<Step>)
    requires Run(gate, steps).store.created < TWO_64
    ensures forall id :: id in Run(gate, steps).store.items ==> EverWritten(StateOf(Run(gate, steps), id))
    ensures Run(gate, steps).workers != [] ==> gate.streaming
    decreases |steps|
  {
    if steps != [] {
      var before, st := steps[..|steps| - 1], steps[|steps| - 1];
      var w := Run(gate, before);
      CountNeverFalls(gate, w, st);
      OnlyWritten(gate, before);
      if st.Advance? {
        Reachable(gate, before);
      }
      WritesStep(gate, w, st);
    }
  }

  lemma WritesStep(gate: Gate, w: World, st: Step)
    requires forall id :: id in w.store.items ==> EverWritten(StateOf(w, id))
    requires w.workers != [] ==> gate.streaming
    requires st.Advance? ==> Grounded(w)
    ensures var v := Next(gate, w, st);
      && (forall id :: id in v.store.items ==> EverWritten(StateOf(v, id)))
      && (v.workers != [] ==> gate.streaming)
  {
    var v := Next(gate, w, st);
    match st {
      case Handle(impl, req, now) =>
        forall id | id in v.store.items
          ensures EverWritten(StateOf(v, id))
        {
          ServeWrites(impl, gate, w.store, req, now, id);
        }
        if !gate.streaming {
          NoStreamNoWorker(impl, gate, w.store, req, now);
        }
      case Advance(i, now) =>
        if i < |w.workers| {
          WorkIsUpdate(w.store, w.workers[i], now);
        }
    }
  }

  /** In every reachable state the condition is that the task has ended and no worker of it is starting. */
  lemma ReachableFinalEvents(gate: Gate, steps: seq<Step>, i: nat)
    requires var w := Run(gate, steps); w.store.created < TWO_64 && i < |w.workers| && !w.workers[i].pc.AtEnd?
    ensures var w := Run(gate, steps);
      && w.workers[i].task in w.store.items
      && (SureToEnd(gate, w, i) <==> Ended(StateOf(w, w.workers[i].task)) && !Starting(w, w.workers[i].task))
  {
    Reachable(gate, steps);
    OnlyWritten(gate, steps);
    FinalEventLaw(gate, Run(gate, steps), i);
  }

  lemma FirstStream(gate: Gate, u: World)
    requires gate.streaming && Grounded(u) && EventsInOrder(u) && u.store.created + 1 < TWO_64
    ensures var v := Next(gate, u, Handle(Ops, Stream(Parsed(HELLO)), 0)); var t := NextID(u.store);
      && Grounded(v) && EventsInOrder(v)
      && v.workers == u.workers + [NewWorker(t)]
      && t in v.store.items && StateOf(v, t) == Running
  {
    var st := Handle(Ops, Stream(Parsed(HELLO)), 0);
    NewStream(gate, u.store, 0);
    HandleShape(gate, u, st);
    EventsStep(u, Next(gate, u, st));
    GroundedStep(u, Next(gate, u, st));
  }

  /** Two streams to one new task leave two workers about to start on it. */
  lemma TwoStreams(gate: Gate, u: World) returns (two: seq<Step>)
    requires gate.streaming && Grounded(u) && EventsInOrder(u) && u.store.created + 1 < TWO_64
    ensures var w := After(gate, u, two); var t := NextID(u.store);
      && Grounded(w) && EventsInOrder(w)
      && w.workers == u.workers + [NewWorker(t), NewWorker(t)]
  {
    var t := NextID(u.store);
    var first, second := Handle(Ops, Stream(Parsed(HELLO)), 0), Handle(Ops, Again(t), 0);
    FirstStream(gate, u);
    OneMoreWorker(gate, Next(gate, u, first), t);
    AfterTwo(gate, u, first, second);
    two := [first, second];
  }

  lemma ClosedRunningAhead(gate: Gate, u: World) returns (more: seq<Step>)
    requires gate.streaming && Grounded(u) && EventsInOrder(u) && u.store.created + 1 < TWO_64
    ensures ClosedRunning(After(gate, u, more), |u.workers|, |u.workers| + 1)
  {
    var two := TwoStreams(gate, u);
    var rest := SpoiledByOther(gate, After(gate, u, two), |u.workers|, |u.workers| + 1);
    more := two + rest;
    AfterJoin(gate, u, two, rest);
  }

  /** After any run: two streams to one new task, and the first worker closes while the task is running again. */
  lemma EarlierFinalEventReached(gate: Gate, steps: seq<Step>) returns (more: seq<Step>)
    requires gate.streaming && Run(gate, steps).store.created + 1 < TWO_64
    ensures var n := |Run(gate, steps).workers|; ClosedRunning(Run(gate, steps + more), n, n + 1)
  {
    Reachable(gate, steps);
    more := ClosedRunningAhead(gate, Run(gate, steps));
    AfterJoin(gate, START, steps, more);
  }
}
