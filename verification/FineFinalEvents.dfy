/** Which streams are sure to close with an ending, at the finer grain: the exact condition. */
module FineFinalEvents {
  import opened Schema
  import opened Decimal
  import opened SecondaryAuth
  import opened StoreModel
  import opened Handlers
  import opened Workers
  import opened Interleaving
  import opened Simulation
  import opened Settling
  import Lifecycle

  /** Thread i is a worker that has not sent its final event, or whose final event reported an ending. */
  predicate Unspoiled(w: World, i: nat) {
    && i < |w.threads| && w.threads[i].Streaming?
    && var k := w.threads[i].worker;
       k.pc.AtEnd? ==> Lifecycle.IsStatus(k, 2, true) && Lifecycle.Ended(k.events[2].status.state)
  }

  /** Whatever happens next, the stream of worker i does not close with anything but an ending. */
  ghost predicate SureToEnd(gate: Gate, w: World, i: nat) {
    forall steps: seq<Step> :: After(gate, w, steps).store.created < TWO_64 ==> Unspoiled(After(gate, w, steps), i)
  }

  /** Thread i is a worker of `t` that has sent what it should so far. */
  predicate WorksOn(w: World, t: string, i: nat) {
    i < |w.threads| && Streams(w.threads[i], t) && Lifecycle.InOrder(w.threads[i].worker)
  }

  /** Nothing is in flight that could reopen the task, and worker i reports an ending or will make one. */
  ghost predicate Safe(w: World, t: string, i: nat)
    requires WorksOn(w, t, i)
  {
    Quiet(w, t) && (Lifecycle.Ended(StateOf(w, t)) || Underway(w.threads[i].worker))
  }

  // Safety is kept.

  ghost predicate StaysSafe(w: World, t: string, i: nat) {
    WorksOn(w, t, i) && Unspoiled(w, i) && Safe(w, t, i)
  }

  /** A worker's statement, as a step of its thread. */
  lemma WorkerExec(gate: Gate, s: StoreVal, k: Worker, now: Time)
    requires Intact(s) && k.task in s.items
    ensures var (s', k') := Work(s, k, now);
      && Exec(gate, s, Streaming(k), now) == (s', Streaming(k')) && k'.task == k.task && s'.created == s.created
      && (Left(k.pc) > 0 ==> Left(k'.pc) == Left(k.pc) - 1)
      && (Lifecycle.InOrder(k) ==>
            && Lifecycle.InOrder(k')
            && (k'.pc.AtEnd? ==> k' == k || k'.events[2] == NewStatusEvent(s.items[k.task], true)))
  {
    WorkIsUpdate(s, k, now);
    if Lifecycle.InOrder(k) {
      Lifecycle.WorkInOrder(s, k, now);
    }
  }

  lemma OwnStepStaysSafe(gate: Gate, w: World, now: Time, t: string, i: nat)
    requires Grounded(w) && StaysSafe(w, t, i)
    ensures var v := Next(gate, w, Go(i, now));
      && WorksOn(v, t, i) && Unspoiled(v, i)
      && (Underway(w.threads[i].worker) ==>
            Underway(v.threads[i].worker) || StateAfter(w.threads[i], t, StateOf(w, t)) == Completed)
  {
    var th := w.threads[i];
    assert Holds(w.store, th);
    WorkerExec(gate, w.store, th.worker, now);
    ExecWorker(gate, w.store, th, now, t);
  }

  /** No step of any thread takes a quiet task from an ending. */
  lemma EndingStays(w: World, j: nat, t: string)
    requires Quiet(w, t) && j < |w.threads| && Lifecycle.Ended(StateOf(w, t))
    ensures Lifecycle.Ended(StateAfter(w.threads[j], t, StateOf(w, t)))
  {
    assert !Hazard(w.threads[j], t);
  }

  lemma GoStaysSafe(gate: Gate, w: World, j: nat, now: Time, t: string, i: nat)
    requires Grounded(w) && StaysSafe(w, t, i) && j < |w.threads|
    ensures StaysSafe(Next(gate, w, Go(j, now)), t, i)
  {
    var v := Next(gate, w, Go(j, now));
    QuietStep(gate, w, Go(j, now), t);
    ExecStateAfter(gate, w.store, w.threads[j], now, t);
    assert StateOf(v, t) == StateAfter(w.threads[j], t, StateOf(w, t));
    if Lifecycle.Ended(StateOf(w, t)) {
      EndingStays(w, j, t);
    }
    if j == i {
      OwnStepStaysSafe(gate, w, now, t, i);
    } else {
      assert v.threads[i] == w.threads[i];
    }
  }

  lemma {:induction false} SafeForever(gate: Gate, w: World, steps: seq<Step>, t: string, i: nat)
    requires Grounded(w) && StaysSafe(w, t, i) && After(gate, w, steps).store.created < TWO_64
    ensures StaysSafe(After(gate, w, steps), t, i)
    decreases |steps|
  {
    if steps != [] {
      var st, v := steps[0], Next(gate, w, steps[0]);
      CreatedMonotone(gate, v, steps[1..]);
      GroundedStep(gate, w, st);
      if st.Go? && st.i < |w.threads| {
        GoStaysSafe(gate, w, st.i, st.now, t, i);
      } else {
        QuietStep(gate, w, st, t);
      }
      SafeForever(gate, v, steps[1..], t, i);
    }
  }

  // Otherwise some schedule spoils it.

  /** Worker i of `t` is still at work. */
  ghost predicate AtWork(w: World, t: string, i: nat) {
    Grounded(w) && WorksOn(w, t, i) && !w.threads[i].worker.pc.AtEnd?
  }

  /** The schedule has spoiled the stream of worker i, without running out of ids. */
  ghost predicate Spoils(gate: Gate, w: World, steps: seq<Step>, i: nat) {
    After(gate, w, steps).store.created < TWO_64 && !Unspoiled(After(gate, w, steps), i)
  }

  lemma SpoilsLater(gate: Gate, w: World, first: Step, rest: seq<Step>, i: nat)
    requires Spoils(gate, Next(gate, w, first), rest, i)
    ensures Spoils(gate, w, [first] + rest, i)
  {
    assert ([first] + rest)[1..] == rest;
  }

  /** One statement of worker i: the others wait. */
  lemma WorkerGo(gate: Gate, w: World, t: string, i: nat)
    requires AtWork(w, t, i)
    ensures var v := Next(gate, w, Go(i, 0));
      && Grounded(v) && WorksOn(v, t, i) && |v.threads| == |w.threads|
      && Left(v.threads[i].worker.pc) == Left(w.threads[i].worker.pc) - 1
      && forall j :: 0 <= j < |w.threads| && j != i ==> v.threads[j] == w.threads[j]
  {
    var th := w.threads[i];
    assert Holds(w.store, th);
    WorkerExec(gate, w.store, th.worker, 0);
    GroundedStep(gate, w, Go(i, 0));
  }

  /** A worker that is about to send its final event reports the state it finds. */
  lemma SendsState(gate: Gate, w: World, t: string, i: nat)
    requires Grounded(w) && WorksOn(w, t, i) && w.threads[i].worker.pc.AtSendFinal?
    requires t in w.store.items && !Lifecycle.Ended(StateOf(w, t))
    ensures Spoils(gate, w, [Go(i, 0)], i)
  {
    WorkerExec(gate, w.store, w.threads[i].worker, 0);
    GroundedStep(gate, w, Go(i, 0));
    AfterOne(gate, w, Go(i, 0));
  }

  lemma AskedThenSent(gate: Gate, w: World, t: string, i: nat, j: nat)
    requires AtWork(w, t, i) && w.threads[i].worker.pc.AtSendFinal?
    requires j < |w.threads| && w.threads[j].AtTouchAuth? && w.threads[j].task == t
    ensures Spoils(gate, w, [Go(j, 0)] + [Go(i, 0)], i)
  {
    var v := Next(gate, w, Go(j, 0));
    AskedWhenSettled(gate, w, j, 0, t);
    GroundedStep(gate, w, Go(j, 0));
    assert v.threads[i] == w.threads[i];
    SendsState(gate, v, t, i);
    SpoilsLater(gate, w, Go(j, 0), [Go(i, 0)], i);
  }

  /** Let worker i run up to its final event, then let request j ask for credentials. */
  lemma {:induction false} SpoiledByAsking(gate: Gate, w: World, t: string, i: nat, j: nat) returns (steps: seq<Step>)
    requires AtWork(w, t, i) && j < |w.threads| && w.threads[j].AtTouchAuth? && w.threads[j].task == t
    ensures Spoils(gate, w, steps, i)
    decreases Left(w.threads[i].worker.pc)
  {
    if w.threads[i].worker.pc.AtSendFinal? {
      AskedThenSent(gate, w, t, i, j);
      steps := [Go(j, 0)] + [Go(i, 0)];
    } else {
      WorkerGo(gate, w, t, i);
      var rest := SpoiledByAsking(gate, Next(gate, w, Go(i, 0)), t, i, j);
      steps := [Go(i, 0)] + rest;
      SpoilsLater(gate, w, Go(i, 0), rest, i);
    }
  }

  /** A request past its guard on a task that is not terminal. */
  lemma Demanded(gate: Gate, w: World, t: string)
    requires Grounded(w) && t in w.store.items && !IsTerminal(StateOf(w, t))
    ensures var v := After(gate, w, PastGuard(t, |w.threads|)); var a := Detected(Demand(t).messages);
      Grounded(v) && v == w.(threads := w.threads + [AtTouchAuth(t, a)])
  {
    IssuedMembers(w.store.created, t);
    DemandPasses(gate, w, t);
  }

  /** While the task is open a request can pass its guard, and ask late. */
  lemma SpoiledByDemand(gate: Gate, w: World, t: string, i: nat) returns (steps: seq<Step>)
    requires AtWork(w, t, i) && t in w.store.items && !IsTerminal(StateOf(w, t))
    ensures Spoils(gate, w, steps, i)
  {
    var n := |w.threads|;
    Demanded(gate, w, t);
    var rest := SpoiledByAsking(gate, After(gate, w, PastGuard(t, n)), t, i, n);
    steps := PastGuard(t, n) + rest;
    AfterBoth(gate, w, PastGuard(t, n), rest);
  }

  /** A worker that starts reopens the task, be it worker i itself or another. */
  lemma SpoiledByStart(gate: Gate, w: World, t: string, i: nat, j: nat) returns (steps: seq<Step>)
    requires AtWork(w, t, i) && j < |w.threads| && Streams(w.threads[j], t) && w.threads[j].worker.pc.AtTouchRunning?
    ensures Spoils(gate, w, steps, i)
  {
    var v := Next(gate, w, Go(j, 0));
    assert Holds(w.store, w.threads[j]);
    ExecStateAfter(gate, w.store, w.threads[j], 0, t);
    GoKeepsWork(gate, w, t, i, j);
    var rest := SpoiledByDemand(gate, v, t, i);
    steps := [Go(j, 0)] + rest;
    SpoilsLater(gate, w, Go(j, 0), rest, i);
  }

  /** A step of a thread that holds its task, other than the final event of worker i, leaves worker i at work. */
  lemma GoKeepsWork(gate: Gate, w: World, t: string, i: nat, j: nat)
    requires AtWork(w, t, i) && j < |w.threads| && TaskOf(w.threads[j]).Some?
    requires j == i ==> Left(w.threads[i].worker.pc) > 1
    ensures AtWork(Next(gate, w, Go(j, 0)), t, i)
  {
    if j == i {
      WorkerGo(gate, w, t, i);
    } else {
      assert Holds(w.store, w.threads[j]);
      OwnExec(gate, w.store, w.threads[j], 0);
      GroundedStep(gate, w, Go(j, 0));
      assert Next(gate, w, Go(j, 0)).threads[i] == w.threads[i];
    }
  }

  /** So does a request that starts a worker. */
  lemma SpoiledBySpawn(gate: Gate, w: World, t: string, i: nat, j: nat) returns (steps: seq<Step>)
    requires AtWork(w, t, i) && j < |w.threads| && w.threads[j].AtSpawn? && w.threads[j].task == t
    ensures Spoils(gate, w, steps, i)
  {
    var v := Next(gate, w, Go(j, 0));
    SpawnNow(gate, w, j);
    GoKeepsWork(gate, w, t, i, j);
    var rest := SpoiledByStart(gate, v, t, i, |w.threads|);
    steps := [Go(j, 0)] + rest;
    SpoilsLater(gate, w, Go(j, 0), rest, i);
  }

  lemma SpoiledByReply(gate: Gate, w: World, t: string, i: nat, j: nat) returns (steps: seq<Step>)
    requires AtWork(w, t, i) && j < |w.threads| && w.threads[j].AtStreamReply? && w.threads[j].task == t
    ensures Spoils(gate, w, steps, i)
  {
    var v := Next(gate, w, Go(j, 0));
    GoKeepsWork(gate, w, t, i, j);
    assert v.threads[j].AtSpawn? && v.threads[j].task == t;
    var rest := SpoiledBySpawn(gate, v, t, i, j);
    steps := [Go(j, 0)] + rest;
    SpoilsLater(gate, w, Go(j, 0), rest, i);
  }

  /** Past its completed touch, and with no ending in sight, worker i need only go on. */
  lemma {:induction false} SpoiledAlone(gate: Gate, w: World, t: string, i: nat) returns (steps: seq<Step>)
    requires AtWork(w, t, i) && !Underway(w.threads[i].worker)
    requires t in w.store.items && !Lifecycle.Ended(StateOf(w, t))
    ensures Spoils(gate, w, steps, i)
    decreases Left(w.threads[i].worker.pc)
  {
    if w.threads[i].worker.pc.AtSendFinal? {
      steps := [Go(i, 0)];
      SendsState(gate, w, t, i);
    } else {
      var v := Next(gate, w, Go(i, 0));
      assert Holds(w.store, w.threads[i]);
      ExecStateAfter(gate, w.store, w.threads[i], 0, t);
      ExecWorker(gate, w.store, w.threads[i], 0, t);
      WorkerGo(gate, w, t, i);
      var rest := SpoiledAlone(gate, v, t, i);
      steps := [Go(i, 0)] + rest;
      SpoilsLater(gate, w, Go(i, 0), rest, i);
    }
  }

  lemma Spoiled(gate: Gate, w: World, t: string, i: nat) returns (steps: seq<Step>)
    requires AtWork(w, t, i) && !Safe(w, t, i)
    ensures Spoils(gate, w, steps, i)
  {
    assert Holds(w.store, w.threads[i]);
    if !IsTerminal(StateOf(w, t)) {
      steps := SpoiledByDemand(gate, w, t, i);
    } else if Quiet(w, t) {
      steps := SpoiledAlone(gate, w, t, i);
    } else {
      var j :| 0 <= j < |w.threads| && Hazard(w.threads[j], t);
      if w.threads[j].AtTouchAuth? {
        steps := SpoiledByAsking(gate, w, t, i, j);
      } else if w.threads[j].Streaming? {
        steps := SpoiledByStart(gate, w, t, i, j);
      } else if w.threads[j].AtSpawn? {
        steps := SpoiledBySpawn(gate, w, t, i, j);
      } else {
        steps := SpoiledByReply(gate, w, t, i, j);
      }
    }
  }

  /**
   * The stream of a worker still at work is sure to close with an ending exactly when nothing
   * in flight can reopen its task, terminal already, and the state is an ending or will be made
   * one by the worker itself.
   */
  lemma FinalEventLaw(gate: Gate, w: World, t: string, i: nat)
    requires AtWork(w, t, i)
    ensures SureToEnd(gate, w, i) <==> Safe(w, t, i)
  {
    if Safe(w, t, i) {
      forall steps: seq<Step> | After(gate, w, steps).store.created < TWO_64
        ensures Unspoiled(After(gate, w, steps), i)
      {
        SafeForever(gate, w, steps, t, i);
      }
    } else if SureToEnd(gate, w, i) {
      var steps := Spoiled(gate, w, t, i);
      assert false;
    }
  }

  // In reachable states.

  /** Every worker has sent what it should so far, and no task has failed. */
  ghost predicate Regular(w: World) {
    && (forall i :: 0 <= i < |w.threads| && w.threads[i].Streaming? ==> Lifecycle.InOrder(w.threads[i].worker))
    && (forall t :: t in w.store.items ==> !StateOf(w, t).Failed?)
  }

  lemma NeverFails(gate: Gate, w: World, i: nat, now: Time, t: string)
    requires Grounded(w) && Regular(w) && i < |w.threads|
    requires t in Next(gate, w, Go(i, now)).store.items
    ensures !StateOf(Next(gate, w, Go(i, now)), t).Failed?
  {
    if t in w.store.items {
      ExecStateAfter(gate, w.store, w.threads[i], now, t);
    } else {
      ExecNew(gate, w.store, w.threads[i], now, t);
    }
  }

  /** A thread that streams after its step was a worker in order before it. */
  lemma StaysInOrder(gate: Gate, w: World, i: nat, now: Time)
    requires Grounded(w) && Regular(w) && i < |w.threads|
    ensures var th' := Exec(gate, w.store, w.threads[i], now).1; th'.Streaming? ==> Lifecycle.InOrder(th'.worker)
  {
    var th := w.threads[i];
    var th' := Exec(gate, w.store, th, now).1;
    if th'.Streaming? {
      ExecWorker(gate, w.store, th, now, th'.worker.task);
      assert Holds(w.store, th);
      WorkerExec(gate, w.store, th.worker, now);
    }
  }

  lemma RegularStep(gate: Gate, w: World, st: Step)
    requires Grounded(w) && Regular(w)
    ensures Regular(Next(gate, w, st))
  {
    if st.Go? && st.i < |w.threads| {
      var v := Next(gate, w, st);
      StaysInOrder(gate, w, st.i, st.now);
      forall t | t in v.store.items
        ensures !StateOf(v, t).Failed?
      {
        NeverFails(gate, w, st.i, st.now, t);
      }
    }
  }

  lemma {:induction false} RunsAreRegular(gate: Gate, w: World, steps: seq<Step>)
    requires Grounded(w) && Regular(w) && After(gate, w, steps).store.created < TWO_64
    ensures Grounded(After(gate, w, steps)) && Regular(After(gate, w, steps))
    decreases |steps|
  {
    if steps != [] {
      CreatedMonotone(gate, Next(gate, w, steps[0]), steps[1..]);
      GroundedStep(gate, w, steps[0]);
      RegularStep(gate, w, steps[0]);
      RunsAreRegular(gate, Next(gate, w, steps[0]), steps[1..]);
    }
  }

  /** In every reachable state the condition is that nothing in flight can reopen the task, terminal already. */
  lemma ReachableFinalEvents(gate: Gate, steps: seq<Step>, i: nat)
    requires var w := After(gate, START, steps);
      w.store.created < TWO_64 && i < |w.threads| && w.threads[i].Streaming? && !w.threads[i].worker.pc.AtEnd?
    ensures var w := After(gate, START, steps); SureToEnd(gate, w, i) <==> Quiet(w, w.threads[i].worker.task)
  {
    var w := After(gate, START, steps);
    RunsAreRegular(gate, START, steps);
    FinalEventLaw(gate, w, w.threads[i].worker.task, i);
  }
}
