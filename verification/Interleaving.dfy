/**
 * Runs at a finer grain: a handler's look-up, its guard and each of its writes to a shared
 * task are separate steps, because the store's lock is released before the task is touched.
 */
module Interleaving {
  import opened Schema
  import opened Decimal
  import opened SecondaryAuth
  import opened StoreModel
  import opened Handlers
  import opened Workers

  /** A request or a worker, by what it does next. */
  datatype Thread =
    | Arrived(impl: Impl, req: Request)
    | AtGuard(impl: Impl, stream: bool, p: SendParams, task: string)
    | AtCreate(impl: Impl, stream: bool, p: SendParams)
    | AtTouchAuth(task: string, auth: SecAuth)
    | AtMessage(task: string, auth: SecAuth)
    | AtComplete(task: string)
    | AtArtifacts(task: string, art: Artifact)
    | AtCancel(task: string)
    | AtPutBack(task: string)
    | AtReply(task: string)
    | AtStreamReply(task: string)
    | AtSpawn(task: string, response: Response)
    | Replied(response: Response)
    | Streaming(worker: Worker)

  /** What a request does once it holds its task: ask for credentials, stream, or complete. */
  function Decide(impl: Impl, stream: bool, p: SendParams, task: string): Thread {
    if impl == Ops && NeedsAuth(Detected(p.messages)) then AtTouchAuth(task, Detected(p.messages))
    else if stream then AtStreamReply(task)
    else AtComplete(task)
  }

  /** Checks on the parameters, then the look-up under the lock. */
  function LookUp(s: StoreVal, impl: Impl, stream: bool, params: Params<SendParams>): Thread {
    if !Usable(params) then Replied(Refused(INVALID_PARAMS))
    else if impl != Rpc && Named(s, params.value).Some? then
      AtGuard(impl, stream, params.value, Named(s, params.value).value)
    else AtCreate(impl, stream, params.value)
  }

  /** The thread's own task, where it has one. */
  function TaskOf(th: Thread): Option<string> {
    match th
    case AtGuard(_, _, _, t) => Some(t)
    case AtTouchAuth(t, _) => Some(t)
    case AtMessage(t, _) => Some(t)
    case AtComplete(t) => Some(t)
    case AtArtifacts(t, _) => Some(t)
    case AtCancel(t) => Some(t)
    case AtPutBack(t) => Some(t)
    case AtReply(t) => Some(t)
    case AtStreamReply(t) => Some(t)
    case AtSpawn(t, _) => Some(t)
    case Streaming(k) => Some(k.task)
    case _ => None
  }

  predicate Holds(s: StoreVal, th: Thread) {
    TaskOf(th).Some? ==> TaskOf(th).value in s.items
  }

  function Start(gate: Gate, s: StoreVal, impl: Impl, req: Request, now: Time): (StoreVal, Thread) {
    match req
    case Send(p) => (s, LookUp(s, impl, false, p))
    case Stream(p) =>
      if impl == Rpc then (s, Replied(Refused(METHOD_NOT_FOUND)))
      else if !gate.streaming then (s, Replied(Refused(STREAMING_UNSUPPORTED)))
      else (s, LookUp(s, impl, true, p))
    case Cancel(p) =>
      if p.Parsed? && p.value != "" && p.value in s.items then (s, AtCancel(p.value))
      else (s, Replied(CancelOutcome(s, p, now).response))
    case _ =>
      var o := Serve(impl, gate, s, req, now);
      (o.store, Replied(o.response))
  }

  /** A thread that holds a task: the task and the thread after its next step. */
  function Own(t: TaskVal, th: Thread, now: Time): (TaskVal, Thread)
    requires TaskOf(th).Some?
  {
    match th
    case AtGuard(impl, stream, p, id) =>
      if IsTerminal(t.status.state) then (t, Replied(Refused(TASK_IS_TERMINAL)))
      else if impl == Ops then (t, Decide(impl, stream, p, id))
      else (t, AtCreate(impl, stream, p))
    case AtTouchAuth(id, a) => (WithStatus(t, Touched(t.status, AuthRequired, now)), AtMessage(id, a))
    case AtMessage(id, a) => (WithStatus(t, t.status.(message := Some(BuildAuthMessage(a)))), AtPutBack(id))
    case AtComplete(id) =>
      (WithStatus(t, TaskStatus(Completed, None, None, now)), AtArtifacts(id, TextArtifact(t.id, "ok", now)))
    case AtArtifacts(id, art) => (t.(artifacts := [art]), AtPutBack(id))
    case AtCancel(id) => (CanceledTask(t, now), AtPutBack(id))
    case AtPutBack(id) => (t, AtReply(id))
    case AtReply(id) => (t, Replied(TaskResult(t)))
    case AtStreamReply(id) => (t, AtSpawn(id, TaskResult(t)))
    case AtSpawn(id, r) => (t, Replied(r))
    case Streaming(k) =>
      var (t', k') := Worked(t, k, now);
      (t', Streaming(k'))
  }

  predicate PutsBack(th: Thread) {
    th.AtPutBack? || (th.Streaming? && th.worker.pc.AtPut?)
  }

  /** The next step of a thread: at most one access to shared state. */
  function Exec(gate: Gate, s: StoreVal, th: Thread, now: Time): (StoreVal, Thread)
    requires Holds(s, th)
  {
    match th
    case Arrived(impl, req) => Start(gate, s, impl, req, now)
    case AtCreate(impl, stream, p) => (AfterNewTask(s, p.contextID, now), Decide(impl, stream, p, NextID(s)))
    case Replied(_) => (s, th)
    case _ =>
      var id := TaskOf(th).value;
      var (t, th') := Own(s.items[id], th, now);
      (Written(s, id, t, PutsBack(th), now), th')
  }

  /** The worker a thread starts in its next step. */
  function Spawned(th: Thread): seq<Thread> {
    if th.AtSpawn? then [Streaming(NewWorker(th.task))] else []
  }

  datatype World = World(store: StoreVal, threads: seq<Thread>)

  datatype Step = Arrive(impl: Impl, req: Request) | Go(i: nat, now: Time)

  function Next(gate: Gate, w: World, st: Step): World {
    match st
    case Arrive(impl, req) => w.(threads := w.threads + [Arrived(impl, req)])
    case Go(i, now) =>
      if i < |w.threads| && Holds(w.store, w.threads[i]) then
        var (s, th) := Exec(gate, w.store, w.threads[i], now);
        World(s, w.threads[i := th] + Spawned(w.threads[i]))
      else w
  }

  /** The world after the given steps. */
  function After(gate: Gate, w: World, steps: seq<Step>): World
    decreases |steps|
  {
    if steps == [] then w else After(gate, Next(gate, w, steps[0]), steps[1..])
  }

  ghost predicate Grounded(w: World) {
    Intact(w.store) && forall i :: 0 <= i < |w.threads| ==> Holds(w.store, w.threads[i])
  }

  predicate Terminal(w: World, t: string) {
    t in w.store.items && IsTerminal(w.store.items[t].status.state)
  }

  /** About to write a non-terminal state into `t`. */
  predicate Reopens(th: Thread, t: string) {
    || (th.AtTouchAuth? && th.task == t)
    || (th.Streaming? && th.worker.task == t && th.worker.pc.AtTouchRunning?)
  }

  /** About to do so, or to start a worker that will: past the guard or creation and before its first write. */
  predicate Hazard(th: Thread, t: string) {
    Reopens(th, t) || ((th.AtStreamReply? || th.AtSpawn?) && th.task == t)
  }

  ghost predicate Quiet(w: World, t: string) {
    Terminal(w, t) && forall i :: 0 <= i < |w.threads| ==> !Hazard(w.threads[i], t)
  }

  // One step.

  /** A step on one's own task keeps its id, and leaves a terminal state only by reopening it. */
  lemma OwnEffect(t: TaskVal, th: Thread, now: Time)
    requires TaskOf(th).Some?
    ensures var (t', th') := Own(t, th, now);
      && t'.id == t.id
      && (TaskOf(th').Some? ==> TaskOf(th') == TaskOf(th))
      && (IsTerminal(t.status.state) ==> (IsTerminal(t'.status.state) <==> !Reopens(th, TaskOf(th).value)))
      && (IsTerminal(t.status.state) && !Hazard(th, TaskOf(th).value) ==> !Hazard(th', TaskOf(th).value))
      && (th'.Streaming? <==> th.Streaming?)
  {
  }

  /** So does a step seen from the whole store. */
  lemma OwnExec(gate: Gate, s: StoreVal, th: Thread, now: Time)
    requires Intact(s) && Holds(s, th) && TaskOf(th).Some?
    ensures var id := TaskOf(th).value; var (t, th') := Own(s.items[id], th, now);
      && Exec(gate, s, th, now) == (s.(items := s.items[id := t]), th')
      && t.id == id
      && Intact(s.(items := s.items[id := t]))
  {
    var id := TaskOf(th).value;
    OwnEffect(s.items[id], th, now);
    var t := Own(s.items[id], th, now).0;
    WrittenIsUpdate(s, id, t, PutsBack(th), now);
    UpdateKeepsIntact(s, id, t);
  }

  /** Tasks stay, and the thread goes on holding a stored one. */
  lemma ExecKeepsTasks(gate: Gate, s: StoreVal, th: Thread, now: Time)
    requires Intact(s) && Holds(s, th)
    ensures var (s', th') := Exec(gate, s, th, now); Holds(s', th') && s.items.Keys <= s'.items.Keys
    ensures Follows(s, Exec(gate, s, th, now).0)
  {
    if TaskOf(th).Some? {
      OwnExec(gate, s, th, now);
      OwnEffect(s.items[TaskOf(th).value], th, now);
    } else if th.Arrived? {
      StartEffect(gate, s, th.impl, th.req, now, "");
      StartKeepsIntact(gate, s, th.impl, th.req, now);
    } else if th.AtCreate? && s.created + 1 < TWO_64 {
      NewTaskKeepsIntact(s, th.p.contextID, now);
    }
  }

  /**
   * Seen from a terminal task `t`: it is left exactly by the two reopening steps, no thread
   * becomes a hazard to it, and no thread turns into a worker.
   */
  ghost predicate RespectsTerminal(gate: Gate, s: StoreVal, th: Thread, now: Time, t: string)
    requires Holds(s, th)
  {
    var (s', th') := Exec(gate, s, th, now);
    && t in s'.items
    && (IsTerminal(s'.items[t].status.state) <==> !Reopens(th, t))
    && (!Hazard(th, t) ==> !Hazard(th', t))
    && (th'.Streaming? ==> th.Streaming? && TaskOf(th') == TaskOf(th))
  }

  lemma OwnRespects(gate: Gate, s: StoreVal, th: Thread, now: Time, t: string)
    requires Intact(s) && Holds(s, th) && t in s.items && IsTerminal(s.items[t].status.state)
    requires TaskOf(th).Some?
    ensures RespectsTerminal(gate, s, th, now, t)
  {
    var id := TaskOf(th).value;
    OwnExec(gate, s, th, now);
    OwnEffect(s.items[id], th, now);
    if id != t {
      OtherTask(s.items[id], th, now, t);
    }
  }

  /** A thread of another task is no hazard to `t`, before or after. */
  lemma OtherTask(u: TaskVal, th: Thread, now: Time, t: string)
    requires TaskOf(th).Some? && TaskOf(th).value != t
    ensures !Hazard(th, t) && !Hazard(Own(u, th, now).1, t)
  {
    OwnEffect(u, th, now);
  }

  lemma CreateRespects(gate: Gate, s: StoreVal, th: Thread, now: Time, t: string)
    requires Intact(s) && t in s.items && IsTerminal(s.items[t].status.state) && th.AtCreate?
    ensures RespectsTerminal(gate, s, th, now, t)
  {
    NextIsFree(s);
    assert NextID(s) != t;
  }

  lemma ArrivedRespects(gate: Gate, s: StoreVal, th: Thread, now: Time, t: string)
    requires t in s.items && IsTerminal(s.items[t].status.state) && th.Arrived?
    ensures RespectsTerminal(gate, s, th, now, t)
  {
    StartEffect(gate, s, th.impl, th.req, now, t);
    assert Exec(gate, s, th, now) == Start(gate, s, th.impl, th.req, now);
  }

  lemma ExecState(gate: Gate, s: StoreVal, th: Thread, now: Time, t: string)
    requires Intact(s) && Holds(s, th) && t in s.items && IsTerminal(s.items[t].status.state)
    ensures RespectsTerminal(gate, s, th, now, t)
  {
    if TaskOf(th).Some? {
      OwnRespects(gate, s, th, now, t);
    } else if th.Arrived? {
      ArrivedRespects(gate, s, th, now, t);
    } else if th.AtCreate? {
      CreateRespects(gate, s, th, now, t);
    }
  }

  lemma StartEffect(gate: Gate, s: StoreVal, impl: Impl, req: Request, now: Time, t: string)
    ensures var (s', th') := Start(gate, s, impl, req, now);
      Holds(s', th') && !Hazard(th', t) && !th'.Streaming?
    ensures req.Cancel? || req.Send? || req.Stream? ==> Start(gate, s, impl, req, now).0 == s
    ensures var s' := Start(gate, s, impl, req, now).0;
      s'.items == s.items && s'.created == s.created && s'.hist == s.hist
  {
    match req
    case Send(p) =>
    case Stream(p) =>
    case Cancel(p) =>
    case Resubscribe(p) =>
    case _ => assert Serve(impl, gate, s, req, now) == SharedOutcome(gate, s, req, now);
  }

  lemma StartKeepsIntact(gate: Gate, s: StoreVal, impl: Impl, req: Request, now: Time)
    requires Intact(s)
    ensures Follows(s, Start(gate, s, impl, req, now).0)
  {
    if Shared(req) && !req.Cancel? {
      ServeKeepsIntact(impl, gate, s, req, now);
    } else if req.Resubscribe? {
      assert Start(gate, s, impl, req, now).0 == s;
    } else {
      StartEffect(gate, s, impl, req, now, "");
    }
  }

  // Worlds.

  lemma StillHolds(s: StoreVal, s': StoreVal, th: Thread)
    requires Holds(s, th) && s.items.Keys <= s'.items.Keys
    ensures Holds(s', th)
  {
    if TaskOf(th).Some? {
      assert TaskOf(th).value in s.items.Keys;
    }
  }

  lemma SpawnedHolds(s: StoreVal, th: Thread)
    requires Holds(s, th)
    ensures forall k :: 0 <= k < |Spawned(th)| ==> Holds(s, Spawned(th)[k])
  {
  }

  lemma GroundedStep(gate: Gate, w: World, st: Step)
    requires Grounded(w)
    ensures w.store.created <= Next(gate, w, st).store.created
    ensures Next(gate, w, st).store.created < TWO_64 ==> Grounded(Next(gate, w, st))
  {
    if st.Go? && st.i < |w.threads| {
      var th, n := w.threads[st.i], |w.threads|;
      var (s, th') := Exec(gate, w.store, th, st.now);
      ExecKeepsTasks(gate, w.store, th, st.now);
      var v := World(s, w.threads[st.i := th'] + Spawned(th));
      SpawnedHolds(w.store, th);
      forall j | 0 <= j < |v.threads|
        ensures Holds(s, v.threads[j])
      {
        if j < n && j != st.i {
          StillHolds(w.store, s, w.threads[j]);
        } else if j >= n {
          StillHolds(w.store, s, Spawned(th)[j - n]);
        }
      }
    }
  }

  lemma QuietStep(gate: Gate, w: World, st: Step, t: string)
    requires Grounded(w) && Quiet(w, t)
    ensures Quiet(Next(gate, w, st), t)
    ensures SameWorkers(w, Next(gate, w, st), t)
  {
    if st.Go? && st.i < |w.threads| {
      ExecState(gate, w.store, w.threads[st.i], st.now, t);
    }
  }

  /** No worker of `t` has been started. */
  ghost predicate SameWorkers(w: World, v: World, t: string) {
    && |w.threads| <= |v.threads|
    && forall i :: 0 <= i < |v.threads| && v.threads[i].Streaming? && v.threads[i].worker.task == t ==>
         i < |w.threads| && w.threads[i].Streaming? && w.threads[i].worker.task == t
  }

  lemma {:induction false} CreatedMonotone(gate: Gate, w: World, steps: seq<Step>)
    ensures w.store.created <= After(gate, w, steps).store.created
    decreases |steps|
  {
    if steps != [] {
      var v := Next(gate, w, steps[0]);
      NextCount(gate, w, steps[0]);
      CreatedMonotone(gate, v, steps[1..]);
    }
  }

  lemma NextCount(gate: Gate, w: World, st: Step)
    ensures w.store.created <= Next(gate, w, st).store.created
  {
    if st.Go? && st.i < |w.threads| && w.threads[st.i].Arrived? {
      var th := w.threads[st.i];
      StartEffect(gate, w.store, th.impl, th.req, st.now, "");
    }
  }

  /** Nothing in flight: the task stays terminal through every further run, and no worker is started on it. */
  lemma {:induction false} QuietForever(gate: Gate, w: World, steps: seq<Step>, t: string)
    requires Grounded(w) && Quiet(w, t) && After(gate, w, steps).store.created < TWO_64
    ensures Quiet(After(gate, w, steps), t) && SameWorkers(w, After(gate, w, steps), t)
    decreases |steps|
  {
    if steps != [] {
      var v := Next(gate, w, steps[0]);
      CreatedMonotone(gate, v, steps[1..]);
      GroundedStep(gate, w, steps[0]);
      QuietStep(gate, w, steps[0], t);
      QuietForever(gate, v, steps[1..], t);
    }
  }

  ghost predicate ForeverTerminal(gate: Gate, w: World, t: string) {
    forall steps: seq<Step> :: After(gate, w, steps).store.created < TWO_64 ==> Terminal(After(gate, w, steps), t)
  }

  /** A schedule of at most three steps that takes the task out of its terminal state. */
  lemma HazardStrikes(gate: Gate, w: World, i: nat, t: string) returns (steps: seq<Step>)
    requires Grounded(w) && Terminal(w, t) && i < |w.threads| && Hazard(w.threads[i], t)
    ensures After(gate, w, steps).store.created < TWO_64 && !Terminal(After(gate, w, steps), t)
  {
    var th := w.threads[i];
    if Reopens(th, t) {
      steps := [Go(i, 0)];
      ReopenNow(gate, w, i, t);
    } else if th.AtSpawn? {
      steps := [Go(i, 0), Go(|w.threads|, 0)];
      SpawnThenReopen(gate, w, i, t);
    } else {
      steps := [Go(i, 0), Go(i, 0), Go(|w.threads|, 0)];
      var v := Next(gate, w, steps[0]);
      GroundedStep(gate, w, steps[0]);
      SpawnThenReopen(gate, v, i, t);
      assert steps[1..] == [Go(i, 0), Go(|v.threads|, 0)];
    }
  }

  lemma ReopenNow(gate: Gate, w: World, i: nat, t: string)
    requires Grounded(w) && Terminal(w, t) && i < |w.threads| && Reopens(w.threads[i], t)
    ensures var v := After(gate, w, [Go(i, 0)]); v.store.created < TWO_64 && !Terminal(v, t)
  {
    ExecState(gate, w.store, w.threads[i], 0, t);
    var steps := [Go(i, 0)];
    assert steps[1..] == [];
    assert After(gate, w, steps) == Next(gate, w, steps[0]);
  }

  lemma SpawnNow(gate: Gate, w: World, i: nat)
    requires Grounded(w) && i < |w.threads| && w.threads[i].AtSpawn?
    ensures var v := Next(gate, w, Go(i, 0));
      && v.store == w.store && |v.threads| == |w.threads| + 1
      && v.threads[|w.threads|] == Streaming(NewWorker(w.threads[i].task))
  {
    OwnExec(gate, w.store, w.threads[i], 0);
    var id := w.threads[i].task;
    assert w.store.items[id := w.store.items[id]] == w.store.items;
  }

  lemma SpawnThenReopen(gate: Gate, w: World, i: nat, t: string)
    requires Grounded(w) && Terminal(w, t) && i < |w.threads| && w.threads[i].AtSpawn? && w.threads[i].task == t
    ensures var v := After(gate, w, [Go(i, 0), Go(|w.threads|, 0)]); v.store.created < TWO_64 && !Terminal(v, t)
  {
    var steps := [Go(i, 0), Go(|w.threads|, 0)];
    var v := Next(gate, w, steps[0]);
    SpawnNow(gate, w, i);
    GroundedStep(gate, w, steps[0]);
    ReopenNow(gate, v, |w.threads|, t);
    assert steps[1..] == [Go(|w.threads|, 0)];
  }

  /**
   * Terminality is final exactly when nothing is in flight: no worker before its first touch,
   * and no request between its guard or creation and its write or its worker's start.
   */
  lemma FinalIffQuiet(gate: Gate, w: World, t: string)
    requires Grounded(w)
    ensures ForeverTerminal(gate, w, t) <==> Quiet(w, t)
  {
    if Quiet(w, t) {
      forall steps: seq<Step> | After(gate, w, steps).store.created < TWO_64
        ensures Terminal(After(gate, w, steps), t)
      {
        QuietForever(gate, w, steps, t);
      }
    } else if ForeverTerminal(gate, w, t) {
      assert After(gate, w, []) == w;
      assert Terminal(w, t);
      var i :| 0 <= i < |w.threads| && Hazard(w.threads[i], t);
      var steps := HazardStrikes(gate, w, i, t);
      assert false;
    }
  }

  const START := World(EMPTY, [])

  /** Every run that has created fewer than 2^64 tasks is grounded. */
  lemma {:induction false} RunsAreGrounded(gate: Gate, w: World, steps: seq<Step>)
    requires Grounded(w) && After(gate, w, steps).store.created < TWO_64
    ensures Grounded(After(gate, w, steps))
    decreases |steps|
  {
    if steps != [] {
      var v := Next(gate, w, steps[0]);
      CreatedMonotone(gate, v, steps[1..]);
      GroundedStep(gate, w, steps[0]);
      RunsAreGrounded(gate, v, steps[1..]);
    }
  }
}
