/** Runs at the finer grain on the task objects: requests and workers that hold the object they work on. */
module FineRuns {
  import opened Schema
  import opened Decimal
  import opened SecondaryAuth
  import opened AgentCards
  import opened StoreModel
  import opened TaskStores
  import opened Handlers
  import opened Workers
  import opened Interleaving
  import opened Servers
  import opened Runs

  /** A request or a worker in flight; a request that has found or made its task holds the object. */
  class Flow {
    var th: Thread
    var task: Task?
    const worker: StreamWorker?

    constructor Arriving(impl: Impl, req: Request)
      ensures worker == null && th == Arrived(impl, req)
    {
      th, task, worker := Arrived(impl, req), null, null;
    }

    constructor Working(task: Task)
      ensures fresh(worker) && worker.task == task && Val() == Thread.Streaming(NewWorker(task.id))
    {
      th, this.task := Replied(Resubscribed), null;
      worker := new StreamWorker(task);
    }

    function Val(): Thread
      reads this, worker
    {
      if worker != null then Thread.Streaming(worker.Val()) else th
    }

    /** The object held is the stored one. */
    ghost predicate Held(store: TaskStore)
      reads this, store
    {
      if worker != null then Servers.Holds(store, worker.task)
      else
        && !th.Streaming?
        && (TaskOf(th).Some? ==> task != null && task.id == TaskOf(th).value && Servers.Holds(store, task))
    }

    /** The look-up: the stored object is kept, and nothing of it is read yet. */
    method LookUpTask(store: TaskStore, impl: Impl, stream: bool, params: Params<SendParams>)
      requires store.Valid() && worker == null
      modifies this
      ensures Held(store) && th == LookUp(store.Snapshot(), impl, stream, params)
    {
      task := null;
      if !params.Parsed? || |params.value.messages| == 0 {
        th := Replied(Refused(INVALID_PARAMS));
        return;
      }
      var p := params.value;
      if impl != Rpc && p.taskID.Some? && p.taskID.value != "" {
        task := store.Get(p.taskID.value);
        if task != null {
          th := AtGuard(impl, stream, p, task.id);
          return;
        }
      }
      th := AtCreate(impl, stream, p);
    }

    method LookUpStreamed(store: TaskStore, gate: Gate, impl: Impl, params: Params<SendParams>, now: Time)
      requires store.Valid() && worker == null && !TaskOf(th).Some? && !th.Streaming?
      modifies this
      ensures Held(store)
      ensures (store.Snapshot(), th) == Start(gate, store.Snapshot(), impl, Stream(params), now)
    {
      if impl == Rpc {
        th := Replied(Refused(METHOD_NOT_FOUND));
      } else if !gate.streaming {
        th := Replied(Refused(STREAMING_UNSUPPORTED));
      } else {
        LookUpTask(store, impl, true, params);
      }
    }

    method LookUpCanceled(store: TaskStore, params: Params<string>, now: Time)
      requires store.Valid() && worker == null
      modifies this
      ensures Held(store)
      ensures (store.Snapshot(), th) == Start(Gate(false, false), store.Snapshot(), Rpc, Cancel(params), now)
    {
      task := null;
      if !params.Parsed? || params.value == "" {
        th := Replied(Refused(INVALID_PARAMS));
        return;
      }
      task := store.Get(params.value);
      th := if task != null then AtCancel(task.id) else Replied(Refused(NOT_FOUND));
    }

    /** The first step of a request; one that touches no task is answered at once. */
    method Begin(srv: Server, ops: OpsImpl, def: DefaultOperations, impl: Impl, req: Request, now: Time)
      requires Together(srv, ops, def) && srv.tasks.Valid() && worker == null && th == Arrived(impl, req)
      requires NextID(srv.tasks.Snapshot()) !in srv.tasks.items
      modifies this, srv.tasks, srv.tasks.items.Values
      ensures srv.tasks.Valid() && Held(srv.tasks)
      ensures (srv.tasks.Snapshot(), th) == Start(srv.gate, old(srv.tasks.Snapshot()), impl, req, now)
      ensures fresh(srv.tasks.items.Values - old(srv.tasks.items.Values))
      ensures forall id :: id in old(srv.tasks.items) ==>
        id in srv.tasks.items && srv.tasks.items[id] == old(srv.tasks.items[id])
    {
      if req.Send? || req.Stream? || req.Cancel? {
        LookUpFirst(srv.tasks, srv.gate, impl, req, now);
      } else {
        AnswerAtOnce(srv, ops, def, impl, req, now);
      }
    }

    method LookUpFirst(store: TaskStore, gate: Gate, impl: Impl, req: Request, now: Time)
      requires store.Valid() && worker == null && !TaskOf(th).Some? && !th.Streaming?
      requires req.Send? || req.Stream? || req.Cancel?
      modifies this
      ensures Held(store)
      ensures (store.Snapshot(), th) == Start(gate, store.Snapshot(), impl, req, now)
    {
      match req {
        case Send(p) =>
          LookUpTask(store, impl, false, p);
        case Stream(p) =>
          LookUpStreamed(store, gate, impl, p, now);
        case Cancel(p) =>
          LookUpCanceled(store, p, now);
      }
    }

    method AnswerAtOnce(srv: Server, ops: OpsImpl, def: DefaultOperations, impl: Impl, req: Request, now: Time)
      requires Together(srv, ops, def) && srv.tasks.Valid() && worker == null
      requires NextID(srv.tasks.Snapshot()) !in srv.tasks.items
      modifies this, srv.tasks, srv.tasks.items.Values
      ensures srv.tasks.Valid() && Held(srv.tasks)
      ensures var o := Serve(impl, srv.gate, old(srv.tasks.Snapshot()), req, now);
        srv.tasks.Snapshot() == o.store && th == Replied(o.response)
      ensures fresh(srv.tasks.items.Values - old(srv.tasks.items.Values))
      ensures forall id :: id in old(srv.tasks.items) ==>
        id in srv.tasks.items && srv.tasks.items[id] == old(srv.tasks.items[id])
    {
      var r, started := ServeRequest(srv, ops, def, impl, req, now);
      th := Replied(r);
    }

    /** The request makes its task, and decides. */
    method Create(store: TaskStore, impl: Impl, stream: bool, p: SendParams, now: Time)
      requires store.Valid() && worker == null && th == AtCreate(impl, stream, p)
      requires NextID(store.Snapshot()) !in store.items
      modifies this, store
      ensures store.Valid() && Held(store)
      ensures store.Snapshot() == AfterNewTask(old(store.Snapshot()), p.contextID, now)
      ensures th == Decide(impl, stream, p, old(NextID(store.Snapshot())))
      ensures fresh(store.items.Values - old(store.items.Values))
      ensures forall id :: id in old(store.items) ==> id in store.items && store.items[id] == old(store.items[id])
    {
      var made := store.NewTask(p.contextID, now);
      task := made;
      Resolve(impl, stream, p, made);
    }

    /** Ask for credentials, stream, or complete. */
    method Resolve(impl: Impl, stream: bool, p: SendParams, made: Task)
      requires worker == null && task == made
      modifies this
      ensures th == Decide(impl, stream, p, made.id) && task == made
    {
      var a := DetectSecondaryAuth(p.messages);
      if impl == Ops && a.require && Blank(a.token) {
        th := AtTouchAuth(made.id, a);
      } else if stream {
        th := AtStreamReply(made.id);
      } else {
        th := AtComplete(made.id);
      }
    }

    /** One statement of a request that holds its task: a read of the object, or a write to it. */
    method Perform(now: Time)
      requires worker == null && !th.Streaming? && TaskOf(th).Some? && task != null && task.id == TaskOf(th).value
      modifies this, task
      ensures task != null && task == old(task)
      ensures (task.Val(), th) == Own(old(task.Val()), old(th), now)
    {
      match th {
        case AtGuard(impl, stream, p, _) =>
          if IsTerminal(task.status.state) {
            th := Replied(Refused(TASK_IS_TERMINAL));
          } else if impl == Ops {
            Resolve(impl, stream, p, task);
          } else {
            th := AtCreate(impl, stream, p);
          }
        case AtTouchAuth(id, a) =>
          task.Touch(AuthRequired, now);
          th := AtMessage(id, a);
        case AtMessage(id, a) =>
          task.status := task.status.(message := Some(BuildAuthMessage(a)));
          th := AtPutBack(id);
        case AtComplete(id) =>
          var artifact := TextArtifact(task.id, "ok", now);
          task.status := TaskStatus(Completed, None, None, now);
          th := AtArtifacts(id, artifact);
        case AtArtifacts(id, artifact) =>
          task.artifacts := [artifact];
          th := AtPutBack(id);
        case AtCancel(id) =>
          task.Touch(Canceled, now);
          th := AtPutBack(id);
        case AtPutBack(id) =>
          th := AtReply(id);
        case AtReply(_) =>
          th := Replied(TaskResult(task.Val()));
        case AtStreamReply(id) =>
          th := AtSpawn(id, TaskResult(task.Val()));
        case AtSpawn(_, r) =>
          th := Replied(r);
      }
    }

    /** That statement on the store: only the put goes through it. */
    method StepHeld(store: TaskStore, now: Time)
      requires store.Valid() && worker == null && Held(store) && TaskOf(th).Some?
      modifies this, store, task
      ensures store.Valid() && Held(store) && store.items == old(store.items)
      ensures var id := TaskOf(old(th)).value; var (t, th') := Own(old(store.Snapshot()).items[id], old(th), now);
        th == th' && store.Snapshot() == Written(old(store.Snapshot()), id, t, PutsBack(old(th)), now)
    {
      ghost var id, s := task.id, store.Snapshot();
      OwnEffect(s.items[id], th, now);
      WrittenIsUpdate(s, id, Own(s.items[id], th, now).0, PutsBack(th), now);
      if th.AtPutBack? {
        PutBack(store, task, now);
      }
      Perform(now);
      assert store.Tasks() == old(store.Tasks())[id := task.Val()];
    }

    /** The worker started by the next step, in a flow of its own. */
    method Starts(store: TaskStore) returns (started: Flow?)
      requires Held(store)
      ensures started == null ==> Spawned(Val()) == []
      ensures started != null ==>
        && fresh(started) && fresh(started.worker) && started.Held(store) && Spawned(Val()) == [started.Val()]
    {
      started := null;
      if worker == null && th.AtSpawn? {
        started := new Flow.Working(task);
      }
    }

    /** The next step of a request or worker. */
    method Step(srv: Server, ops: OpsImpl, def: DefaultOperations, now: Time)
      requires Together(srv, ops, def) && srv.tasks.Valid() && Held(srv.tasks)
      requires NextID(srv.tasks.Snapshot()) !in srv.tasks.items
      modifies this, worker, srv.tasks, srv.tasks.items.Values
      ensures srv.tasks.Valid() && Held(srv.tasks)
      ensures (srv.tasks.Snapshot(), Val()) == Exec(srv.gate, old(srv.tasks.Snapshot()), old(Val()), now)
      ensures fresh(srv.tasks.items.Values - old(srv.tasks.items.Values))
      ensures forall id :: id in old(srv.tasks.items) ==>
        id in srv.tasks.items && srv.tasks.items[id] == old(srv.tasks.items[id])
    {
      if worker != null {
        StepWorker(srv.tasks, srv.gate, now);
      } else {
        StepRequest(srv, ops, def, now);
      }
    }

    method StepRequest(srv: Server, ops: OpsImpl, def: DefaultOperations, now: Time)
      requires Together(srv, ops, def) && srv.tasks.Valid() && Held(srv.tasks) && worker == null
      requires NextID(srv.tasks.Snapshot()) !in srv.tasks.items
      modifies this, srv.tasks, srv.tasks.items.Values
      ensures srv.tasks.Valid() && Held(srv.tasks)
      ensures (srv.tasks.Snapshot(), th) == Exec(srv.gate, old(srv.tasks.Snapshot()), old(th), now)
      ensures fresh(srv.tasks.items.Values - old(srv.tasks.items.Values))
      ensures forall id :: id in old(srv.tasks.items) ==>
        id in srv.tasks.items && srv.tasks.items[id] == old(srv.tasks.items[id])
    {
      if th.Arrived? {
        Begin(srv, ops, def, th.impl, th.req, now);
      } else if th.AtCreate? {
        Create(srv.tasks, th.impl, th.stream, th.p, now);
      } else if !th.Replied? {
        StepHeld(srv.tasks, now);
      }
    }

    method StepWorker(store: TaskStore, ghost gate: Gate, now: Time)
      requires store.Valid() && worker != null && Held(store)
      modifies worker, store, worker.task
      ensures store.Valid() && store.items == old(store.items)
      ensures (store.Snapshot(), Val()) == Exec(gate, old(store.Snapshot()), old(Val()), now)
    {
      worker.Step(store, now);
    }
  }

  /** The flows stand where the threads do, and hold stored objects. */
  ghost predicate Show(store: TaskStore, flows: seq<Flow>, threads: seq<Thread>)
    reads store, Parts(flows)
  {
    && |flows| == |threads|
    && (forall i :: 0 <= i < |flows| ==> flows[i].Val() == threads[i] && flows[i].Held(store))
    && AllApart(flows)
  }

  ghost predicate AllApart(flows: seq<Flow>) {
    forall i, j :: 0 <= i < |flows| && 0 <= j < |flows| && i != j ==> Apart(flows[i], flows[j])
  }

  predicate Apart(f: Flow, g: Flow) {
    f != g && (f.worker != null ==> f.worker != g.worker)
  }

  /** The objects of the flows: themselves, and their workers. */
  ghost function Parts(flows: seq<Flow>): (all: set<object>)
    ensures forall i :: 0 <= i < |flows| ==> flows[i] in all
    ensures forall i :: 0 <= i < |flows| && flows[i].worker != null ==> flows[i].worker in all
  {
    (set i | 0 <= i < |flows| :: flows[i] as object)
    + (set i | 0 <= i < |flows| && flows[i].worker != null :: flows[i].worker as object)
  }

  /** The objects in the store and in the flows' hands show the world. */
  ghost predicate Shows(store: TaskStore, flows: seq<Flow>, w: World)
    reads store, store.items.Values, Parts(flows)
  {
    store.Snapshot() == w.store && Show(store, flows, w.threads)
  }

  /** A new request, or a new worker, joins the others. */
  lemma Joined(store: TaskStore, flows: seq<Flow>, threads: seq<Thread>, f: Flow)
    requires Show(store, flows, threads) && f.Held(store)
    requires f !in Parts(flows) && (f.worker != null ==> f.worker !in Parts(flows))
    ensures Show(store, flows + [f], threads + [f.Val()])
    ensures forall o :: o in Parts(flows + [f]) ==> o in Parts(flows) || o == f || o == f.worker
  {
    var all := flows + [f];
    assert all[..|flows|] == flows;
    forall i | 0 <= i < |all|
      ensures all[i] in Parts(flows) || all[i] == f
      ensures all[i].worker != null ==> all[i].worker in Parts(flows) || all[i].worker == f.worker
    {
      assert all[i] == if i < |flows| then flows[i] else f;
    }
  }

  /** One step of flow i: the others wait. */
  method GoStep(srv: Server, ops: OpsImpl, def: DefaultOperations, flows: seq<Flow>, ghost threads: seq<Thread>,
                i: nat, now: Time)
    requires Together(srv, ops, def) && srv.tasks.Valid() && Show(srv.tasks, flows, threads) && i < |flows|
    requires NextID(srv.tasks.Snapshot()) !in srv.tasks.items
    modifies srv.tasks, srv.tasks.items.Values, flows[i], flows[i].worker
    ensures srv.tasks.Valid()
    ensures var (s, th) := Exec(srv.gate, old(srv.tasks.Snapshot()), threads[i], now);
      srv.tasks.Snapshot() == s && Show(srv.tasks, flows, threads[i := th])
    ensures fresh(srv.tasks.items.Values - old(srv.tasks.items.Values))
    ensures forall id :: id in old(srv.tasks.items) ==>
      id in srv.tasks.items && srv.tasks.items[id] == old(srv.tasks.items[id])
  {
    ghost var others := Others(flows, i);
    flows[i].Step(srv, ops, def, now);
    assert unchanged(others);
    forall j | 0 <= j < |flows| && j != i
      ensures flows[j].Val() == threads[j] && flows[j].Held(srv.tasks)
    {
      ghost var f := flows[j];
      assert f in others && (f.worker != null ==> f.worker in others);
    }
  }

  /** The objects of all flows but one. */
  ghost function Others(flows: seq<Flow>, i: nat): (all: set<object>)
    requires i < |flows| && AllApart(flows)
    ensures flows[i] !in all && flows[i].worker !in all
    ensures forall o :: o in all ==> o is Flow || o is StreamWorker
    ensures forall j :: 0 <= j < |flows| && j != i ==>
      flows[j] in all && (flows[j].worker != null ==> flows[j].worker in all)
  {
    (set j | 0 <= j < |flows| && j != i :: flows[j] as object)
    + (set j | 0 <= j < |flows| && j != i && flows[j].worker != null :: flows[j].worker as object)
  }

  /** The worker flow i starts in its next step joins the others. */
  method StartAndJoin(store: TaskStore, flows: seq<Flow>, ghost threads: seq<Thread>, i: nat) returns (all: seq<Flow>)
    requires Show(store, flows, threads) && i < |flows|
    ensures Show(store, all, threads + Spawned(threads[i])) && flows <= all
    ensures forall o :: o in Parts(all) ==> o in Parts(flows) || fresh(o)
  {
    var started := flows[i].Starts(store);
    if started == null {
      all := flows;
      assert threads + [] == threads;
    } else {
      var f: Flow := started;
      Joined(store, flows, threads, f);
      all := flows + [f];
    }
  }

  /** One step of flow i, and of the worker it may start. */
  method GoAndJoin(srv: Server, ops: OpsImpl, def: DefaultOperations, flows: seq<Flow>, ghost threads: seq<Thread>,
                   i: nat, now: Time)
    returns (all: seq<Flow>)
    requires Together(srv, ops, def) && srv.tasks.Valid() && Show(srv.tasks, flows, threads) && i < |flows|
    requires NextID(srv.tasks.Snapshot()) !in srv.tasks.items
    modifies srv.tasks, srv.tasks.items.Values, flows[i], flows[i].worker
    ensures srv.tasks.Valid()
    ensures var (s, th) := Exec(srv.gate, old(srv.tasks.Snapshot()), threads[i], now);
      srv.tasks.Snapshot() == s && Show(srv.tasks, all, threads[i := th] + Spawned(threads[i]))
    ensures fresh(srv.tasks.items.Values - old(srv.tasks.items.Values))
    ensures forall o :: o in Parts(all) ==> o in Parts(flows) || fresh(o)
    ensures forall id :: id in old(srv.tasks.items) ==>
      id in srv.tasks.items && srv.tasks.items[id] == old(srv.tasks.items[id])
  {
    all := StartAndJoin(srv.tasks, flows, threads, i);
    ghost var sp := Spawned(threads[i]);
    GoStep(srv, ops, def, all, threads + sp, i, now);
    ghost var th := all[i].Val();
    assert (threads + sp)[i := th] == threads[i := th] + sp;
  }

  method Arrival(store: TaskStore, flows: seq<Flow>, ghost threads: seq<Thread>, impl: Impl, req: Request)
    returns (all: seq<Flow>)
    requires Show(store, flows, threads)
    ensures Show(store, all, threads + [Arrived(impl, req)])
    ensures forall o :: o in Parts(all) ==> o in Parts(flows) || fresh(o)
  {
    var f := new Flow.Arriving(impl, req);
    Joined(store, flows, threads, f);
    all := flows + [f];
  }

  lemma NextGo(gate: Gate, w: World, i: nat, now: Time)
    requires i < |w.threads| && Interleaving.Holds(w.store, w.threads[i])
    ensures var v, r := Next(gate, w, Go(i, now)), Exec(gate, w.store, w.threads[i], now);
      v.store == r.0 && v.threads == w.threads[i := r.1] + Spawned(w.threads[i])
  {
  }

  /** One step on the objects: an arrival, or one step of a request or worker. */
  method TakeStep(srv: Server, ops: OpsImpl, def: DefaultOperations, flows: seq<Flow>, ghost w: World, st: Step)
    returns (all: seq<Flow>)
    requires Together(srv, ops, def) && srv.tasks.Valid() && Shows(srv.tasks, flows, w)
    requires NextID(w.store) !in w.store.items
    modifies srv.tasks, srv.tasks.items.Values, Parts(flows)
    ensures srv.tasks.Valid() && Shows(srv.tasks, all, Next(srv.gate, w, st))
    ensures fresh(srv.tasks.items.Values - old(srv.tasks.items.Values))
    ensures forall o :: o in Parts(all) ==> o in Parts(flows) || fresh(o)
    ensures forall id :: id in old(srv.tasks.items) ==>
      id in srv.tasks.items && srv.tasks.items[id] == old(srv.tasks.items[id])
  {
    all := flows;
    if st.Arrive? {
      all := Arrival(srv.tasks, flows, w.threads, st.impl, st.req);
    } else if st.i < |flows| {
      assert NextID(srv.tasks.Snapshot()) !in srv.tasks.items;
      assert flows[st.i].Val() == w.threads[st.i] && flows[st.i].Held(srv.tasks);
      NextGo(srv.gate, w, st.i, st.now);
      all := GoAndJoin(srv, ops, def, flows, w.threads, st.i, st.now);
    }
  }

  /**
   * A run of arrivals, request steps and worker steps from any grounded world: the objects show
   * at the end what the run makes of that world, every request and worker past its look-up
   * still holds the stored object, and every task filed at the start is still filed under its
   * id as the very same object.
   */
  method FineRun(srv: Server, ops: OpsImpl, def: DefaultOperations, flows: seq<Flow>, ghost w: World, steps: seq<Step>)
    returns (all: seq<Flow>)
    requires Together(srv, ops, def) && srv.tasks.Valid() && Grounded(w) && Shows(srv.tasks, flows, w)
    requires After(srv.gate, w, steps).store.created < TWO_64
    modifies srv.tasks, srv.tasks.items.Values, Parts(flows)
    ensures srv.tasks.Valid() && Shows(srv.tasks, all, After(srv.gate, w, steps))
    ensures forall id :: id in old(srv.tasks.items) ==>
      id in srv.tasks.items && srv.tasks.items[id] == old(srv.tasks.items[id])
    decreases |steps|
  {
    if steps == [] {
      return flows;
    }
    FirstOf(srv.gate, w, steps);
    all := TakeStep(srv, ops, def, flows, w, steps[0]);
    all := FineRun(srv, ops, def, all, Next(srv.gate, w, steps[0]), steps[1..]);
  }

  lemma FirstOf(gate: Gate, w: World, steps: seq<Step>)
    requires steps != [] && Grounded(w) && After(gate, w, steps).store.created < TWO_64
    ensures NextID(w.store) !in w.store.items
    ensures var v := Next(gate, w, steps[0]); Grounded(v) && After(gate, v, steps[1..]) == After(gate, w, steps)
  {
    NextIsFree(w.store);
    CreatedMonotone(gate, Next(gate, w, steps[0]), steps[1..]);
    GroundedStep(gate, w, steps[0]);
  }

  /** A server with an empty store shows every run from the start. */
  method FineRunFromStart(card: CardVal, steps: seq<Step>) returns (store: TaskStore, all: seq<Flow>)
    requires After(GateOf(card), START, steps).store.created < TWO_64
    ensures store.Valid() && Shows(store, all, After(GateOf(card), START, steps))
  {
    store := new TaskStore();
    var srv := new Server(store, card);
    var ops := new OpsImpl(store, card);
    var def := new DefaultOperations(store, card);
    all := FineRun(srv, ops, def, [], START, steps);
  }
}
