/** Whole runs of the server on its task objects: one store, three implementations, requests of every kind. */
module Runs {
  import opened Schema
  import opened AgentCards
  import opened Decimal
  import opened StoreModel
  import opened TaskStores
  import opened Handlers
  import opened Workers
  import opened Servers
  import opened Lifecycle
  import Equivalence

  /** The three implementations answer for one store and one agent card. */
  ghost predicate Together(srv: Server, ops: OpsImpl, def: DefaultOperations) {
    srv.tasks == ops.tasks == def.tasks && srv.card == ops.card == def.card
  }

  /**
   * One request of any kind through the implementation named; `started` is handed to a new worker.
   * The plain server streams nothing, and resubscribes only for the REST subscribe route.
   */
  method ServeRequest(srv: Server, ops: OpsImpl, def: DefaultOperations, impl: Impl, req: Request, now: Time)
    returns (r: Response, started: Task?)
    requires Together(srv, ops, def) && srv.tasks.Valid()
    modifies srv.tasks, srv.tasks.items.Values
    ensures srv.tasks.Valid()
    ensures SameObjects(old(srv.tasks.items), srv.tasks.items, old(NextID(srv.tasks.Snapshot())))
    ensures fresh(srv.tasks.items.Values - old(srv.tasks.items.Values))
    ensures Outcome(srv.tasks.Snapshot(), r, if started == null then None else Some(started.id)) ==
            Serve(impl, srv.gate, old(srv.tasks.Snapshot()), req, now)
    ensures started != null ==> started.id in srv.tasks.items && srv.tasks.items[started.id] == started
  {
    started := null;
    match req {
      case Send(p) =>
        match impl {
          case Rpc => r := srv.RpcSendMessage(p, now);
          case Ops => r := ops.MessageSend(p, now);
          case Default => r := def.MessageSend(p, now);
        }
      case Stream(p) =>
        match impl {
          case Rpc => r := Refused(METHOD_NOT_FOUND);
          case Ops => r, started := ops.MessageStream(p, now);
          case Default => r, started := def.MessageStream(p, now);
        }
      case Resubscribe(p) =>
        match impl {
          case Rpc => r := srv.RpcResubscribe(p);
          case Ops => r := ops.TasksResubscribe(p);
          case Default => r := def.TasksResubscribe(p);
        }
      case _ =>
        r := Equivalence.ServeThrough(srv, ops, def, impl, req, now);
    }
  }

  /** The workers have come as far as `vals` says, and hold stored objects. */
  ghost predicate Show(store: TaskStore, workers: seq<StreamWorker>, vals: seq<Worker>)
    reads store, workers
  {
    && |workers| == |vals|
    && (forall i :: 0 <= i < |workers| ==> workers[i].Val() == vals[i] && Holds(store, workers[i].task))
    && (forall i, j :: 0 <= i < j < |workers| ==> workers[i] != workers[j])
  }

  /** The objects in the store and in the workers' hands show the world. */
  ghost predicate Shows(store: TaskStore, workers: seq<StreamWorker>, w: World)
    reads store, store.items.Values, workers
  {
    store.Snapshot() == w.store && Show(store, workers, w.workers)
  }

  /** The worker a request may have started joins the others. */
  method Join(store: TaskStore, workers: seq<StreamWorker>, ghost vals: seq<Worker>, started: Task?)
    returns (all: seq<StreamWorker>)
    requires Show(store, workers, vals) && (started != null ==> Holds(store, started))
    ensures Show(store, all, Spawn(vals, if started == null then None else Some(started.id)))
    ensures workers <= all && forall k :: |workers| <= k < |all| ==> fresh(all[k])
  {
    all := workers;
    if started != null {
      var k := new StreamWorker(started);
      all := workers + [k];
    }
  }

  /** A whole request on the objects, and the worker it may start. */
  method HandleStep(srv: Server, ops: OpsImpl, def: DefaultOperations, workers: seq<StreamWorker>,
                    ghost vals: seq<Worker>, impl: Impl, req: Request, now: Time)
    returns (all: seq<StreamWorker>)
    requires Together(srv, ops, def) && srv.tasks.Valid() && Show(srv.tasks, workers, vals)
    requires NextID(srv.tasks.Snapshot()) !in srv.tasks.items
    modifies srv.tasks, srv.tasks.items.Values
    ensures srv.tasks.Valid()
    ensures var o := Serve(impl, srv.gate, old(srv.tasks.Snapshot()), req, now);
      srv.tasks.Snapshot() == o.store && Show(srv.tasks, all, Spawn(vals, o.spawned))
    ensures fresh(srv.tasks.items.Values - old(srv.tasks.items.Values))
    ensures workers <= all && forall k :: |workers| <= k < |all| ==> fresh(all[k])
    ensures forall id :: id in old(srv.tasks.items) ==>
      id in srv.tasks.items && srv.tasks.items[id] == old(srv.tasks.items[id])
  {
    var r, started := ServeRequest(srv, ops, def, impl, req, now);
    all := Join(srv.tasks, workers, vals, started);
  }

  /** One statement of a worker on the objects. */
  method AdvanceStep(store: TaskStore, workers: seq<StreamWorker>, ghost vals: seq<Worker>, i: nat, now: Time)
    requires store.Valid() && Show(store, workers, vals) && i < |workers|
    modifies store, store.items.Values, workers
    ensures store.Valid() && store.items == old(store.items)
    ensures var (s, k) := Work(old(store.Snapshot()), vals[i], now);
      store.Snapshot() == s && Show(store, workers, vals[i := k])
  {
    workers[i].Step(store, now);
  }

  /** One step on the objects. */
  method TakeStep(srv: Server, ops: OpsImpl, def: DefaultOperations, workers: seq<StreamWorker>, ghost w: World,
                  st: Step)
    returns (all: seq<StreamWorker>)
    requires Together(srv, ops, def) && srv.tasks.Valid() && Shows(srv.tasks, workers, w)
    requires NextID(w.store) !in w.store.items
    modifies srv.tasks, srv.tasks.items.Values, workers
    ensures srv.tasks.Valid() && Shows(srv.tasks, all, Next(srv.gate, w, st))
    ensures fresh(srv.tasks.items.Values - old(srv.tasks.items.Values))
    ensures workers <= all && forall k :: |workers| <= k < |all| ==> fresh(all[k])
    ensures forall id :: id in old(srv.tasks.items) ==>
      id in srv.tasks.items && srv.tasks.items[id] == old(srv.tasks.items[id])
  {
    match st {
      case Handle(impl, req, now) =>
        assert NextID(srv.tasks.Snapshot()) !in srv.tasks.items;
        all := HandleStep(srv, ops, def, workers, w.workers, impl, req, now);
      case Advance(i, now) =>
        all := workers;
        if i < |workers| {
          AdvanceStep(srv.tasks, workers, w.workers, i, now);
        }
    }
  }

  // Along a run.

  lemma {:induction false} CountGrows(gate: Gate, w: World, steps: seq<Step>)
    ensures w.store.created <= After(gate, w, steps).store.created
  {
    if steps != [] {
      CountGrows(gate, w, steps[..|steps| - 1]);
      CountNeverFalls(gate, After(gate, w, steps[..|steps| - 1]), steps[|steps| - 1]);
    }
  }

  lemma FirstOf(gate: Gate, w: World, steps: seq<Step>)
    requires steps != [] && Grounded(w) && After(gate, w, steps).store.created < TWO_64
    ensures NextID(w.store) !in w.store.items
    ensures var v := Next(gate, w, steps[0]); Grounded(v) && After(gate, v, steps[1..]) == After(gate, w, steps)
  {
    NextIsFree(w.store);
    assert steps == [steps[0]] + steps[1..];
    AfterJoin(gate, w, [steps[0]], steps[1..]);
    AfterOne(gate, w, steps[0]);
    CountGrows(gate, Next(gate, w, steps[0]), steps[1..]);
    StepShape(gate, w, steps[0]);
    GroundedStep(w, Next(gate, w, steps[0]));
  }

  /**
   * A run of requests, each through an implementation of its own, and of worker statements,
   * from any grounded world: the objects show at the end what the run makes of that world,
   * every worker still holds the stored object, and every task filed at the start is still
   * filed under its id as the very same object.
   */
  method ServeRun(srv: Server, ops: OpsImpl, def: DefaultOperations, workers: seq<StreamWorker>, ghost w: World,
                  steps: seq<Step>)
    returns (all: seq<StreamWorker>)
    requires Together(srv, ops, def) && srv.tasks.Valid() && Grounded(w) && Shows(srv.tasks, workers, w)
    requires After(srv.gate, w, steps).store.created < TWO_64
    modifies srv.tasks, srv.tasks.items.Values, workers
    ensures srv.tasks.Valid() && Intact(srv.tasks.Snapshot())
    ensures Shows(srv.tasks, all, After(srv.gate, w, steps)) && workers <= all
    ensures forall id :: id in old(srv.tasks.items) ==>
      id in srv.tasks.items && srv.tasks.items[id] == old(srv.tasks.items[id])
    decreases |steps|
  {
    if steps == [] {
      return workers;
    }
    FirstOf(srv.gate, w, steps);
    all := TakeStep(srv, ops, def, workers, w, steps[0]);
    all := ServeRun(srv, ops, def, all, Next(srv.gate, w, steps[0]), steps[1..]);
  }

  /** A server with an empty store shows every run from the start. */
  method RunFromStart(card: CardVal, steps: seq<Step>) returns (store: TaskStore, all: seq<StreamWorker>)
    requires Run(GateOf(card), steps).store.created < TWO_64
    ensures store.Valid() && Shows(store, all, Run(GateOf(card), steps))
  {
    store := new TaskStore();
    var srv := new Server(store, card);
    var ops := new OpsImpl(store, card);
    var def := new DefaultOperations(store, card);
    all := ServeRun(srv, ops, def, [], START, steps);
  }
}
