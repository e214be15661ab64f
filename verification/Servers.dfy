/** The three implementations of the protocol's operations, over one shared task store. */
module Servers {
  import opened Schema
  import opened SecondaryAuth
  import opened StoreModel
  import opened TaskStores
  import opened Handlers
  import opened Workers
  import opened AgentCards

  function Updated(s: StoreVal, t: TaskVal): StoreVal {
    s.(items := s.items[t.id := t])
  }

  /** Every task filed before keeps its object, save one filed under an id that is drawn again. */
  ghost predicate SameObjects(before: map<string, Task>, after: map<string, Task>, drawn: string) {
    forall id :: id in before && id != drawn ==> id in after && after[id] == before[id]
  }

  /** Putting back a task that was changed in place: the history sees no change, the store sees them all. */
  method PutBack(store: TaskStore, task: Task, now: Time)
    requires store.Valid() && Holds(store, task)
    modifies store
    ensures store.Valid() && store.items == old(store.items)
    ensures store.Snapshot() == old(store.Snapshot())
  {
    PutOfStoredObject(store.Snapshot(), task.id, now);
    store.Put(task, now);
    assert store.items == old(store.items);
  }

  /** The very object is filed. */
  ghost predicate Holds(store: TaskStore, task: Task)
    reads store
  {
    task.id in store.items && store.items[task.id] == task
  }

  /** Set one text artifact and mark the task completed; a task the store does not hold is filed as it is put. */
  method CompleteText(store: TaskStore, task: Task, text: string, now: Time)
    requires store.Valid()
    modifies store, task
    ensures store.Valid() && store.items == old(store.items)[task.id := task]
    ensures task.Val() == FinishedTask(old(task.Val()), text, now)
    ensures old(Holds(store, task)) ==>
      store.items == old(store.items) && store.Snapshot() == Updated(old(store.Snapshot()), task.Val())
    ensures !old(Holds(store, task)) ==> store.Snapshot() == AfterPut(old(store.Snapshot()), task.Val(), now)
  {
    var artifact := TextArtifact(task.id, text, now);
    task.status := TaskStatus(Completed, None, None, now);
    task.artifacts := [artifact];
    if Holds(store, task) {
      assert store.Tasks() == old(store.Tasks())[task.id := task.Val()];
      PutOfStoredObject(store.Snapshot(), task.id, now);
    } else {
      assert store.Tasks() == old(store.Tasks());
    }
    store.Put(task, now);
  }

  /** A new task, completed at once. */
  method CompleteNew(store: TaskStore, contextID: Option<string>, now: Time) returns (r: Response)
    requires store.Valid()
    modifies store
    ensures store.Valid()
    ensures SameObjects(old(store.items), store.items, old(NextID(store.Snapshot())))
    ensures fresh(store.items.Values - old(store.items.Values))
    ensures Answer(store.Snapshot(), r) == FreshCompletion(old(store.Snapshot()), contextID, now)
  {
    var task := store.NewTask(contextID, now);
    CompleteText(store, task, "ok", now);
    return TaskResult(task.Val());
  }

  method CancelTask(store: TaskStore, task: Task, now: Time)
    requires store.Valid() && Holds(store, task)
    modifies store, task
    ensures store.Valid() && store.items == old(store.items)
    ensures task.Val() == CanceledTask(old(task.Val()), now)
    ensures store.Snapshot() == Updated(old(store.Snapshot()), task.Val())
  {
    task.status := task.status.(state := Canceled);
    task.status := task.status.(updatedAt := now);
    assert store.Tasks() == old(store.Tasks())[task.id := task.Val()];
    PutBack(store, task, now);
  }

  method AskForAuth(store: TaskStore, task: Task, a: SecAuth, now: Time)
    requires store.Valid() && Holds(store, task)
    modifies store, task
    ensures store.Valid() && store.items == old(store.items)
    ensures task.Val() == AskedTask(old(task.Val()), a, now)
    ensures store.Snapshot() == Updated(old(store.Snapshot()), task.Val())
  {
    task.Touch(AuthRequired, now);
    task.status := task.status.(message := Some(BuildAuthMessage(a)));
    assert store.Tasks() == old(store.Tasks())[task.id := task.Val()];
    PutBack(store, task, now);
  }

  /** A streaming worker in flight: the object it was handed, and how far it has come. */
  class StreamWorker {
    const task: Task
    var pc: Pc
    var events: seq<Event>

    constructor (task: Task)
      ensures this.task == task && Val() == NewWorker(task.id)
    {
      this.task, pc, events := task, AtTouchRunning, [];
    }

    function Val(): Worker
      reads this
    {
      Worker(task.id, pc, events)
    }

    /** The next statement of the worker; the put is the one that goes through the store. */
    method Step(store: TaskStore, now: Time)
      requires store.Valid() && Holds(store, task)
      modifies this, store, task
      ensures store.Valid() && store.items == old(store.items)
      ensures (store.Snapshot(), Val()) == Work(old(store.Snapshot()), old(Val()), now)
    {
      WorkIsUpdate(store.Snapshot(), Val(), now);
      if pc.AtPut? {
        PutBack(store, task, now);
      }
      Perform(now);
      assert store.Tasks() == old(store.Tasks())[task.id := task.Val()];
    }

    /** The next n statements, undisturbed. */
    method RunAlone(store: TaskStore, n: nat, now: Time)
      requires store.Valid() && Holds(store, task)
      modifies this, store, task
      ensures store.Valid() && store.items == old(store.items)
      ensures (store.Snapshot(), Val()) == WorkAlone(old(store.Snapshot()), old(Val()), n, now)
    {
      ghost var s, w := store.Snapshot(), Val();
      for i := 0 to n
        invariant store.Valid() && store.items == old(store.items)
        invariant WorkAlone(store.Snapshot(), Val(), n - i, now) == WorkAlone(s, w, n, now)
      {
        Step(store, now);
      }
    }

    /** What the statement does to the task it holds, and to the worker itself. */
    method Perform(now: Time)
      modifies this, task
      ensures (task.Val(), Val()) == Worked(old(task.Val()), old(Val()), now)
    {
      match pc {
        case AtTouchRunning =>
          task.Touch(TaskState.Running, now);
          pc := AtSendStatus;
        case AtSendStatus =>
          events := events + [NewStatusEvent(task.Val(), false)];
          pc := AtSendArtifact;
        case AtSendArtifact =>
          var art := TextArtifact(task.id, "processing...", now);
          events := events + [NewArtifactEvent(task.Val(), art, true, false)];
          pc := AtTouchCompleted(art);
        case AtTouchCompleted(art) =>
          task.Touch(Completed, now);
          pc := AtAppendArtifact(art);
        case AtAppendArtifact(art) =>
          task.artifacts := task.artifacts + [art];
          pc := AtPut;
        case AtPut =>
          pc := AtSendFinal;
        case AtSendFinal =>
          events := events + [NewStatusEvent(task.Val(), true)];
          pc := AtEnd;
        case AtEnd =>
      }
    }
  }

  /** The worker as a whole, its seven statements one after the other; the events it sends are returned. */
  method StreamDemo(store: TaskStore, task: Task, now: Time) returns (events: seq<Event>)
    requires store.Valid() && Holds(store, task)
    modifies store, task
    ensures store.Valid() && store.items == old(store.items)
    ensures task.Val() == Streamed(old(task.Val()), now)
    ensures store.Snapshot() == Updated(old(store.Snapshot()), task.Val())
    ensures events == StreamedEvents(old(task.Val()), now)
  {
    var k := new StreamWorker(task);
    k.RunAlone(store, 7, now);
    AloneCompletes(old(store.Snapshot()), task.id, now);
    assert store.Snapshot().items[task.id] == task.Val();
    events := k.events;
  }

  /** The plain JSON-RPC entry points. */
  class Server {
    const tasks: TaskStore
    const card: CardVal
    const gate: Gate := GateOf(card)

    constructor (tasks: TaskStore, card: CardVal)
      ensures this.tasks == tasks && this.card == card
    {
      this.tasks, this.card := tasks, card;
    }

    method RpcGetTask(p: Params<string>) returns (r: Response)
      requires tasks.Valid()
      ensures GetOutcome(tasks.Snapshot(), p) == Answer(tasks.Snapshot(), r)
    {
      if p.Absent? || p.Malformed? || p.value == "" {
        return Refused(INVALID_PARAMS);
      }
      var task := tasks.Get(p.value);
      if task == null {
        return Refused(NOT_FOUND);
      }
      return TaskResult(task.Val());
    }

    method RpcCancelTask(p: Params<string>, now: Time) returns (r: Response)
      requires tasks.Valid()
      modifies tasks, tasks.items.Values
      ensures tasks.Valid() && tasks.items == old(tasks.items)
      ensures Answer(tasks.Snapshot(), r) == CancelOutcome(old(tasks.Snapshot()), p, now)
    {
      if p.Absent? || p.Malformed? || p.value == "" {
        return Refused(INVALID_PARAMS);
      }
      var task := tasks.Get(p.value);
      if task != null {
        CancelTask(tasks, task, now);
        return TaskResult(task.Val());
      }
      return Refused(NOT_FOUND);
    }

    method RpcPushConfigSet(p: Params<(string, ConfigVal)>) returns (r: Response)
      requires tasks.Valid()
      modifies tasks
      ensures tasks.Valid() && tasks.items == old(tasks.items)
      ensures Answer(tasks.Snapshot(), r) == PushSetOutcome(gate, old(tasks.Snapshot()), p)
    {
      if !gate.push {
        return Refused(PUSH_UNSUPPORTED);
      }
      if p.Absent? || p.Malformed? || p.value.0 == "" {
        return Refused(INVALID_PARAMS);
      }
      var cfg := tasks.AddPush(p.value.0, p.value.1);
      if cfg.Some? {
        return ConfigResult(cfg.value);
      }
      return Refused(NOT_FOUND);
    }

    method RpcPushConfigGet(p: Params<(string, string)>) returns (r: Response)
      requires tasks.Valid()
      ensures PushGetOutcome(gate, tasks.Snapshot(), p) == Answer(tasks.Snapshot(), r)
    {
      if !gate.push {
        return Refused(PUSH_UNSUPPORTED);
      }
      if p.Absent? || p.Malformed? || p.value.0 == "" || p.value.1 == "" {
        return Refused(INVALID_PARAMS);
      }
      var cfg := tasks.GetPush(p.value.0, p.value.1);
      if cfg.Some? {
        return ConfigResult(cfg.value);
      }
      return Refused(NOT_FOUND);
    }

    method RpcPushConfigList(p: Params<string>) returns (r: Response)
      requires tasks.Valid()
      ensures PushListOutcome(gate, tasks.Snapshot(), p) == Answer(tasks.Snapshot(), r)
    {
      if !gate.push {
        return Refused(PUSH_UNSUPPORTED);
      }
      if p.Absent? || p.Malformed? || p.value == "" {
        return Refused(INVALID_PARAMS);
      }
      var cfgs, ok := tasks.ListPush(p.value);
      if ok {
        return ConfigList(multiset(cfgs));
      }
      return Refused(NOT_FOUND);
    }

    method RpcPushConfigDelete(p: Params<(string, string)>) returns (r: Response)
      requires tasks.Valid()
      modifies tasks
      ensures tasks.Valid() && tasks.items == old(tasks.items)
      ensures Answer(tasks.Snapshot(), r) == PushDeleteOutcome(gate, old(tasks.Snapshot()), p)
    {
      if !gate.push {
        return Refused(PUSH_UNSUPPORTED);
      }
      if p.Absent? || p.Malformed? || p.value.0 == "" || p.value.1 == "" {
        return Refused(INVALID_PARAMS);
      }
      var ok := tasks.DeletePush(p.value.0, p.value.1);
      if ok {
        return Deleted;
      }
      return Refused(NOT_FOUND);
    }

    /** Ignores any task id the client names. */
    method RpcSendMessage(p: Params<SendParams>, now: Time) returns (r: Response)
      requires tasks.Valid()
      modifies tasks
      ensures tasks.Valid()
      ensures SameObjects(old(tasks.items), tasks.items, old(NextID(tasks.Snapshot())))
      ensures fresh(tasks.items.Values - old(tasks.items.Values))
      ensures Answer(tasks.Snapshot(), r) == SendOutcome(Rpc, old(tasks.Snapshot()), p, now)
    {
      if p.Absent? || p.Malformed? || |p.value.messages| == 0 {
        return Refused(INVALID_PARAMS);
      }
      r := CompleteNew(tasks, p.value.contextID, now);
    }

    method RpcResubscribe(p: Params<string>) returns (r: Response)
      requires tasks.Valid()
      ensures ResubscribeOutcome(Rpc, gate, tasks.Snapshot(), p) == Answer(tasks.Snapshot(), r)
    {
      if !gate.streaming {
        return Refused(STREAMING_UNSUPPORTED);
      }
      r := RpcGetTask(p);
    }
  }

  /** The default operations: a request may continue a task, and may be asked for credentials. */
  class OpsImpl {
    const tasks: TaskStore
    const card: CardVal
    const gate: Gate := GateOf(card)

    constructor (tasks: TaskStore, card: CardVal)
      ensures this.tasks == tasks && this.card == card
    {
      this.tasks, this.card := tasks, card;
    }

    /** The named task, or a new one; none when the named task is terminal. */
    method ContinueOrCreate(p: SendParams, now: Time) returns (task: Task?)
      requires tasks.Valid()
      modifies tasks
      ensures tasks.Valid()
      ensures SameObjects(old(tasks.items), tasks.items, old(NextID(tasks.Snapshot())))
      ensures fresh(tasks.items.Values - old(tasks.items.Values))
      ensures task == null <==> NamesTerminal(old(tasks.Snapshot()), p)
      ensures task == null ==> tasks.Snapshot() == old(tasks.Snapshot())
      ensures task != null ==>
        && (fresh(task) || task in old(tasks.items.Values))
        && tasks.Snapshot() == AtTarget(old(tasks.Snapshot()), p, now)
        && task.id == Target(old(tasks.Snapshot()), p)
        && task.id in tasks.items && tasks.items[task.id] == task
    {
      if p.taskID.Some? && p.taskID.value != "" {
        var existing := tasks.Get(p.taskID.value);
        if existing != null {
          if IsTerminal(existing.status.state) {
            return null;
          }
          return existing;
        }
      }
      task := tasks.NewTask(p.contextID, now);
    }

    method MessageSend(params: Params<SendParams>, now: Time) returns (r: Response)
      requires tasks.Valid()
      modifies tasks, tasks.items.Values
      ensures tasks.Valid()
      ensures SameObjects(old(tasks.items), tasks.items, old(NextID(tasks.Snapshot())))
      ensures fresh(tasks.items.Values - old(tasks.items.Values))
      ensures Answer(tasks.Snapshot(), r) == SendOutcome(Ops, old(tasks.Snapshot()), params, now)
    {
      if !params.Parsed? || |params.value.messages| == 0 {
        return Refused(INVALID_PARAMS);
      }
      var p := params.value;
      var task := ContinueOrCreate(p, now);
      if task == null {
        return Refused(TASK_IS_TERMINAL);
      }
      var authReq := DetectSecondaryAuth(p.messages);
      if authReq.require && Blank(authReq.token) {
        AskForAuth(tasks, task, authReq, now);
        return TaskResult(task.Val());
      }
      CompleteText(tasks, task, "ok", now);
      return TaskResult(task.Val());
    }

    /** `started` is the task handed to a new worker, if any. */
    method MessageStream(params: Params<SendParams>, now: Time) returns (r: Response, started: Task?)
      requires tasks.Valid()
      modifies tasks, tasks.items.Values
      ensures tasks.Valid()
      ensures SameObjects(old(tasks.items), tasks.items, old(NextID(tasks.Snapshot())))
      ensures fresh(tasks.items.Values - old(tasks.items.Values))
      ensures started != null ==> started.id in tasks.items && tasks.items[started.id] == started
      ensures Outcome(tasks.Snapshot(), r, if started == null then None else Some(started.id)) ==
              StreamOutcome(Ops, gate, old(tasks.Snapshot()), params, now)
    {
      started := null;
      if !gate.streaming {
        return Refused(STREAMING_UNSUPPORTED), null;
      }
      if !params.Parsed? || |params.value.messages| == 0 {
        return Refused(INVALID_PARAMS), null;
      }
      var p := params.value;
      var task := ContinueOrCreate(p, now);
      if task == null {
        return Refused(TASK_IS_TERMINAL), null;
      }
      var authReq := DetectSecondaryAuth(p.messages);
      if authReq.require && Blank(authReq.token) {
        AskForAuth(tasks, task, authReq, now);
        return TaskResult(task.Val()), null;
      }
      return TaskResult(task.Val()), task;
    }

    method TasksResubscribe(p: Params<string>) returns (r: Response)
      requires tasks.Valid()
      ensures ResubscribeOutcome(Ops, gate, tasks.Snapshot(), p) == Answer(tasks.Snapshot(), r)
    {
      if !gate.streaming {
        return Refused(STREAMING_UNSUPPORTED);
      }
      r := Resubscribed;
      if p.Parsed? && p.value != "" {
        var task := tasks.Get(p.value);
        if task != null {
          r := TaskResult(task.Val());
        }
      }
    }

    method TasksGet(p: Params<string>) returns (r: Response)
      requires tasks.Valid()
      ensures GetOutcome(tasks.Snapshot(), p) == Answer(tasks.Snapshot(), r)
    {
      if !p.Parsed? || p.value == "" {
        return Refused(INVALID_PARAMS);
      }
      var task := tasks.Get(p.value);
      if task != null {
        return TaskResult(task.Val());
      }
      return Refused(NOT_FOUND);
    }

    method TasksCancel(p: Params<string>, now: Time) returns (r: Response)
      requires tasks.Valid()
      modifies tasks, tasks.items.Values
      ensures tasks.Valid() && tasks.items == old(tasks.items)
      ensures Answer(tasks.Snapshot(), r) == CancelOutcome(old(tasks.Snapshot()), p, now)
    {
      if !p.Parsed? || p.value == "" {
        return Refused(INVALID_PARAMS);
      }
      var task := tasks.Get(p.value);
      if task != null {
        CancelTask(tasks, task, now);
        return TaskResult(task.Val());
      }
      return Refused(NOT_FOUND);
    }

    method TasksPushNotificationConfigSet(p: Params<(string, ConfigVal)>) returns (r: Response)
      requires tasks.Valid()
      modifies tasks
      ensures tasks.Valid() && tasks.items == old(tasks.items)
      ensures Answer(tasks.Snapshot(), r) == PushSetOutcome(gate, old(tasks.Snapshot()), p)
    {
      if !gate.push {
        return Refused(PUSH_UNSUPPORTED);
      }
      if !p.Parsed? || p.value.0 == "" {
        return Refused(INVALID_PARAMS);
      }
      var cfg := tasks.AddPush(p.value.0, p.value.1);
      if cfg.Some? {
        return ConfigResult(cfg.value);
      }
      return Refused(NOT_FOUND);
    }

    method TasksPushNotificationConfigGet(p: Params<(string, string)>) returns (r: Response)
      requires tasks.Valid()
      ensures PushGetOutcome(gate, tasks.Snapshot(), p) == Answer(tasks.Snapshot(), r)
    {
      if !gate.push {
        return Refused(PUSH_UNSUPPORTED);
      }
      if !p.Parsed? || p.value.0 == "" || p.value.1 == "" {
        return Refused(INVALID_PARAMS);
      }
      var cfg := tasks.GetPush(p.value.0, p.value.1);
      if cfg.Some? {
        return ConfigResult(cfg.value);
      }
      return Refused(NOT_FOUND);
    }

    method TasksPushNotificationConfigList(p: Params<string>) returns (r: Response)
      requires tasks.Valid()
      ensures PushListOutcome(gate, tasks.Snapshot(), p) == Answer(tasks.Snapshot(), r)
    {
      if !gate.push {
        return Refused(PUSH_UNSUPPORTED);
      }
      if !p.Parsed? || p.value == "" {
        return Refused(INVALID_PARAMS);
      }
      var cfgs, ok := tasks.ListPush(p.value);
      if ok {
        return ConfigList(multiset(cfgs));
      }
      return Refused(NOT_FOUND);
    }

    method TasksPushNotificationConfigDelete(p: Params<(string, string)>) returns (r: Response)
      requires tasks.Valid()
      modifies tasks
      ensures tasks.Valid() && tasks.items == old(tasks.items)
      ensures Answer(tasks.Snapshot(), r) == PushDeleteOutcome(gate, old(tasks.Snapshot()), p)
    {
      if !gate.push {
        return Refused(PUSH_UNSUPPORTED);
      }
      if !p.Parsed? || p.value.0 == "" || p.value.1 == "" {
        return Refused(INVALID_PARAMS);
      }
      var ok := tasks.DeletePush(p.value.0, p.value.1);
      if ok {
        return Deleted;
      }
      return Refused(NOT_FOUND);
    }
  }

  /** The callback layer with no callback set: it guards terminal tasks but always works on a new one. */
  class DefaultOperations {
    const tasks: TaskStore
    const card: CardVal
    const gate: Gate := GateOf(card)

    constructor (tasks: TaskStore, card: CardVal)
      ensures this.tasks == tasks && this.card == card
    {
      this.tasks, this.card := tasks, card;
    }

    method MessageSend(params: Params<SendParams>, now: Time) returns (r: Response)
      requires tasks.Valid()
      modifies tasks
      ensures tasks.Valid()
      ensures SameObjects(old(tasks.items), tasks.items, old(NextID(tasks.Snapshot())))
      ensures fresh(tasks.items.Values - old(tasks.items.Values))
      ensures Answer(tasks.Snapshot(), r) == SendOutcome(Default, old(tasks.Snapshot()), params, now)
    {
      if !params.Parsed? || |params.value.messages| == 0 {
        return Refused(INVALID_PARAMS);
      }
      var p := params.value;
      if p.taskID.Some? && p.taskID.value != "" {
        var existing := tasks.Get(p.taskID.value);
        if existing != null && IsTerminal(existing.status.state) {
          return Refused(TASK_IS_TERMINAL);
        }
      }
      r := CompleteNew(tasks, p.contextID, now);
    }

    method MessageStream(params: Params<SendParams>, now: Time) returns (r: Response, started: Task?)
      requires tasks.Valid()
      modifies tasks
      ensures tasks.Valid()
      ensures SameObjects(old(tasks.items), tasks.items, old(NextID(tasks.Snapshot())))
      ensures fresh(tasks.items.Values - old(tasks.items.Values))
      ensures started != null ==> started.id in tasks.items && tasks.items[started.id] == started
      ensures Outcome(tasks.Snapshot(), r, if started == null then None else Some(started.id)) ==
              StreamOutcome(Default, gate, old(tasks.Snapshot()), params, now)
    {
      started := null;
      if !gate.streaming {
        return Refused(STREAMING_UNSUPPORTED), null;
      }
      if !params.Parsed? || |params.value.messages| == 0 {
        return Refused(INVALID_PARAMS), null;
      }
      var p := params.value;
      if p.taskID.Some? && p.taskID.value != "" {
        var existing := tasks.Get(p.taskID.value);
        if existing != null && IsTerminal(existing.status.state) {
          return Refused(TASK_IS_TERMINAL), null;
        }
      }
      var task := tasks.NewTask(p.contextID, now);
      return TaskResult(task.Val()), task;
    }

    method TasksResubscribe(p: Params<string>) returns (r: Response)
      requires tasks.Valid()
      ensures ResubscribeOutcome(Default, gate, tasks.Snapshot(), p) == Answer(tasks.Snapshot(), r)
    {
      if !gate.streaming {
        return Refused(STREAMING_UNSUPPORTED);
      }
      if p.Parsed? && p.value != "" {
        var task := tasks.Get(p.value);
        if task != null {
          return TaskResult(task.Val());
        }
      }
      return Resubscribed;
    }

    method TasksGet(p: Params<string>) returns (r: Response)
      requires tasks.Valid()
      ensures GetOutcome(tasks.Snapshot(), p) == Answer(tasks.Snapshot(), r)
    {
      if !p.Parsed? || p.value == "" {
        return Refused(INVALID_PARAMS);
      }
      var task := tasks.Get(p.value);
      if task != null {
        return TaskResult(task.Val());
      }
      return Refused(NOT_FOUND);
    }

    method TasksCancel(p: Params<string>, now: Time) returns (r: Response)
      requires tasks.Valid()
      modifies tasks, tasks.items.Values
      ensures tasks.Valid() && tasks.items == old(tasks.items)
      ensures Answer(tasks.Snapshot(), r) == CancelOutcome(old(tasks.Snapshot()), p, now)
    {
      if !p.Parsed? || p.value == "" {
        return Refused(INVALID_PARAMS);
      }
      var task := tasks.Get(p.value);
      if task != null {
        CancelTask(tasks, task, now);
        return TaskResult(task.Val());
      }
      return Refused(NOT_FOUND);
    }

    method TasksPushNotificationConfigSet(p: Params<(string, ConfigVal)>) returns (r: Response)
      requires tasks.Valid()
      modifies tasks
      ensures tasks.Valid() && tasks.items == old(tasks.items)
      ensures Answer(tasks.Snapshot(), r) == PushSetOutcome(gate, old(tasks.Snapshot()), p)
    {
      if !gate.push {
        return Refused(PUSH_UNSUPPORTED);
      }
      if !p.Parsed? || p.value.0 == "" {
        return Refused(INVALID_PARAMS);
      }
      var cfg := tasks.AddPush(p.value.0, p.value.1);
      if cfg.Some? {
        return ConfigResult(cfg.value);
      }
      return Refused(NOT_FOUND);
    }

    method TasksPushNotificationConfigGet(p: Params<(string, string)>) returns (r: Response)
      requires tasks.Valid()
      ensures PushGetOutcome(gate, tasks.Snapshot(), p) == Answer(tasks.Snapshot(), r)
    {
      if !gate.push {
        return Refused(PUSH_UNSUPPORTED);
      }
      if !p.Parsed? || p.value.0 == "" || p.value.1 == "" {
        return Refused(INVALID_PARAMS);
      }
      var cfg := tasks.GetPush(p.value.0, p.value.1);
      if cfg.Some? {
        return ConfigResult(cfg.value);
      }
      return Refused(NOT_FOUND);
    }

    method TasksPushNotificationConfigList(p: Params<string>) returns (r: Response)
      requires tasks.Valid()
      ensures PushListOutcome(gate, tasks.Snapshot(), p) == Answer(tasks.Snapshot(), r)
    {
      if !gate.push {
        return Refused(PUSH_UNSUPPORTED);
      }
      if !p.Parsed? || p.value == "" {
        return Refused(INVALID_PARAMS);
      }
      var cfgs, ok := tasks.ListPush(p.value);
      if ok {
        return ConfigList(multiset(cfgs));
      }
      return Refused(NOT_FOUND);
    }

    method TasksPushNotificationConfigDelete(p: Params<(string, string)>) returns (r: Response)
      requires tasks.Valid()
      modifies tasks
      ensures tasks.Valid() && tasks.items == old(tasks.items)
      ensures Answer(tasks.Snapshot(), r) == PushDeleteOutcome(gate, old(tasks.Snapshot()), p)
    {
      if !gate.push {
        return Refused(PUSH_UNSUPPORTED);
      }
      if !p.Parsed? || p.value.0 == "" || p.value.1 == "" {
        return Refused(INVALID_PARAMS);
      }
      var ok := tasks.DeletePush(p.value.0, p.value.1);
      if ok {
        return Deleted;
      }
      return Refused(NOT_FOUND);
    }
  }
}
