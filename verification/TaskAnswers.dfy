/** What a client is answered about tasks, and what the store holds afterwards, spelled out field by field. */
module TaskAnswers {
  import opened Schema
  import opened Decimal
  import opened SecondaryAuth
  import opened StoreModel
  import opened Handlers
  import opened Workers

  predicate Over(state: TaskState) {
    state == Completed || state == Failed || state == Canceled
  }

  /** Only this task may differ, and it may be new. */
  ghost predicate OnlyTask(s: StoreVal, v: StoreVal, id: string) {
    && v.items.Keys == s.items.Keys + {id}
    && (forall other :: other in s.items && other != id ==> v.items[other] == s.items[other])
    && v.push == s.push && v.adds == s.adds
  }

  /** The task was there before. */
  ghost predicate OnlyChanged(s: StoreVal, v: StoreVal, id: string) {
    OnlyTask(s, v, id) && id in s.items && v.created == s.created && v.hist == s.hist
  }

  /** The task was made by the next number, and its creation recorded. */
  ghost predicate OnlyMade(s: StoreVal, v: StoreVal, id: string, now: Time) {
    && OnlyTask(s, v, id) && id == "t-" + Printed(Wrap64(s.created + 1)) && v.created == s.created + 1
    && v.hist == s.hist[id := (if id in s.hist then s.hist[id] else []) + [Transition(TaskState.Running, now)]]
  }

  // tasks/cancel and tasks/get, the same for all implementations.

  lemma CancelAnswered(impl: Impl, gate: Gate, s: StoreVal, p: Params<string>, now: Time)
    ensures var o := Serve(impl, gate, s, Cancel(p), now);
      if !p.Parsed? || p.value == "" then o == Outcome(s, Refused(-32602), None)
      else if p.value !in s.items then o == Outcome(s, Refused(-32004), None)
      else
        && OnlyChanged(s, o.store, p.value) && o.spawned == None
        && var a, b := s.items[p.value], o.store.items[p.value];
           && o.response == TaskResult(b)
           && b == TaskVal(a.id, a.contextID, TaskStatus(Canceled, a.status.message, a.status.error, now), a.artifacts)
  {
  }

  lemma GetAnswered(impl: Impl, gate: Gate, s: StoreVal, p: Params<string>, now: Time)
    ensures Serve(impl, gate, s, Get(p), now) ==
            Outcome(s, if !p.Parsed? || p.value == "" then Refused(-32602)
                       else if p.value in s.items then TaskResult(s.items[p.value])
                       else Refused(-32004), None)
  {
  }

  /** Over every run's stores: a get succeeds for exactly the ids issued so far. */
  lemma FoundIfIssued(impl: Impl, gate: Gate, s: StoreVal, id: string, now: Time)
    requires Intact(s)
    ensures Serve(impl, gate, s, Get(Parsed(id)), now).response.TaskResult? <==>
            exists k: nat :: 1 <= k <= s.created && id == TaskID(k)
  {
    GetAnswered(impl, gate, s, Parsed(id), now);
    IssuedMembers(s.created, id);
  }

  /** Resubscribing never changes the store; only the plain server minds an unknown task. */
  lemma ResubscribeAnswered(impl: Impl, gate: Gate, s: StoreVal, p: Params<string>, now: Time)
    ensures var o := Serve(impl, gate, s, Resubscribe(p), now);
      && o.store == s && o.spawned == None
      && o.response ==
         if !gate.streaming then Refused(-32002)
         else if p.Parsed? && p.value != "" && p.value in s.items then TaskResult(s.items[p.value])
         else if impl == Rpc then Refused(if p.Parsed? && p.value != "" then -32004 else -32602)
         else Resubscribed
  {
  }

  // message/send and message/stream.

  /** The request names a stored task. */
  predicate Continues(s: StoreVal, p: SendParams) {
    p.taskID.Some? && p.taskID.value != "" && p.taskID.value in s.items
  }

  /** The task a request works on: a new one, or for opsImpl the one it continues. */
  function Begun(impl: Impl, s: StoreVal, p: SendParams, now: Time): TaskVal {
    if impl == Ops && Continues(s, p) then s.items[p.taskID.value]
    else
      TaskVal("t-" + Printed(Wrap64(s.created + 1)), p.contextID, TaskStatus(TaskState.Running, None, None, now), [])
  }

  ghost predicate OnlyWorkedOn(impl: Impl, s: StoreVal, p: SendParams, now: Time, v: StoreVal, id: string) {
    if impl == Ops && Continues(s, p) then OnlyChanged(s, v, id) else OnlyMade(s, v, id, now)
  }

  predicate AsksForToken(impl: Impl, p: SendParams) {
    impl == Ops && NeedsAuth(Detected(p.messages))
  }

  /** The task, asking for a token. */
  function Asking(t: TaskVal, p: SendParams, now: Time): TaskVal {
    TaskVal(t.id, t.contextID,
            TaskStatus(AuthRequired, Some(BuildAuthMessage(Detected(p.messages))), t.status.error, now), t.artifacts)
  }

  /** The task, completed with its one artifact. */
  function Completion(t: TaskVal, now: Time): TaskVal {
    TaskVal(t.id, t.contextID, TaskStatus(Completed, None, None, now), [Artifact("a-" + t.id, now, "ok")])
  }

  /** One task is worked on, and is answered as it is stored. */
  ghost predicate WorksOut(impl: Impl, s: StoreVal, p: SendParams, now: Time, o: Outcome, t: TaskVal, v: TaskVal) {
    && OnlyWorkedOn(impl, s, p, now, o.store, t.id)
    && o.store.items[t.id] == v && o.response == TaskResult(v)
  }

  /** The request names a finished task to an implementation that minds. */
  predicate TooLate(impl: Impl, s: StoreVal, p: SendParams) {
    impl != Rpc && Continues(s, p) && Over(s.items[p.taskID.value].status.state)
  }

  /** Storing the task is all that happens to a store that holds it. */
  lemma StoredOver(s: StoreVal, id: string, v: TaskVal)
    requires id in s.items
    ensures OnlyChanged(s, Done(s, id, v).store, id)
  {
  }

  lemma MadeThenStored(s: StoreVal, contextID: Option<string>, now: Time, v: TaskVal)
    ensures OnlyMade(s, Done(AfterNewTask(s, contextID, now), NextID(s), v).store, NextID(s), now)
  {
  }

  lemma SendWorks(impl: Impl, s: StoreVal, params: Params<SendParams>, now: Time)
    requires Sound(s) && params.Parsed? && params.value.messages != [] && !TooLate(impl, s, params.value)
    ensures var p := params.value;
      var t := Begun(impl, s, p, now);
      WorksOut(impl, s, p, now, SendOutcome(impl, s, params, now), t,
               if AsksForToken(impl, p) then Asking(t, p, now) else Completion(t, now))
  {
    var p := params.value;
    var t := Begun(impl, s, p, now);
    var v := if AsksForToken(impl, p) then Asking(t, p, now) else Completion(t, now);
    if impl == Ops && Continues(s, p) {
      StoredOver(s, t.id, v);
      assert SendOutcome(impl, s, params, now) == Done(s, t.id, v);
    } else {
      MadeThenStored(s, p.contextID, now, v);
      assert SendOutcome(impl, s, params, now) == Done(AfterNewTask(s, p.contextID, now), NextID(s), v);
    }
  }

  /** A send is refused, or it completes its task, or opsImpl asks for the token it lacks. */
  lemma SendAnswered(impl: Impl, gate: Gate, s: StoreVal, params: Params<SendParams>, now: Time)
    requires Sound(s)
    ensures var o := Serve(impl, gate, s, Send(params), now);
      if !params.Parsed? || params.value.messages == [] then o == Outcome(s, Refused(-32602), None)
      else
        var p := params.value;
        if TooLate(impl, s, p) then o == Outcome(s, Refused(-32006), None)
        else
          var t := Begun(impl, s, p, now);
          && o.spawned == None
          && WorksOut(impl, s, p, now, o, t, if AsksForToken(impl, p) then Asking(t, p, now) else Completion(t, now))
  {
    if params.Parsed? && params.value.messages != [] && !TooLate(impl, s, params.value) {
      SendWorks(impl, s, params, now);
    }
  }

  lemma StreamWorks(impl: Impl, gate: Gate, s: StoreVal, params: Params<SendParams>, now: Time)
    requires Sound(s) && impl != Rpc && gate.streaming
    requires params.Parsed? && params.value.messages != [] && !TooLate(impl, s, params.value)
    ensures var p := params.value;
      var t := Begun(impl, s, p, now);
      var o := StreamOutcome(impl, gate, s, params, now);
      && WorksOut(impl, s, p, now, o, t, if AsksForToken(impl, p) then Asking(t, p, now) else t)
      && o.spawned == if AsksForToken(impl, p) then None else Some(t.id)
  {
    var p := params.value;
    if impl == Ops && Continues(s, p) {
      assert StreamOutcome(impl, gate, s, params, now).store.created == s.created;
    } else {
      assert Begun(impl, s, p, now) == NewTaskVal(NextID(s), p.contextID, now);
      assert StreamOutcome(impl, gate, s, params, now).store.created == s.created + 1;
    }
  }

  /** The same with a worker in place of the completion. */
  lemma StreamAnswered(impl: Impl, gate: Gate, s: StoreVal, params: Params<SendParams>, now: Time)
    requires Sound(s)
    ensures var o := Serve(impl, gate, s, Stream(params), now);
      if impl == Rpc then o == Outcome(s, Refused(-32601), None)
      else if !gate.streaming then o == Outcome(s, Refused(-32002), None)
      else if !params.Parsed? || params.value.messages == [] then o == Outcome(s, Refused(-32602), None)
      else
        var p := params.value;
        if TooLate(impl, s, p) then o == Outcome(s, Refused(-32006), None)
        else
          var t := Begun(impl, s, p, now);
          && WorksOut(impl, s, p, now, o, t, if AsksForToken(impl, p) then Asking(t, p, now) else t)
          && o.spawned == if AsksForToken(impl, p) then None else Some(t.id)
  {
    if impl != Rpc && gate.streaming && params.Parsed? && params.value.messages != []
       && !TooLate(impl, s, params.value) {
      StreamWorks(impl, gate, s, params, now);
    }
  }

  /** Any answer with a task is what a get right after it answers. */
  lemma AnswerIsStored(impl: Impl, also: Impl, gate: Gate, s: StoreVal, req: Request, now: Time, later: Time)
    requires Intact(s)
    ensures var o := Serve(impl, gate, s, req, now);
      o.response.TaskResult? ==>
        Serve(also, gate, o.store, Get(Parsed(o.response.task.id)), later) == Outcome(o.store, o.response, None)
  {
    var o := Serve(impl, gate, s, req, now);
    if o.response.TaskResult? {
      StoredAsAnswered(impl, gate, s, req, now);
      GetAnswered(also, gate, o.store, Parsed(o.response.task.id), later);
    }
  }

  lemma StoredAsAnswered(impl: Impl, gate: Gate, s: StoreVal, req: Request, now: Time)
    requires Intact(s) && Serve(impl, gate, s, req, now).response.TaskResult?
    ensures var o := Serve(impl, gate, s, req, now);
      var t := o.response.task; t.id != "" && t.id in o.store.items && o.store.items[t.id] == t
  {
    var o := Serve(impl, gate, s, req, now);
    match req {
      case Send(p) => SendAnswered(impl, gate, s, p, now);
      case Stream(p) => StreamAnswered(impl, gate, s, p, now);
      case Cancel(p) => CancelAnswered(impl, gate, s, p, now);
      case Get(p) => GetAnswered(impl, gate, s, p, now);
      case Resubscribe(p) => ResubscribeAnswered(impl, gate, s, p, now);
      case _ =>
    }
    if o.response.task.id in s.items {
      IssuedMembers(s.created, o.response.task.id);
    }
  }

  // The streaming worker.

  function Sender(t: TaskVal): string {
    match t.contextID case Some(c) => c case None => ""
  }

  /** One statement: what it writes to the task, and what it sends. */
  lemma StatementSpelledOut(t: TaskVal, k: Worker, now: Time)
    ensures var (t', k') := Worked(t, k, now);
      && k'.task == k.task && t'.id == t.id && t'.contextID == t.contextID
      && t'.status == (match k.pc
           case AtTouchRunning => TaskStatus(TaskState.Running, t.status.message, t.status.error, now)
           case AtTouchCompleted(_) => TaskStatus(Completed, t.status.message, t.status.error, now)
           case _ => t.status)
      && t'.artifacts == t.artifacts + (match k.pc case AtAppendArtifact(art) => [art] case _ => [])
      && k'.events == k.events + (match k.pc
           case AtSendStatus => [StatusUpdate(t.id, Sender(t), t.status, false)]
           case AtSendArtifact =>
             [ArtifactUpdate(t.id, Sender(t), Artifact("a-" + t.id, now, "processing..."), true, false)]
           case AtSendFinal => [StatusUpdate(t.id, Sender(t), t.status, true)]
           case _ => [])
  {
  }

  /** The statements come in order, and the artifact that was sent is the one that is appended. */
  lemma StatementsInOrder(t: TaskVal, k: Worker, now: Time)
    ensures Worked(t, k, now).1.pc == match k.pc
      case AtTouchRunning => AtSendStatus
      case AtSendStatus => AtSendArtifact
      case AtSendArtifact => AtTouchCompleted(Artifact("a-" + t.id, now, "processing..."))
      case AtTouchCompleted(art) => AtAppendArtifact(art)
      case AtAppendArtifact(_) => AtPut
      case AtPut => AtSendFinal
      case AtSendFinal => AtEnd
      case AtEnd => AtEnd
  {
  }

  /** Left alone the worker completes the task, adds its artifact, and sends three events. */
  lemma WorkerSpelledOut(s: StoreVal, id: string, now: Time)
    requires id in s.items && s.items[id].id == id
    ensures var t := s.items[id];
      var art := Artifact("a-" + id, now, "processing...");
      var running := TaskStatus(TaskState.Running, t.status.message, t.status.error, now);
      var done := TaskStatus(Completed, t.status.message, t.status.error, now);
      var (v, k) := WorkAlone(s, NewWorker(id), 7, now);
      && v == s.(items := s.items[id := TaskVal(id, t.contextID, done, t.artifacts + [art])])
      && k.events == [StatusUpdate(id, Sender(t), running, false),
                      ArtifactUpdate(id, Sender(t), art, true, false),
                      StatusUpdate(id, Sender(t), done, true)]
  {
    AloneCompletes(s, id, now);
  }
}
