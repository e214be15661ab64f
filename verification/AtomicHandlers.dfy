/** A handler that is not interrupted: its fine-grained steps add up to the atomic request. */
module AtomicHandlers {
  import opened Schema
  import opened SecondaryAuth
  import opened StoreModel
  import opened Handlers
  import opened Workers
  import opened Interleaving

  /** The store, the thread, and the workers started, after n steps of one thread alone. */
  function Solo(gate: Gate, s: StoreVal, th: Thread, n: nat, now: Time): (StoreVal, Thread, seq<Thread>)
    decreases n
  {
    if n == 0 || !Holds(s, th) then (s, th, [])
    else
      var (s', th') := Exec(gate, s, th, now);
      var (s'', th'', started) := Solo(gate, s', th', n - 1, now);
      (s'', th'', Spawned(th) + started)
  }

  function Ending(o: Outcome): (StoreVal, Thread, seq<Thread>) {
    (o.store, Replied(o.response), if o.spawned.Some? then [Streaming(NewWorker(o.spawned.value))] else [])
  }

  /** A step that starts no worker. */
  lemma SoloStep(gate: Gate, s: StoreVal, th: Thread, n: nat, now: Time)
    requires n > 0 && Holds(s, th) && !th.AtSpawn?
    ensures var (s', th') := Exec(gate, s, th, now); Solo(gate, s, th, n, now) == Solo(gate, s', th', n - 1, now)
  {
    var (s', th') := Exec(gate, s, th, now);
    var k := Solo(gate, s', th', n - 1, now).2;
    assert [] + k == k;
  }

  lemma {:induction false} SoloReplied(gate: Gate, s: StoreVal, r: Response, n: nat, now: Time)
    ensures Solo(gate, s, Replied(r), n, now) == (s, Replied(r), [])
  {
    if n > 0 {
      SoloStep(gate, s, Replied(r), n, now);
      SoloReplied(gate, s, r, n - 1, now);
    }
  }

  /** One step of a thread that holds its task and starts nothing. */
  lemma SoloOwn(gate: Gate, s: StoreVal, th: Thread, n: nat, now: Time)
    requires n > 0 && TaskOf(th).Some? && !th.AtSpawn?
    requires Holds(s, th) && s.items[TaskOf(th).value].id == TaskOf(th).value
    ensures var id := TaskOf(th).value; var (t, th') := Own(s.items[id], th, now);
      t.id == id && Solo(gate, s, th, n, now) == Solo(gate, s.(items := s.items[id := t]), th', n - 1, now)
  {
    var id := TaskOf(th).value;
    OwnEffect(s.items[id], th, now);
    WrittenIsUpdate(s, id, Own(s.items[id], th, now).0, PutsBack(th), now);
    SoloStep(gate, s, th, n, now);
  }

  lemma Rewrite(s: StoreVal, id: string, t: TaskVal)
    requires id in s.items
    ensures s.(items := s.items[id := s.items[id]]) == s
    ensures s.items[id := t][id := t] == s.items[id := t]
  {
    assert s.items[id := s.items[id]] == s.items;
  }

  lemma SoloPutBack(gate: Gate, s: StoreVal, id: string, n: nat, now: Time)
    requires n >= 2 && id in s.items && s.items[id].id == id
    ensures Solo(gate, s, AtPutBack(id), n, now) == (s, Replied(TaskResult(s.items[id])), [])
  {
    Rewrite(s, id, s.items[id]);
    SoloOwn(gate, s, AtPutBack(id), n, now);
    SoloOwn(gate, s, AtReply(id), n - 1, now);
    SoloReplied(gate, s, TaskResult(s.items[id]), n - 2, now);
  }

  lemma SoloComplete(gate: Gate, s: StoreVal, id: string, n: nat, now: Time)
    requires n >= 4 && id in s.items && s.items[id].id == id
    ensures Solo(gate, s, AtComplete(id), n, now) == Ending(Done(s, id, FinishedTask(s.items[id], "ok", now)))
  {
    var art := TextArtifact(id, "ok", now);
    var t1 := WithStatus(s.items[id], TaskStatus(Completed, None, None, now));
    var s1 := s.(items := s.items[id := t1]);
    var t2 := t1.(artifacts := [art]);
    var s2 := s1.(items := s1.items[id := t2]);
    SoloOwn(gate, s, AtComplete(id), n, now);
    SoloOwn(gate, s1, AtArtifacts(id, art), n - 1, now);
    SoloPutBack(gate, s2, id, n - 2, now);
    assert s2.items == s.items[id := FinishedTask(s.items[id], "ok", now)];
  }

  lemma SoloAuth(gate: Gate, s: StoreVal, id: string, a: SecAuth, n: nat, now: Time)
    requires n >= 4 && id in s.items && s.items[id].id == id
    ensures Solo(gate, s, AtTouchAuth(id, a), n, now) == Ending(Done(s, id, AskedTask(s.items[id], a, now)))
  {
    var t1 := WithStatus(s.items[id], Touched(s.items[id].status, AuthRequired, now));
    var s1 := s.(items := s.items[id := t1]);
    var t2 := WithStatus(t1, t1.status.(message := Some(BuildAuthMessage(a))));
    var s2 := s1.(items := s1.items[id := t2]);
    SoloOwn(gate, s, AtTouchAuth(id, a), n, now);
    SoloOwn(gate, s1, AtMessage(id, a), n - 1, now);
    SoloPutBack(gate, s2, id, n - 2, now);
    assert s2.items == s.items[id := AskedTask(s.items[id], a, now)];
  }

  lemma SoloStream(gate: Gate, s: StoreVal, id: string, n: nat, now: Time)
    requires n >= 2 && id in s.items && s.items[id].id == id
    ensures Solo(gate, s, AtStreamReply(id), n, now) == Ending(Outcome(s, TaskResult(s.items[id]), Some(id)))
  {
    var r := TaskResult(s.items[id]);
    Rewrite(s, id, s.items[id]);
    SoloOwn(gate, s, AtStreamReply(id), n, now);
    assert Exec(gate, s, AtSpawn(id, r), now) == (s, Replied(r));
    SoloReplied(gate, s, r, n - 2, now);
    assert [Streaming(NewWorker(id))] + [] == [Streaming(NewWorker(id))];
  }

  /** What the atomic request does once its task is settled. */
  function Decided(s: StoreVal, impl: Impl, stream: bool, p: SendParams, id: string, now: Time): Outcome
    requires id in s.items
  {
    var a := Detected(p.messages);
    if impl == Ops && NeedsAuth(a) then Done(s, id, AskedTask(s.items[id], a, now))
    else if stream then Outcome(s, TaskResult(s.items[id]), Some(id))
    else Done(s, id, FinishedTask(s.items[id], "ok", now))
  }

  lemma SoloDecide(gate: Gate, s: StoreVal, impl: Impl, stream: bool, p: SendParams, id: string, n: nat, now: Time)
    requires n >= 4 && id in s.items && s.items[id].id == id
    ensures Solo(gate, s, Decide(impl, stream, p, id), n, now) == Ending(Decided(s, impl, stream, p, id, now))
  {
    if impl == Ops && NeedsAuth(Detected(p.messages)) {
      SoloAuth(gate, s, id, Detected(p.messages), n, now);
    } else if stream {
      SoloStream(gate, s, id, n, now);
    } else {
      SoloComplete(gate, s, id, n, now);
    }
  }

  lemma SoloCreate(gate: Gate, s: StoreVal, impl: Impl, stream: bool, p: SendParams, n: nat, now: Time)
    requires n >= 5
    ensures Solo(gate, s, AtCreate(impl, stream, p), n, now) ==
            Ending(Decided(AfterNewTask(s, p.contextID, now), impl, stream, p, NextID(s), now))
  {
    SoloStep(gate, s, AtCreate(impl, stream, p), n, now);
    SoloDecide(gate, AfterNewTask(s, p.contextID, now), impl, stream, p, NextID(s), n - 1, now);
  }

  /** Guard, creation and decision, as the atomic request performs them. */
  function Resolved(s: StoreVal, impl: Impl, stream: bool, p: SendParams, now: Time): Outcome {
    if impl != Rpc && NamesTerminal(s, p) then Answer(s, Refused(TASK_IS_TERMINAL))
    else if impl == Ops && Named(s, p).Some? then Decided(s, impl, stream, p, Named(s, p).value, now)
    else Decided(AfterNewTask(s, p.contextID, now), impl, stream, p, NextID(s), now)
  }

  /** Reading the guard changes nothing. */
  lemma SoloGuard(gate: Gate, s: StoreVal, th: Thread, n: nat, now: Time)
    requires n > 0 && th.AtGuard? && Holds(s, th) && s.items[th.task].id == th.task
    ensures Solo(gate, s, th, n, now) == Solo(gate, s, Own(s.items[th.task], th, now).1, n - 1, now)
  {
    Rewrite(s, th.task, s.items[th.task]);
    SoloOwn(gate, s, th, n, now);
  }

  lemma SoloRefused(gate: Gate, s: StoreVal, impl: Impl, stream: bool, p: SendParams, id: string, n: nat, now: Time)
    requires n >= 1 && Named(s, p) == Some(id) && s.items[id].id == id && IsTerminal(s.items[id].status.state)
    ensures Solo(gate, s, AtGuard(impl, stream, p, id), n, now) == Ending(Answer(s, Refused(TASK_IS_TERMINAL)))
  {
    var r := Refused(TASK_IS_TERMINAL);
    SoloGuard(gate, s, AtGuard(impl, stream, p, id), n, now);
    assert Own(s.items[id], AtGuard(impl, stream, p, id), now).1 == Replied(r);
    SoloReplied(gate, s, r, n - 1, now);
  }

  lemma SoloContinued(gate: Gate, s: StoreVal, stream: bool, p: SendParams, id: string, n: nat, now: Time)
    requires n >= 6 && id in s.items && s.items[id].id == id && !IsTerminal(s.items[id].status.state)
    ensures Solo(gate, s, AtGuard(Ops, stream, p, id), n, now) == Ending(Decided(s, Ops, stream, p, id, now))
  {
    SoloGuard(gate, s, AtGuard(Ops, stream, p, id), n, now);
    assert Own(s.items[id], AtGuard(Ops, stream, p, id), now).1 == Decide(Ops, stream, p, id);
    SoloDecide(gate, s, Ops, stream, p, id, n - 1, now);
  }

  lemma SoloStartedOver(gate: Gate, s: StoreVal, stream: bool, p: SendParams, id: string, n: nat, now: Time)
    requires n >= 6 && id in s.items && s.items[id].id == id && !IsTerminal(s.items[id].status.state)
    ensures Solo(gate, s, AtGuard(Default, stream, p, id), n, now) ==
            Ending(Decided(AfterNewTask(s, p.contextID, now), Default, stream, p, NextID(s), now))
  {
    SoloGuard(gate, s, AtGuard(Default, stream, p, id), n, now);
    assert Own(s.items[id], AtGuard(Default, stream, p, id), now).1 == AtCreate(Default, stream, p);
    SoloCreate(gate, s, Default, stream, p, n - 1, now);
  }

  lemma {:induction false} SoloGuarded(gate: Gate, s: StoreVal, impl: Impl, stream: bool, p: SendParams, id: string,
                                       n: nat, now: Time)
    requires n >= 6 && impl != Rpc && Named(s, p) == Some(id) && s.items[id].id == id
    ensures Solo(gate, s, AtGuard(impl, stream, p, id), n, now) == Ending(Resolved(s, impl, stream, p, now))
  {
    if IsTerminal(s.items[id].status.state) {
      SoloRefused(gate, s, impl, stream, p, id, n, now);
    } else if impl == Ops {
      SoloContinued(gate, s, stream, p, id, n, now);
    } else {
      SoloStartedOver(gate, s, stream, p, id, n, now);
    }
  }

  lemma SoloLookUp(gate: Gate, s: StoreVal, impl: Impl, stream: bool, params: Params<SendParams>, n: nat, now: Time)
    requires n >= 6 && Usable(params) && Sound(s)
    ensures Solo(gate, s, LookUp(s, impl, stream, params), n, now) ==
            Ending(Resolved(s, impl, stream, params.value, now))
  {
    var p := params.value;
    if impl != Rpc && Named(s, p).Some? {
      SoloGuarded(gate, s, impl, stream, p, Named(s, p).value, n, now);
    } else {
      SoloCreate(gate, s, impl, stream, p, n, now);
    }
  }

  lemma ResolvedIsServe(gate: Gate, s: StoreVal, impl: Impl, params: Params<SendParams>, now: Time)
    requires Usable(params)
    ensures Resolved(s, impl, false, params.value, now) == SendOutcome(impl, s, params, now)
    ensures impl != Rpc && gate.streaming ==>
      Resolved(s, impl, true, params.value, now) == StreamOutcome(impl, gate, s, params, now)
  {
  }

  lemma SoloArrived(gate: Gate, s: StoreVal, impl: Impl, req: Request, now: Time)
    ensures var (s', th) := Start(gate, s, impl, req, now);
      Solo(gate, s, Arrived(impl, req), 7, now) == Solo(gate, s', th, 6, now)
  {
    SoloStep(gate, s, Arrived(impl, req), 7, now);
  }

  lemma SoloStreamRequest(gate: Gate, s: StoreVal, impl: Impl, p: Params<SendParams>, now: Time)
    requires Sound(s)
    ensures Solo(gate, s, Start(gate, s, impl, Stream(p), now).1, 6, now) ==
            Ending(StreamOutcome(impl, gate, s, p, now))
  {
    if impl != Rpc && gate.streaming {
      SoloMessage(gate, s, impl, true, p, now);
    } else {
      SoloReplied(gate, s, StreamOutcome(impl, gate, s, p, now).response, 6, now);
    }
  }

  lemma {:induction false} SoloAtOnce(gate: Gate, s: StoreVal, impl: Impl, req: Request, now: Time)
    requires req.Resubscribe? || (Shared(req) && !req.Cancel?)
    ensures var (s', th) := Start(gate, s, impl, req, now);
      Solo(gate, s', th, 6, now) == Ending(Serve(impl, gate, s, req, now))
  {
    var o := Serve(impl, gate, s, req, now);
    NothingSpawned(gate, s, impl, req, now);
    SoloReplied(gate, o.store, o.response, 6, now);
  }

  lemma NothingSpawned(gate: Gate, s: StoreVal, impl: Impl, req: Request, now: Time)
    requires req.Resubscribe? || Shared(req)
    ensures Serve(impl, gate, s, req, now).spawned.None?
  {
  }

  /** Seven uninterrupted steps of a request are the atomic request: same store, same answer, same worker. */
  lemma SoloIsServe(gate: Gate, s: StoreVal, impl: Impl, req: Request, now: Time)
    requires Sound(s)
    ensures Solo(gate, s, Arrived(impl, req), 7, now) == Ending(Serve(impl, gate, s, req, now))
  {
    SoloArrived(gate, s, impl, req, now);
    match req
    case Send(p) => SoloMessage(gate, s, impl, false, p, now);
    case Stream(p) => SoloStreamRequest(gate, s, impl, p, now);
    case Cancel(p) => SoloCancel(gate, s, impl, p, now);
    case _ => SoloAtOnce(gate, s, impl, req, now);
  }

  lemma SoloMessage(gate: Gate, s: StoreVal, impl: Impl, stream: bool, p: Params<SendParams>, now: Time)
    requires Sound(s) && (stream ==> impl != Rpc && gate.streaming)
    ensures var th := LookUp(s, impl, stream, p);
      Solo(gate, s, th, 6, now) ==
      Ending(if stream then StreamOutcome(impl, gate, s, p, now) else SendOutcome(impl, s, p, now))
  {
    if Usable(p) {
      SoloLookUp(gate, s, impl, stream, p, 6, now);
      ResolvedIsServe(gate, s, impl, p, now);
    } else {
      SoloReplied(gate, s, Refused(INVALID_PARAMS), 6, now);
    }
  }

  lemma SoloCancel(gate: Gate, s: StoreVal, impl: Impl, p: Params<string>, now: Time)
    requires Sound(s)
    ensures Solo(gate, s, Start(gate, s, impl, Cancel(p), now).1, 6, now) == Ending(CancelOutcome(s, p, now))
  {
    if p.Parsed? && p.value != "" && p.value in s.items {
      var t := CanceledTask(s.items[p.value], now);
      SoloOwn(gate, s, AtCancel(p.value), 6, now);
      SoloPutBack(gate, s.(items := s.items[p.value := t]), p.value, 5, now);
    } else {
      SoloReplied(gate, s, CancelOutcome(s, p, now).response, 6, now);
    }
  }

  // In company: the same schedule in a world with other threads.

  function Gos(i: nat, n: nat, now: Time): seq<Step> {
    if n == 0 then [] else [Go(i, now)] + Gos(i, n - 1, now)
  }

  lemma {:induction false} ScheduleIsSolo(gate: Gate, w: World, i: nat, n: nat, now: Time)
    requires i < |w.threads|
    ensures var (s, th, started) := Solo(gate, w.store, w.threads[i], n, now);
      After(gate, w, Gos(i, n, now)) == World(s, w.threads[i := th] + started)
    decreases n
  {
    var steps := Gos(i, n, now);
    if n == 0 {
      assert w.threads[i := w.threads[i]] + [] == w.threads;
    } else {
      assert steps[0] == Go(i, now) && steps[1..] == Gos(i, n - 1, now);
      var v := Next(gate, w, steps[0]);
      ScheduleIsSolo(gate, v, i, n - 1, now);
      FirstSolo(gate, w, i, n, now);
    }
  }

  /** The first step of a thread in company is its first step alone. */
  lemma FirstSolo(gate: Gate, w: World, i: nat, n: nat, now: Time)
    requires i < |w.threads| && n > 0
    ensures var v := Next(gate, w, Go(i, now));
      var (s, th, started), (s', th', started') :=
        Solo(gate, w.store, w.threads[i], n, now), Solo(gate, v.store, v.threads[i], n - 1, now);
      s' == s && v.threads[i := th'] + started' == w.threads[i := th] + started
  {
    var v, th := Next(gate, w, Go(i, now)), w.threads[i];
    if Holds(w.store, th) {
      var th1 := Exec(gate, w.store, th, now).1;
      assert v.threads == w.threads[i := th1] + Spawned(th) && v.threads[i] == th1;
      var r := Solo(gate, v.store, th1, n - 1, now);
      Regrouped(w.threads, i, th1, r.1, Spawned(th), r.2);
    } else {
      StuckSolo(gate, w.store, th, n, now);
      StuckSolo(gate, w.store, th, n - 1, now);
    }
  }

  lemma Regrouped(threads: seq<Thread>, i: nat, x: Thread, y: Thread, a: seq<Thread>, b: seq<Thread>)
    requires i < |threads|
    ensures (threads[i := x] + a)[i := y] + b == threads[i := y] + (a + b)
  {
  }

  lemma StuckSolo(gate: Gate, s: StoreVal, th: Thread, n: nat, now: Time)
    requires !Holds(s, th)
    ensures Solo(gate, s, th, n, now) == (s, th, [])
  {
  }

  /** Every atomic request is one of the fine-grained runs, whatever else is in flight. */
  lemma AtomicIsSchedule(gate: Gate, w: World, i: nat, now: Time)
    requires Sound(w.store) && i < |w.threads| && w.threads[i].Arrived?
    ensures var o := Serve(w.threads[i].impl, gate, w.store, w.threads[i].req, now);
      After(gate, w, Gos(i, 7, now)) ==
      World(o.store, w.threads[i := Replied(o.response)]
                     + if o.spawned.Some? then [Streaming(NewWorker(o.spawned.value))] else [])
  {
    ScheduleIsSolo(gate, w, i, 7, now);
    SoloIsServe(gate, w.store, w.threads[i].impl, w.threads[i].req, now);
  }
}
