/** What is left, at the finer grain, of the law that a stream leaves its task ended. */
module Settling {
  import opened Schema
  import opened Decimal
  import opened SecondaryAuth
  import opened StoreModel
  import opened Handlers
  import opened Workers
  import opened Interleaving
  import opened AtomicHandlers
  import opened Simulation
  import Lifecycle

  predicate Streams(th: Thread, t: string) {
    th.Streaming? && th.worker.task == t
  }

  ghost predicate HasWorker(w: World, t: string) {
    exists i :: 0 <= i < |w.threads| && Streams(w.threads[i], t)
  }

  /** Every worker of the task has passed its completed touch. */
  ghost predicate Settled(w: World, t: string) {
    forall i :: 0 <= i < |w.threads| && Streams(w.threads[i], t) ==> !Underway(w.threads[i].worker)
  }

  function StateOf(w: World, t: string): TaskState
    requires t in w.store.items
  {
    w.store.items[t].status.state
  }

  /** A streamed task whose workers are all past their completed touch is in a state allowed by `P`. */
  ghost predicate SettledIn(w: World, t: string, P: TaskState -> bool) {
    t in w.store.items && HasWorker(w, t) && Settled(w, t) ==> P(StateOf(w, t))
  }

  predicate Closed(s: TaskState) {
    Lifecycle.Ended(s) || s == AuthRequired
  }

  /** The step lets a request ask for credentials on `t`, its guard being past. */
  predicate AsksNow(w: World, st: Step, t: string) {
    st.Go? && st.i < |w.threads| && w.threads[st.i].AtTouchAuth? && w.threads[st.i].task == t
  }

  /** The state of a stored task after a step of the thread. */
  function StateAfter(th: Thread, t: string, state: TaskState): TaskState {
    if TaskOf(th) != Some(t) then state
    else
      match th
      case AtTouchAuth(_, _) => AuthRequired
      case AtComplete(_) => Completed
      case AtCancel(_) => Canceled
      case Streaming(k) =>
        if k.pc.AtTouchRunning? then TaskState.Running else if k.pc.AtTouchCompleted? then Completed else state
      case _ => state
  }

  lemma OwnState(u: TaskVal, th: Thread, now: Time)
    requires TaskOf(th).Some?
    ensures Own(u, th, now).0.status.state == StateAfter(th, TaskOf(th).value, u.status.state)
  {
  }

  lemma ExecStateAfter(gate: Gate, s: StoreVal, th: Thread, now: Time, t: string)
    requires Intact(s) && Holds(s, th) && t in s.items
    ensures var s' := Exec(gate, s, th, now).0;
      t in s'.items && s'.items[t].status.state == StateAfter(th, t, s.items[t].status.state)
  {
    if TaskOf(th).Some? {
      OwnExec(gate, s, th, now);
      OwnState(s.items[TaskOf(th).value], th, now);
    } else if th.Arrived? {
      StartEffect(gate, s, th.impl, th.req, now, t);
      assert Exec(gate, s, th, now) == Start(gate, s, th.impl, th.req, now);
    } else if th.AtCreate? {
      NextIsFree(s);
      assert NextID(s) != t;
    }
  }

  /** A new task is running. */
  lemma ExecNew(gate: Gate, s: StoreVal, th: Thread, now: Time, t: string)
    requires Intact(s) && Holds(s, th) && t !in s.items
    ensures var s' := Exec(gate, s, th, now).0; t in s'.items ==> s'.items[t].status.state == TaskState.Running
  {
    if TaskOf(th).Some? {
      OwnExec(gate, s, th, now);
    } else if th.Arrived? {
      StartEffect(gate, s, th.impl, th.req, now, t);
      assert Exec(gate, s, th, now) == Start(gate, s, th.impl, th.req, now);
    }
  }

  /** A thread streams after a step exactly if it did before, for the same task; only one statement ends its way. */
  lemma ExecWorker(gate: Gate, s: StoreVal, th: Thread, now: Time, t: string)
    requires Intact(s) && Holds(s, th)
    ensures var th' := Exec(gate, s, th, now).1;
      && (Streams(th', t) <==> Streams(th, t))
      && (Streams(th, t) ==>
            (Underway(th'.worker) <==> Underway(th.worker) && !th.worker.pc.AtTouchCompleted?))
  {
    if TaskOf(th).Some? {
      OwnExec(gate, s, th, now);
      OwnEffect(s.items[TaskOf(th).value], th, now);
    } else if th.Arrived? {
      StartEffect(gate, s, th.impl, th.req, now, t);
      assert Exec(gate, s, th, now) == Start(gate, s, th.impl, th.req, now);
    }
  }

  lemma SpawnUnsettles(gate: Gate, w: World, i: nat, now: Time)
    requires Grounded(w) && i < |w.threads|
    ensures w.threads[i].AtSpawn? ==> !Settled(Next(gate, w, Go(i, now)), w.threads[i].task)
  {
    if w.threads[i].AtSpawn? {
      var v := Next(gate, w, Go(i, now));
      assert v.threads[|w.threads|] == Streaming(NewWorker(w.threads[i].task));
    }
  }

  /** If the workers of `t` are settled after a step of thread i, they were before, or i has just settled. */
  lemma SettledBefore(gate: Gate, w: World, i: nat, now: Time, t: string)
    requires Grounded(w) && i < |w.threads|
    requires var v := Next(gate, w, Go(i, now)); HasWorker(v, t) && Settled(v, t)
    ensures HasWorker(w, t)
    ensures Settled(w, t) || (Streams(w.threads[i], t) && w.threads[i].worker.pc.AtTouchCompleted?)
    ensures Streams(w.threads[i], t) ==> !w.threads[i].worker.pc.AtTouchRunning?
  {
    var v, th := Next(gate, w, Go(i, now)), w.threads[i];
    ExecWorker(gate, w.store, th, now, t);
    assert v.threads[i] == Exec(gate, w.store, th, now).1;
    assert forall j :: 0 <= j < |w.threads| && j != i ==> v.threads[j] == w.threads[j];
    SpawnUnsettles(gate, w, i, now);
    var j :| 0 <= j < |v.threads| && Streams(v.threads[j], t);
    assert j < |w.threads| && Streams(w.threads[j], t);
  }

  /** Every step keeps the law, if asking for credentials at that moment is allowed by it. */
  lemma SettlingStep(gate: Gate, w: World, st: Step, t: string, P: TaskState -> bool)
    requires Grounded(w) && SettledIn(w, t, P)
    requires P(Completed) && P(Canceled) && (AsksNow(w, st, t) ==> P(AuthRequired))
    ensures SettledIn(Next(gate, w, st), t, P)
  {
    var v := Next(gate, w, st);
    if t in v.store.items && HasWorker(v, t) && Settled(v, t) {
      if st.Go? && st.i < |w.threads| {
        SettledBefore(gate, w, st.i, st.now, t);
        WorkerHolds(w, t);
        ExecStateAfter(gate, w.store, w.threads[st.i], st.now, t);
      } else {
        ArrivalSettles(gate, w, st, t);
      }
    }
  }

  lemma WorkerHolds(w: World, t: string)
    requires Grounded(w) && HasWorker(w, t)
    ensures t in w.store.items
  {
    var i :| 0 <= i < |w.threads| && Streams(w.threads[i], t);
    assert Holds(w.store, w.threads[i]);
  }

  /** A step that executes nothing changes neither the tasks nor their workers. */
  lemma ArrivalSettles(gate: Gate, w: World, st: Step, t: string)
    requires !(st.Go? && st.i < |w.threads|)
    ensures var v := Next(gate, w, st);
      v.store == w.store && (HasWorker(v, t) <==> HasWorker(w, t)) && (Settled(v, t) <==> Settled(w, t))
  {
    var v := Next(gate, w, st);
    assert forall j :: 0 <= j < |w.threads| ==> v.threads[j] == w.threads[j];
    assert forall j :: |w.threads| <= j < |v.threads| ==> !Streams(v.threads[j], t);
    if HasWorker(w, t) {
      var i :| 0 <= i < |w.threads| && Streams(w.threads[i], t);
      assert Streams(v.threads[i], t);
    }
  }

  /** The law of atomic handlers is kept by every step but one: asking for credentials on a task already settled. */
  lemma EndedUnlessAsked(gate: Gate, w: World, st: Step, t: string)
    requires Grounded(w) && SettledIn(w, t, Lifecycle.Ended)
    ensures SettledIn(Next(gate, w, st), t, Lifecycle.Ended) <==>
            !(AsksNow(w, st, t) && HasWorker(w, t) && Settled(w, t))
  {
    if !AsksNow(w, st, t) {
      SettlingStep(gate, w, st, t, Lifecycle.Ended);
    } else if !(HasWorker(w, t) && Settled(w, t)) {
      var v := Next(gate, w, st);
      if HasWorker(v, t) && Settled(v, t) {
        SettledBefore(gate, w, st.i, st.now, t);
      }
    } else {
      AskedWhenSettled(gate, w, st.i, st.now, t);
    }
  }

  lemma AskedWhenSettled(gate: Gate, w: World, i: nat, now: Time, t: string)
    requires Grounded(w) && AsksNow(w, Go(i, now), t)
    ensures var v := Next(gate, w, Go(i, now));
      && t in v.store.items && StateOf(v, t) == AuthRequired
      && (HasWorker(w, t) ==> HasWorker(v, t)) && (Settled(w, t) ==> Settled(v, t))
  {
    var v, th := Next(gate, w, Go(i, now)), w.threads[i];
    assert Holds(w.store, th);
    ExecStateAfter(gate, w.store, th, now, t);
    ExecWorker(gate, w.store, th, now, t);
    assert v.threads == w.threads[i := Exec(gate, w.store, th, now).1];
    if HasWorker(w, t) {
      var j :| 0 <= j < |w.threads| && Streams(w.threads[j], t);
      assert Streams(v.threads[j], t);
    }
  }

  lemma {:induction false} SettlesForever(gate: Gate, w: World, steps: seq<Step>, t: string)
    requires Grounded(w) && SettledIn(w, t, Closed) && After(gate, w, steps).store.created < TWO_64
    ensures SettledIn(After(gate, w, steps), t, Closed)
    decreases |steps|
  {
    if steps != [] {
      CreatedMonotone(gate, Next(gate, w, steps[0]), steps[1..]);
      GroundedStep(gate, w, steps[0]);
      SettlingStep(gate, w, steps[0], t, Closed);
      SettlesForever(gate, Next(gate, w, steps[0]), steps[1..], t);
    }
  }

  /**
   * In every reachable state a streamed task, all its workers past their completed touch, is
   * completed, canceled, or waiting for credentials.
   */
  lemma StreamsSettle(gate: Gate, steps: seq<Step>, t: string)
    requires var w := After(gate, START, steps);
      w.store.created < TWO_64 && t in w.store.items && HasWorker(w, t) && Settled(w, t)
    ensures Closed(StateOf(After(gate, START, steps), t))
  {
    SettlesForever(gate, START, steps, t);
  }

  // The exception happens.

  lemma {:induction false} SoloWork(gate: Gate, s: StoreVal, k: Worker, n: nat, now: Time)
    requires k.task in s.items && s.items[k.task].id == k.task
    ensures var (t, k') := WorkedAlone(s.items[k.task], k, n, now);
      && t.id == k.task && k'.task == k.task
      && Solo(gate, s, Streaming(k), n, now) == (s.(items := s.items[k.task := t]), Streaming(k'), [])
    decreases n
  {
    if n == 0 {
      assert s.items[k.task := s.items[k.task]] == s.items;
    } else {
      var (t, k') := Worked(s.items[k.task], k, now);
      var s' := s.(items := s.items[k.task := t]);
      SoloOwn(gate, s, Streaming(k), n, now);
      SoloWork(gate, s', k', n - 1, now);
      var u := WorkedAlone(t, k', n - 1, now).0;
      assert s'.items[k.task := u] == s.items[k.task := u];
    }
  }

  lemma SixStatements(t: TaskVal, now: Time)
    ensures var (t', k) := WorkedAlone(t, NewWorker(t.id), 6, now);
      k.pc == AtSendFinal && Lifecycle.InOrder(k) && k.task == t.id
  {
    var w := NewWorker(t.id);
    var (t1, w1) := Worked(t, w, now);
    var (t2, w2) := Worked(t1, w1, now);
    var (t3, w3) := Worked(t2, w2, now);
    assert WorkedAlone(t, w, 6, now) == WorkedAlone(t1, w1, 5, now) == WorkedAlone(t2, w2, 4, now);
    assert WorkedAlone(t2, w2, 4, now) == WorkedAlone(t3, w3, 3, now);
    var (t4, w4) := Worked(t3, w3, now);
    var (t5, w5) := Worked(t4, w4, now);
    var (t6, w6) := Worked(t5, w5, now);
    assert WorkedAlone(t3, w3, 3, now) == WorkedAlone(t4, w4, 2, now) == WorkedAlone(t5, w5, 1, now);
    assert WorkedAlone(t5, w5, 1, now) == WorkedAlone(t6, w6, 0, now);
  }

  /** Thread i is the only worker of `t` and has not begun; thread j is about to ask for credentials on it. */
  ghost predicate Poised(w: World, t: string, i: nat, j: nat) {
    && i < |w.threads| && j < |w.threads|
    && w.threads[i] == Streaming(NewWorker(t))
    && w.threads[j].AtTouchAuth? && w.threads[j].task == t
    && forall k :: 0 <= k < |w.threads| && Streams(w.threads[k], t) ==> k == i
  }

  /** The workers of `t` are done, and the task and the last event of worker i, one of them, are in auth-required. */
  ghost predicate ClosedAsking(w: World, t: string, i: nat) {
    && t in w.store.items && StateOf(w, t) == AuthRequired
    && HasWorker(w, t) && Settled(w, t)
    && i < |w.threads| && Streams(w.threads[i], t) && w.threads[i].worker.pc.AtEnd?
    && Lifecycle.IsStatus(w.threads[i].worker, 2, true)
    && w.threads[i].worker.events[2].status.state == AuthRequired
  }

  /** The worker runs up to its final event; the request asks; the final event reports that. */
  lemma ClosesAsking(gate: Gate, w: World, t: string, i: nat, j: nat) returns (steps: seq<Step>)
    requires Grounded(w) && Poised(w, t, i, j)
    ensures ClosedAsking(After(gate, w, steps), t, i)
  {
    var s, k := UpToFinal(gate, w, t, i);
    var u := World(s, w.threads[i := Streaming(k)]);
    RunsAreGrounded(gate, w, Gos(i, 6, 0));
    assert Streams(u.threads[i], t);
    AsksThenSends(gate, u, t, i, j);
    steps := Gos(i, 6, 0) + [Go(j, 0), Go(i, 0)];
    AfterBoth(gate, w, Gos(i, 6, 0), [Go(j, 0), Go(i, 0)]);
  }

  lemma AsksThenSends(gate: Gate, u: World, t: string, i: nat, j: nat)
    requires Grounded(u) && HasWorker(u, t) && Settled(u, t) && i < |u.threads| && Streams(u.threads[i], t)
    requires u.threads[i].worker.pc == AtSendFinal && Lifecycle.InOrder(u.threads[i].worker)
    requires j < |u.threads| && u.threads[j].AtTouchAuth? && u.threads[j].task == t
    ensures ClosedAsking(After(gate, u, [Go(j, 0), Go(i, 0)]), t, i)
  {
    var v := Next(gate, u, Go(j, 0));
    AskedWhenSettled(gate, u, j, 0, t);
    GroundedStep(gate, u, Go(j, 0));
    assert i != j && v.threads[i] == u.threads[i];
    SendsFinal(gate, v, t, i);
    assert [Go(j, 0), Go(i, 0)][1..] == [Go(i, 0)];
    AfterOne(gate, v, Go(i, 0));
  }

  lemma SoloSix(gate: Gate, s: StoreVal, t: string) returns (s': StoreVal, k: Worker)
    requires t in s.items && s.items[t].id == t
    ensures Solo(gate, s, Streaming(NewWorker(t)), 6, 0) == (s', Streaming(k), [])
    ensures k.task == t && k.pc == AtSendFinal && Lifecycle.InOrder(k) && s'.created == s.created
  {
    SoloWork(gate, s, NewWorker(t), 6, 0);
    SixStatements(s.items[t], 0);
    var (u, k6) := WorkedAlone(s.items[t], NewWorker(t), 6, 0);
    s', k := s.(items := s.items[t := u]), k6;
  }

  lemma UpToFinal(gate: Gate, w: World, t: string, i: nat) returns (s: StoreVal, k: Worker)
    requires Grounded(w) && i < |w.threads| && w.threads[i] == Streaming(NewWorker(t))
    ensures After(gate, w, Gos(i, 6, 0)) == World(s, w.threads[i := Streaming(k)])
    ensures k.task == t && k.pc == AtSendFinal && Lifecycle.InOrder(k) && s.created == w.store.created
  {
    assert Holds(w.store, w.threads[i]);
    ScheduleIsSolo(gate, w, i, 6, 0);
    s, k := SoloSix(gate, w.store, t);
    assert w.threads[i := Streaming(k)] + [] == w.threads[i := Streaming(k)];
  }

  lemma SendsFinal(gate: Gate, w: World, t: string, i: nat)
    requires Grounded(w) && t in w.store.items && StateOf(w, t) == AuthRequired
    requires HasWorker(w, t) && Settled(w, t) && i < |w.threads| && Streams(w.threads[i], t)
    requires w.threads[i].worker.pc == AtSendFinal && Lifecycle.InOrder(w.threads[i].worker)
    ensures ClosedAsking(Next(gate, w, Go(i, 0)), t, i)
  {
    var v, th := Next(gate, w, Go(i, 0)), w.threads[i];
    var k := Worked(w.store.items[t], th.worker, 0).1;
    FinalReports(w.store.items[t], th.worker);
    OwnExec(gate, w.store, th, 0);
    ExecStateAfter(gate, w.store, th, 0, t);
    assert v.threads == w.threads[i := Streaming(k)];
    assert Streams(v.threads[i], t);
  }

  lemma FinalReports(u: TaskVal, k: Worker)
    requires k.pc == AtSendFinal && Lifecycle.InOrder(k) && u.id == k.task
    ensures var (u', k') := Worked(u, k, 0);
      && u' == u && k'.task == k.task && k'.pc.AtEnd?
      && Lifecycle.IsStatus(k', 2, true) && k'.events[2].status == u.status
  {
  }

  /** A request on `t` that requires a token and brings none. */
  function Demand(t: string): SendParams {
    var data := Obj(map["requireSecondaryAuth" := Bool(true)]);
    SendParams(None, Some(t), [Message("user", [Obj(map["type" := Str("data"), "data" := data])])])
  }

  lemma DemandAsks(t: string)
    ensures NeedsAuth(Detected(Demand(t).messages))
  {
    var ms := Demand(t).messages;
    var part := ms[0].parts[0];
    assert |"type"| == 4 && "type"[0] == 't' && "data"[0] == 'd' && "data"[1] == 'a';
    assert part.fields["type"] == Str("data");
    assert ToLower("data") == "data";
    assert Look(part).require && Look(part).token == None;
    assert ms[..0] == [] && [part][..0] == [];
    assert Flatten(ms) == Flatten([]) + [part] == [part];
    assert Scan([part]) == Combine(Scan([]), Look(part));
  }

  /** The look-up and the guard of such a request, on a task that is not terminal. */
  lemma SoloToAuth(gate: Gate, s: StoreVal, t: string, p: SendParams)
    requires t != "" && t in s.items && s.items[t].id == t && !IsTerminal(s.items[t].status.state)
    requires p.taskID == Some(t) && p.messages != [] && NeedsAuth(Detected(p.messages))
    ensures Solo(gate, s, Arrived(Ops, Send(Parsed(p))), 2, 0) == (s, AtTouchAuth(t, Detected(p.messages)), [])
  {
    var first, second := Arrived(Ops, Send(Parsed(p))), AtGuard(Ops, false, p, t);
    SoloStep(gate, s, first, 2, 0);
    assert Exec(gate, s, first, 0) == (s, second);
    SoloGuard(gate, s, second, 1, 0);
  }

  /** The schedule that takes such a request past its guard. */
  function PastGuard(t: string, n: nat): seq<Step> {
    [Arrive(Ops, Send(Parsed(Demand(t))))] + Gos(n, 2, 0)
  }

  lemma DemandPasses(gate: Gate, u: World, t: string)
    requires Grounded(u) && t != "" && t in u.store.items && !IsTerminal(StateOf(u, t))
    ensures After(gate, u, PastGuard(t, |u.threads|)) ==
            u.(threads := u.threads + [AtTouchAuth(t, Detected(Demand(t).messages))])
  {
    var p := Demand(t);
    var th := AtTouchAuth(t, Detected(p.messages));
    DemandAsks(t);
    SoloToAuth(gate, u.store, t, p);
    ArrivesAndGoes(gate, u, Ops, Send(Parsed(p)), 2, 0);
    assert u.threads + [th] + [] == u.threads + [th];
  }

  /** A new stream, and a request that is past its guard on the new task. */
  lemma Poise(gate: Gate, w: World) returns (steps: seq<Step>)
    requires gate.streaming && Grounded(w) && w.store.created + 1 < TWO_64
    ensures var v := After(gate, w, steps); var n := |w.threads|;
      Grounded(v) && Poised(v, NextID(w.store), n + 1, n + 2)
  {
    var t := NextID(w.store);
    var a := StreamNew(gate, w);
    var u := After(gate, w, a);
    DemandPasses(gate, u, t);
    AlsoPoised(u, t, |w.threads| + 1, Detected(Demand(t).messages));
    steps := a + PastGuard(t, |u.threads|);
    AfterBoth(gate, w, a, PastGuard(t, |u.threads|));
  }

  lemma AlsoPoised(u: World, t: string, i: nat, a: SecAuth)
    requires Grounded(u) && t in u.store.items && i < |u.threads| && u.threads[i] == Streaming(NewWorker(t))
    requires forall k :: 0 <= k < |u.threads| && Streams(u.threads[k], t) ==> k == i
    ensures var v := u.(threads := u.threads + [AtTouchAuth(t, a)]); Grounded(v) && Poised(v, t, i, |u.threads|)
  {
  }

  /** No thread holds a task that is yet to be created. */
  lemma NoWorkerOnNext(w: World, k: nat)
    requires Grounded(w) && k < |w.threads|
    ensures !Streams(w.threads[k], NextID(w.store))
  {
    NextIsFree(w.store);
    assert Holds(w.store, w.threads[k]);
  }

  /** A new stream alone: one request answered, one worker that has not begun. */
  lemma StreamNew(gate: Gate, w: World) returns (steps: seq<Step>)
    requires gate.streaming && Grounded(w) && w.store.created + 1 < TWO_64
    ensures var v := After(gate, w, steps); var t := NextID(w.store);
      && Grounded(v) && t != "" && t in v.store.items && StateOf(v, t) == TaskState.Running
      && |v.threads| == |w.threads| + 2 && v.threads[|w.threads| + 1] == Streaming(NewWorker(t))
      && forall k :: 0 <= k < |v.threads| && Streams(v.threads[k], t) ==> k == |w.threads| + 1
  {
    var n, t := |w.threads|, NextID(w.store);
    var arrive := Arrive(Ops, Stream(Parsed(Lifecycle.HELLO)));
    var u := Next(gate, w, arrive);
    Lifecycle.NewStream(gate, w.store, 0);
    AtomicIsSchedule(gate, u, n, 0);
    AfterOne(gate, w, arrive);
    AfterBoth(gate, w, [arrive], Gos(n, 7, 0));
    steps := [arrive] + Gos(n, 7, 0);
    var v := After(gate, w, steps);
    assert v.store == AfterNewTask(w.store, None, 0);
    RunsAreGrounded(gate, w, steps);
    forall k | 0 <= k < |w.threads|
      ensures !Streams(v.threads[k], t)
    {
      NoWorkerOnNext(w, k);
    }
  }

  /** After any run: a new stream may close with its final event, and its task, in auth-required. */
  lemma StreamMayCloseAsking(gate: Gate, steps: seq<Step>) returns (more: seq<Step>)
    requires gate.streaming && After(gate, START, steps).store.created + 1 < TWO_64
    ensures var w := After(gate, START, steps);
      ClosedAsking(After(gate, START, steps + more), NextID(w.store), |w.threads| + 1)
  {
    var w := After(gate, START, steps);
    RunsAreGrounded(gate, START, steps);
    var a := Poise(gate, w);
    var b := ClosesAsking(gate, After(gate, w, a), NextID(w.store), |w.threads| + 1, |w.threads| + 2);
    more := a + b;
    AfterBoth(gate, w, a, b);
    AfterBoth(gate, START, steps, more);
  }
}
