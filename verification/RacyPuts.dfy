/** What a put records if another thread writes the task's state while the put is comparing it with itself. */
module RacyPuts {
  import opened Schema
  import opened Decimal
  import opened SecondaryAuth
  import opened StoreModel
  import opened Handlers
  import opened Workers
  import opened Interleaving
  import opened AtomicHandlers
  import opened Simulation
  import opened Settling
  import opened Histories

  /** A put of the stored object: its state is loaded once as `seen`, and once more from the task as it is in `s`. */
  function PutAcross(s: StoreVal, id: string, seen: TaskState, now: Time): StoreVal
    requires id in s.items
  {
    var status := s.items[id].status;
    if seen == status.state then s
    else s.(hist := s.hist[id := Trace(s, id) + [Transition(status.state, RecordedAt(status.updatedAt, now))]])
  }

  /** Undisturbed, it is the put of one step. */
  lemma UndisturbedPut(s: StoreVal, id: string, now: Time)
    requires id in s.items && s.items[id].id == id
    ensures PutAcross(s, id, s.items[id].status.state, now) == AfterPut(s, s.items[id], now)
  {
    PutOfStoredObject(s, id, now);
  }

  /** It records an entry exactly if the two loads differ, and then the state written in between. */
  lemma RecordsTheRace(s: StoreVal, id: string, seen: TaskState, now: Time)
    requires id in s.items
    ensures var state := s.items[id].status.state;
      && (PutAcross(s, id, seen, now) == s <==> seen == state)
      && States(Trace(PutAcross(s, id, seen, now), id)) ==
         States(Trace(s, id)) + if seen == state then [] else [state]
  {
    var status := s.items[id].status;
    StatesSnoc(Trace(s, id), Transition(status.state, RecordedAt(status.updatedAt, now)));
    assert |(Trace(s, id) + [Transition(status.state, RecordedAt(status.updatedAt, now))])| == |Trace(s, id)| + 1;
  }

  /** Request i is about to put the task back, and request j to cancel it. */
  predicate Racing(w: World, t: string, i: nat, j: nat) {
    && i < |w.threads| && w.threads[i] == AtPutBack(t)
    && j < |w.threads| && w.threads[j] == AtCancel(t)
    && t in w.store.items && StateOf(w, t) == AuthRequired
  }

  /** If request j cancels between the two loads of request i, the history gets a second entry. */
  lemma CancelIsRecorded(gate: Gate, w: World, t: string, i: nat, j: nat, now: Time)
    requires Grounded(w) && Racing(w, t, i, j)
    ensures var v := Next(gate, w, Go(j, now)); t in v.store.items
    ensures var v := Next(gate, w, Go(j, now));
      States(Trace(PutAcross(v.store, t, StateOf(w, t), now), t)) == [TaskState.Running, Canceled]
  {
    var v := Next(gate, w, Go(j, now));
    OwnExec(gate, w.store, w.threads[j], now);
    ExecStateAfter(gate, w.store, w.threads[j], now, t);
    RecordsTheRace(v.store, t, StateOf(w, t), now);
    assert v.store.hist == w.store.hist;
    assert States(Trace(v.store, t)) == [TaskState.Running];
  }

  /** A request without a token that creates its task runs up to its put. */
  lemma UpToPut(gate: Gate, s: StoreVal) returns (s': StoreVal)
    requires Intact(s) && s.created + 1 < TWO_64
    ensures var t := NextID(s);
      && Solo(gate, s, Arrived(Ops, Send(Parsed(Demand(t)))), 4, 0) == (s', AtPutBack(t), [])
      && t != "" && t in s'.items && s'.items[t].status.state == AuthRequired
  {
    var t, a := NextID(s), Detected(Demand(NextID(s)).messages);
    NewTaskKeepsIntact(s, None, 0);
    MadeToAsk(gate, s);
    s' := AskedUpToPut(gate, AfterNewTask(s, None, 0), t, a);
  }

  /** Its look-up finds nothing, so it makes the task it names, and is about to ask. */
  lemma MadeToAsk(gate: Gate, s: StoreVal)
    requires NextID(s) !in s.items
    ensures var t := NextID(s); var a := Detected(Demand(t).messages);
      Solo(gate, s, Arrived(Ops, Send(Parsed(Demand(t)))), 4, 0) ==
      Solo(gate, AfterNewTask(s, None, 0), AtTouchAuth(t, a), 2, 0)
  {
    var t, p := NextID(s), Demand(NextID(s));
    DemandAsks(t);
    SoloStep(gate, s, Arrived(Ops, Send(Parsed(p))), 4, 0);
    assert LookUp(s, Ops, false, Parsed(p)) == AtCreate(Ops, false, p);
    SoloStep(gate, s, AtCreate(Ops, false, p), 3, 0);
    assert Decide(Ops, false, p, t) == AtTouchAuth(t, Detected(p.messages));
  }

  lemma AskedUpToPut(gate: Gate, s: StoreVal, t: string, a: SecAuth) returns (s': StoreVal)
    requires t in s.items && s.items[t].id == t
    ensures Solo(gate, s, AtTouchAuth(t, a), 2, 0) == (s', AtPutBack(t), [])
    ensures t in s'.items && s'.items[t].status.state == AuthRequired
  {
    var t1 := WithStatus(s.items[t], Touched(s.items[t].status, AuthRequired, 0));
    var s1 := s.(items := s.items[t := t1]);
    var t2 := WithStatus(t1, t1.status.(message := Some(BuildAuthMessage(a))));
    SoloOwn(gate, s, AtTouchAuth(t, a), 2, 0);
    SoloOwn(gate, s1, AtMessage(t, a), 1, 0);
    s' := s1.(items := s1.items[t := t2]);
  }

  /** A cancel of a stored task that has been looked up. */
  lemma CancelLookedUp(gate: Gate, w: World, t: string)
    requires t != "" && t in w.store.items
    ensures After(gate, w, [Arrive(Ops, Cancel(Parsed(t))), Go(|w.threads|, 0)]) ==
            w.(threads := w.threads + [AtCancel(t)])
  {
    var n, arrive := |w.threads|, Arrive(Ops, Cancel(Parsed(t)));
    var v := Next(gate, w, arrive);
    assert v.threads[n := AtCancel(t)] + [] == w.threads + [AtCancel(t)];
    AfterOne(gate, v, Go(n, 0));
    assert [arrive, Go(n, 0)][1..] == [Go(n, 0)];
  }

  /** After any run such a race can be on. */
  lemma RaceReached(gate: Gate, steps: seq<Step>) returns (more: seq<Step>)
    requires After(gate, START, steps).store.created + 1 < TWO_64
    ensures var w := After(gate, START, steps);
      Racing(After(gate, START, steps + more), NextID(w.store), |w.threads|, |w.threads| + 1)
  {
    var w := After(gate, START, steps);
    RunsAreGrounded(gate, START, steps);
    more := RaceAhead(gate, w);
    AfterBoth(gate, START, steps, more);
  }

  lemma RaceAhead(gate: Gate, w: World) returns (steps: seq<Step>)
    requires Grounded(w) && w.store.created + 1 < TWO_64
    ensures Racing(After(gate, w, steps), NextID(w.store), |w.threads|, |w.threads| + 1)
  {
    var n, t := |w.threads|, NextID(w.store);
    var s := UpToPutInCompany(gate, w);
    var u := World(s, w.threads + [AtPutBack(t)]);
    var second := [Arrive(Ops, Cancel(Parsed(t))), Go(n + 1, 0)];
    CancelLookedUp(gate, u, t);
    AfterBoth(gate, w, ToPut(t, n), second);
    steps := ToPut(t, n) + second;
  }

  /** The schedule of a request that creates task `t` and runs up to its put. */
  function ToPut(t: string, n: nat): seq<Step> {
    [Arrive(Ops, Send(Parsed(Demand(t))))] + Gos(n, 4, 0)
  }

  lemma UpToPutInCompany(gate: Gate, w: World) returns (s: StoreVal)
    requires Grounded(w) && w.store.created + 1 < TWO_64
    ensures var t := NextID(w.store);
      && After(gate, w, ToPut(t, |w.threads|)) == World(s, w.threads + [AtPutBack(t)])
      && t != "" && t in s.items && s.items[t].status.state == AuthRequired
  {
    var t := NextID(w.store);
    s := UpToPut(gate, w.store);
    ArrivesAndGoes(gate, w, Ops, Send(Parsed(Demand(t))), 4, 0);
    assert w.threads + [AtPutBack(t)] + [] == w.threads + [AtPutBack(t)];
  }
}
