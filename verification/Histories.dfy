/** What recording transitions on every put amounts to. */
module Histories {
  import opened Schema
  import opened StoreModel
  import opened Handlers
  import opened Decimal
  import L = Lifecycle

  type Put = (TaskVal, Time)

  /** The store after putting distinct objects one after the other. */
  function PutAll(s: StoreVal, puts: seq<Put>): StoreVal {
    if puts == [] then s
    else AfterPut(PutAll(s, puts[..|puts| - 1]), puts[|puts| - 1].0, puts[|puts| - 1].1)
  }

  function States(trace: seq<Transition>): seq<TaskState> {
    seq(|trace|, i requires 0 <= i < |trace| => trace[i].state)
  }

  /** The states put for one task, in order. */
  function StatesPut(puts: seq<Put>, id: string): seq<TaskState> {
    if puts == [] then []
    else
      var last := puts[|puts| - 1].0;
      StatesPut(puts[..|puts| - 1], id) + if last.id == id then [last.status.state] else []
  }

  /** A sequence without its repetitions of the preceding element. */
  function Destutter(xs: seq<TaskState>): seq<TaskState> {
    if |xs| <= 1 then xs
    else
      var d := Destutter(xs[..|xs| - 1]);
      if xs[|xs| - 1] == xs[|xs| - 2] then d else d + [xs[|xs| - 1]]
  }

  predicate StutterFree(xs: seq<TaskState>) {
    forall i :: 0 < i < |xs| ==> xs[i] != xs[i - 1]
  }

  /** Destuttering keeps the last element, leaves no repetition, and empties nothing. */
  lemma {:induction false} DestutterLaw(xs: seq<TaskState>)
    ensures StutterFree(Destutter(xs))
    ensures xs != [] ==> Destutter(xs) != [] && Destutter(xs)[|Destutter(xs)| - 1] == xs[|xs| - 1]
    ensures xs == [] ==> Destutter(xs) == []
  {
    if |xs| > 1 {
      DestutterLaw(xs[..|xs| - 1]);
    }
  }

  lemma {:induction false} DestutterFixes(xs: seq<TaskState>)
    requires StutterFree(xs)
    ensures Destutter(xs) == xs
  {
    if |xs| > 1 {
      DestutterFixes(xs[..|xs| - 1]);
    }
  }

  lemma {:induction false} DestutterSnoc(xs: seq<TaskState>, x: TaskState)
    ensures Destutter(xs + [x]) == if xs != [] && xs[|xs| - 1] == x then Destutter(xs) else Destutter(xs) + [x]
  {
    assert (xs + [x])[..|xs|] == xs;
  }

  /** The trace of a stored task ends in its current state; a task not stored has none. */
  ghost predicate Tracks(s: StoreVal, id: string) {
    var trace := Trace(s, id);
    if id in s.items then trace != [] && trace[|trace| - 1].state == s.items[id].status.state else trace == []
  }

  lemma StatesSnoc(trace: seq<Transition>, x: Transition)
    ensures States(trace + [x]) == States(trace) + [x.state]
  {
  }

  /** One put appends its state unless the stored task has it already. */
  lemma PutRecords(s: StoreVal, t: TaskVal, now: Time)
    ensures States(Trace(AfterPut(s, t, now), t.id)) ==
            if t.id in s.items && s.items[t.id].status.state == t.status.state then States(Trace(s, t.id))
            else States(Trace(s, t.id)) + [t.status.state]
  {
    StatesSnoc(Trace(s, t.id), Transition(t.status.state, t.status.updatedAt));
    StatesSnoc(Trace(s, t.id), Transition(t.status.state, RecordedAt(t.status.updatedAt, now)));
  }

  /** An entry is dated by the task; a put over a stored task without a date is dated by the clock. */
  lemma PutDates(s: StoreVal, t: TaskVal, now: Time)
    ensures var before, after := Trace(s, t.id), Trace(AfterPut(s, t, now), t.id);
      after != before ==>
        && |after| == |before| + 1 && after[..|before|] == before
        && after[|before|].state == t.status.state
        && after[|before|].at ==
           if t.id in s.items && t.status.updatedAt == 0 then now else t.status.updatedAt
  {
  }

  /** A put changes the task and its trace, and nothing else. */
  lemma PutTouchesOnlyItsTask(s: StoreVal, t: TaskVal, now: Time)
    ensures var v := AfterPut(s, t, now);
      && v.items == s.items[t.id := t] && v.created == s.created && v.adds == s.adds && v.push == s.push
      && forall id :: id != t.id ==> Trace(v, id) == Trace(s, id)
  {
  }

  /** A put keeps its own task's trace up with the state, and touches no other task. */
  lemma PutKeepsTracks(s: StoreVal, t: TaskVal, now: Time, id: string)
    requires Tracks(s, id)
    ensures Tracks(AfterPut(s, t, now), id)
    ensures t.id != id ==> Trace(AfterPut(s, t, now), id) == Trace(s, id)
  {
  }

  /** Putting distinct objects records exactly the states put, without repetitions. */
  lemma {:induction false} HistoryIsDestuttered(s: StoreVal, puts: seq<Put>, id: string)
    requires Tracks(s, id) && StutterFree(States(Trace(s, id)))
    ensures Tracks(PutAll(s, puts), id)
    ensures States(Trace(PutAll(s, puts), id)) == Destutter(States(Trace(s, id)) + StatesPut(puts, id))
    decreases |puts|
  {
    var start := States(Trace(s, id));
    if puts == [] {
      DestutterFixes(start);
      assert start + [] == start;
    } else {
      var init := puts[..|puts| - 1];
      var (t, now) := puts[|puts| - 1];
      HistoryIsDestuttered(s, init, id);
      PutKeepsTracks(PutAll(s, init), t, now, id);
      if t.id == id {
        PutExtends(PutAll(s, init), t, now, start + StatesPut(init, id));
        assert start + StatesPut(puts, id) == start + StatesPut(init, id) + [t.status.state];
      } else {
        assert StatesPut(puts, id) == StatesPut(init, id);
      }
    }
  }

  lemma {:induction false} PutExtends(s: StoreVal, t: TaskVal, now: Time, xs: seq<TaskState>)
    requires Tracks(s, t.id) && States(Trace(s, t.id)) == Destutter(xs)
    ensures States(Trace(AfterPut(s, t, now), t.id)) == Destutter(xs + [t.status.state])
  {
    PutRecords(s, t, now);
    DestutterLaw(xs);
    DestutterSnoc(xs, t.status.state);
    assert [] + [t.status.state] == [t.status.state];
  }

  /** Hence a tracked trace never repeats a state and ends where the task is. */
  lemma HistoryLaw(s: StoreVal, puts: seq<Put>, id: string)
    requires Tracks(s, id) && StutterFree(States(Trace(s, id)))
    ensures var s' := PutAll(s, puts);
      StutterFree(States(Trace(s', id))) && (id in s'.items ==> Trace(s', id) != [])
  {
    HistoryIsDestuttered(s, puts, id);
    DestutterLaw(States(Trace(s, id)) + StatesPut(puts, id));
  }

  /**
   * The handlers put back the object they changed in place, so in every run a task's history
   * stays its creation entry, and tells the truth about the current state just while it is running.
   */
  lemma HandlersRecordNothing(gate: Gate, steps: seq<L.Step>, t: string)
    requires var w := L.Run(gate, steps); w.store.created < TWO_64 && t in w.store.items
    ensures var w := L.Run(gate, steps);
      && States(Trace(w.store, t)) == [Running]
      && (Tracks(w.store, t) <==> L.StateOf(w, t) == Running)
  {
    L.Reachable(gate, steps);
  }
}
