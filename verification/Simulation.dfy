/** Every run with atomic handlers is matched by a run of the finer-grained system. */
module Simulation {
  import opened Schema
  import opened Decimal
  import opened StoreModel
  import opened Handlers
  import opened Workers
  import opened AtomicHandlers
  import L = Lifecycle
  import I = Interleaving

  /** The workers among the threads, in order. */
  function WorkersOf(ths: seq<I.Thread>): seq<Worker> {
    if ths == [] then []
    else
      var last := ths[|ths| - 1];
      WorkersOf(ths[..|ths| - 1]) + if last.Streaming? then [last.worker] else []
  }

  predicate Matches(w: L.World, v: I.World) {
    v.store == w.store && WorkersOf(v.threads) == w.workers
  }

  lemma {:induction false} WorkersAppend(a: seq<I.Thread>, b: seq<I.Thread>)
    ensures WorkersOf(a + b) == WorkersOf(a) + WorkersOf(b)
  {
    if b == [] {
      assert a + b == a;
    } else {
      assert (a + b)[..|a + b| - 1] == a + b[..|b| - 1];
      WorkersAppend(a, b[..|b| - 1]);
    }
  }

  /** The thread that carries the r-th worker, and what replacing it does to the workers. */
  lemma {:induction false} FindWorker(ths: seq<I.Thread>, r: nat, k: Worker) returns (j: nat)
    requires r < |WorkersOf(ths)|
    ensures j < |ths| && ths[j] == I.Streaming(WorkersOf(ths)[r])
    ensures WorkersOf(ths[j := I.Streaming(k)]) == WorkersOf(ths)[r := k]
  {
    var init, last := ths[..|ths| - 1], ths[|ths| - 1];
    if r < |WorkersOf(init)| {
      j := FindWorker(init, r, k);
      assert ths[j := I.Streaming(k)][..|ths| - 1] == init[j := I.Streaming(k)];
    } else {
      j := |ths| - 1;
      assert ths[j := I.Streaming(k)][..|ths| - 1] == init;
    }
  }

  lemma {:induction false} AfterBoth(gate: Gate, v: I.World, a: seq<I.Step>, b: seq<I.Step>)
    ensures I.After(gate, v, a + b) == I.After(gate, I.After(gate, v, a), b)
    decreases |a|
  {
    if a == [] {
      assert a + b == b;
    } else {
      assert (a + b)[0] == a[0] && (a + b)[1..] == a[1..] + b;
      AfterBoth(gate, I.Next(gate, v, a[0]), a[1..], b);
    }
  }

  lemma AfterOne(gate: Gate, v: I.World, st: I.Step)
    ensures I.After(gate, v, [st]) == I.Next(gate, v, st)
  {
    assert [st][1..] == [];
    assert I.After(gate, I.Next(gate, v, st), []) == I.Next(gate, v, st);
  }

  /** A request arrives and takes n steps, all other threads waiting. */
  lemma ArrivesAndGoes(gate: Gate, v: I.World, impl: Impl, req: Request, n: nat, now: Time)
    ensures var (s, th, started) := Solo(gate, v.store, I.Arrived(impl, req), n, now);
      I.After(gate, v, [I.Arrive(impl, req)] + Gos(|v.threads|, n, now)) == I.World(s, v.threads + [th] + started)
  {
    var i, arrive := |v.threads|, I.Arrive(impl, req);
    var u := I.Next(gate, v, arrive);
    ScheduleIsSolo(gate, u, i, n, now);
    AfterOne(gate, v, arrive);
    AfterBoth(gate, v, [arrive], Gos(i, n, now));
    var th := Solo(gate, v.store, I.Arrived(impl, req), n, now).1;
    assert u.threads[i := th] == v.threads + [th];
  }

  /** An atomic handler is matched by its arrival and seven steps in a row. */
  lemma HandleMatched(gate: Gate, w: L.World, v: I.World, impl: Impl, req: Request, now: Time)
    returns (fine: seq<I.Step>)
    requires Matches(w, v) && Sound(w.store)
    ensures Matches(L.Next(gate, w, L.Handle(impl, req, now)), I.After(gate, v, fine))
  {
    var i := |v.threads|;
    var arrive := I.Arrive(impl, req);
    var v1 := I.Next(gate, v, arrive);
    fine := [arrive] + Gos(i, 7, now);
    AfterOne(gate, v, arrive);
    AfterBoth(gate, v, [arrive], Gos(i, 7, now));
    AtomicIsSchedule(gate, v1, i, now);
    var o := Serve(impl, gate, w.store, req, now);
    var started := if o.spawned.Some? then [I.Streaming(NewWorker(o.spawned.value))] else [];
    assert v1.threads[i := I.Replied(o.response)] == v.threads + [I.Replied(o.response)];
    WorkersAppend(v.threads, [I.Replied(o.response)]);
    WorkersAppend(v.threads + [I.Replied(o.response)], started);
  }

  /** A worker's statement is one step of its thread. */
  lemma AdvanceMatched(gate: Gate, w: L.World, v: I.World, r: nat, now: Time) returns (fine: seq<I.Step>)
    requires Matches(w, v) && r < |w.workers| && w.workers[r].task in w.store.items
    ensures Matches(L.Next(gate, w, L.Advance(r, now)), I.After(gate, v, fine))
  {
    var (s, k) := Work(w.store, w.workers[r], now);
    var j := FindWorker(v.threads, r, k);
    fine := [I.Go(j, now)];
    AfterOne(gate, v, I.Go(j, now));
    assert I.Exec(gate, v.store, v.threads[j], now) == (s, I.Streaming(k));
    assert v.threads[j := I.Streaming(k)] + [] == v.threads[j := I.Streaming(k)];
  }

  /** Hence what holds of all fine-grained runs holds of all runs with atomic handlers. */
  lemma {:induction false} RunMatched(gate: Gate, steps: seq<L.Step>) returns (fine: seq<I.Step>)
    requires L.Run(gate, steps).store.created < TWO_64
    ensures Matches(L.Run(gate, steps), I.After(gate, I.START, fine))
    decreases |steps|
  {
    if steps == [] {
      fine := [];
    } else {
      var before, st := steps[..|steps| - 1], steps[|steps| - 1];
      var w := L.Run(gate, before);
      L.CountNeverFalls(gate, w, st);
      L.Reachable(gate, before);
      var a := RunMatched(gate, before);
      var v := I.After(gate, I.START, a);
      var b: seq<I.Step> := [];
      match st {
        case Handle(impl, req, now) => b := HandleMatched(gate, w, v, impl, req, now);
        case Advance(i, now) =>
          if i < |w.workers| {
            b := AdvanceMatched(gate, w, v, i, now);
          }
      }
      fine := a + b;
      AfterBoth(gate, I.START, a, b);
    }
  }
}
