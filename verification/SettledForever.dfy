/** When a task is sure to be ended whenever its workers are done, at the finer grain: the exact condition. */
module SettledForever {
  import opened Schema
  import opened Decimal
  import opened Handlers
  import opened Workers
  import opened Interleaving
  import opened AtomicHandlers
  import opened Simulation
  import opened Settling
  import opened FineFinalEvents
  import FinalEvents
  import Lifecycle

  /** Whatever happens next, the task has ended whenever it has workers and all are past their completed touch. */
  ghost predicate SureToHaveEnded(gate: Gate, w: World, t: string) {
    forall steps: seq<Step> :: After(gate, w, steps).store.created < TWO_64 ==>
      SettledIn(After(gate, w, steps), t, Lifecycle.Ended)
  }

  lemma {:induction false} EndedForever(gate: Gate, w: World, steps: seq<Step>, t: string)
    requires Grounded(w) && Quiet(w, t) && SettledIn(w, t, Lifecycle.Ended)
    requires After(gate, w, steps).store.created < TWO_64
    ensures SettledIn(After(gate, w, steps), t, Lifecycle.Ended)
    decreases |steps|
  {
    if steps != [] {
      CreatedMonotone(gate, Next(gate, w, steps[0]), steps[1..]);
      GroundedStep(gate, w, steps[0]);
      QuietStep(gate, w, steps[0], t);
      assert !AsksNow(w, steps[0], t);
      SettlingStep(gate, w, steps[0], t, Lifecycle.Ended);
      EndedForever(gate, Next(gate, w, steps[0]), steps[1..], t);
    }
  }

  /** The schedule leads to a task that is settled and has not ended, without running out of ids. */
  ghost predicate Breaks(gate: Gate, w: World, steps: seq<Step>, t: string) {
    After(gate, w, steps).store.created < TWO_64 && !SettledIn(After(gate, w, steps), t, Lifecycle.Ended)
  }

  /** The same threads, but for the progress of the workers of `t`. */
  ghost predicate Progressed(w: World, v: World, t: string) {
    && Grounded(v) && |v.threads| == |w.threads|
    && forall m :: 0 <= m < |w.threads| ==>
         (Streams(v.threads[m], t) <==> Streams(w.threads[m], t))
         && (!Streams(w.threads[m], t) ==> v.threads[m] == w.threads[m])
  }

  /** Worker i runs alone until it has passed its completed touch. */
  lemma {:induction false} Finish(gate: Gate, w: World, t: string, i: nat) returns (steps: seq<Step>)
    requires Grounded(w) && i < |w.threads| && Streams(w.threads[i], t)
    ensures var v := After(gate, w, steps);
      && Progressed(w, v, t) && !Underway(v.threads[i].worker)
      && forall m :: 0 <= m < |w.threads| && m != i ==> v.threads[m] == w.threads[m]
    decreases Left(w.threads[i].worker.pc)
  {
    if !Underway(w.threads[i].worker) {
      steps := [];
    } else {
      assert Holds(w.store, w.threads[i]);
      WorkerExec(gate, w.store, w.threads[i].worker, 0);
      GroundedStep(gate, w, Go(i, 0));
      var rest := Finish(gate, Next(gate, w, Go(i, 0)), t, i);
      steps := [Go(i, 0)] + rest;
      assert steps[1..] == rest;
    }
  }

  /** The first n threads have passed their completed touch, where they are workers of `t`. */
  ghost predicate Finished(w: World, t: string, n: nat) {
    forall m :: 0 <= m < n && m < |w.threads| && Streams(w.threads[m], t) ==> !Underway(w.threads[m].worker)
  }

  lemma {:induction false} FinishFirst(gate: Gate, w: World, t: string, n: nat) returns (steps: seq<Step>)
    requires Grounded(w) && n <= |w.threads|
    ensures Progressed(w, After(gate, w, steps), t) && Finished(After(gate, w, steps), t, n)
  {
    if n == 0 {
      steps := [];
    } else {
      var first := FinishFirst(gate, w, t, n - 1);
      var more := FinishNext(gate, w, After(gate, w, first), t, n);
      AfterBoth(gate, w, first, more);
      steps := first + more;
    }
  }

  lemma FinishNext(gate: Gate, w: World, u: World, t: string, n: nat) returns (more: seq<Step>)
    requires Progressed(w, u, t) && 0 < n <= |w.threads| && Finished(u, t, n - 1)
    ensures Progressed(w, After(gate, u, more), t) && Finished(After(gate, u, more), t, n)
  {
    if Streams(u.threads[n - 1], t) {
      more := Finish(gate, u, t, n - 1);
      OneMoreFinished(w, u, After(gate, u, more), t, n);
    } else {
      more := [];
    }
  }

  lemma OneMoreFinished(w: World, u: World, v: World, t: string, n: nat)
    requires Progressed(w, u, t) && Progressed(u, v, t) && 0 < n <= |w.threads| && Finished(u, t, n - 1)
    requires Streams(v.threads[n - 1], t) && !Underway(v.threads[n - 1].worker)
    requires forall m :: 0 <= m < |u.threads| && m != n - 1 ==> v.threads[m] == u.threads[m]
    ensures Progressed(w, v, t) && Finished(v, t, n)
  {
  }

  lemma BreaksLater(gate: Gate, w: World, first: seq<Step>, rest: seq<Step>, t: string)
    requires Breaks(gate, After(gate, w, first), rest, t)
    ensures Breaks(gate, w, first + rest, t)
  {
    AfterBoth(gate, w, first, rest);
  }

  /** All workers of the task finish, and then a request asks for credentials. */
  lemma BrokenByAsking(gate: Gate, w: World, t: string, j: nat) returns (steps: seq<Step>)
    requires Grounded(w) && HasWorker(w, t) && j < |w.threads| && w.threads[j].AtTouchAuth? && w.threads[j].task == t
    ensures Breaks(gate, w, steps, t)
  {
    var first := FinishFirst(gate, w, t, |w.threads|);
    var u := After(gate, w, first);
    assert u.threads[j] == w.threads[j];
    AllFinished(w, u, t);
    BrokenByAskingNow(gate, u, t, j);
    BreaksLater(gate, w, first, [Go(j, 0)], t);
    steps := first + [Go(j, 0)];
  }

  lemma AllFinished(w: World, u: World, t: string)
    requires HasWorker(w, t) && Progressed(w, u, t) && Finished(u, t, |w.threads|)
    ensures HasWorker(u, t) && Settled(u, t)
  {
    var i :| 0 <= i < |w.threads| && Streams(w.threads[i], t);
    assert Streams(u.threads[i], t);
  }

  lemma BrokenByAskingNow(gate: Gate, w: World, t: string, j: nat)
    requires Grounded(w) && HasWorker(w, t) && Settled(w, t)
    requires j < |w.threads| && w.threads[j].AtTouchAuth? && w.threads[j].task == t
    ensures Breaks(gate, w, [Go(j, 0)], t)
  {
    AskedWhenSettled(gate, w, j, 0, t);
    GroundedStep(gate, w, Go(j, 0));
    AfterOne(gate, w, Go(j, 0));
  }

  /** One more worker on a task that is not terminal. */
  lemma StreamedAgain(gate: Gate, w: World, t: string) returns (steps: seq<Step>)
    requires gate.streaming && Grounded(w) && t in w.store.items && !IsTerminal(StateOf(w, t))
    ensures var v := After(gate, w, steps); Grounded(v) && v.store == w.store && HasWorker(v, t)
  {
    var n, again := |w.threads|, FinalEvents.Again(t);
    FinalEvents.AgainStarts(gate, w.store, t);
    SoloIsServe(gate, w.store, Ops, again, 0);
    ArrivesAndGoes(gate, w, Ops, again, 7, 0);
    steps := [Arrive(Ops, again)] + Gos(n, 7, 0);
    RunsAreGrounded(gate, w, steps);
    assert Streams(After(gate, w, steps).threads[n + 1], t);
  }

  lemma BrokenWhenOpen(gate: Gate, w: World, t: string) returns (steps: seq<Step>)
    requires gate.streaming && Grounded(w) && t in w.store.items && !IsTerminal(StateOf(w, t))
    ensures Breaks(gate, w, steps, t)
  {
    var a := StreamedAgain(gate, w, t);
    var u := After(gate, w, a);
    var n := |u.threads|;
    Demanded(gate, u, t);
    var v := After(gate, u, PastGuard(t, n));
    StillHasWorker(u, v, t);
    var b := BrokenByAsking(gate, v, t, n);
    BreaksLater(gate, u, PastGuard(t, n), b, t);
    BreaksLater(gate, w, a, PastGuard(t, n) + b, t);
    steps := a + (PastGuard(t, n) + b);
  }

  lemma StillHasWorker(u: World, v: World, t: string)
    requires HasWorker(u, t) && u.threads <= v.threads
    ensures HasWorker(v, t)
  {
    var i :| 0 <= i < |u.threads| && Streams(u.threads[i], t);
    assert Streams(v.threads[i], t);
  }

  lemma {:induction false} TaskStays(gate: Gate, w: World, steps: seq<Step>, t: string)
    requires Grounded(w) && t in w.store.items && After(gate, w, steps).store.created < TWO_64
    ensures Grounded(After(gate, w, steps)) && t in After(gate, w, steps).store.items
    decreases |steps|
  {
    if steps != [] {
      var st := steps[0];
      CreatedMonotone(gate, Next(gate, w, st), steps[1..]);
      GroundedStep(gate, w, st);
      if st.Go? && st.i < |w.threads| {
        ExecStateAfter(gate, w.store, w.threads[st.i], st.now, t);
      }
      TaskStays(gate, Next(gate, w, st), steps[1..], t);
    }
  }

  lemma Broken(gate: Gate, w: World, t: string) returns (steps: seq<Step>)
    requires gate.streaming && Grounded(w) && t in w.store.items && !Quiet(w, t)
    ensures Breaks(gate, w, steps, t)
  {
    if Terminal(w, t) {
      var i :| 0 <= i < |w.threads| && Hazard(w.threads[i], t);
      var a := HazardStrikes(gate, w, i, t);
      TaskStays(gate, w, a, t);
      var b := BrokenWhenOpen(gate, After(gate, w, a), t);
      BreaksLater(gate, w, a, b, t);
      steps := a + b;
    } else {
      steps := BrokenWhenOpen(gate, w, t);
    }
  }

  /**
   * Where streaming is supported, a stored task is sure to have ended whenever its workers are
   * done exactly when that holds now and nothing in flight can reopen the task, terminal already.
   */
  lemma SettledLaw(gate: Gate, w: World, t: string)
    requires gate.streaming && Grounded(w) && t in w.store.items
    ensures SureToHaveEnded(gate, w, t) <==> Quiet(w, t) && SettledIn(w, t, Lifecycle.Ended)
  {
    if Quiet(w, t) && SettledIn(w, t, Lifecycle.Ended) {
      forall steps: seq<Step> | After(gate, w, steps).store.created < TWO_64
        ensures SettledIn(After(gate, w, steps), t, Lifecycle.Ended)
      {
        EndedForever(gate, w, steps, t);
      }
    } else if SureToHaveEnded(gate, w, t) {
      assert After(gate, w, []) == w;
      assert SettledIn(w, t, Lifecycle.Ended);
      var steps := Broken(gate, w, t);
      assert false;
    }
  }
}
