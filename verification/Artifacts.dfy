/** What tasks carry as artifacts, in every run at both granularities. */
module Artifacts {
  import opened Schema
  import opened Decimal
  import opened StoreModel
  import opened Handlers
  import opened Workers
  import opened TaskAnswers
  import L = Lifecycle
  import I = Interleaving
  import FineFinalEvents

  /** Named after the task; an answer may only stand first, before what workers have added. */
  predicate WellMade(t: TaskVal) {
    forall i :: 0 <= i < |t.artifacts| ==>
      && t.artifacts[i].id == "a-" + t.id
      && (t.artifacts[i].text == "processing..." || (t.artifacts[i].text == "ok" && i == 0))
  }

  ghost predicate AllWellMade(s: StoreVal) {
    forall id :: id in s.items ==> s.items[id].id == id && WellMade(s.items[id])
  }

  /** Whose task it is never changes. */
  predicate SameTask(a: TaskVal, b: TaskVal) {
    b.id == a.id && b.contextID == a.contextID
  }

  // With atomic handlers.

  /** The step is a send that completes `t`. */
  predicate Completes(gate: Gate, s: StoreVal, st: L.Step, t: string) {
    && st.Handle? && st.req.Send?
    && var r := Serve(st.impl, gate, s, st.req, st.now).response;
       r.TaskResult? && r.task.id == t && r.task.status.state == Completed
  }

  /** The step is a worker's append to `t`. */
  predicate Appends(w: L.World, st: L.Step, t: string) {
    && st.Advance? && st.i < |w.workers| && w.workers[st.i].task == t && w.workers[st.i].pc.AtAppendArtifact?
  }

  /** A completing send replaces a stored task's artifacts, a worker's append extends them, and all else keeps them. */
  ghost predicate ArtifactsKept(gate: Gate, w: L.World, st: L.Step, t: string)
    requires t in w.store.items
  {
    var v := L.Next(gate, w, st);
    && t in v.store.items && SameTask(w.store.items[t], v.store.items[t])
    && v.store.items[t].artifacts ==
       if Completes(gate, w.store, st, t) then [Artifact("a-" + t, st.now, "ok")]
       else if Appends(w, st, t) then w.store.items[t].artifacts + [w.workers[st.i].pc.art]
       else w.store.items[t].artifacts
  }

  lemma SendKeeps(gate: Gate, w: L.World, st: L.Step, t: string)
    requires L.Grounded(w) && t in w.store.items && st.Handle? && st.req.Send?
    ensures ArtifactsKept(gate, w, st, t)
  {
    NextIsFree(w.store);
    SendAnswered(st.impl, gate, w.store, st.req.send, st.now);
  }

  lemma StreamKeeps(gate: Gate, w: L.World, st: L.Step, t: string)
    requires L.Grounded(w) && t in w.store.items && st.Handle? && st.req.Stream?
    ensures ArtifactsKept(gate, w, st, t)
  {
    NextIsFree(w.store);
    StreamAnswered(st.impl, gate, w.store, st.req.stream, st.now);
  }

  lemma SharedKeeps(gate: Gate, w: L.World, st: L.Step, t: string)
    requires L.Grounded(w) && t in w.store.items && st.Handle? && !st.req.Send? && !st.req.Stream?
    ensures ArtifactsKept(gate, w, st, t)
  {
    if st.req.Cancel? {
      CancelAnswered(st.impl, gate, w.store, st.req.cancel, st.now);
    } else {
      NothingStored(st.impl, gate, w.store, st.req, st.now);
    }
  }

  /** The other requests leave every task as it is. */
  lemma NothingStored(impl: Impl, gate: Gate, s: StoreVal, req: Request, now: Time)
    requires !req.Send? && !req.Stream? && !req.Cancel?
    ensures Serve(impl, gate, s, req, now).store.items == s.items
  {
    if req.Resubscribe? {
      ResubscribeAnswered(impl, gate, s, req.resubscribe, now);
    } else {
      assert Serve(impl, gate, s, req, now) == SharedOutcome(gate, s, req, now);
    }
  }

  lemma AdvanceKeeps(gate: Gate, w: L.World, st: L.Step, t: string)
    requires L.Grounded(w) && t in w.store.items && st.Advance?
    ensures ArtifactsKept(gate, w, st, t)
  {
    if st.i < |w.workers| {
      var k := w.workers[st.i];
      WorkIsUpdate(w.store, k, st.now);
      StatementSpelledOut(w.store.items[k.task], k, st.now);
    }
  }

  /** Granularity (a): what one step does to the artifacts of a stored task. */
  lemma ArtifactStep(gate: Gate, w: L.World, st: L.Step, t: string)
    requires L.Grounded(w) && t in w.store.items
    ensures ArtifactsKept(gate, w, st, t)
  {
    if st.Advance? {
      AdvanceKeeps(gate, w, st, t);
    } else if st.req.Send? {
      SendKeeps(gate, w, st, t);
    } else if st.req.Stream? {
      StreamKeeps(gate, w, st, t);
    } else {
      SharedKeeps(gate, w, st, t);
    }
  }

  /** A new task has no artifact, or the answer of the send that made it. */
  lemma NewArtifacts(gate: Gate, w: L.World, st: L.Step, t: string)
    requires L.Grounded(w) && t !in w.store.items && t in L.Next(gate, w, st).store.items
    ensures var b := L.Next(gate, w, st).store.items[t];
      b.id == t && (b.artifacts == [] || b.artifacts == [Artifact("a-" + t, st.now, "ok")])
  {
    if st.Advance? {
      if st.i < |w.workers| {
        WorkIsUpdate(w.store, w.workers[st.i], st.now);
      }
    } else if st.req.Send? {
      SendAnswered(st.impl, gate, w.store, st.req.send, st.now);
    } else if st.req.Stream? {
      StreamAnswered(st.impl, gate, w.store, st.req.stream, st.now);
    } else if st.req.Cancel? {
      CancelAnswered(st.impl, gate, w.store, st.req.cancel, st.now);
    } else {
      NothingStored(st.impl, gate, w.store, st.req, st.now);
    }
  }

  lemma WellMadeStep(gate: Gate, w: L.World, st: L.Step, t: string)
    requires L.Grounded(w) && L.EventsInOrder(w) && AllWellMade(w.store) && t in L.Next(gate, w, st).store.items
    ensures var b := L.Next(gate, w, st).store.items[t]; b.id == t && WellMade(b)
  {
    if t in w.store.items {
      ArtifactStep(gate, w, st, t);
      if Appends(w, st, t) {
        assert L.InOrder(w.workers[st.i]);
      }
    } else {
      NewArtifacts(gate, w, st, t);
    }
  }

  /** Granularity (a): in every reachable state. */
  lemma {:induction false} ReachableArtifacts(gate: Gate, steps: seq<L.Step>)
    requires L.Run(gate, steps).store.created < TWO_64
    ensures AllWellMade(L.Run(gate, steps).store)
    decreases |steps|
  {
    if steps != [] {
      var before, st := steps[..|steps| - 1], steps[|steps| - 1];
      var w := L.Run(gate, before);
      L.CountNeverFalls(gate, w, st);
      L.Reachable(gate, before);
      ReachableArtifacts(gate, before);
      forall t | t in L.Run(gate, steps).store.items
        ensures L.Run(gate, steps).store.items[t].id == t && WellMade(L.Run(gate, steps).store.items[t])
      {
        WellMadeStep(gate, w, st, t);
      }
    }
  }

  // At the finer grain.

  /** The artifacts of a stored task after a step of the thread. */
  function ArtifactsAfter(th: I.Thread, t: string, artifacts: seq<Artifact>): seq<Artifact> {
    if th.AtArtifacts? && th.task == t then [th.art]
    else if th.Streaming? && th.worker.task == t && th.worker.pc.AtAppendArtifact? then artifacts + [th.worker.pc.art]
    else artifacts
  }

  lemma OwnArtifacts(u: TaskVal, th: I.Thread, now: Time)
    requires I.TaskOf(th).Some?
    ensures var u' := I.Own(u, th, now).0;
      u'.artifacts == ArtifactsAfter(th, I.TaskOf(th).value, u.artifacts) && SameTask(u, u')
  {
    if th.Streaming? {
      StatementSpelledOut(u, th.worker, now);
    }
  }

  /** Granularity (b): what one step does to the artifacts of a stored task. */
  lemma ExecArtifacts(gate: Gate, s: StoreVal, th: I.Thread, now: Time, t: string)
    requires Intact(s) && I.Holds(s, th) && t in s.items
    ensures var s' := I.Exec(gate, s, th, now).0;
      && t in s'.items && SameTask(s.items[t], s'.items[t])
      && s'.items[t].artifacts == ArtifactsAfter(th, t, s.items[t].artifacts)
  {
    if I.TaskOf(th).Some? {
      I.OwnExec(gate, s, th, now);
      OwnArtifacts(s.items[I.TaskOf(th).value], th, now);
    } else if th.Arrived? {
      I.StartEffect(gate, s, th.impl, th.req, now, t);
      assert I.Exec(gate, s, th, now) == I.Start(gate, s, th.impl, th.req, now);
    } else if th.AtCreate? {
      NextIsFree(s);
      assert NextID(s) != t;
    }
  }

  lemma ExecNewArtifacts(gate: Gate, s: StoreVal, th: I.Thread, now: Time, t: string)
    requires Intact(s) && I.Holds(s, th) && t !in s.items
    ensures var s' := I.Exec(gate, s, th, now).0; t in s'.items ==> s'.items[t].id == t && s'.items[t].artifacts == []
  {
    if I.TaskOf(th).Some? {
      I.OwnExec(gate, s, th, now);
    } else if th.Arrived? {
      I.StartEffect(gate, s, th.impl, th.req, now, t);
      assert I.Exec(gate, s, th, now) == I.Start(gate, s, th.impl, th.req, now);
    }
  }

  /** A request about to set its answer has made it for its own task. */
  predicate AnswerReady(th: I.Thread) {
    th.AtArtifacts? ==> th.art.id == "a-" + th.task && th.art.text == "ok"
  }

  ghost predicate Sensible(w: I.World) {
    && I.Grounded(w) && FineFinalEvents.Regular(w) && AllWellMade(w.store)
    && forall i :: 0 <= i < |w.threads| ==> AnswerReady(w.threads[i])
  }

  lemma AnswerMade(gate: Gate, s: StoreVal, th: I.Thread, now: Time)
    requires Intact(s) && I.Holds(s, th)
    ensures AnswerReady(I.Exec(gate, s, th, now).1)
  {
    if I.TaskOf(th).Some? {
      I.OwnExec(gate, s, th, now);
    } else if th.Arrived? {
      assert I.Exec(gate, s, th, now) == I.Start(gate, s, th.impl, th.req, now);
      BeginsUnanswered(gate, s, th.impl, th.req, now);
    }
  }

  lemma BeginsUnanswered(gate: Gate, s: StoreVal, impl: Impl, req: Request, now: Time)
    ensures !I.Start(gate, s, impl, req, now).1.AtArtifacts?
  {
  }

  lemma TaskStaysWellMade(gate: Gate, w: I.World, i: nat, now: Time, t: string)
    requires Sensible(w) && i < |w.threads| && t in I.Exec(gate, w.store, w.threads[i], now).0.items
    ensures var b := I.Exec(gate, w.store, w.threads[i], now).0.items[t]; b.id == t && WellMade(b)
  {
    var th := w.threads[i];
    if t in w.store.items {
      ExecArtifacts(gate, w.store, th, now, t);
      assert AnswerReady(th);
    } else {
      ExecNewArtifacts(gate, w.store, th, now, t);
    }
  }

  lemma SensibleStep(gate: Gate, w: I.World, st: I.Step)
    requires Sensible(w) && I.Next(gate, w, st).store.created < TWO_64
    ensures Sensible(I.Next(gate, w, st))
  {
    var v := I.Next(gate, w, st);
    I.GroundedStep(gate, w, st);
    FineFinalEvents.RegularStep(gate, w, st);
    if st.Go? && st.i < |w.threads| {
      AnswerMade(gate, w.store, w.threads[st.i], st.now);
      forall t | t in v.store.items
        ensures v.store.items[t].id == t && WellMade(v.store.items[t])
      {
        TaskStaysWellMade(gate, w, st.i, st.now, t);
      }
    }
  }

  lemma {:induction false} StaysSensible(gate: Gate, w: I.World, steps: seq<I.Step>)
    requires Sensible(w) && I.After(gate, w, steps).store.created < TWO_64
    ensures Sensible(I.After(gate, w, steps))
    decreases |steps|
  {
    if steps != [] {
      I.CreatedMonotone(gate, I.Next(gate, w, steps[0]), steps[1..]);
      SensibleStep(gate, w, steps[0]);
      StaysSensible(gate, I.Next(gate, w, steps[0]), steps[1..]);
    }
  }

  /** Granularity (b): in every reachable state. */
  lemma FineReachableArtifacts(gate: Gate, steps: seq<I.Step>)
    requires I.After(gate, I.START, steps).store.created < TWO_64
    ensures AllWellMade(I.After(gate, I.START, steps).store)
  {
    StaysSensible(gate, I.START, steps);
  }

  /** Through every further run a task keeps its id and its context. */
  lemma {:induction false} SameTaskForever(gate: Gate, w: I.World, steps: seq<I.Step>, t: string)
    requires I.Grounded(w) && t in w.store.items && I.After(gate, w, steps).store.created < TWO_64
    ensures var v := I.After(gate, w, steps); t in v.store.items && SameTask(w.store.items[t], v.store.items[t])
    decreases |steps|
  {
    if steps != [] {
      var st, v := steps[0], I.Next(gate, w, steps[0]);
      I.CreatedMonotone(gate, v, steps[1..]);
      I.GroundedStep(gate, w, st);
      if st.Go? && st.i < |w.threads| {
        ExecArtifacts(gate, w.store, w.threads[st.i], st.now, t);
      }
      SameTaskForever(gate, v, steps[1..], t);
    }
  }
}
