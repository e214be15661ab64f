/** At the finer grain: a task in auth-required explains itself, or is just about to. */
module Explanations {
  import opened Schema
  import opened Decimal
  import opened SecondaryAuth
  import opened StoreModel
  import opened Handlers
  import opened Interleaving
  import opened Simulation
  import opened Settling

  function Run(gate: Gate, steps: seq<Step>): World {
    After(gate, START, steps)
  }

  lemma RunSnoc(gate: Gate, steps: seq<Step>, st: Step)
    ensures Run(gate, steps + [st]) == Next(gate, Run(gate, steps), st)
  {
    AfterBoth(gate, START, steps, [st]);
    AfterOne(gate, Run(gate, steps), st);
  }

  // Where a thread comes from.

  /** What a send or a stream brings along. */
  function Carried(req: Request): Option<SendParams> {
    match req
    case Send(Parsed(p)) => Some(p)
    case Stream(Parsed(p)) => Some(p)
    case _ => None
  }

  /** Thread i is the request that arrived with these parameters. */
  ghost predicate Brought(gate: Gate, steps: seq<Step>, i: nat, impl: Impl, p: SendParams) {
    exists k :: 0 <= k < |steps| && steps[k].Arrive? && steps[k].impl == impl && Carried(steps[k].req) == Some(p)
                && |Run(gate, steps[..k]).threads| == i
  }

  /** Task `t` was created by thread i. */
  ghost predicate FiledBy(gate: Gate, steps: seq<Step>, i: nat, t: string) {
    exists k :: 0 <= k < |steps| && steps[k].Go? && steps[k].i == i && Creates(Run(gate, steps[..k]), i, t)
  }

  predicate Creates(w: World, i: nat, t: string) {
    i < |w.threads| && w.threads[i].AtCreate? && NextID(w.store) == t
  }

  /** Thread i is a request to opsImpl on `t`, named by it or created for it, that required a token and brought none. */
  ghost predicate Lacked(gate: Gate, steps: seq<Step>, i: nat, t: string, a: SecAuth) {
    exists p :: Brought(gate, steps, i, Ops, p) && a == Detected(p.messages) && NeedsAuth(a)
                && (p.taskID == Some(t) || FiledBy(gate, steps, i, t))
  }

  lemma BroughtLater(gate: Gate, steps: seq<Step>, st: Step, i: nat, impl: Impl, p: SendParams)
    requires Brought(gate, steps, i, impl, p)
    ensures Brought(gate, steps + [st], i, impl, p)
  {
    var k :| 0 <= k < |steps| && steps[k].Arrive? && steps[k].impl == impl && Carried(steps[k].req) == Some(p)
             && |Run(gate, steps[..k]).threads| == i;
    assert (steps + [st])[..k] == steps[..k] && (steps + [st])[k] == steps[k];
  }

  lemma FiledLater(gate: Gate, steps: seq<Step>, st: Step, i: nat, t: string)
    requires FiledBy(gate, steps, i, t)
    ensures FiledBy(gate, steps + [st], i, t)
  {
    var k :| 0 <= k < |steps| && steps[k].Go? && steps[k].i == i && Creates(Run(gate, steps[..k]), i, t);
    assert (steps + [st])[..k] == steps[..k] && (steps + [st])[k] == steps[k];
  }

  lemma LackedLater(gate: Gate, steps: seq<Step>, st: Step, i: nat, t: string, a: SecAuth)
    requires Lacked(gate, steps, i, t, a)
    ensures Lacked(gate, steps + [st], i, t, a)
  {
    var p :| Brought(gate, steps, i, Ops, p) && a == Detected(p.messages) && NeedsAuth(a)
             && (p.taskID == Some(t) || FiledBy(gate, steps, i, t));
    BroughtLater(gate, steps, st, i, Ops, p);
    if p.taskID != Some(t) {
      FiledLater(gate, steps, st, i, t);
    }
  }

  /** What a thread works on is what its request brought. */
  ghost predicate Known(gate: Gate, steps: seq<Step>, i: nat, th: Thread) {
    match th
    case Arrived(impl, req) => Carried(req).Some? ==> Brought(gate, steps, i, impl, Carried(req).value)
    case AtGuard(impl, _, p, t) => Brought(gate, steps, i, impl, p) && p.taskID == Some(t)
    case AtCreate(impl, _, p) => Brought(gate, steps, i, impl, p)
    case AtTouchAuth(t, a) => Lacked(gate, steps, i, t, a)
    case AtMessage(t, a) => Lacked(gate, steps, i, t, a)
    case _ => true
  }

  lemma KnownLater(gate: Gate, steps: seq<Step>, st: Step, i: nat, th: Thread)
    requires Known(gate, steps, i, th)
    ensures Known(gate, steps + [st], i, th)
  {
    match th
    case Arrived(impl, req) =>
      if Carried(req).Some? {
        BroughtLater(gate, steps, st, i, impl, Carried(req).value);
      }
    case AtGuard(impl, _, p, _) => BroughtLater(gate, steps, st, i, impl, p);
    case AtCreate(impl, _, p) => BroughtLater(gate, steps, st, i, impl, p);
    case AtTouchAuth(t, a) => LackedLater(gate, steps, st, i, t, a);
    case AtMessage(t, a) => LackedLater(gate, steps, st, i, t, a);
    case _ =>
  }

  /** A decision keeps to the request, on the task it names or had created. */
  lemma DecisionKnown(gate: Gate, steps: seq<Step>, i: nat, impl: Impl, stream: bool, p: SendParams, t: string)
    requires Brought(gate, steps, i, impl, p) && (p.taskID == Some(t) || FiledBy(gate, steps, i, t))
    ensures Known(gate, steps, i, Decide(impl, stream, p, t))
  {
  }

  lemma LookUpKnown(gate: Gate, steps: seq<Step>, i: nat, s: StoreVal, impl: Impl, req: Request)
    requires Known(gate, steps, i, Arrived(impl, req)) && (req.Send? || req.Stream?)
    ensures Known(gate, steps, i, LookUp(s, impl, req.Stream?, if req.Send? then req.send else req.stream))
  {
  }

  /** So does every step of the thread. */
  lemma ExecKnown(gate: Gate, steps: seq<Step>, i: nat, now: Time)
    requires var w := Run(gate, steps); Grounded(w) && i < |w.threads| && Known(gate, steps, i, w.threads[i])
    ensures var w := Run(gate, steps);
      Known(gate, steps + [Go(i, now)], i, Exec(gate, w.store, w.threads[i], now).1)
  {
    var w, st := Run(gate, steps), Go(i, now);
    var th := w.threads[i];
    KnownLater(gate, steps, st, i, th);
    match th
    case Arrived(impl, req) =>
      assert Exec(gate, w.store, th, now) == Start(gate, w.store, impl, req, now);
      if req.Send? || req.Stream? {
        LookUpKnown(gate, steps + [st], i, w.store, impl, req);
      }
    case AtGuard(impl, stream, p, t) => DecisionKnown(gate, steps + [st], i, impl, stream, p, t);
    case AtCreate(impl, stream, p) =>
      assert (steps + [st])[..|steps|] == steps && (steps + [st])[|steps|] == st;
      assert Creates(Run(gate, (steps + [st])[..|steps|]), i, NextID(w.store));
      DecisionKnown(gate, steps + [st], i, impl, stream, p, NextID(w.store));
    case _ =>
  }

  ghost predicate AllKnown(gate: Gate, steps: seq<Step>) {
    forall i :: 0 <= i < |Run(gate, steps).threads| ==> Known(gate, steps, i, Run(gate, steps).threads[i])
  }

  lemma KnownStep(gate: Gate, steps: seq<Step>, st: Step)
    requires Grounded(Run(gate, steps)) && AllKnown(gate, steps)
    ensures AllKnown(gate, steps + [st])
  {
    var w := Run(gate, steps);
    var v := Next(gate, w, st);
    RunSnoc(gate, steps, st);
    forall i | 0 <= i < |v.threads|
      ensures Known(gate, steps + [st], i, v.threads[i])
    {
      if i < |w.threads| {
        if st.Go? && st.i == i {
          ExecKnown(gate, steps, i, st.now);
        } else {
          KnownLater(gate, steps, st, i, w.threads[i]);
        }
      } else if st.Arrive? {
        assert (steps + [st])[..|steps|] == steps && (steps + [st])[|steps|] == st;
      }
    }
  }

  // The task's own message.

  /** A request on `t` is between its touch and its message. */
  ghost predicate AboutToExplain(w: World, t: string) {
    exists i :: 0 <= i < |w.threads| && w.threads[i].AtMessage? && w.threads[i].task == t
  }

  ghost predicate Explained(gate: Gate, steps: seq<Step>, t: string, message: Option<DataPart>) {
    exists i, a :: Lacked(gate, steps, i, t, a) && message == Some(BuildAuthMessage(a))
  }

  ghost predicate Explains(gate: Gate, steps: seq<Step>, w: World, t: string) {
    t in w.store.items && StateOf(w, t) == AuthRequired ==>
      AboutToExplain(w, t) || Explained(gate, steps, t, w.store.items[t].status.message)
  }

  lemma ExplainedLater(gate: Gate, steps: seq<Step>, st: Step, t: string, message: Option<DataPart>)
    requires Explained(gate, steps, t, message)
    ensures Explained(gate, steps + [st], t, message)
  {
    var i, a :| Lacked(gate, steps, i, t, a) && message == Some(BuildAuthMessage(a));
    LackedLater(gate, steps, st, i, t, a);
  }

  /** The message of a stored task after a step of the thread. */
  function MessageAfter(th: Thread, t: string, message: Option<DataPart>): Option<DataPart> {
    if th.AtMessage? && th.task == t then Some(BuildAuthMessage(th.auth))
    else if th.AtComplete? && th.task == t then None
    else message
  }

  lemma OwnMessage(u: TaskVal, th: Thread, now: Time)
    requires TaskOf(th).Some?
    ensures Own(u, th, now).0.status.message == MessageAfter(th, TaskOf(th).value, u.status.message)
  {
  }

  lemma ExecMessage(gate: Gate, s: StoreVal, th: Thread, now: Time, t: string)
    requires Intact(s) && Holds(s, th) && t in s.items
    ensures var s' := Exec(gate, s, th, now).0;
      t in s'.items && s'.items[t].status.message == MessageAfter(th, t, s.items[t].status.message)
  {
    if TaskOf(th).Some? {
      OwnExec(gate, s, th, now);
      OwnMessage(s.items[TaskOf(th).value], th, now);
    } else if th.Arrived? {
      StartEffect(gate, s, th.impl, th.req, now, t);
      assert Exec(gate, s, th, now) == Start(gate, s, th.impl, th.req, now);
    } else if th.AtCreate? {
      NextIsFree(s);
      assert NextID(s) != t;
    }
  }

  lemma GoExplains(gate: Gate, steps: seq<Step>, i: nat, now: Time, t: string)
    requires var w := Run(gate, steps);
      Grounded(w) && AllKnown(gate, steps) && Explains(gate, steps, w, t) && i < |w.threads|
    ensures Explains(gate, steps + [Go(i, now)], Next(gate, Run(gate, steps), Go(i, now)), t)
  {
    var w, st := Run(gate, steps), Go(i, now);
    var v, th := Next(gate, w, st), w.threads[i];
    if t in v.store.items && StateOf(v, t) == AuthRequired {
      if t !in w.store.items {
        ExecNew(gate, w.store, th, now, t);
      }
      ExecStateAfter(gate, w.store, th, now, t);
      ExecMessage(gate, w.store, th, now, t);
      if th.AtTouchAuth? && th.task == t {
        TouchThenMessage(gate, w, i, now);
      } else if th.AtMessage? && th.task == t {
        LackedLater(gate, steps, st, i, t, th.auth);
      } else {
        StillExplains(gate, steps, v, st, t);
      }
    }
  }

  /** Another thread's message is still to come, or the task still carries an earlier one. */
  lemma StillExplains(gate: Gate, steps: seq<Step>, v: World, st: Step, t: string)
    requires var w := Run(gate, steps);
      && t in w.store.items && StateOf(w, t) == AuthRequired && Explains(gate, steps, w, t)
      && t in v.store.items && v.store.items[t].status.message == w.store.items[t].status.message
      && |w.threads| <= |v.threads|
      && forall j :: 0 <= j < |w.threads| && w.threads[j].AtMessage? && w.threads[j].task == t ==>
           v.threads[j] == w.threads[j]
    ensures Explains(gate, steps + [st], v, t)
  {
    var w := Run(gate, steps);
    if AboutToExplain(w, t) {
      var j :| 0 <= j < |w.threads| && w.threads[j].AtMessage? && w.threads[j].task == t;
      assert v.threads[j] == w.threads[j];
    } else {
      ExplainedLater(gate, steps, st, t, w.store.items[t].status.message);
    }
  }

  lemma TouchThenMessage(gate: Gate, w: World, i: nat, now: Time)
    requires Grounded(w) && i < |w.threads| && w.threads[i].AtTouchAuth?
    ensures AboutToExplain(Next(gate, w, Go(i, now)), w.threads[i].task)
  {
    var v := Next(gate, w, Go(i, now));
    assert Holds(w.store, w.threads[i]);
    assert v.threads[i] == AtMessage(w.threads[i].task, w.threads[i].auth);
  }

  lemma StepExplains(gate: Gate, steps: seq<Step>, st: Step, t: string)
    requires var w := Run(gate, steps); Grounded(w) && AllKnown(gate, steps) && Explains(gate, steps, w, t)
    ensures Explains(gate, steps + [st], Next(gate, Run(gate, steps), st), t)
  {
    var w := Run(gate, steps);
    if st.Go? && st.i < |w.threads| {
      GoExplains(gate, steps, st.i, st.now, t);
    } else if t in w.store.items && StateOf(w, t) == AuthRequired {
      StillExplains(gate, steps, Next(gate, w, st), st, t);
    }
  }

  lemma {:induction false} RunExplains(gate: Gate, steps: seq<Step>, t: string)
    requires Run(gate, steps).store.created < TWO_64
    ensures Grounded(Run(gate, steps)) && AllKnown(gate, steps) && Explains(gate, steps, Run(gate, steps), t)
    decreases |steps|
  {
    if steps != [] {
      var before, st := steps[..|steps| - 1], steps[|steps| - 1];
      assert steps == before + [st];
      RunSnoc(gate, before, st);
      NextCount(gate, Run(gate, before), st);
      RunExplains(gate, before, t);
      GroundedStep(gate, Run(gate, before), st);
      KnownStep(gate, before, st);
      StepExplains(gate, before, st, t);
    }
  }

  /**
   * In every reachable state, a task in auth-required carries the message of some earlier
   * request on it that required a token and brought none, or such a request is about to write it.
   */
  lemma AuthRequiredExplained(gate: Gate, steps: seq<Step>, t: string)
    requires var w := After(gate, START, steps);
      w.store.created < TWO_64 && t in w.store.items && StateOf(w, t) == AuthRequired
    ensures var w := After(gate, START, steps);
      || Explained(gate, steps, t, w.store.items[t].status.message)
      || exists i, a :: 0 <= i < |w.threads| && w.threads[i] == AtMessage(t, a) && Lacked(gate, steps, i, t, a)
  {
    RunExplains(gate, steps, t);
    var w := Run(gate, steps);
    if AboutToExplain(w, t) {
      var i :| 0 <= i < |w.threads| && w.threads[i].AtMessage? && w.threads[i].task == t;
      assert Known(gate, steps, i, w.threads[i]);
      assert w.threads[i] == AtMessage(t, w.threads[i].auth);
    }
  }
}
