/** The streaming worker, one statement at a time. */
module Workers {
  import opened Schema
  import opened StoreModel

  /** The statement a worker executes next; from the artifact event on it holds the artifact it made. */
  datatype Pc =
    | AtTouchRunning
    | AtSendStatus
    | AtSendArtifact
    | AtTouchCompleted(art: Artifact)
    | AtAppendArtifact(art: Artifact)
    | AtPut
    | AtSendFinal
    | AtEnd

  /** `events` is what the worker has sent on its own stream. */
  datatype Worker = Worker(task: string, pc: Pc, events: seq<Event>)

  function NewWorker(task: string): Worker {
    Worker(task, AtTouchRunning, [])
  }

  /** The completed touch is still ahead. */
  predicate Underway(w: Worker) {
    w.pc.AtTouchRunning? || w.pc.AtSendStatus? || w.pc.AtSendArtifact? || w.pc.AtTouchCompleted?
  }

  /** The statements a worker has left. */
  function Left(pc: Pc): nat {
    match pc
    case AtTouchRunning => 7
    case AtSendStatus => 6
    case AtSendArtifact => 5
    case AtTouchCompleted(_) => 4
    case AtAppendArtifact(_) => 3
    case AtPut => 2
    case AtSendFinal => 1
    case AtEnd => 0
  }

  function WithStatus(t: TaskVal, status: TaskStatus): TaskVal {
    t.(status := status)
  }

  /** The worker's task and the worker after its next statement. */
  function Worked(t: TaskVal, w: Worker, now: Time): (TaskVal, Worker) {
    match w.pc
    case AtTouchRunning =>
      (WithStatus(t, Touched(t.status, TaskState.Running, now)), w.(pc := AtSendStatus))
    case AtSendStatus =>
      (t, w.(pc := AtSendArtifact, events := w.events + [NewStatusEvent(t, false)]))
    case AtSendArtifact =>
      var art := TextArtifact(t.id, "processing...", now);
      (t, w.(pc := AtTouchCompleted(art), events := w.events + [NewArtifactEvent(t, art, true, false)]))
    case AtTouchCompleted(art) =>
      (WithStatus(t, Touched(t.status, Completed, now)), w.(pc := AtAppendArtifact(art)))
    case AtAppendArtifact(art) =>
      (t.(artifacts := t.artifacts + [art]), w.(pc := AtPut))
    case AtPut =>
      (t, w.(pc := AtSendFinal))
    case AtSendFinal =>
      (t, w.(pc := AtEnd, events := w.events + [NewStatusEvent(t, true)]))
    case AtEnd => (t, w)
  }

  /** The store after a write through the pointer to its task `id`, or after putting that task back. */
  function Written(s: StoreVal, id: string, t: TaskVal, puts: bool, now: Time): StoreVal {
    var s' := s.(items := s.items[id := t]);
    if puts then AfterPut(s', t, now) else s'
  }

  lemma WrittenIsUpdate(s: StoreVal, id: string, t: TaskVal, puts: bool, now: Time)
    requires t.id == id
    ensures Written(s, id, t, puts, now) == s.(items := s.items[id := t])
  {
    PutOfStoredObject(s.(items := s.items[id := t]), id, now);
  }

  /** The store and the worker after its next statement. */
  function Work(s: StoreVal, w: Worker, now: Time): (StoreVal, Worker)
    requires w.task in s.items
  {
    var (t, w') := Worked(s.items[w.task], w, now);
    (Written(s, w.task, t, w.pc.AtPut?, now), w')
  }

  /** Only its own task changes, and keeps its id. */
  lemma WorkIsUpdate(s: StoreVal, w: Worker, now: Time)
    requires w.task in s.items && s.items[w.task].id == w.task
    ensures var (t, w') := Worked(s.items[w.task], w, now);
      Work(s, w, now) == (s.(items := s.items[w.task := t]), w') && t.id == w.task && w'.task == w.task
  {
    WrittenIsUpdate(s, w.task, Worked(s.items[w.task], w, now).0, w.pc.AtPut?, now);
  }

  /** A worker left alone for n statements. */
  function WorkAlone(s: StoreVal, w: Worker, n: nat, now: Time): (StoreVal, Worker)
    requires w.task in s.items && s.items[w.task].id == w.task
    decreases n
  {
    if n == 0 then (s, w)
    else
      var (s', w') := Work(s, w, now);
      WorkIsUpdate(s, w, now);
      WorkAlone(s', w', n - 1, now)
  }

  /** The same on the task alone. */
  function WorkedAlone(t: TaskVal, w: Worker, n: nat, now: Time): (TaskVal, Worker)
    decreases n
  {
    if n == 0 then (t, w)
    else
      var (t', w') := Worked(t, w, now);
      WorkedAlone(t', w', n - 1, now)
  }

  lemma {:induction false} AloneIsUpdate(s: StoreVal, w: Worker, n: nat, now: Time)
    requires w.task in s.items && s.items[w.task].id == w.task
    ensures var (t, w') := WorkedAlone(s.items[w.task], w, n, now);
      WorkAlone(s, w, n, now) == (s.(items := s.items[w.task := t]), w')
    decreases n
  {
    if n == 0 {
      assert s.items[w.task := s.items[w.task]] == s.items;
    } else {
      WorkIsUpdate(s, w, now);
      var (s', w') := Work(s, w, now);
      AloneIsUpdate(s', w', n - 1, now);
      var t := WorkedAlone(s.items[w.task], w, n, now).0;
      assert s.items[w.task := s'.items[w.task]][w.task := t] == s.items[w.task := t];
    }
  }

  /** What a streaming task looks like when its worker ran undisturbed. */
  function Streamed(t: TaskVal, now: Time): TaskVal {
    t.(status := Touched(t.status, Completed, now),
       artifacts := t.artifacts + [TextArtifact(t.id, "processing...", now)])
  }

  function StreamedEvents(t: TaskVal, now: Time): seq<Event> {
    var running := t.(status := Touched(t.status, TaskState.Running, now));
    [NewStatusEvent(running, false),
     NewArtifactEvent(running, TextArtifact(t.id, "processing...", now), true, false),
     NewStatusEvent(Streamed(t, now), true)]
  }

  /** Alone, the seven statements complete the task and send status, artifact, final status. */
  lemma AloneCompletes(s: StoreVal, id: string, now: Time)
    requires id in s.items && s.items[id].id == id
    ensures WorkAlone(s, NewWorker(id), 7, now) ==
            (s.(items := s.items[id := Streamed(s.items[id], now)]),
             Worker(id, AtEnd, StreamedEvents(s.items[id], now)))
  {
    AloneIsUpdate(s, NewWorker(id), 7, now);
    SevenStatements(s.items[id], now);
  }

  lemma SevenStatements(t: TaskVal, now: Time)
    ensures WorkedAlone(t, NewWorker(t.id), 7, now) == (Streamed(t, now), Worker(t.id, AtEnd, StreamedEvents(t, now)))
  {
    var w := NewWorker(t.id);
    var (t1, w1) := Worked(t, w, now);
    var (t2, w2) := Worked(t1, w1, now);
    var (t3, w3) := Worked(t2, w2, now);
    var (t4, w4) := Worked(t3, w3, now);
    assert WorkedAlone(t, w, 7, now) == WorkedAlone(t1, w1, 6, now) == WorkedAlone(t2, w2, 5, now);
    assert WorkedAlone(t2, w2, 5, now) == WorkedAlone(t3, w3, 4, now) == WorkedAlone(t4, w4, 3, now);
    var (t5, w5) := Worked(t4, w4, now);
    var (t6, w6) := Worked(t5, w5, now);
    assert WorkedAlone(t4, w4, 3, now) == WorkedAlone(t5, w5, 2, now) == WorkedAlone(t6, w6, 1, now);
    var (t7, w7) := Worked(t6, w6, now);
    assert WorkedAlone(t6, w6, 1, now) == WorkedAlone(t7, w7, 0, now);
    assert w7.events == StreamedEvents(t, now);
  }
}
