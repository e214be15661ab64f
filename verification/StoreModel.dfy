/** What the task store holds, as a value, and what each of its operations does to that value. */
module StoreModel {
  import opened Schema
  import opened Decimal

  /** Push configurations by task and then by their own id. */
  type Nested = map<string, map<string, ConfigVal>>

  /** `created` and `adds` count the calls that drew a task id or a configuration number. */
  datatype StoreVal = StoreVal(created: nat, items: map<string, TaskVal>, adds: nat, push: Nested,
                               hist: map<string, seq<Transition>>)

  const EMPTY := StoreVal(0, map[], 0, map[], map[])

  /** A task without recorded transitions has an empty trace. */
  function TraceIn(hist: map<string, seq<Transition>>, id: string): seq<Transition> {
    if id in hist then hist[id] else []
  }

  function Trace(s: StoreVal, id: string): seq<Transition> {
    TraceIn(s.hist, id)
  }

  function NextID(s: StoreVal): string {
    TaskID(s.created + 1)
  }

  function NewTaskVal(id: string, contextID: Option<string>, now: Time): TaskVal {
    TaskVal(id, contextID, TaskStatus(Running, None, None, now), [])
  }

  /** A running task filed under `id`, with its creation recorded. */
  function Filed(s: StoreVal, id: string, contextID: Option<string>, now: Time): StoreVal {
    s.(created := s.created + 1,
       items := s.items[id := NewTaskVal(id, contextID, now)],
       hist := s.hist[id := Trace(s, id) + [Transition(Running, now)]])
  }

  function AfterNewTask(s: StoreVal, contextID: Option<string>, now: Time): StoreVal {
    Filed(s, NextID(s), contextID, now)
  }

  /** The time recorded for a transition of a task that was stored before. */
  function RecordedAt(at: Time, now: Time): Time {
    if at == 0 then now else at
  }

  function AfterPut(s: StoreVal, task: TaskVal, now: Time): StoreVal {
    var id := task.id;
    var trace :=
      if id !in s.items then Trace(s, id) + [Transition(task.status.state, task.status.updatedAt)]
      else if s.items[id].status.state == task.status.state then Trace(s, id)
      else Trace(s, id) + [Transition(task.status.state, RecordedAt(task.status.updatedAt, now))];
    s.(items := s.items[id := task],
       hist := if trace == Trace(s, id) then s.hist else s.hist[id := trace])
  }

  /** Putting the stored object itself back records nothing: it is compared with itself. */
  lemma PutOfStoredObject(s: StoreVal, id: string, now: Time)
    requires id in s.items && s.items[id].id == id
    ensures AfterPut(s, s.items[id], now) == s
  {
    assert s.items[id := s.items[id]] == s.items;
  }

  /** The configuration as it is stored by the next add: an empty id is replaced by a generated one. */
  function Numbered(s: StoreVal, cfg: ConfigVal): ConfigVal {
    if cfg.id == "" then cfg.(id := PushID(s.adds + 1)) else cfg
  }

  function Inner(push: Nested, taskID: string): map<string, ConfigVal> {
    if taskID in push then push[taskID] else map[]
  }

  function AfterAddPush(s: StoreVal, taskID: string, cfg: ConfigVal): StoreVal {
    if taskID !in s.items then s
    else
      var stored := Numbered(s, cfg);
      s.(adds := s.adds + 1, push := s.push[taskID := Inner(s.push, taskID)[stored.id := stored]])
  }

  function FoundPush(s: StoreVal, taskID: string, cfgID: string): Option<ConfigVal> {
    var m := Inner(s.push, taskID);
    if cfgID in m then Some(m[cfgID]) else None
  }

  /** The configurations of one task. */
  function PushOf(s: StoreVal, taskID: string): set<ConfigVal> {
    Inner(s.push, taskID).Values
  }

  function AfterDeletePush(s: StoreVal, taskID: string, cfgID: string): StoreVal {
    if cfgID in Inner(s.push, taskID) then s.(push := s.push[taskID := s.push[taskID] - {cfgID}]) else s
  }

  ghost predicate ConfigsFiled(push: Nested) {
    forall t, c :: t in push && c in push[t] ==> push[t][c].id == c && c != ""
  }

  /** What holds of every store built through its own operations and the handlers. */
  ghost predicate Sound(s: StoreVal) {
    && s.hist.Keys == s.items.Keys
    && (forall id :: id in s.items ==> s.items[id].id == id)
    && s.push.Keys <= s.items.Keys
    && ConfigsFiled(s.push)
  }
}
