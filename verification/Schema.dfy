/** Shared value types of the protocol, and the task object handlers mutate in place. */
module Schema {

  datatype Option<+T> = None | Some(value: T)

  /** A decoded JSON value. Numbers keep their text; an object has one value per name. */
  datatype Json =
    | Null
    | Bool(b: bool)
    | Num(text: string)
    | Str(s: string)
    | Arr(elems: seq<Json>)
    | Obj(fields: map<string, Json>)

  /** Clock readings are opaque; 0 stands for the unset time. */
  type Time = nat

  datatype TaskState = Pending | Running | Completed | Failed | Canceled | Blocked | AuthRequired

  predicate IsTerminal(s: TaskState) {
    s.Completed? || s.Failed? || s.Canceled?
  }

  datatype DataPart = DataPart(kind: string, data: Json)

  datatype TaskStatus = TaskStatus(state: TaskState, message: Option<DataPart>, error: Option<string>, updatedAt: Time)

  /** An artifact made of one text part. */
  datatype Artifact = Artifact(id: string, createdAt: Time, text: string)

  datatype TaskVal = TaskVal(id: string, contextID: Option<string>, status: TaskStatus, artifacts: seq<Artifact>)

  datatype Transition = Transition(state: TaskState, at: Time)

  datatype ConfigVal = ConfigVal(id: string, url: string, secret: Option<string>)

  datatype Message = Message(role: string, parts: seq<Json>)

  /** Only the state and its time change: message and error are kept. */
  function Touched(s: TaskStatus, state: TaskState, now: Time): TaskStatus {
    s.(state := state, updatedAt := now)
  }

  function TextArtifact(taskID: string, text: string, now: Time): Artifact {
    Artifact("a-" + taskID, now, text)
  }

  datatype Event =
    | StatusUpdate(taskID: string, contextID: string, status: TaskStatus, final: bool)
    | ArtifactUpdate(taskID: string, contextID: string, artifact: Artifact, append: bool, lastChunk: bool)

  function ContextOf(task: TaskVal): string {
    if task.contextID.Some? then task.contextID.value else ""
  }

  function NewStatusEvent(task: TaskVal, final: bool): Event {
    StatusUpdate(task.id, ContextOf(task), task.status, final)
  }

  function NewArtifactEvent(task: TaskVal, art: Artifact, append: bool, last: bool): Event {
    ArtifactUpdate(task.id, ContextOf(task), art, append, last)
  }

  class Task {
    const id: string
    const contextID: Option<string>
    var status: TaskStatus
    var artifacts: seq<Artifact>

    constructor (id: string, contextID: Option<string>, status: TaskStatus)
      ensures Val() == TaskVal(id, contextID, status, [])
    {
      this.id := id;
      this.contextID := contextID;
      this.status := status;
      this.artifacts := [];
    }

    function Val(): TaskVal
      reads this
    {
      TaskVal(id, contextID, status, artifacts)
    }

    method Touch(state: TaskState, now: Time)
      modifies this
      ensures Val() == old(Val()).(status := Touched(old(status), state, now))
    {
      status := status.(state := state);
      status := status.(updatedAt := now);
    }
  }
}
