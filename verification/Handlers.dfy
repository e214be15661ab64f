/**
 * What each request does to the store when its handler runs without interruption,
 * for the three implementations a server offers: plain JSON-RPC, opsImpl and DefaultOperations.
 */
module Handlers {
  import opened Schema
  import opened Decimal
  import opened StoreModel
  import opened SecondaryAuth
  import AgentCards

  const INVALID_PARAMS := -32602
  const METHOD_NOT_FOUND := -32601
  const STREAMING_UNSUPPORTED := -32002
  const PUSH_UNSUPPORTED := -32003
  const NOT_FOUND := -32004
  const TASK_IS_TERMINAL := -32006

  /** Request parameters: missing, not decodable, or decoded. */
  datatype Params<+T> = Absent | Malformed | Parsed(value: T)

  datatype SendParams = SendParams(contextID: Option<string>, taskID: Option<string>, messages: seq<Message>)

  /** What the agent card allows. */
  datatype Gate = Gate(streaming: bool, push: bool)

  function GateOf(card: AgentCards.CardVal): Gate {
    Gate(AgentCards.Supported(card, AgentCards.Streaming), AgentCards.Supported(card, AgentCards.PushNotifications))
  }

  /** `Rpc` is the plain server: its JSON-RPC methods, and the same methods behind REST routes. */
  datatype Impl = Rpc | Ops | Default

  datatype Request =
    | Send(send: Params<SendParams>)
    | Stream(stream: Params<SendParams>)
    | Get(get: Params<string>)
    | Cancel(cancel: Params<string>)
    | Resubscribe(resubscribe: Params<string>)
    | PushSet(add: Params<(string, ConfigVal)>)
    | PushGet(find: Params<(string, string)>)
    | PushList(list: Params<string>)
    | PushDelete(remove: Params<(string, string)>)

  /** A listing answers with its configurations in no particular order. */
  datatype Response =
    | TaskResult(task: TaskVal)
    | ConfigResult(cfg: ConfigVal)
    | ConfigList(cfgs: multiset<ConfigVal>)
    | Deleted
    | Resubscribed
    | Refused(code: int)

  /** The store afterwards, the answer, and the task a streaming worker was started on. */
  datatype Outcome = Outcome(store: StoreVal, response: Response, spawned: Option<string>)

  function Answer(s: StoreVal, r: Response): Outcome {
    Outcome(s, r, None)
  }

  // Requests every implementation answers alike.

  function GetOutcome(s: StoreVal, p: Params<string>): Outcome {
    if !p.Parsed? || p.value == "" then Answer(s, Refused(INVALID_PARAMS))
    else if p.value in s.items then Answer(s, TaskResult(s.items[p.value]))
    else Answer(s, Refused(NOT_FOUND))
  }

  function CanceledTask(t: TaskVal, now: Time): TaskVal {
    t.(status := Touched(t.status, Canceled, now))
  }

  function CancelOutcome(s: StoreVal, p: Params<string>, now: Time): Outcome {
    if !p.Parsed? || p.value == "" then Answer(s, Refused(INVALID_PARAMS))
    else if p.value in s.items then
      var t := CanceledTask(s.items[p.value], now);
      Answer(s.(items := s.items[p.value := t]), TaskResult(t))
    else Answer(s, Refused(NOT_FOUND))
  }

  function PushSetOutcome(gate: Gate, s: StoreVal, p: Params<(string, ConfigVal)>): Outcome {
    if !gate.push then Answer(s, Refused(PUSH_UNSUPPORTED))
    else if !p.Parsed? || p.value.0 == "" then Answer(s, Refused(INVALID_PARAMS))
    else if p.value.0 in s.items then
      Answer(AfterAddPush(s, p.value.0, p.value.1), ConfigResult(Numbered(s, p.value.1)))
    else Answer(s, Refused(NOT_FOUND))
  }

  function PushGetOutcome(gate: Gate, s: StoreVal, p: Params<(string, string)>): Outcome {
    if !gate.push then Answer(s, Refused(PUSH_UNSUPPORTED))
    else if !p.Parsed? || p.value.0 == "" || p.value.1 == "" then Answer(s, Refused(INVALID_PARAMS))
    else
      match FoundPush(s, p.value.0, p.value.1)
      case Some(cfg) => Answer(s, ConfigResult(cfg))
      case None => Answer(s, Refused(NOT_FOUND))
  }

  function PushListOutcome(gate: Gate, s: StoreVal, p: Params<string>): Outcome {
    if !gate.push then Answer(s, Refused(PUSH_UNSUPPORTED))
    else if !p.Parsed? || p.value == "" then Answer(s, Refused(INVALID_PARAMS))
    else if p.value in s.items then Answer(s, ConfigList(multiset(PushOf(s, p.value))))
    else Answer(s, Refused(NOT_FOUND))
  }

  function PushDeleteOutcome(gate: Gate, s: StoreVal, p: Params<(string, string)>): Outcome {
    if !gate.push then Answer(s, Refused(PUSH_UNSUPPORTED))
    else if !p.Parsed? || p.value.0 == "" || p.value.1 == "" then Answer(s, Refused(INVALID_PARAMS))
    else if FoundPush(s, p.value.0, p.value.1).Some? then
      Answer(AfterDeletePush(s, p.value.0, p.value.1), Deleted)
    else Answer(s, Refused(NOT_FOUND))
  }

  // Sending and streaming, where the implementations differ.

  predicate Usable(p: Params<SendParams>) {
    p.Parsed? && p.value.messages != []
  }

  /** The existing task a request names, if it names one. */
  function Named(s: StoreVal, p: SendParams): Option<string> {
    if p.taskID.Some? && p.taskID.value != "" && p.taskID.value in s.items then p.taskID else None
  }

  predicate NamesTerminal(s: StoreVal, p: SendParams) {
    var id := Named(s, p);
    id.Some? && IsTerminal(s.items[id.value].status.state)
  }

  /** The task opsImpl works on: the named one, or else a new one. */
  function Target(s: StoreVal, p: SendParams): string {
    var id := Named(s, p);
    if id.Some? then id.value else NextID(s)
  }

  function AtTarget(s: StoreVal, p: SendParams, now: Time): (r: StoreVal)
    ensures Target(s, p) in r.items
  {
    if Named(s, p).Some? then s else AfterNewTask(s, p.contextID, now)
  }

  function AskedTask(t: TaskVal, a: SecAuth, now: Time): TaskVal {
    t.(status := Touched(t.status, AuthRequired, now).(message := Some(BuildAuthMessage(a))))
  }

  /** Completion replaces the whole status, message included, and all artifacts. */
  function FinishedTask(t: TaskVal, text: string, now: Time): TaskVal {
    t.(status := TaskStatus(Completed, None, None, now), artifacts := [TextArtifact(t.id, text, now)])
  }

  function Done(s: StoreVal, id: string, t: TaskVal): Outcome {
    Answer(s.(items := s.items[id := t]), TaskResult(t))
  }

  /** A new task, completed at once. */
  function FreshCompletion(s: StoreVal, contextID: Option<string>, now: Time): Outcome {
    var id := NextID(s);
    Done(AfterNewTask(s, contextID, now), id, FinishedTask(NewTaskVal(id, contextID, now), "ok", now))
  }

  function SendOutcome(impl: Impl, s: StoreVal, params: Params<SendParams>, now: Time): Outcome {
    if !Usable(params) then Answer(s, Refused(INVALID_PARAMS))
    else
      var p := params.value;
      if impl == Rpc then FreshCompletion(s, p.contextID, now)
      else if NamesTerminal(s, p) then Answer(s, Refused(TASK_IS_TERMINAL))
      else if impl == Default then FreshCompletion(s, p.contextID, now)
      else
        var s1, id, auth := AtTarget(s, p, now), Target(s, p), Detected(p.messages);
        if NeedsAuth(auth) then Done(s1, id, AskedTask(s1.items[id], auth, now))
        else Done(s1, id, FinishedTask(s1.items[id], "ok", now))
  }

  function StreamOutcome(impl: Impl, gate: Gate, s: StoreVal, params: Params<SendParams>, now: Time): Outcome {
    if impl == Rpc then Answer(s, Refused(METHOD_NOT_FOUND))
    else if !gate.streaming then Answer(s, Refused(STREAMING_UNSUPPORTED))
    else if !Usable(params) then Answer(s, Refused(INVALID_PARAMS))
    else
      var p := params.value;
      if NamesTerminal(s, p) then Answer(s, Refused(TASK_IS_TERMINAL))
      else if impl == Default then
        var id := NextID(s);
        Outcome(AfterNewTask(s, p.contextID, now), TaskResult(NewTaskVal(id, p.contextID, now)), Some(id))
      else
        var s1, id, auth := AtTarget(s, p, now), Target(s, p), Detected(p.messages);
        if NeedsAuth(auth) then Done(s1, id, AskedTask(s1.items[id], auth, now))
        else Outcome(s1, TaskResult(s1.items[id]), Some(id))
  }

  /**
   * For the plain server this is what the REST subscribe route asks for: its JSON-RPC method
   * table has no entry for resubscribing, and answers METHOD_NOT_FOUND as it does for streaming.
   */
  function ResubscribeOutcome(impl: Impl, gate: Gate, s: StoreVal, p: Params<string>): Outcome {
    if !gate.streaming then Answer(s, Refused(STREAMING_UNSUPPORTED))
    else if p.Parsed? && p.value != "" && p.value in s.items then Answer(s, TaskResult(s.items[p.value]))
    else if impl != Rpc then Answer(s, Resubscribed)
    else if !p.Parsed? || p.value == "" then Answer(s, Refused(INVALID_PARAMS))
    else Answer(s, Refused(NOT_FOUND))
  }

  function Serve(impl: Impl, gate: Gate, s: StoreVal, req: Request, now: Time): Outcome {
    match req
    case Send(p) => SendOutcome(impl, s, p, now)
    case Stream(p) => StreamOutcome(impl, gate, s, p, now)
    case Resubscribe(p) => ResubscribeOutcome(impl, gate, s, p)
    case _ => SharedOutcome(gate, s, req, now)
  }

  type Served = (Impl, Request, Time)

  /** The store after requests of every kind, each through an implementation of its own. */
  function AfterAll(gate: Gate, s: StoreVal, reqs: seq<Served>): StoreVal {
    if reqs == [] then s
    else
      var (impl, req, now) := reqs[|reqs| - 1];
      Serve(impl, gate, AfterAll(gate, s, reqs[..|reqs| - 1]), req, now).store
  }

  /** The requests all implementations share. */
  predicate Shared(req: Request) {
    !req.Send? && !req.Stream? && !req.Resubscribe?
  }

  function SharedOutcome(gate: Gate, s: StoreVal, req: Request, now: Time): Outcome
    requires Shared(req)
  {
    match req
    case Get(p) => GetOutcome(s, p)
    case Cancel(p) => CancelOutcome(s, p, now)
    case PushSet(p) => PushSetOutcome(gate, s, p)
    case PushGet(p) => PushGetOutcome(gate, s, p)
    case PushList(p) => PushListOutcome(gate, s, p)
    case PushDelete(p) => PushDeleteOutcome(gate, s, p)
  }

  /** Shared requests one after the other: the final store and all answers. */
  function SharedRun(gate: Gate, s: StoreVal, reqs: seq<(Request, Time)>): (StoreVal, seq<Response>)
    requires forall r :: r in reqs ==> Shared(r.0)
  {
    if reqs == [] then (s, [])
    else
      var (before, answers) := SharedRun(gate, s, reqs[..|reqs| - 1]);
      var last := reqs[|reqs| - 1];
      var o := SharedOutcome(gate, before, last.0, last.1);
      (o.store, answers + [o.response])
  }

  // What no request ever breaks, while fewer than 2^64 tasks have been created.

  /** Every task has its one creation entry as history. */
  ghost predicate Orderly(s: StoreVal) {
    && Sound(s)
    && (forall id :: id in s.items ==> |s.hist[id]| == 1 && s.hist[id][0].state == Running)
  }

  /** And the stored tasks are exactly the issued ids. */
  ghost predicate Intact(s: StoreVal) {
    && s.created < TWO_64
    && s.items.Keys == Issued(s.created)
    && Orderly(s)
  }

  lemma FilingKeepsOrder(s: StoreVal, id: string, contextID: Option<string>, now: Time)
    requires Orderly(s) && id !in s.items
    ensures Orderly(Filed(s, id, contextID, now))
    ensures Filed(s, id, contextID, now).items.Keys == s.items.Keys + {id}
  {
  }

  lemma NextIsFree(s: StoreVal)
    requires Intact(s)
    ensures NextID(s) !in s.items
  {
    LaterIdIsNew(s.created, s.created + 1);
  }

  lemma NewTaskKeepsIntact(s: StoreVal, contextID: Option<string>, now: Time)
    requires Intact(s) && s.created + 1 < TWO_64
    ensures NextID(s) !in s.items
    ensures Intact(AfterNewTask(s, contextID, now))
  {
    NextIsFree(s);
    FilingKeepsOrder(s, NextID(s), contextID, now);
  }

  /** Overwriting a stored task by one with the same id changes neither keys nor history. */
  lemma UpdateKeepsIntact(s: StoreVal, id: string, t: TaskVal)
    requires Intact(s) && id in s.items && t.id == id
    ensures Intact(s.(items := s.items[id := t]))
  {
  }

  lemma AddPushKeepsIntact(s: StoreVal, taskID: string, cfg: ConfigVal)
    requires Intact(s) && taskID in s.items
    ensures Intact(AfterAddPush(s, taskID, cfg))
  {
    var stored := Numbered(s, cfg);
    var inner := Inner(s.push, taskID)[stored.id := stored];
    forall c | c in inner
      ensures inner[c].id == c && c != ""
    {
      if c != stored.id {
        assert c in s.push[taskID];
      }
    }
  }

  lemma DeletePushKeepsIntact(s: StoreVal, taskID: string, cfgID: string)
    requires Intact(s)
    ensures Intact(AfterDeletePush(s, taskID, cfgID))
  {
  }

  /** Whether a send or stream gets past its checks and on to a task. */
  predicate Works(impl: Impl, s: StoreVal, params: Params<SendParams>) {
    Usable(params) && (impl == Rpc || !NamesTerminal(s, params.value))
  }

  /** At most one task more, and still intact unless the ids have run out. */
  ghost predicate Follows(s: StoreVal, t: StoreVal) {
    s.created <= t.created <= s.created + 1 && (t.created < TWO_64 ==> Intact(t))
  }

  lemma SendKeepsIntact(impl: Impl, s: StoreVal, params: Params<SendParams>, now: Time)
    requires Intact(s)
    ensures Follows(s, SendOutcome(impl, s, params, now).store)
  {
    var t := SendOutcome(impl, s, params, now).store;
    if !Works(impl, s, params) {
      assert t == s;
    } else if impl != Ops {
      assert t == FreshCompletion(s, params.value.contextID, now).store;
      if s.created + 1 < TWO_64 {
        WorkKeepsIntact(impl, s, params.value, now);
      }
    } else if Named(s, params.value).Some? || s.created + 1 < TWO_64 {
      var p := params.value;
      var s1, id := AtTarget(s, p, now), Target(s, p);
      assert t == s1.(items := s1.items[id := AskedTask(s1.items[id], Detected(p.messages), now)])
          || t == s1.(items := s1.items[id := FinishedTask(s1.items[id], "ok", now)]);
      WorkKeepsIntact(impl, s, p, now);
    }
  }

  lemma StreamKeepsIntact(impl: Impl, gate: Gate, s: StoreVal, params: Params<SendParams>, now: Time)
    requires Intact(s)
    ensures Follows(s, StreamOutcome(impl, gate, s, params, now).store)
  {
    var t := StreamOutcome(impl, gate, s, params, now).store;
    if impl != Rpc && gate.streaming && Works(impl, s, params) {
      var p := params.value;
      if (impl == Ops && Named(s, p).Some?) || s.created + 1 < TWO_64 {
        WorkKeepsIntact(impl, s, p, now);
      }
    } else {
      assert t == s;
    }
  }

  lemma CancelKeepsIntact(s: StoreVal, p: Params<string>, now: Time)
    requires Intact(s)
    ensures Follows(s, CancelOutcome(s, p, now).store)
  {
    if p.Parsed? && p.value in s.items {
      UpdateKeepsIntact(s, p.value, CanceledTask(s.items[p.value], now));
    }
  }

  lemma PushSetKeepsIntact(gate: Gate, s: StoreVal, p: Params<(string, ConfigVal)>)
    requires Intact(s)
    ensures Follows(s, PushSetOutcome(gate, s, p).store)
  {
    if p.Parsed? && p.value.0 in s.items {
      AddPushKeepsIntact(s, p.value.0, p.value.1);
    }
  }

  lemma PushDeleteKeepsIntact(gate: Gate, s: StoreVal, p: Params<(string, string)>)
    requires Intact(s)
    ensures Follows(s, PushDeleteOutcome(gate, s, p).store)
  {
    if p.Parsed? {
      DeletePushKeepsIntact(s, p.value.0, p.value.1);
    }
  }

  /** Any request, through any implementation, leaves ids, keys, histories and configurations in order. */
  lemma ServeKeepsIntact(impl: Impl, gate: Gate, s: StoreVal, req: Request, now: Time)
    requires Intact(s)
    ensures Follows(s, Serve(impl, gate, s, req, now).store)
  {
    match req
    case Send(p) => SendKeepsIntact(impl, s, p, now);
    case Stream(p) => StreamKeepsIntact(impl, gate, s, p, now);
    case Cancel(p) => CancelKeepsIntact(s, p, now);
    case PushSet(p) => PushSetKeepsIntact(gate, s, p);
    case PushDelete(p) => PushDeleteKeepsIntact(gate, s, p);
    case Get(p) => assert GetOutcome(s, p).store == s;
    case Resubscribe(p) => assert ResubscribeOutcome(impl, gate, s, p).store == s;
    case PushGet(p) => assert PushGetOutcome(gate, s, p).store == s;
    case PushList(p) => assert PushListOutcome(gate, s, p).store == s;
  }

  lemma WorkKeepsIntact(impl: Impl, s: StoreVal, p: SendParams, now: Time)
    requires Intact(s)
    requires (impl == Ops && Named(s, p).Some?) || s.created + 1 < TWO_64
    ensures s.created + 1 < TWO_64 ==> Intact(FreshCompletion(s, p.contextID, now).store)
    ensures s.created + 1 < TWO_64 ==> Intact(AfterNewTask(s, p.contextID, now))
    ensures var s1, id := AtTarget(s, p, now), Target(s, p);
      && s1.items[id].id == id
      && Intact(s1)
      && Intact(s1.(items := s1.items[id := AskedTask(s1.items[id], Detected(p.messages), now)]))
      && Intact(s1.(items := s1.items[id := FinishedTask(s1.items[id], "ok", now)]))
  {
    if s.created + 1 < TWO_64 {
      NewTaskKeepsIntact(s, p.contextID, now);
      var grown := AfterNewTask(s, p.contextID, now);
      UpdateKeepsIntact(grown, NextID(s), FinishedTask(NewTaskVal(NextID(s), p.contextID, now), "ok", now));
    }
    var s1, id := AtTarget(s, p, now), Target(s, p);
    UpdateKeepsIntact(s1, id, AskedTask(s1.items[id], Detected(p.messages), now));
    UpdateKeepsIntact(s1, id, FinishedTask(s1.items[id], "ok", now));
  }
}
