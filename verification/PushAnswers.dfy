/** What a client is answered about push configurations, whichever implementation serves it. */
module PushAnswers {
  import opened Schema
  import opened Decimal
  import opened StoreModel
  import opened Handlers
  import opened PushConfigs

  predicate OnPush(req: Request) {
    req.PushSet? || req.PushGet? || req.PushList? || req.PushDelete?
  }

  /** The parameters are there, and the ids they need are not empty. */
  predicate Posed(req: Request)
    requires OnPush(req)
  {
    match req
    case PushSet(p) => p.Parsed? && p.value.0 != ""
    case PushGet(p) => p.Parsed? && p.value.0 != "" && p.value.1 != ""
    case PushList(p) => p.Parsed? && p.value != ""
    case PushDelete(p) => p.Parsed? && p.value.0 != "" && p.value.1 != ""
  }

  /** The question, in terms of the one map by task and configuration id. */
  function Question(req: Request): Op
    requires OnPush(req) && Posed(req)
  {
    match req
    case PushSet(p) => Add(p.value.0, p.value.1)
    case PushGet(p) => Find(p.value.0, p.value.1)
    case PushList(p) => ListAll(p.value)
    case PushDelete(p) => Delete(p.value.0, p.value.1)
  }

  /** The answer a result is sent as. */
  function Sent(r: Result): Response {
    match r
    case Stored(Some(cfg)) => ConfigResult(cfg)
    case FoundOne(Some(cfg)) => ConfigResult(cfg)
    case Listed(Some(cfgs)) => ConfigList(multiset(cfgs))
    case Removed(true) => Deleted
    case _ => Refused(-32004)
  }

  /** Every well-posed request is answered from the flat map, and nothing but push configurations changes. */
  lemma AnsweredFlat(impl: Impl, gate: Gate, s: StoreVal, req: Request, now: Time)
    requires gate.push && OnPush(req) && Posed(req)
    ensures var o := Serve(impl, gate, s, req, now);
      var (f, r) := FlatDo(Abstract(s), Question(req));
      && o.response == Sent(r) && Abstract(o.store) == f
      && o.store.items == s.items && o.store.hist == s.hist && o.store.created == s.created
      && o.spawned == None
  {
    OperationRefines(s, Question(req));
    assert Serve(impl, gate, s, req, now) == SharedOutcome(gate, s, req, now);
    match req
    case PushSet(p) => assert Do(s, Question(req)).0 == Serve(impl, gate, s, req, now).store;
    case PushGet(p) =>
    case PushList(p) =>
    case PushDelete(p) => DeletesNothing(s, p.value.0, p.value.1);
  }

  lemma DeletesNothing(s: StoreVal, t: string, c: string)
    ensures FoundPush(s, t, c).None? ==> AfterDeletePush(s, t, c) == s
  {
  }

  /** Any other is refused: without push support whatever it says, and otherwise for what it lacks. */
  lemma AnsweredNot(impl: Impl, gate: Gate, s: StoreVal, req: Request, now: Time)
    requires OnPush(req) && !(gate.push && Posed(req))
    ensures Serve(impl, gate, s, req, now) == Outcome(s, Refused(if gate.push then -32602 else -32003), None)
  {
    assert Serve(impl, gate, s, req, now) == SharedOutcome(gate, s, req, now);
  }

  // From set to delete.

  function Ask(t: string, c: string): Request {
    PushGet(Parsed((t, c)))
  }

  function Drop(t: string, c: string): Request {
    PushDelete(Parsed((t, c)))
  }

  /** A set is answered with the client's configuration under a non-empty id, the client's own if it gave one. */
  lemma SetIsAnswered(impl: Impl, gate: Gate, s: StoreVal, t: string, cfg: ConfigVal, now: Time)
    requires gate.push && t != ""
    ensures var o := Serve(impl, gate, s, PushSet(Parsed((t, cfg))), now);
      if t !in s.items then o == Outcome(s, Refused(-32004), None)
      else
        && o.response.ConfigResult?
        && var c := o.response.cfg;
           && c.id != "" && c.url == cfg.url && c.secret == cfg.secret
           && (cfg.id != "" ==> c.id == cfg.id)
           && (cfg.id == "" ==> c.id == "pc-" + Printed(Wrap64(s.adds + 1)))
           && o.store.adds == s.adds + 1
  {
    AnsweredFlat(impl, gate, s, PushSet(Parsed((t, cfg))), now);
  }

  /** What was set is found and listed from then on, by every implementation. */
  lemma SetIsFound(impl: Impl, also: Impl, gate: Gate, s: StoreVal, t: string, cfg: ConfigVal, now: Time, later: Time)
    requires gate.push && t != "" && t in s.items
    ensures var o := Serve(impl, gate, s, PushSet(Parsed((t, cfg))), now);
      && o.response.ConfigResult?
      && var c := o.response.cfg;
         && Serve(also, gate, o.store, Ask(t, c.id), later) == Outcome(o.store, ConfigResult(c), None)
         && var l := Serve(also, gate, o.store, PushList(Parsed(t)), later);
            l.response.ConfigList? && l.response.cfgs[c] == 1
  {
    var o := Serve(impl, gate, s, PushSet(Parsed((t, cfg))), now);
    SetIsAnswered(impl, gate, s, t, cfg, now);
    AnsweredFlat(impl, gate, s, PushSet(Parsed((t, cfg))), now);
    var c := o.response.cfg;
    var f := Abstract(o.store);
    assert (t, c.id) in f.configs && f.configs[(t, c.id)] == c;
    Found(also, gate, o.store, t, c, later);
    Listed1(also, gate, o.store, t, c, later);
  }

  lemma Found(impl: Impl, gate: Gate, s: StoreVal, t: string, c: ConfigVal, now: Time)
    requires gate.push && t != "" && c.id != ""
    requires (t, c.id) in Abstract(s).configs && Abstract(s).configs[(t, c.id)] == c
    ensures Serve(impl, gate, s, Ask(t, c.id), now) == Outcome(s, ConfigResult(c), None)
  {
    AnsweredFlat(impl, gate, s, Ask(t, c.id), now);
  }

  lemma Listed1(impl: Impl, gate: Gate, s: StoreVal, t: string, c: ConfigVal, now: Time)
    requires gate.push && t != "" && t in s.items
    requires (t, c.id) in Abstract(s).configs && Abstract(s).configs[(t, c.id)] == c
    ensures var l := Serve(impl, gate, s, PushList(Parsed(t)), now).response;
      l.ConfigList? && l.cfgs[c] == 1
  {
    AnsweredFlat(impl, gate, s, PushList(Parsed(t)), now);
    var f := Abstract(s);
    var all := set k | k in f.configs && k.0 == t :: f.configs[k];
    assert (t, c.id).0 == t;
    assert c in all;
  }

  lemma AbsentIsRefused(impl: Impl, gate: Gate, s: StoreVal, t: string, c: string, now: Time)
    requires gate.push && t != "" && c != "" && FoundPush(s, t, c).None?
    ensures Serve(impl, gate, s, Ask(t, c), now) == Outcome(s, Refused(-32004), None)
    ensures Serve(impl, gate, s, Drop(t, c), now) == Outcome(s, Refused(-32004), None)
  {
    assert Serve(impl, gate, s, Ask(t, c), now) == PushGetOutcome(gate, s, Parsed((t, c)));
    assert Serve(impl, gate, s, Drop(t, c), now) == PushDeleteOutcome(gate, s, Parsed((t, c)));
  }

  /** A delete of what is there leaves every other configuration. */
  lemma DropIsAnswered(impl: Impl, gate: Gate, s: StoreVal, t: string, c: string, now: Time)
    requires gate.push && t != "" && c != "" && FoundPush(s, t, c).Some?
    ensures var o := Serve(impl, gate, s, Drop(t, c), now);
      && o.response == Deleted && o.spawned == None
      && FoundPush(o.store, t, c) == None
      && forall u, d :: (u, d) != (t, c) ==> FoundPush(o.store, u, d) == FoundPush(s, u, d)
  {
    assert Serve(impl, gate, s, Drop(t, c), now) == PushDeleteOutcome(gate, s, Parsed((t, c)));
  }

  /** And what was deleted is found and deleted no more, by any implementation. */
  lemma DeletedIsGone(impl: Impl, also: Impl, gate: Gate, s: StoreVal, t: string, c: string, now: Time, later: Time)
    requires gate.push && t != "" && c != "" && FoundPush(s, t, c).Some?
    ensures var o := Serve(impl, gate, s, Drop(t, c), now);
      && Serve(also, gate, o.store, Ask(t, c), later) == Outcome(o.store, Refused(-32004), None)
      && Serve(also, gate, o.store, Drop(t, c), later) == Outcome(o.store, Refused(-32004), None)
  {
    DropIsAnswered(impl, gate, s, t, c, now);
    AbsentIsRefused(also, gate, Serve(impl, gate, s, Drop(t, c), now).store, t, c, later);
  }

  /** A set leaves every other configuration. */
  lemma SetKeepsOthers(impl: Impl, gate: Gate, s: StoreVal, t: string, cfg: ConfigVal, now: Time)
    requires gate.push && t != "" && t in s.items
    ensures var o := Serve(impl, gate, s, PushSet(Parsed((t, cfg))), now);
      o.response.ConfigResult? &&
      forall u, d :: (u, d) != (t, o.response.cfg.id) ==> FoundPush(o.store, u, d) == FoundPush(s, u, d)
  {
    assert Serve(impl, gate, s, PushSet(Parsed((t, cfg))), now) == PushSetOutcome(gate, s, Parsed((t, cfg)));
  }
}
