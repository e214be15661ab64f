/** A client that keeps sending to one task, with nobody else writing. */
module Conversations {
  import opened Schema
  import opened SecondaryAuth
  import opened StoreModel
  import opened Handlers

  type Turn = (SendParams, Time)

  /** The store after the turns so far, and the answers in order. */
  function Converse(s: StoreVal, turns: seq<Turn>): (StoreVal, seq<Response>) {
    if turns == [] then (s, [])
    else
      var (before, answers) := Converse(s, turns[..|turns| - 1]);
      var (p, now) := turns[|turns| - 1];
      var o := SendOutcome(Ops, before, Parsed(p), now);
      (o.store, answers + [o.response])
  }

  /** Every turn is a valid send that names the task. */
  ghost predicate AllTo(turns: seq<Turn>, id: string) {
    forall t :: t in turns ==> t.0.taskID == Some(id) && t.0.messages != []
  }

  /** What matters of a turn: whether it lacks a credential, the message that would ask for it, and its time. */
  datatype Ask = Ask(lacks: bool, message: DataPart, at: Time)

  function AskOf(t: Turn): Ask {
    var a := Detected(t.0.messages);
    Ask(NeedsAuth(a), BuildAuthMessage(a), t.1)
  }

  function AsksOf(turns: seq<Turn>): (asks: seq<Ask>)
    ensures |asks| == |turns| && forall i :: 0 <= i < |asks| ==> asks[i] == AskOf(turns[i])
  {
    seq(|turns|, i requires 0 <= i < |turns| => AskOf(turns[i]))
  }

  /** The position of the first turn that lacks no credential; the length if there is none. */
  function FirstFree(asks: seq<Ask>): (k: nat)
    ensures k <= |asks|
    ensures forall i :: 0 <= i < k ==> asks[i].lacks
    ensures k < |asks| ==> !asks[k].lacks
  {
    if asks == [] || !asks[0].lacks then 0 else 1 + FirstFree(asks[1..])
  }

  /** Requests for credentials before turn k, the completion at k, refusals after it. */
  predicate AnswerIs(r: Response, a: Ask, id: string, i: nat, k: nat) {
    if i < k then
      && r.TaskResult? && r.task.id == id
      && r.task.status.state == AuthRequired && r.task.status.message == Some(a.message)
    else if i == k then
      && r.TaskResult? && r.task.id == id && r.task.status == TaskStatus(Completed, None, None, a.at)
      && r.task.artifacts == [Artifact("a-" + id, a.at, "ok")]
    else r == Refused(TASK_IS_TERMINAL)
  }

  /** The answers so far are the ones due, and the task is open exactly until turn k is answered. */
  ghost predicate Fits(s: StoreVal, answers: seq<Response>, id: string, asks: seq<Ask>, k: nat)
    requires |answers| <= |asks|
  {
    && id in s.items && s.items[id].id == id
    && (|answers| <= k <==> !IsTerminal(s.items[id].status.state))
    && (forall i :: 0 <= i < |answers| ==> AnswerIs(answers[i], asks[i], id, i, k))
  }

  /** A send to a stored task, in short. */
  function SendTo(s: StoreVal, id: string, a: Ask): Outcome
    requires id in s.items
  {
    var t := s.items[id];
    if IsTerminal(t.status.state) then Answer(s, Refused(TASK_IS_TERMINAL))
    else if a.lacks then Done(s, id, t.(status := Touched(t.status, AuthRequired, a.at).(message := Some(a.message))))
    else Done(s, id, FinishedTask(t, "ok", a.at))
  }

  lemma SendToNamed(s: StoreVal, id: string, t: Turn)
    requires Named(s, t.0) == Some(id) && t.0.messages != []
    ensures SendOutcome(Ops, s, Parsed(t.0), t.1) == SendTo(s, id, AskOf(t))
  {
  }

  lemma {:induction false} TurnFits(s: StoreVal, answers: seq<Response>, id: string, asks: seq<Ask>, k: nat)
    requires |answers| < |asks| && k == FirstFree(asks)
    requires Fits(s, answers, id, asks, k)
    ensures var o := SendTo(s, id, asks[|answers|]);
      && Fits(o.store, answers + [o.response], id, asks, k)
      && (|answers| > k ==> o.store == s)
  {
    var n := |answers|;
    var o := SendTo(s, id, asks[n]);
    assert AnswerIs(o.response, asks[n], id, n, k);
  }

  /** The conversation by what each turn asks. */
  function Exchange(s: StoreVal, id: string, asks: seq<Ask>): (r: (StoreVal, seq<Response>))
    requires id in s.items
    ensures id in r.0.items
  {
    if asks == [] then (s, [])
    else
      var (before, answers) := Exchange(s, id, asks[..|asks| - 1]);
      var o := SendTo(before, id, asks[|asks| - 1]);
      (o.store, answers + [o.response])
  }

  lemma {:induction false} ConverseIsExchange(s: StoreVal, id: string, turns: seq<Turn>)
    requires id != "" && id in s.items && AllTo(turns, id)
    ensures Converse(s, turns) == Exchange(s, id, AsksOf(turns))
  {
    if turns != [] {
      var init := turns[..|turns| - 1];
      ConverseIsExchange(s, id, init);
      OneTurn(s, id, turns, Converse(s, init).0);
      OneAsk(s, id, turns);
    }
  }

  lemma OneTurn(s: StoreVal, id: string, turns: seq<Turn>, before: StoreVal)
    requires turns != [] && before == Converse(s, turns[..|turns| - 1]).0
    requires id != "" && id in before.items && AllTo(turns, id)
    ensures var o := SendTo(before, id, AskOf(turns[|turns| - 1]));
      Converse(s, turns) == (o.store, Converse(s, turns[..|turns| - 1]).1 + [o.response])
  {
    assert turns[|turns| - 1] in turns;
    SendToNamed(before, id, turns[|turns| - 1]);
  }

  lemma OneAsk(s: StoreVal, id: string, turns: seq<Turn>)
    requires turns != [] && id in s.items
    ensures var (before, answers) := Exchange(s, id, AsksOf(turns[..|turns| - 1]));
      var o := SendTo(before, id, AskOf(turns[|turns| - 1]));
      Exchange(s, id, AsksOf(turns)) == (o.store, answers + [o.response])
  {
    assert AsksOf(turns)[..|turns| - 1] == AsksOf(turns[..|turns| - 1]);
  }

  lemma {:induction false} ExchangeFits(s: StoreVal, id: string, asks: seq<Ask>, n: nat)
    requires id in s.items && s.items[id].id == id && !IsTerminal(s.items[id].status.state) && n <= |asks|
    ensures var (s', answers) := Exchange(s, id, asks[..n]);
      |answers| == n && Fits(s', answers, id, asks, FirstFree(asks))
  {
    if n > 0 {
      ExchangeFits(s, id, asks, n - 1);
      assert asks[..n][..n - 1] == asks[..n - 1];
      var (before, answers) := Exchange(s, id, asks[..n - 1]);
      TurnFits(before, answers, id, asks, FirstFree(asks));
    }
  }

  lemma {:induction false} ExchangeSettles(s: StoreVal, id: string, asks: seq<Ask>, k: nat, n: nat)
    requires id in s.items && s.items[id].id == id && !IsTerminal(s.items[id].status.state)
    requires k == FirstFree(asks) && k < n <= |asks|
    ensures Exchange(s, id, asks[..n]).0 == Exchange(s, id, asks[..k + 1]).0
  {
    if n > k + 1 {
      ExchangeSettles(s, id, asks, k, n - 1);
      ExchangeFits(s, id, asks, n - 1);
      assert asks[..n][..n - 1] == asks[..n - 1];
    }
  }

  lemma {:induction false} PrefixIsExchange(s: StoreVal, id: string, turns: seq<Turn>, n: nat)
    requires id != "" && id in s.items && AllTo(turns, id) && n <= |turns|
    ensures Converse(s, turns[..n]) == Exchange(s, id, AsksOf(turns)[..n])
  {
    assert AsksOf(turns[..n]) == AsksOf(turns)[..n];
    ConverseIsExchange(s, id, turns[..n]);
  }

  /**
   * The whole conversation, after any number of its turns: requests for credentials, then at
   * most one completion, then refusals only.
   */
  lemma {:induction false} ConversationLaw(s: StoreVal, id: string, turns: seq<Turn>, n: nat)
    requires id != "" && id in s.items && s.items[id].id == id && !IsTerminal(s.items[id].status.state)
    requires AllTo(turns, id) && n <= |turns|
    ensures var (s', answers) := Converse(s, turns[..n]);
      |answers| == n && Fits(s', answers, id, AsksOf(turns), FirstFree(AsksOf(turns)))
  {
    PrefixIsExchange(s, id, turns, n);
    ExchangeFits(s, id, AsksOf(turns), n);
  }

  /** After the completion the store does not change any more. */
  lemma {:induction false} StoreSettles(s: StoreVal, id: string, turns: seq<Turn>, k: nat, n: nat)
    requires id != "" && id in s.items && s.items[id].id == id && !IsTerminal(s.items[id].status.state)
    requires AllTo(turns, id) && k == FirstFree(AsksOf(turns)) && k < n <= |turns|
    ensures Converse(s, turns[..n]).0 == Converse(s, turns[..k + 1]).0
  {
    PrefixIsExchange(s, id, turns, n);
    PrefixIsExchange(s, id, turns, k + 1);
    ExchangeSettles(s, id, AsksOf(turns), k, n);
  }

  /** Each refused send, on its own, leaves the whole store as it was. */
  lemma RefusedSendChangesNothing(impl: Impl, s: StoreVal, p: Params<SendParams>, now: Time)
    requires SendOutcome(impl, s, p, now).response.Refused?
    ensures SendOutcome(impl, s, p, now).store == s
  {
  }
}
