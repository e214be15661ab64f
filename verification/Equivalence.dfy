/** Requests shared by the three implementations may be routed to any of them. */
module Equivalence {
  import opened Schema
  import opened Handlers
  import opened Servers

  /** One shared request, through the implementation named. */
  method ServeThrough(srv: Server, ops: OpsImpl, def: DefaultOperations, impl: Impl, req: Request, now: Time)
    returns (r: Response)
    requires srv.tasks == ops.tasks == def.tasks && srv.card == ops.card == def.card
    requires srv.tasks.Valid() && Shared(req)
    modifies srv.tasks, srv.tasks.items.Values
    ensures srv.tasks.Valid() && srv.tasks.items == old(srv.tasks.items)
    ensures Answer(srv.tasks.Snapshot(), r) == SharedOutcome(srv.gate, old(srv.tasks.Snapshot()), req, now)
  {
    match impl {
      case Rpc =>
        match req {
          case Get(p) => r := srv.RpcGetTask(p);
          case Cancel(p) => r := srv.RpcCancelTask(p, now);
          case PushSet(p) => r := srv.RpcPushConfigSet(p);
          case PushGet(p) => r := srv.RpcPushConfigGet(p);
          case PushList(p) => r := srv.RpcPushConfigList(p);
          case PushDelete(p) => r := srv.RpcPushConfigDelete(p);
        }
      case Ops =>
        match req {
          case Get(p) => r := ops.TasksGet(p);
          case Cancel(p) => r := ops.TasksCancel(p, now);
          case PushSet(p) => r := ops.TasksPushNotificationConfigSet(p);
          case PushGet(p) => r := ops.TasksPushNotificationConfigGet(p);
          case PushList(p) => r := ops.TasksPushNotificationConfigList(p);
          case PushDelete(p) => r := ops.TasksPushNotificationConfigDelete(p);
        }
      case Default =>
        match req {
          case Get(p) => r := def.TasksGet(p);
          case Cancel(p) => r := def.TasksCancel(p, now);
          case PushSet(p) => r := def.TasksPushNotificationConfigSet(p);
          case PushGet(p) => r := def.TasksPushNotificationConfigGet(p);
          case PushList(p) => r := def.TasksPushNotificationConfigList(p);
          case PushDelete(p) => r := def.TasksPushNotificationConfigDelete(p);
        }
    }
  }

  /** The requests and their times, with the routing forgotten. */
  function Unrouted(routed: seq<(Impl, Request, Time)>): (reqs: seq<(Request, Time)>)
    ensures |reqs| == |routed| && forall i :: 0 <= i < |reqs| ==> reqs[i] == (routed[i].1, routed[i].2)
  {
    seq(|routed|, i requires 0 <= i < |routed| => (routed[i].1, routed[i].2))
  }

  /**
   * A whole sequence, each request through an implementation of its own: the final store
   * and every answer are those of the sequence alone, whatever the routing.
   */
  method ServeAll(srv: Server, ops: OpsImpl, def: DefaultOperations, routed: seq<(Impl, Request, Time)>)
    returns (answers: seq<Response>)
    requires srv.tasks == ops.tasks == def.tasks && srv.card == ops.card == def.card
    requires srv.tasks.Valid() && forall r :: r in routed ==> Shared(r.1)
    modifies srv.tasks, srv.tasks.items.Values
    ensures srv.tasks.Valid()
    ensures (srv.tasks.Snapshot(), answers) == SharedRun(srv.gate, old(srv.tasks.Snapshot()), Unrouted(routed))
  {
    answers := [];
    for i := 0 to |routed|
      invariant srv.tasks.Valid() && srv.tasks.items == old(srv.tasks.items)
      invariant (srv.tasks.Snapshot(), answers) ==
                SharedRun(srv.gate, old(srv.tasks.Snapshot()), Unrouted(routed)[..i])
    {
      var r := ServeThrough(srv, ops, def, routed[i].0, routed[i].1, routed[i].2);
      answers := answers + [r];
      ghost var reqs := Unrouted(routed);
      assert reqs[..i + 1][..i] == reqs[..i];
    }
    assert Unrouted(routed)[..|routed|] == Unrouted(routed);
  }
}
