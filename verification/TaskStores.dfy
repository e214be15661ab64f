/** The in-memory task store: maps of shared objects behind a lock, one operation at a time. */
module TaskStores {
  import opened Schema
  import opened Decimal
  import opened StoreModel

  class TaskStore {
    var seqNo: int
    var items: map<string, Task>
    var push: Nested
    var pseq: int
    var hist: map<string, seq<Transition>>
    // How many ids were drawn; the registers above hold these counts modulo 2^64.
    ghost var created: nat
    ghost var adds: nat

    ghost predicate Valid()
      reads this
    {
      && seqNo == Wrap64(created)
      && pseq == Wrap64(adds)
      && hist.Keys == items.Keys
      && push.Keys <= items.Keys
      && (forall id :: id in items ==> items[id].id == id)
      && ConfigsFiled(push)
    }

    ghost function Tasks(): map<string, TaskVal>
      reads `items, items.Values
    {
      map id | id in items :: items[id].Val()
    }

    ghost function Snapshot(): StoreVal
      reads this, items.Values
    {
      StoreVal(created, Tasks(), adds, push, hist)
    }

    constructor ()
      ensures Valid() && Snapshot() == EMPTY
      ensures items == map[]
    {
      seqNo, items, push, pseq, hist := 0, map[], map[], 0, map[];
      created, adds := 0, 0;
    }

    /** Advance the task register and print it. */
    method DrawTaskID() returns (id: string)
      requires seqNo == Wrap64(created)
      modifies `seqNo, `created
      ensures created == old(created) + 1 && seqNo == Wrap64(created)
      ensures id == TaskID(created)
    {
      seqNo := Wrap64(seqNo + 1);
      created := created + 1;
      WrapStep(created);
      var digits := Itoa(seqNo);
      id := "t-" + digits;
    }

    /** Advance the configuration register and print it. */
    method DrawPushID() returns (id: string)
      requires pseq == Wrap64(adds)
      modifies `pseq, `adds
      ensures adds == old(adds) + 1 && pseq == Wrap64(adds)
      ensures id == PushID(adds)
    {
      pseq := Wrap64(pseq + 1);
      adds := adds + 1;
      WrapStep(adds);
      var digits := Itoa(pseq);
      id := "pc-" + digits;
    }

    method NewTask(contextID: Option<string>, now: Time) returns (task: Task)
      requires Valid()
      modifies this
      ensures Valid() && fresh(task)
      ensures Snapshot() == AfterNewTask(old(Snapshot()), contextID, now)
      ensures items == old(items)[old(NextID(Snapshot())) := task]
      ensures task.Val() == NewTaskVal(old(NextID(Snapshot())), contextID, now)
    {
      var id := DrawTaskID();
      task := File(id, contextID, now);
    }

    /** A running task under the id, with its creation recorded. */
    method File(id: string, contextID: Option<string>, now: Time) returns (task: Task)
      modifies `items, `hist
      ensures fresh(task) && task.Val() == NewTaskVal(id, contextID, now)
      ensures items == old(items)[id := task] && Tasks() == old(Tasks())[id := task.Val()]
      ensures hist == old(hist)[id := TraceIn(old(hist), id) + [Transition(Running, now)]]
    {
      task := new Task(id, contextID, TaskStatus(Running, None, None, now));
      items := items[id := task];
      hist := hist[id := TraceIn(hist, id) + [Transition(task.status.state, task.status.updatedAt)]];
      assert Tasks() == old(Tasks())[id := task.Val()];
    }

    method Get(id: string) returns (task: Task?)
      requires Valid()
      ensures if id in items then task == items[id] else task == null
    {
      task := if id in items then items[id] else null;
    }

    /** `task` may be the very object that is stored, or another one with any id. */
    method Put(task: Task, now: Time)
      requires Valid()
      modifies this
      ensures Valid() && Snapshot() == AfterPut(old(Snapshot()), task.Val(), now)
      ensures items == old(items)[task.id := task]
    {
      if task.id in items {
        var prev := items[task.id];
        if prev.status.state != task.status.state {
          var at := task.status.updatedAt;
          if at == 0 {
            at := now;
          }
          hist := hist[task.id := TraceIn(hist, task.id) + [Transition(task.status.state, at)]];
        }
      } else {
        hist := hist[task.id := TraceIn(hist, task.id) + [Transition(task.status.state, task.status.updatedAt)]];
      }
      items := items[task.id := task];
      assert Tasks() == old(Tasks())[task.id := task.Val()];
    }

    method AddPush(taskID: string, cfg: ConfigVal) returns (r: Option<ConfigVal>)
      requires Valid()
      modifies this
      ensures Valid() && items == old(items)
      ensures Snapshot() == AfterAddPush(old(Snapshot()), taskID, cfg)
      ensures r == if taskID in items then Some(Numbered(old(Snapshot()), cfg)) else None
    {
      if taskID !in items {
        return None;
      }
      var generated := DrawPushID();
      var stored := if cfg.id == "" then cfg.(id := generated) else cfg;
      var m := if taskID in push then push[taskID] else map[];
      push := push[taskID := m[stored.id := stored]];
      assert Tasks() == old(Tasks());
      return Some(stored);
    }

    method GetPush(taskID: string, cfgID: string) returns (cfg: Option<ConfigVal>)
      requires Valid()
      ensures cfg == FoundPush(Snapshot(), taskID, cfgID)
    {
      if taskID !in push {
        return None;
      }
      var m := push[taskID];
      cfg := if cfgID in m then Some(m[cfgID]) else None;
    }

    method DeletePush(taskID: string, cfgID: string) returns (ok: bool)
      requires Valid()
      modifies this
      ensures Valid() && items == old(items)
      ensures ok <==> FoundPush(old(Snapshot()), taskID, cfgID).Some?
      ensures Snapshot() == AfterDeletePush(old(Snapshot()), taskID, cfgID)
    {
      if taskID !in push || cfgID !in push[taskID] {
        return false;
      }
      push := push[taskID := push[taskID] - {cfgID}];
      return true;
    }

    /** Whatever order the map is walked in, each configuration of the task comes out exactly once. */
    method ListPush(taskID: string) returns (out: seq<ConfigVal>, ok: bool)
      requires Valid()
      ensures ok <==> taskID in items
      ensures multiset(out) == multiset(if ok then PushOf(Snapshot(), taskID) else {})
    {
      if taskID !in items {
        return [], false;
      }
      if taskID !in push {
        return [], true;
      }
      out := InAnyOrder(push[taskID]);
      return out, true;
    }

    method ListTasks() returns (out: seq<Task>)
      requires Valid()
      ensures multiset(out) == multiset(items.Values)
    {
      out := InAnyOrder(items);
    }

    /** The returned sequence is a copy: later writes to the store do not reach it. */
    method GetHistory(taskID: string) returns (out: seq<Transition>, ok: bool)
      requires Valid()
      ensures ok <==> taskID in hist
      ensures out == Trace(Snapshot(), taskID)
    {
      if taskID !in hist {
        return [], false;
      }
      return hist[taskID], true;
    }
  }

  /** One append per entry of a map whose values are distinct, taking the entries in any order. */
  method InAnyOrder<T(==)>(m: map<string, T>) returns (out: seq<T>)
    requires forall j, k :: j in m && k in m && m[j] == m[k] ==> j == k
    ensures multiset(out) == multiset(m.Values)
  {
    out := [];
    var rest := m.Keys;
    while rest != {}
      invariant rest <= m.Keys
      invariant multiset(out) == multiset(set k | k in m && k !in rest :: m[k])
      decreases rest
    {
      var k :| k in rest;
      ghost var done := set j | j in m && j !in rest :: m[j];
      out := out + [m[k]];
      rest := rest - {k};
      assert (set j | j in m && j !in rest :: m[j]) == done + {m[k]};
      assert m[k] !in done;
    }
    assert (set k | k in m && k !in rest :: m[k]) == m.Values;
  }

  /** Counting up in a 64-bit register keeps it congruent to the count. */
  lemma WrapStep(n: nat)
    requires n > 0
    ensures Wrap64(Wrap64(n - 1) + 1) == Wrap64(n)
  {
    WrapCollides(Wrap64(n - 1) + 1, n);
  }
}
