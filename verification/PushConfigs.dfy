/** Push configurations: the nested maps refine one flat map, and generated ids never repeat. */
module PushConfigs {
  import opened Schema
  import opened Decimal
  import opened StoreModel
  import opened Handlers

  type Key = (string, string)

  /** The tasks that exist, the calls counted, and one map keyed by task id and configuration id. */
  datatype FlatVal = FlatVal(tasks: set<string>, adds: nat, configs: map<Key, ConfigVal>)

  datatype Op = Add(t: string, cfg: ConfigVal) | Find(t: string, c: string) | ListAll(t: string)
              | Delete(t: string, c: string)

  datatype Result = Stored(added: Option<ConfigVal>) | FoundOne(found: Option<ConfigVal>)
                  | Listed(listed: Option<set<ConfigVal>>) | Removed(ok: bool)

  /** The operations as the store performs them. */
  function Do(s: StoreVal, op: Op): (StoreVal, Result) {
    match op
    case Add(t, cfg) => (AfterAddPush(s, t, cfg), Stored(if t in s.items then Some(Numbered(s, cfg)) else None))
    case Find(t, c) => (s, FoundOne(FoundPush(s, t, c)))
    case ListAll(t) => (s, Listed(if t in s.items then Some(PushOf(s, t)) else None))
    case Delete(t, c) => (AfterDeletePush(s, t, c), Removed(FoundPush(s, t, c).Some?))
  }

  /** The same operations on the flat map. */
  function FlatDo(f: FlatVal, op: Op): (FlatVal, Result) {
    match op
    case Add(t, cfg) =>
      if t !in f.tasks then (f, Stored(None))
      else
        var stored := if cfg.id == "" then cfg.(id := PushID(f.adds + 1)) else cfg;
        (f.(adds := f.adds + 1, configs := f.configs[(t, stored.id) := stored]), Stored(Some(stored)))
    case Find(t, c) => (f, FoundOne(if (t, c) in f.configs then Some(f.configs[(t, c)]) else None))
    case ListAll(t) =>
      (f, Listed(if t in f.tasks then Some(set k | k in f.configs && k.0 == t :: f.configs[k]) else None))
    case Delete(t, c) => (f.(configs := f.configs - {(t, c)}), Removed((t, c) in f.configs))
  }

  function Pairs(push: Nested): (ks: set<Key>)
    ensures forall k :: k in ks <==> k.0 in push && k.1 in push[k.0]
  {
    set t, c | t in push && c in push[t] :: (t, c)
  }

  /** An absent inner map and an empty one contribute nothing. */
  function Flat(push: Nested): (flat: map<Key, ConfigVal>)
    ensures forall k :: k in flat <==> k.0 in push && k.1 in push[k.0]
    ensures forall k :: k in flat ==> flat[k] == push[k.0][k.1]
  {
    map k | k in Pairs(push) :: push[k.0][k.1]
  }

  function Abstract(s: StoreVal): FlatVal {
    FlatVal(s.items.Keys, s.adds, Flat(s.push))
  }

  lemma SameFlat(a: map<Key, ConfigVal>, b: map<Key, ConfigVal>)
    requires forall t, c :: (t, c) in a <==> (t, c) in b
    requires forall t, c :: (t, c) in a && (t, c) in b ==> a[(t, c)] == b[(t, c)]
    ensures a == b
  {
    forall k | k in a || k in b
      ensures k in a && k in b && a[k] == b[k]
    {
      assert k == (k.0, k.1);
    }
  }

  lemma FlatAdd(push: Nested, t: string, cfg: ConfigVal)
    ensures Flat(push[t := Inner(push, t)[cfg.id := cfg]]) == Flat(push)[(t, cfg.id) := cfg]
  {
    SameFlat(Flat(push[t := Inner(push, t)[cfg.id := cfg]]), Flat(push)[(t, cfg.id) := cfg]);
  }

  lemma FlatDelete(push: Nested, t: string, c: string)
    requires t in push
    ensures Flat(push[t := push[t] - {c}]) == Flat(push) - {(t, c)}
  {
    SameFlat(Flat(push[t := push[t] - {c}]), Flat(push) - {(t, c)});
  }

  lemma FlatList(push: Nested, t: string)
    ensures Inner(push, t).Values == set k | k in Flat(push) && k.0 == t :: Flat(push)[k]
  {
    forall v | v in Inner(push, t).Values
      ensures v in (set k | k in Flat(push) && k.0 == t :: Flat(push)[k])
    {
      var c :| c in push[t] && push[t][c] == v;
      assert (t, c) in Flat(push);
    }
  }

  /** Each operation on the nested maps is the flat operation, seen through the abstraction. */
  lemma OperationRefines(s: StoreVal, op: Op)
    ensures FlatDo(Abstract(s), op) == (Abstract(Do(s, op).0), Do(s, op).1)
  {
    match op
    case Add(t, cfg) => FlatAdd(s.push, t, Numbered(s, cfg));
    case Find(t, c) =>
    case ListAll(t) => FlatList(s.push, t);
    case Delete(t, c) =>
      if c in Inner(s.push, t) {
        FlatDelete(s.push, t, c);
      } else {
        assert Flat(s.push) - {(t, c)} == Flat(s.push);
      }
  }

  function DoAll(s: StoreVal, ops: seq<Op>): (StoreVal, seq<Result>)
    decreases |ops|
  {
    if ops == [] then (s, [])
    else
      var (s', r) := Do(s, ops[0]);
      var (s'', rs) := DoAll(s', ops[1..]);
      (s'', [r] + rs)
  }

  function FlatDoAll(f: FlatVal, ops: seq<Op>): (FlatVal, seq<Result>)
    decreases |ops|
  {
    if ops == [] then (f, [])
    else
      var (f', r) := FlatDo(f, ops[0]);
      var (f'', rs) := FlatDoAll(f', ops[1..]);
      (f'', [r] + rs)
  }

  lemma {:induction false} SequenceRefines(s: StoreVal, ops: seq<Op>)
    ensures FlatDoAll(Abstract(s), ops) == (Abstract(DoAll(s, ops).0), DoAll(s, ops).1)
    decreases |ops|
  {
    if ops != [] {
      OperationRefines(s, ops[0]);
      SequenceRefines(Do(s, ops[0]).0, ops[1..]);
    }
  }

  /** Stores with the same flat view answer every sequence of operations alike. */
  lemma Indistinguishable(a: StoreVal, b: StoreVal, ops: seq<Op>)
    requires Abstract(a) == Abstract(b)
    ensures DoAll(a, ops).1 == DoAll(b, ops).1
  {
    SequenceRefines(a, ops);
    SequenceRefines(b, ops);
  }

  /** A look-up succeeds for exactly the ids carried by the listed configurations. */
  lemma ListedIdsAreFound(s: StoreVal, t: string, c: string)
    requires Sound(s)
    ensures FoundPush(s, t, c).Some? <==> exists cfg :: cfg in PushOf(s, t) && cfg.id == c
  {
    var m := Inner(s.push, t);
    if c in m {
      assert m[c] in m.Values;
    }
  }

  // Generated ids, over runs of requests of every kind through every implementation.

  /** The request stores a configuration for task t under id c; `generated` if the store chose c. */
  predicate Adds(gate: Gate, s: StoreVal, req: Request, t: string, c: string, generated: bool) {
    && req.PushSet? && gate.push && req.add.Parsed? && req.add.value.0 == t && t != "" && t in s.items
    && Numbered(s, req.add.value.1).id == c && (req.add.value.1.id == "" <==> generated)
  }

  ghost predicate AddedAt(gate: Gate, reqs: seq<Served>, i: nat, t: string, c: string, generated: bool)
    requires i < |reqs|
  {
    Adds(gate, AfterAll(gate, EMPTY, reqs[..i]), reqs[i].1, t, c, generated)
  }

  lemma CountStep(impl: Impl, gate: Gate, s: StoreVal, req: Request, now: Time)
    ensures var s' := Serve(impl, gate, s, req, now).store;
      && s.adds <= s'.adds
      && (forall t, c, g :: Adds(gate, s, req, t, c, g) ==> s'.adds == s.adds + 1 && (g ==> c == PushID(s'.adds)))
      && (forall t, c :: c in Inner(s'.push, t) ==> c in Inner(s.push, t) || exists g :: Adds(gate, s, req, t, c, g))
  {
    var s' := Serve(impl, gate, s, req, now).store;
    match req
    case Send(p) => assert s'.adds == s.adds && s'.push == s.push;
    case Stream(p) => assert s'.adds == s.adds && s'.push == s.push;
    case Resubscribe(p) =>
    case PushSet(p) =>
      if s' != s {
        assert Adds(gate, s, req, p.value.0, Numbered(s, p.value.1).id, p.value.1.id == "");
      }
    case PushDelete(p) =>
    case Get(p) => assert s' == s;
    case Cancel(p) => assert s'.adds == s.adds && s'.push == s.push;
    case PushGet(p) => assert s' == s;
    case PushList(p) => assert s' == s;
  }

  lemma {:induction false} AddsGrow(gate: Gate, reqs: seq<Served>, i: nat, j: nat)
    requires i <= j <= |reqs|
    ensures AfterAll(gate, EMPTY, reqs[..i]).adds <= AfterAll(gate, EMPTY, reqs[..j]).adds
    decreases j - i
  {
    if i < j {
      AddsGrow(gate, reqs, i, j - 1);
      StepAt(gate, reqs, j - 1);
    }
  }

  lemma StepAt(gate: Gate, reqs: seq<Served>, i: nat)
    requires i < |reqs|
    ensures var s, s' := AfterAll(gate, EMPTY, reqs[..i]), AfterAll(gate, EMPTY, reqs[..i + 1]);
      && s.adds <= s'.adds
      && (forall t, c, g :: Adds(gate, s, reqs[i].1, t, c, g) ==> s'.adds == s.adds + 1 && (g ==> c == PushID(s'.adds)))
      && (forall t, c :: c in Inner(s'.push, t) ==>
            c in Inner(s.push, t) || exists g :: Adds(gate, s, reqs[i].1, t, c, g))
  {
    assert reqs[..i + 1][..i] == reqs[..i];
    CountStep(reqs[i].0, gate, AfterAll(gate, EMPTY, reqs[..i]), reqs[i].1, reqs[i].2);
  }

  /** A generated id is the count after its add. */
  lemma GeneratedFromCount(gate: Gate, reqs: seq<Served>, i: nat, t: string, c: string)
    requires i < |reqs| && AddedAt(gate, reqs, i, t, c, true)
    ensures var n := AfterAll(gate, EMPTY, reqs[..i + 1]).adds;
      c == PushID(n) && n == AfterAll(gate, EMPTY, reqs[..i]).adds + 1 && n <= AfterAll(gate, EMPTY, reqs).adds
  {
    StepAt(gate, reqs, i);
    AddsGrow(gate, reqs, i + 1, |reqs|);
    assert reqs[..|reqs|] == reqs;
  }

  /** Generated ids are pairwise distinct, across all tasks, until 2^64 configurations were added. */
  lemma GeneratedIdsDiffer(gate: Gate, reqs: seq<Served>, i: nat, j: nat, t: string, c: string, u: string, d: string)
    requires i < j < |reqs| && AddedAt(gate, reqs, i, t, c, true) && AddedAt(gate, reqs, j, u, d, true)
    requires AfterAll(gate, EMPTY, reqs).adds < TWO_64
    ensures c != d
  {
    GeneratedFromCount(gate, reqs, i, t, c);
    GeneratedFromCount(gate, reqs, j, u, d);
    AddsGrow(gate, reqs, i + 1, j);
    var m, n := AfterAll(gate, EMPTY, reqs[..i + 1]).adds, AfterAll(gate, EMPTY, reqs[..j + 1]).adds;
    assert 0 < n - m < TWO_64;
    NearbyIdsDiffer(m, n);
  }

  /** What is stored after a request was stored before it, or added by it. */
  lemma StoredBefore(gate: Gate, reqs: seq<Served>, i: nat, t: string, c: string)
    requires i < |reqs| && c in Inner(AfterAll(gate, EMPTY, reqs[..i + 1]).push, t)
    ensures c in Inner(AfterAll(gate, EMPTY, reqs[..i]).push, t)
      || AddedAt(gate, reqs, i, t, c, true) || AddedAt(gate, reqs, i, t, c, false)
  {
    StepAt(gate, reqs, i);
  }

  /** Whatever is stored was added by some request. */
  lemma {:induction false} StoredWasAdded(gate: Gate, reqs: seq<Served>, n: nat, t: string, c: string)
    returns (i: nat, g: bool)
    requires n <= |reqs| && c in Inner(AfterAll(gate, EMPTY, reqs[..n]).push, t)
    ensures i < n && AddedAt(gate, reqs, i, t, c, g)
  {
    assert n > 0;
    StoredBefore(gate, reqs, n - 1, t, c);
    if AddedAt(gate, reqs, n - 1, t, c, true) {
      i, g := n - 1, true;
    } else if AddedAt(gate, reqs, n - 1, t, c, false) {
      i, g := n - 1, false;
    } else {
      i, g := StoredWasAdded(gate, reqs, n - 1, t, c);
    }
  }

  /** An add without an id replaces an entry only where a client had itself supplied that id, on the same task. */
  lemma ReplacesOnlySupplied(gate: Gate, reqs: seq<Served>, j: nat, t: string, c: string)
    requires j < |reqs| && AddedAt(gate, reqs, j, t, c, true) && AfterAll(gate, EMPTY, reqs).adds < TWO_64
    requires c in Inner(AfterAll(gate, EMPTY, reqs[..j]).push, t)
    ensures exists i :: 0 <= i < j && AddedAt(gate, reqs, i, t, c, false)
  {
    var i, g := StoredWasAdded(gate, reqs, j, t, c);
    if g {
      GeneratedIdsDiffer(gate, reqs, i, j, t, c, t, c);
    }
  }
}
