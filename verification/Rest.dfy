/** The REST routes under /v1: which handler a request reaches, and the ids it takes from the path. */
module Rest {
  import opened Text
  import opened Decimal

  const TASKS := "/v1/tasks/"
  const CONFIG := "/pushNotificationConfigs/"
  const CONFIGS := "/pushNotificationConfigs"
  const CANCEL := ":cancel"
  const SUBSCRIBE := ":subscribe"

  datatype Verb = GET | POST | DELETE | OtherVerb

  /** The handler reached, with the ids it extracted; or the status it answers with. */
  datatype Call =
    | NotFound
    | NotImplemented
    | SendMessage
    | ListTasks
    | GetTask(id: string)
    | CancelTask(id: string)
    | Subscribe(id: string)
    | ListConfigs(id: string)
    | CreateConfig(id: string)
    | GetConfig(id: string, cfg: string)
    | DeleteConfig(id: string, cfg: string)

  function ExtractTaskAndConfigID(path: string): (string, string) {
    if !HasPrefix(path, TASKS) then ("", "")
    else
      var rest := path[|TASKS|..];
      var idx := IndexOf(rest, CONFIG);
      if idx < 0 then ("", "") else (rest[..idx], rest[idx + |CONFIG|..])
  }

  /** Text between the task prefix and the first `stop` after it, if both are there. */
  function IdBefore(path: string, stop: string): (r: (bool, string)) {
    var start := IndexOf(path, TASKS);
    if start < 0 then (false, "")
    else
      var rest := path[start + |TASKS|..];
      var end := IndexOf(rest, stop);
      if end < 0 then (false, "") else (true, rest[..end])
  }

  function HandleGetTask(path: string): Call {
    var id := TrimPrefix(path, TASKS);
    if id == "" then NotFound else GetTask(id)
  }

  function HandleTaskAction(path: string): Call {
    if HasSuffix(path, CANCEL) then
      var id := IdBefore(path, CANCEL).1;
      if id == "" then NotFound else CancelTask(id)
    else NotFound
  }

  function HandleSubscribe(path: string): Call {
    var id := IdBefore(path, SUBSCRIBE).1;
    if id == "" then NotFound else Subscribe(id)
  }

  function HandleListConfigs(push: bool, path: string): Call {
    if !push then NotImplemented
    else
      var (found, id) := IdBefore(path, CONFIGS);
      if found then ListConfigs(id) else NotFound
  }

  function HandleCreateConfig(push: bool, path: string): Call {
    if !push then NotImplemented
    else
      var (found, id) := IdBefore(path, CONFIGS);
      if found then CreateConfig(id) else NotFound
  }

  function HandleGetConfig(push: bool, path: string): Call {
    if !push then NotImplemented
    else
      var (id, cfg) := ExtractTaskAndConfigID(path);
      if id == "" || cfg == "" then NotFound else GetConfig(id, cfg)
  }

  function HandleDeleteConfig(push: bool, path: string): Call {
    if !push then NotImplemented
    else
      var (id, cfg) := ExtractTaskAndConfigID(path);
      if id == "" || cfg == "" then NotFound else DeleteConfig(id, cfg)
  }

  /** The handler registered for everything below /v1/tasks/. */
  function TaskRoutes(push: bool, verb: Verb, path: string): Call {
    if IndexOf(path, CONFIG) >= 0 then
      match verb
      case GET => HandleGetConfig(push, path)
      case DELETE => HandleDeleteConfig(push, path)
      case _ => NotFound
    else if HasSuffix(path, CONFIGS) then
      match verb
      case GET => HandleListConfigs(push, path)
      case POST => HandleCreateConfig(push, path)
      case _ => NotFound
    else if HasSuffix(path, SUBSCRIBE) then
      if verb == POST then HandleSubscribe(path) else NotFound
    else if HasSuffix(path, CANCEL) then
      if verb == POST then HandleTaskAction(path) else NotFound
    else if verb == GET then HandleGetTask(path)
    else NotFound
  }

  /** The routes as registered; `push` says whether push notifications are supported. */
  function Dispatch(push: bool, verb: Verb, path: string): Call {
    if path == "/v1/message:send" then
      if verb == POST then SendMessage else NotFound
    else if HasPrefix(path, TASKS) then TaskRoutes(push, verb, path)
    else if path == "/v1/tasks" then
      if verb == GET then ListTasks else NotFound
    else NotFound
  }

  // The two-part path.

  lemma SeparatorShapes()
    ensures NarrowBorder(CONFIG) && CONFIG[0] == '/' && CONFIG[|CONFIG| - 1] == '/'
    ensures NarrowBorder(CONFIGS) && CONFIGS[0] == '/' && CONFIGS[|CONFIGS| - 1] == 's'
    ensures NarrowBorder(CANCEL) && CANCEL[0] == ':' && CANCEL[|CANCEL| - 1] == 'l'
    ensures NarrowBorder(SUBSCRIBE) && SUBSCRIBE[0] == ':' && SUBSCRIBE[|SUBSCRIBE| - 1] == 'e'
    ensures CONFIG[..1] == "/" && CONFIG == CONFIGS + "/"
    ensures '/' !in CANCEL && '/' !in SUBSCRIBE
  {
  }

  /** Taking a two-part path apart gives its parts back exactly when the separator does not begin earlier. */
  lemma ConfigPathRoundTrip(id: string, cfg: string)
    ensures ExtractTaskAndConfigID(TASKS + id + CONFIG + cfg) == (id, cfg) <==> !Contains(id + "/", CONFIG)
  {
    var rest := id + CONFIG + cfg;
    var path := TASKS + id + CONFIG + cfg;
    assert path == TASKS + rest;
    assert path[|TASKS|..] == rest;
    SeparatorShapes();
    FirstSeparator(id, CONFIG, cfg);
    InfixContained(id, CONFIG, cfg);
    var idx := IndexOf(rest, CONFIG);
    if idx == |id| {
      assert rest[..idx] == id && rest[idx + |CONFIG|..] == cfg;
    } else {
      assert |rest[..idx]| == idx != |id|;
    }
  }

  /** Whatever is extracted rebuilds the path, and no earlier split was possible. */
  lemma ExtractionIsFirstSplit(path: string)
    ensures var (id, cfg) := ExtractTaskAndConfigID(path);
      || (path == TASKS + id + CONFIG + cfg && !Contains(id + "/", CONFIG))
      || ((id, cfg) == ("", "") && !exists i, c :: path == TASKS + i + CONFIG + c)
  {
    var (id, cfg) := ExtractTaskAndConfigID(path);
    if HasPrefix(path, TASKS) && IndexOf(path[|TASKS|..], CONFIG) >= 0 {
      var rest := path[|TASKS|..];
      assert rest == id + CONFIG + cfg;
      assert path == TASKS + rest;
      assert path == TASKS + id + CONFIG + cfg;
      ConfigPathRoundTrip(id, cfg);
    } else {
      forall i, c
        ensures path != TASKS + i + CONFIG + c
      {
        TwoPartPath(i, c);
      }
    }
  }

  lemma TwoPartPath(id: string, cfg: string)
    ensures var path := TASKS + id + CONFIG + cfg; HasPrefix(path, TASKS) && IndexOf(path[|TASKS|..], CONFIG) >= 0
  {
    var path := TASKS + id + CONFIG + cfg;
    assert path == TASKS + (id + CONFIG + cfg);
    assert path[|TASKS|..] == id + CONFIG + cfg;
    InfixContained(id, CONFIG, cfg);
  }

  // The URL table: each template reaches its own handler with the id it was built from.

  /** No separator can begin inside the task prefix before its last slash. */
  lemma RootAddsNothing(rest: string)
    ensures Contains(TASKS + rest, CONFIG) <==> Contains("/" + rest, CONFIG)
  {
    var root := "/v1/tasks";
    var path, short := TASKS + rest, "/" + rest;
    assert path == root + short;
    if Contains(path, CONFIG) {
      var i :| OccursAt(path, CONFIG, i);
      OccurrenceChar(path, CONFIG, i, 0);
      OccurrenceChar(path, CONFIG, i, 1);
      assert path[0] == '/' && path[1] == 'v' && path[3] == '/' && path[4] == 't';
      ShiftOccurrence(root, short, CONFIG, i - |root|);
    }
    if Contains(short, CONFIG) {
      var i :| OccursAt(short, CONFIG, i);
      ShiftOccurrence(root, short, CONFIG, i);
    }
  }

  lemma UnderTasks(push: bool, verb: Verb, rest: string)
    ensures Dispatch(push, verb, TASKS + rest) == TaskRoutes(push, verb, TASKS + rest)
  {
    var path := TASKS + rest;
    assert path[4] == 't';
    assert "/v1/message:send"[4] == 'm';
    assert OccursAt(path, TASKS, 0);
    assert HasPrefix(path, TASKS);
  }

  /** The id found before a separator that was written right after it. */
  lemma IdBeforeSeparator(id: string, stop: string)
    requires NarrowBorder(stop) && stop[|stop| - 1] != stop[0]
    ensures IdBefore(TASKS + id + stop, stop) == (true, id) <==> !Contains(id, stop)
    ensures IdBefore(TASKS + id + stop, stop).0
  {
    var path := TASKS + id + stop;
    assert path == TASKS + (id + stop);
    assert OccursAt(path, TASKS, 0);
    assert IndexOf(path, TASKS) == 0;
    var rest := path[|TASKS|..];
    assert rest == id + stop == id + stop + "";
    FirstBorderless(id, stop, "");
    InfixContained(id, stop, "");
    var end := IndexOf(rest, stop);
    if end == |id| {
      assert rest[..end] == id;
    } else {
      assert |rest[..end]| == end != |id|;
    }
  }

  lemma CancelUrl(push: bool, id: string)
    ensures Dispatch(push, POST, TASKS + id + CANCEL) == CancelTask(id) <==>
            id != "" && !Contains("/" + id, CONFIG) && !Contains(id, CANCEL)
  {
    var path := TASKS + id + CANCEL;
    SeparatorShapes();
    assert path == TASKS + (id + CANCEL);
    UnderTasks(push, POST, id + CANCEL);
    RootAddsNothing(id + CANCEL);
    assert "/" + (id + CANCEL) == "/" + id + CANCEL;
    TailAddsNothing("/" + id, CANCEL, CONFIG);
    OtherSuffix(TASKS + id, CANCEL, CONFIGS);
    OtherSuffix(TASKS + id, CANCEL, SUBSCRIBE);
    OwnSuffix(TASKS + id, CANCEL);
    IdBeforeSeparator(id, CANCEL);
  }

  lemma SubscribeUrl(push: bool, id: string)
    ensures Dispatch(push, POST, TASKS + id + SUBSCRIBE) == Subscribe(id) <==>
            id != "" && !Contains("/" + id, CONFIG) && !Contains(id, SUBSCRIBE)
  {
    var path := TASKS + id + SUBSCRIBE;
    SeparatorShapes();
    assert path == TASKS + (id + SUBSCRIBE);
    UnderTasks(push, POST, id + SUBSCRIBE);
    RootAddsNothing(id + SUBSCRIBE);
    assert "/" + (id + SUBSCRIBE) == "/" + id + SUBSCRIBE;
    TailAddsNothing("/" + id, SUBSCRIBE, CONFIG);
    OtherSuffix(TASKS + id, SUBSCRIBE, CONFIGS);
    OwnSuffix(TASKS + id, SUBSCRIBE);
    IdBeforeSeparator(id, SUBSCRIBE);
  }

  /** A suffix without a slash that the prefix cannot supply lies wholly in the id. */
  lemma SuffixOfId(id: string, n: string)
    requires n != "" && '/' !in n
    ensures HasSuffix(TASKS + id, n) <==> HasSuffix(id, n)
  {
    var path := TASKS + id;
    if HasSuffix(path, n) && |n| > |id| {
      OccurrenceChar(path, n, |path| - |n|, |n| - |id| - 1);
    }
    if |n| <= |id| {
      assert path[|TASKS|..] == id;
      assert path[|path| - |n|..|path|] == id[|id| - |n|..|id|];
    }
  }

  lemma GetUrl(push: bool, id: string)
    ensures Dispatch(push, GET, TASKS + id) == GetTask(id) <==>
            && id != "" && !Contains("/" + id, CONFIG) && !HasSuffix("/" + id, CONFIGS)
            && !HasSuffix(id, CANCEL) && !HasSuffix(id, SUBSCRIBE)
  {
    var path := TASKS + id;
    SeparatorShapes();
    RootAddsNothing(id);
    SuffixOfId(id, CANCEL);
    SuffixOfId(id, SUBSCRIBE);
    ConfigsSuffixOfId(id);
    UnderTasks(push, GET, id);
    assert HandleGetTask(path) == (if id == "" then NotFound else GetTask(id)) by {
      assert OccursAt(path, TASKS, 0);
      assert path[|TASKS|..] == id;
    }
  }

  lemma ConfigsSuffixOfId(id: string)
    ensures HasSuffix(TASKS + id, CONFIGS) <==> HasSuffix("/" + id, CONFIGS)
  {
    var path, short := TASKS + id, "/" + id;
    if HasSuffix(path, CONFIGS) && |CONFIGS| > |short| {
      OccurrenceChar(path, CONFIGS, |path| - |CONFIGS|, |CONFIGS| - |short|);
    }
    if |CONFIGS| <= |short| {
      assert path[|TASKS| - 1..] == short;
      assert path[|path| - |CONFIGS|..|path|] == short[|short| - |CONFIGS|..|short|];
    }
  }

  /** List and create share one template and differ in the verb. */
  lemma ConfigsUrl(push: bool, id: string)
    ensures Dispatch(push, GET, TASKS + id + CONFIGS) == ListConfigs(id) <==>
            push && !Contains("/" + id + "/", CONFIG) && !Contains(id, CONFIGS)
    ensures Dispatch(push, POST, TASKS + id + CONFIGS) == CreateConfig(id) <==>
            push && !Contains("/" + id + "/", CONFIG) && !Contains(id, CONFIGS)
  {
    assert TASKS + id + CONFIGS == TASKS + (id + CONFIGS);
    UnderTasks(push, GET, id + CONFIGS);
    UnderTasks(push, POST, id + CONFIGS);
    ConfigsPath(id);
    SeparatorShapes();
    IdBeforeSeparator(id, CONFIGS);
  }

  lemma ConfigsPath(id: string)
    ensures Contains(TASKS + id + CONFIGS, CONFIG) <==> Contains("/" + id + "/", CONFIG)
    ensures HasSuffix(TASKS + id + CONFIGS, CONFIGS)
  {
    SeparatorShapes();
    var tail := CONFIGS[1..];
    assert TASKS + id + CONFIGS == TASKS + (id + CONFIGS);
    RootAddsNothing(id + CONFIGS);
    assert "/" + (id + CONFIGS) == ("/" + id + "/") + tail;
    TailAddsNothing("/" + id + "/", tail, CONFIG);
    OwnSuffix(TASKS + id, CONFIGS);
  }

  /** Get and delete of one configuration share one template and differ in the verb. */
  lemma ConfigUrl(push: bool, id: string, cfg: string)
    ensures Dispatch(push, GET, TASKS + id + CONFIG + cfg) == GetConfig(id, cfg) <==>
            push && id != "" && cfg != "" && !Contains(id + "/", CONFIG)
    ensures Dispatch(push, DELETE, TASKS + id + CONFIG + cfg) == DeleteConfig(id, cfg) <==>
            push && id != "" && cfg != "" && !Contains(id + "/", CONFIG)
  {
    var path := TASKS + id + CONFIG + cfg;
    assert path == TASKS + (id + CONFIG + cfg);
    UnderTasks(push, GET, id + CONFIG + cfg);
    UnderTasks(push, DELETE, id + CONFIG + cfg);
    InfixContained(TASKS + id, CONFIG, cfg);
    ConfigPathRoundTrip(id, cfg);
  }

  lemma NeedsItsChars(s: string, n: string, c: char, at: nat)
    requires at < |n| && n[at] == c && c !in s
    ensures !Contains(s, n)
  {
    if Contains(s, n) {
      var i :| OccursAt(s, n, i);
      OccurrenceChar(s, n, i, at);
    }
  }

  /**
   * Every id the server issues survives every template, whatever non-empty configuration
   * id goes with it: the router is a left inverse of the URL table.
   */
  lemma RouterInvertsIssuedIds(k: nat, cfg: string)
    requires cfg != ""
    ensures var id := TaskID(k);
      && Dispatch(true, GET, TASKS + id) == GetTask(id)
      && Dispatch(true, POST, TASKS + id + CANCEL) == CancelTask(id)
      && Dispatch(true, POST, TASKS + id + SUBSCRIBE) == Subscribe(id)
      && Dispatch(true, GET, TASKS + id + CONFIGS) == ListConfigs(id)
      && Dispatch(true, POST, TASKS + id + CONFIGS) == CreateConfig(id)
      && Dispatch(true, GET, TASKS + id + CONFIG + cfg) == GetConfig(id, cfg)
      && Dispatch(true, DELETE, TASKS + id + CONFIG + cfg) == DeleteConfig(id, cfg)
  {
    var id := TaskID(k);
    TaskIdShape(k);
    SeparatorShapes();
    NeedsItsChars("/" + id + "/", CONFIG, 'p', 1);
    NeedsItsChars("/" + id, CONFIG, 'p', 1);
    NeedsItsChars("/" + id, CONFIGS, 'p', 1);
    NeedsItsChars(id + "/", CONFIG, 'p', 1);
    NeedsItsChars(id, CONFIGS, 'p', 1);
    NeedsItsChars(id, CANCEL, ':', 0);
    NeedsItsChars(id, SUBSCRIBE, ':', 0);
    GetUrl(true, id);
    CancelUrl(true, id);
    SubscribeUrl(true, id);
    ConfigsUrl(true, id);
    ConfigUrl(true, id, cfg);
  }
}
