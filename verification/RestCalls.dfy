/** What each REST handler is reached by: the exact verb and path of every call, for all requests. */
module RestCalls {
  import opened Text
  import opened Rest

  // The two fixed URLs.

  lemma FixedCalls(push: bool, verb: Verb, path: string)
    ensures Dispatch(push, verb, path) == SendMessage <==> verb == POST && path == "/v1/message:send"
    ensures Dispatch(push, verb, path) == ListTasks <==> verb == GET && path == "/v1/tasks"
  {
    assert |"/v1/message:send"| == 16 && |"/v1/tasks"| == 9;
    assert "/v1/message:send"[4] == 'm' && TASKS[4] == 't';
    if HasPrefix(path, TASKS) {
      assert path[4] == 't' && |path| >= 10;
    }
  }

  /** Everything below the task prefix is routed there, and nothing else is. */
  lemma UnderPrefix(push: bool, verb: Verb, path: string)
    ensures HasPrefix(path, "/v1/tasks/") ==> Dispatch(push, verb, path) == TaskRoutes(push, verb, path)
    ensures !HasPrefix(path, "/v1/tasks/") ==>
      Dispatch(push, verb, path) in {NotFound, SendMessage, ListTasks}
  {
    assert "/v1/message:send"[4] == 'm' && TASKS[4] == 't';
    if HasPrefix(path, TASKS) {
      assert path[4] == 't';
    }
  }

  /** The text before the first separator after the prefix. */
  predicate SplitAt(path: string, stop: string, id: string) {
    HasPrefix(path, "/v1/tasks/" + id + stop)
  }

  /** What IdBefore finds: the id is followed by the separator, and has none in it. */
  lemma FoundBefore(path: string, stop: string, id: string)
    requires HasPrefix(path, "/v1/tasks/") && NarrowBorder(stop) && stop[|stop| - 1] != stop[0]
    ensures IdBefore(path, stop) == (true, id) <==> SplitAt(path, stop, id) && !Contains(id, stop)
    ensures IdBefore(path, stop).0 <==> Contains(path[10..], stop)
  {
    assert OccursAt(path, TASKS, 0);
    assert IndexOf(path, TASKS) == 0;
    BeforeFirst(path[10..], stop, id);
    PrefixBehind(path, id + stop);
    assert TASKS + id + stop == TASKS + (id + stop);
  }

  lemma PrefixBehind(path: string, x: string)
    requires HasPrefix(path, TASKS)
    ensures HasPrefix(path, TASKS + x) <==> HasPrefix(path[10..], x)
  {
    assert path == TASKS + path[10..];
    if HasPrefix(path, TASKS + x) {
      assert path[10..][..|x|] == path[10..10 + |x|] == x;
    }
    if HasPrefix(path[10..], x) {
      assert path[..10 + |x|] == TASKS + x;
    }
  }

  /** The text before the first separator. */
  lemma BeforeFirst(rest: string, stop: string, id: string)
    requires NarrowBorder(stop) && stop[|stop| - 1] != stop[0]
    ensures var end := IndexOf(rest, stop);
      end >= 0 && rest[..end] == id <==> HasPrefix(rest, id + stop) && !Contains(id, stop)
  {
    var end := IndexOf(rest, stop);
    if end >= 0 && rest[..end] == id {
      assert rest[..|id + stop|] == id + stop;
    }
    if HasPrefix(rest, id + stop) {
      var tail := rest[|id + stop|..];
      assert rest == id + stop + tail;
      FirstBorderless(id, stop, tail);
      InfixContained(id, stop, tail);
    }
  }

  /** A path that belongs to a single configuration: the two-part separator occurs in it. */
  ghost predicate OnConfig(path: string) {
    HasPrefix(path, "/v1/tasks/") && Contains(path, "/pushNotificationConfigs/")
  }

  /** A path that belongs to the configurations of a task. */
  ghost predicate OnConfigs(path: string) {
    && HasPrefix(path, "/v1/tasks/") && !Contains(path, "/pushNotificationConfigs/")
    && HasSuffix(path, "/pushNotificationConfigs")
  }

  /** A path that belongs to the task itself. */
  ghost predicate OnTask(path: string) {
    && HasPrefix(path, "/v1/tasks/") && !Contains(path, "/pushNotificationConfigs/")
    && !HasSuffix(path, "/pushNotificationConfigs")
  }

  lemma SubscribeCalls(push: bool, verb: Verb, path: string, id: string)
    ensures Dispatch(push, verb, path) == Subscribe(id) <==>
      && verb == POST && OnTask(path) && HasSuffix(path, ":subscribe")
      && id != "" && SplitAt(path, ":subscribe", id) && !Contains(id, ":subscribe")
  {
    UnderPrefix(push, verb, path);
    if HasPrefix(path, TASKS) {
      Subscribed(path, id);
    }
  }

  lemma Subscribed(path: string, id: string)
    requires HasPrefix(path, TASKS)
    ensures HandleSubscribe(path) == Subscribe(id) <==>
      id != "" && SplitAt(path, SUBSCRIBE, id) && !Contains(id, SUBSCRIBE)
  {
    SeparatorShapes();
    FoundBefore(path, SUBSCRIBE, id);
    assert HandleSubscribe(path) == Subscribe(id) <==> id != "" && IdBefore(path, SUBSCRIBE) == (true, id);
  }

  lemma CancelCalls(push: bool, verb: Verb, path: string, id: string)
    ensures Dispatch(push, verb, path) == CancelTask(id) <==>
      && verb == POST && OnTask(path) && HasSuffix(path, ":cancel")
      && id != "" && SplitAt(path, ":cancel", id) && !Contains(id, ":cancel")
  {
    UnderPrefix(push, verb, path);
    OneSuffix(path);
    if HasPrefix(path, TASKS) {
      Canceled(path, id);
    }
  }

  lemma Canceled(path: string, id: string)
    requires HasPrefix(path, TASKS)
    ensures HandleTaskAction(path) == CancelTask(id) <==>
      HasSuffix(path, CANCEL) && id != "" && SplitAt(path, CANCEL, id) && !Contains(id, CANCEL)
  {
    SeparatorShapes();
    FoundBefore(path, CANCEL, id);
    assert HandleTaskAction(path) == CancelTask(id) <==>
      HasSuffix(path, CANCEL) && id != "" && IdBefore(path, CANCEL) == (true, id);
  }

  lemma GetCalls(push: bool, verb: Verb, path: string, id: string)
    ensures Dispatch(push, verb, path) == GetTask(id) <==>
      && verb == GET && OnTask(path) && !HasSuffix(path, ":subscribe") && !HasSuffix(path, ":cancel")
      && id != "" && path == "/v1/tasks/" + id
  {
    UnderPrefix(push, verb, path);
    if HasPrefix(path, TASKS) {
      assert path == TASKS + path[10..];
    }
  }

  /** A path does not end in both actions. */
  lemma OneSuffix(path: string)
    ensures !(HasSuffix(path, CANCEL) && HasSuffix(path, SUBSCRIBE))
  {
    if HasSuffix(path, CANCEL) {
      var head := path[..|path| - |CANCEL|];
      assert path == head + CANCEL;
      OtherSuffix(head, CANCEL, SUBSCRIBE);
    }
  }

  lemma ConfigsCalls(push: bool, verb: Verb, path: string, id: string)
    ensures Dispatch(push, verb, path) == ListConfigs(id) <==>
      && push && verb == GET && OnConfigs(path)
      && SplitAt(path, "/pushNotificationConfigs", id) && !Contains(id, "/pushNotificationConfigs")
    ensures Dispatch(push, verb, path) == CreateConfig(id) <==>
      && push && verb == POST && OnConfigs(path)
      && SplitAt(path, "/pushNotificationConfigs", id) && !Contains(id, "/pushNotificationConfigs")
  {
    UnderPrefix(push, verb, path);
    SeparatorShapes();
    if HasPrefix(path, TASKS) {
      FoundBefore(path, CONFIGS, id);
    }
  }

  /** A two-part path, by its parts. */
  ghost predicate TwoPart(path: string, id: string, cfg: string) {
    && id != "" && cfg != "" && path == "/v1/tasks/" + id + "/pushNotificationConfigs/" + cfg
    && !Contains(id + "/", "/pushNotificationConfigs/")
  }

  lemma TwoPartIsOnConfig(path: string, id: string, cfg: string)
    requires TwoPart(path, id, cfg)
    ensures OnConfig(path)
  {
    InfixContained(TASKS + id, CONFIG, cfg);
    assert path == TASKS + (id + CONFIG + cfg);
  }

  lemma ExtractedExactly(path: string, id: string, cfg: string)
    requires id != "" && cfg != ""
    ensures ExtractTaskAndConfigID(path) == (id, cfg) <==> TwoPart(path, id, cfg)
  {
    if TwoPart(path, id, cfg) {
      ConfigPathRoundTrip(id, cfg);
    } else if ExtractTaskAndConfigID(path) == (id, cfg) {
      ExtractionIsFirstSplit(path);
      assert false;
    }
  }

  lemma ConfigCalls(push: bool, verb: Verb, path: string, id: string, cfg: string)
    ensures Dispatch(push, verb, path) == GetConfig(id, cfg) <==> push && verb == GET && TwoPart(path, id, cfg)
    ensures Dispatch(push, verb, path) == DeleteConfig(id, cfg) <==> push && verb == DELETE && TwoPart(path, id, cfg)
  {
    UnderPrefix(push, verb, path);
    if id != "" && cfg != "" {
      ExtractedExactly(path, id, cfg);
      if TwoPart(path, id, cfg) {
        TwoPartIsOnConfig(path, id, cfg);
      }
    }
  }

  /** Without push support the configuration routes answer so, each for its own verbs; nothing else does. */
  lemma Unsupported(push: bool, verb: Verb, path: string)
    ensures Dispatch(push, verb, path) == NotImplemented <==>
      !push && ((OnConfig(path) && verb in {GET, DELETE}) || (OnConfigs(path) && verb in {GET, POST}))
  {
    UnderPrefix(push, verb, path);
  }
}
