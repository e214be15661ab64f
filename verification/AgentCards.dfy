/** The agent card's two-shaped capabilities: an object, or the legacy list of names. */
module AgentCards {
  import opened Schema

  datatype Extension = Extension(uri: string, description: Option<string>, required: Option<bool>,
                                 params: map<string, Json>)

  datatype Capabilities = Capabilities(streaming: Option<bool>, push: Option<bool>, history: Option<bool>,
                                       extensions: seq<Extension>)

  /** The plain fields of a card; a nil map and an empty one are the same. */
  datatype Profile = Profile(name: string, title: Option<string>, version: Option<string>,
                             description: Option<string>, endpoints: map<string, string>,
                             authentication: map<string, Json>)

  /** `list` is the public legacy list, `obj` the hidden object; a nil list and an empty one are the same. */
  datatype CardVal = CardVal(profile: Profile, list: seq<string>, obj: Option<Capabilities>)

  const BLANK := Profile("", None, None, None, map[], map[])

  const FRESH := CardVal(BLANK, [], None)

  datatype Capability = Streaming | PushNotifications | StateTransitionHistory

  function NameOf(c: Capability): string {
    match c
    case Streaming => "streaming"
    case PushNotifications => "pushNotifications"
    case StateTransitionHistory => "stateTransitionHistory"
  }

  function FlagOf(o: Capabilities, c: Capability): Option<bool> {
    match c
    case Streaming => o.streaming
    case PushNotifications => o.push
    case StateTransitionHistory => o.history
  }

  function LegacyList(o: Capabilities): seq<string> {
    (if o.streaming == Some(true) then ["streaming"] else [])
    + (if o.push == Some(true) then ["pushNotifications"] else [])
    + (if o.history == Some(true) then ["stateTransitionHistory"] else [])
  }

  function Supported(card: CardVal, c: Capability): bool {
    if card.obj.Some? && FlagOf(card.obj.value, c).Some? then FlagOf(card.obj.value, c).value
    else NameOf(c) in card.list
  }

  // Encoding: absent options and empty lists are left out of the object.

  function Lookup(m: map<string, Json>, name: string): Option<Json> {
    if name in m then Some(m[name]) else None
  }

  function With(m: map<string, Json>, name: string, value: Option<Json>): map<string, Json> {
    if value.Some? then m[name := value.value] else m
  }

  function FlagJson(flag: Option<bool>): Option<Json> {
    if flag.Some? then Some(Bool(flag.value)) else None
  }

  function TextJson(text: Option<string>): Option<Json> {
    if text.Some? then Some(Str(text.value)) else None
  }

  function MapJson(m: map<string, Json>): Option<Json> {
    if m == map[] then None else Some(Obj(m))
  }

  /** The object with the fields that are present; a later field replaces an earlier one of its name. */
  function Fields(fs: seq<(string, Option<Json>)>): map<string, Json> {
    if fs == [] then map[]
    else
      var (name, value) := fs[|fs| - 1];
      With(Fields(fs[..|fs| - 1]), name, value)
  }

  function ExtensionFields(e: Extension): seq<(string, Option<Json>)> {
    [("uri", Some(Str(e.uri))), ("description", TextJson(e.description)), ("required", FlagJson(e.required)),
     ("params", MapJson(e.params))]
  }

  function EncodeExtension(e: Extension): Json {
    Obj(Fields(ExtensionFields(e)))
  }

  function EncodeExtensions(es: seq<Extension>): seq<Json> {
    if es == [] then [] else [EncodeExtension(es[0])] + EncodeExtensions(es[1..])
  }

  function CapabilityFields(o: Capabilities): seq<(string, Option<Json>)> {
    [("streaming", FlagJson(o.streaming)), ("pushNotifications", FlagJson(o.push)),
     ("stateTransitionHistory", FlagJson(o.history)),
     ("extensions", if o.extensions == [] then None else Some(Arr(EncodeExtensions(o.extensions))))]
  }

  function EncodeCapabilities(o: Capabilities): map<string, Json> {
    Fields(CapabilityFields(o))
  }

  function EncodeList(list: seq<string>): seq<Json> {
    if list == [] then [] else [Str(list[0])] + EncodeList(list[1..])
  }

  function EncodeEndpoints(m: map<string, string>): map<string, Json> {
    map k | k in m :: Str(m[k])
  }

  /** An object is preferred to the list, and an empty list is left out. */
  function CapabilitiesJson(card: CardVal): Option<Json> {
    if card.obj.Some? then Some(Obj(EncodeCapabilities(card.obj.value)))
    else if |card.list| > 0 then Some(Arr(EncodeList(card.list)))
    else None
  }

  function CardFields(card: CardVal): seq<(string, Option<Json>)> {
    var p := card.profile;
    [("name", Some(Str(p.name))), ("title", TextJson(p.title)), ("version", TextJson(p.version)),
     ("description", TextJson(p.description)), ("endpoints", MapJson(EncodeEndpoints(p.endpoints))),
     ("authentication", MapJson(p.authentication)), ("capabilities", CapabilitiesJson(card))]
  }

  function Encode(card: CardVal): Json {
    Obj(Fields(CardFields(card)))
  }

  // Decoding: null and absence leave the zero value, a value of the wrong kind fails.

  function DecodeFlag(v: Option<Json>): Option<Option<bool>> {
    if v.None? || v.value.Null? then Some(None)
    else if v.value.Bool? then Some(Some(v.value.b))
    else None
  }

  function DecodeText(v: Option<Json>): Option<Option<string>> {
    if v.None? || v.value.Null? then Some(None)
    else if v.value.Str? then Some(Some(v.value.s))
    else None
  }

  function DecodeParams(v: Option<Json>): Option<map<string, Json>> {
    if v.None? || v.value.Null? then Some(map[])
    else if v.value.Obj? then Some(v.value.fields)
    else None
  }

  function DecodeExtension(j: Json): Option<Extension> {
    if j.Null? then Some(Extension("", None, None, map[]))
    else if !j.Obj? then None
    else
      var u, d := DecodeText(Lookup(j.fields, "uri")), DecodeText(Lookup(j.fields, "description"));
      var r, p := DecodeFlag(Lookup(j.fields, "required")), DecodeParams(Lookup(j.fields, "params"));
      if u.Some? && d.Some? && r.Some? && p.Some? then
        Some(Extension(if u.value.Some? then u.value.value else "", d.value, r.value, p.value))
      else None
  }

  function DecodeExtensions(js: seq<Json>): Option<seq<Extension>> {
    if js == [] then Some([])
    else
      var first, rest := DecodeExtension(js[0]), DecodeExtensions(js[1..]);
      if first.Some? && rest.Some? then Some([first.value] + rest.value) else None
  }

  function DecodeExtensionList(v: Option<Json>): Option<seq<Extension>> {
    if v.None? || v.value.Null? then Some([])
    else if v.value.Arr? then DecodeExtensions(v.value.elems)
    else None
  }

  function DecodeCapabilities(m: map<string, Json>): Option<Capabilities> {
    var s, p := DecodeFlag(Lookup(m, "streaming")), DecodeFlag(Lookup(m, "pushNotifications"));
    var h, e := DecodeFlag(Lookup(m, "stateTransitionHistory")), DecodeExtensionList(Lookup(m, "extensions"));
    if s.Some? && p.Some? && h.Some? && e.Some? then Some(Capabilities(s.value, p.value, h.value, e.value)) else None
  }

  function DecodeStrings(js: seq<Json>): Option<seq<string>> {
    if js == [] then Some([])
    else
      var rest := DecodeStrings(js[1..]);
      if rest.None? then None
      else if js[0].Str? then Some([js[0].s] + rest.value)
      else if js[0].Null? then Some([""] + rest.value)
      else None
  }

  /** The object accepted from a card's capabilities field, if it is one. */
  function AcceptedObject(m: map<string, Json>): Option<Capabilities> {
    if "capabilities" in m && m["capabilities"].Obj? then DecodeCapabilities(m["capabilities"].fields) else None
  }

  function AcceptedList(m: map<string, Json>): seq<string> {
    if "capabilities" in m && m["capabilities"].Arr? then
      var list := DecodeStrings(m["capabilities"].elems);
      if list.Some? then list.value else []
    else []
  }

  /** A string for each name; null stands for the empty one. */
  function DecodeEndpoints(v: Option<Json>): Option<map<string, string>> {
    if v.None? || v.value.Null? then Some(map[])
    else if v.value.Obj? && forall k :: k in v.value.fields ==> v.value.fields[k].Str? || v.value.fields[k].Null? then
      var m := v.value.fields;
      Some(map k | k in m :: if m[k].Str? then m[k].s else "")
    else None
  }

  function DecodeProfile(m: map<string, Json>): Option<Profile> {
    var n, t := DecodeText(Lookup(m, "name")), DecodeText(Lookup(m, "title"));
    var v, d := DecodeText(Lookup(m, "version")), DecodeText(Lookup(m, "description"));
    var e, a := DecodeEndpoints(Lookup(m, "endpoints")), DecodeParams(Lookup(m, "authentication"));
    if n.Some? && t.Some? && v.Some? && d.Some? && e.Some? && a.Some? then
      Some(Profile(if n.value.Some? then n.value.value else "", t.value, v.value, d.value, e.value, a.value))
    else None
  }

  /** The fields of the outer JSON value, and its profile; None when decoding fails before anything is assigned. */
  function Outer(j: Json): Option<(map<string, Json>, Profile)> {
    if j.Null? then Some((map[], BLANK))
    else if !j.Obj? then None
    else
      var profile := DecodeProfile(j.fields);
      if profile.None? then None else Some((j.fields, profile.value))
  }

  /** The card after decoding `j` into `prior`: an object held before survives unless a new one is accepted. */
  function Decode(prior: CardVal, j: Json): Option<CardVal> {
    match Outer(j)
    case None => None
    case Some((m, profile)) =>
      match AcceptedObject(m)
      case Some(o) => Some(CardVal(profile, LegacyList(o), Some(o)))
      case None => Some(CardVal(profile, AcceptedList(m), prior.obj))
  }

  class AgentCard {
    var name: string
    var title: Option<string>
    var version: Option<string>
    var description: Option<string>
    var endpoints: map<string, string>
    var authentication: map<string, Json>
    var capabilities: seq<string>
    var capObj: Option<Capabilities>

    constructor (profile: Profile)
      ensures Val() == CardVal(profile, [], None)
    {
      name, title, version, description := profile.name, profile.title, profile.version, profile.description;
      endpoints, authentication := profile.endpoints, profile.authentication;
      capabilities, capObj := [], None;
    }

    function Val(): CardVal
      reads this
    {
      CardVal(Profile(name, title, version, description, endpoints, authentication), capabilities, capObj)
    }

    method Contains(list: seq<string>, v: string) returns (found: bool)
      ensures found <==> v in list
    {
      for i := 0 to |list|
        invariant v !in list[..i]
      {
        if list[i] == v {
          return true;
        }
      }
      return false;
    }

    method StreamingSupported() returns (r: bool)
      ensures r == Supported(Val(), Streaming)
    {
      if capObj.Some? && capObj.value.streaming.Some? {
        return capObj.value.streaming.value;
      }
      r := Contains(capabilities, "streaming");
    }

    method PushNotificationsSupported() returns (r: bool)
      ensures r == Supported(Val(), PushNotifications)
    {
      if capObj.Some? && capObj.value.push.Some? {
        return capObj.value.push.value;
      }
      r := Contains(capabilities, "pushNotifications");
    }

    method StateTransitionHistorySupported() returns (r: bool)
      ensures r == Supported(Val(), StateTransitionHistory)
    {
      if capObj.Some? && capObj.value.history.Some? {
        return capObj.value.history.value;
      }
      r := Contains(capabilities, "stateTransitionHistory");
    }

    method SetCapabilities(c: Capabilities)
      modifies this
      ensures Val() == old(Val()).(list := LegacyList(c), obj := Some(c))
    {
      capObj := Some(c);
      var list: seq<string> := [];
      if c.streaming == Some(true) {
        list := list + ["streaming"];
      }
      if c.push == Some(true) {
        list := list + ["pushNotifications"];
      }
      if c.history == Some(true) {
        list := list + ["stateTransitionHistory"];
      }
      capabilities := list;
    }

    method UnmarshalJSON(j: Json) returns (ok: bool)
      modifies this
      ensures ok == Decode(old(Val()), j).Some?
      ensures Val() == if ok then Decode(old(Val()), j).value else old(Val())
    {
      var outer := Outer(j);
      if outer.None? {
        return false;
      }
      var m := outer.value.0;
      var aux := outer.value.1;
      name := aux.name;
      title := aux.title;
      version := aux.version;
      description := aux.description;
      endpoints := aux.endpoints;
      authentication := aux.authentication;
      capabilities := [];
      ok := true;
      if "capabilities" !in m || m["capabilities"].Null? {
        return;
      }
      if m["capabilities"].Obj? {
        var obj := DecodeCapabilities(m["capabilities"].fields);
        if obj.Some? {
          SetCapabilities(obj.value);
          return;
        }
      }
      if m["capabilities"].Arr? {
        var list := DecodeStrings(m["capabilities"].elems);
        if list.Some? {
          capabilities := list.value;
        }
      }
    }
  }

  // What survives the wire.

  /** Every way of building a card keeps the list derived from the object, when there is one. */
  predicate Coherent(card: CardVal) {
    card.obj.Some? ==> card.list == LegacyList(card.obj.value)
  }

  lemma WithLookup(m: map<string, Json>, name: string, value: Option<Json>, other: string)
    requires name !in m
    ensures Lookup(With(m, name, value), name) == value
    ensures other != name ==> Lookup(With(m, name, value), other) == Lookup(m, other)
  {
  }

  ghost predicate DistinctNames(fs: seq<(string, Option<Json>)>) {
    forall i, j :: 0 <= i < j < |fs| ==> fs[i].0 != fs[j].0
  }

  /** Each field is found again under its own name, present or not. */
  lemma {:induction false} FieldsFound(fs: seq<(string, Option<Json>)>)
    requires DistinctNames(fs)
    ensures forall i :: 0 <= i < |fs| ==> Lookup(Fields(fs), fs[i].0) == fs[i].1
    ensures forall name :: name in Fields(fs) ==> exists i :: 0 <= i < |fs| && fs[i].0 == name
  {
    if fs != [] {
      var init := fs[..|fs| - 1];
      var (name, value) := fs[|fs| - 1];
      FieldsFound(init);
      assert name !in Fields(init);
      forall i | 0 <= i < |fs|
        ensures Lookup(Fields(fs), fs[i].0) == fs[i].1
      {
        WithLookup(Fields(init), name, value, fs[i].0);
        assert i < |init| ==> init[i] == fs[i];
      }
      forall other | other in Fields(fs)
        ensures exists i :: 0 <= i < |fs| && fs[i].0 == other
      {
        if other != name {
          WithLookup(Fields(init), name, value, other);
          var i :| 0 <= i < |init| && init[i].0 == other;
          assert fs[i].0 == other;
        }
      }
    }
  }

  lemma ExtensionRoundTrip(e: Extension)
    ensures DecodeExtension(EncodeExtension(e)) == Some(e)
  {
    var fs := ExtensionFields(e);
    assert |"uri"| == 3 && |"description"| == 11 && |"required"| == 8 && |"params"| == 6;
    FieldsFound(fs);
    assert fs[0].0 == "uri" && fs[1].0 == "description" && fs[2].0 == "required" && fs[3].0 == "params";
  }

  lemma {:induction false} ExtensionsRoundTrip(es: seq<Extension>)
    ensures DecodeExtensions(EncodeExtensions(es)) == Some(es)
  {
    if es != [] {
      var js := EncodeExtensions(es);
      assert js[1..] == EncodeExtensions(es[1..]);
      ExtensionRoundTrip(es[0]);
      ExtensionsRoundTrip(es[1..]);
      assert [es[0]] + es[1..] == es;
    }
  }

  lemma {:induction false} ListRoundTrip(list: seq<string>)
    ensures DecodeStrings(EncodeList(list)) == Some(list)
  {
    if list != [] {
      assert EncodeList(list)[1..] == EncodeList(list[1..]);
      ListRoundTrip(list[1..]);
      assert [list[0]] + list[1..] == list;
    }
  }

  lemma CapabilitiesRoundTrip(o: Capabilities)
    ensures DecodeCapabilities(EncodeCapabilities(o)) == Some(o)
  {
    var fs := CapabilityFields(o);
    assert |"streaming"| == 9 && |"pushNotifications"| == 17 && |"stateTransitionHistory"| == 22;
    assert |"extensions"| == 10;
    FieldsFound(fs);
    assert fs[0].0 == "streaming" && fs[1].0 == "pushNotifications" && fs[2].0 == "stateTransitionHistory";
    assert fs[3].0 == "extensions";
    ExtensionsRoundTrip(o.extensions);
  }

  lemma EndpointsRoundTrip(m: map<string, string>)
    ensures DecodeEndpoints(MapJson(EncodeEndpoints(m))) == Some(m)
  {
    var e := EncodeEndpoints(m);
    if m != map[] {
      var k :| k in m;
      assert k in e;
      assert (map k | k in e :: if e[k].Str? then e[k].s else "") == m;
    } else {
      assert e == map[];
    }
  }

  /** Each field of an encoded card is found again under its own name. */
  lemma CardFieldsFound(card: CardVal)
    ensures var m, p := Encode(card).fields, card.profile;
      && Lookup(m, "name") == Some(Str(p.name)) && Lookup(m, "title") == TextJson(p.title)
      && Lookup(m, "version") == TextJson(p.version) && Lookup(m, "description") == TextJson(p.description)
      && Lookup(m, "endpoints") == MapJson(EncodeEndpoints(p.endpoints))
      && Lookup(m, "authentication") == MapJson(p.authentication)
      && Lookup(m, "capabilities") == CapabilitiesJson(card)
  {
    var fs := CardFields(card);
    assert |"name"| == 4 && |"title"| == 5 && |"version"| == 7 && |"description"| == 11;
    assert |"endpoints"| == 9 && |"authentication"| == 14 && |"capabilities"| == 12;
    FieldsFound(fs);
    assert fs[0].0 == "name" && fs[1].0 == "title" && fs[2].0 == "version" && fs[3].0 == "description";
    assert fs[4].0 == "endpoints" && fs[5].0 == "authentication" && fs[6].0 == "capabilities";
  }

  /** The plain fields come back whatever the capabilities are. */
  lemma ProfileRoundTrip(card: CardVal)
    ensures DecodeProfile(Encode(card).fields) == Some(card.profile)
  {
    CardFieldsFound(card);
    EndpointsRoundTrip(card.profile.endpoints);
  }

  /** A card comes back whole from its encoding exactly when its list agrees with its object. */
  lemma CardRoundTrip(card: CardVal)
    ensures Decode(FRESH, Encode(card)) == Some(card) <==> Coherent(card)
  {
    CardFieldsFound(card);
    ProfileRoundTrip(card);
    if card.obj.Some? {
      CapabilitiesRoundTrip(card.obj.value);
    } else {
      ListRoundTrip(card.list);
    }
  }

  /** Decoding into a fresh card, and setting capabilities, build only coherent cards. */
  lemma BuildersAreCoherent(card: CardVal, j: Json, c: Capabilities)
    ensures Decode(FRESH, j).Some? ==> Coherent(Decode(FRESH, j).value)
    ensures Coherent(card.(list := LegacyList(c), obj := Some(c)))
    ensures card.obj.None? ==> Coherent(card)
  {
  }

  /** On a coherent card the legacy list alone answers as the accessors do. */
  lemma ListAnswersForObject(card: CardVal, c: Capability)
    requires Coherent(card)
    ensures Supported(card, c) <==> NameOf(c) in card.list
  {
    assert "streaming" != "pushNotifications" && |"streaming"| == 9 && |"pushNotifications"| == 17;
    assert |"stateTransitionHistory"| == 22;
  }

  /** A card that is decoded into twice differs from a fresh one exactly when the old object is not replaced. */
  lemma StaleObject(prior: CardVal, j: Json)
    requires Decode(FRESH, j).Some?
    ensures Decode(prior, j) == Decode(FRESH, j) <==> prior.obj.None? || Decode(FRESH, j).value.obj.Some?
  {
  }

  /** For one: a legacy card without streaming, decoded over one that had it, still reports streaming. */
  lemma StaleAnswer()
    ensures var prior := CardVal(BLANK, ["streaming"], Some(Capabilities(Some(true), None, None, [])));
      var j := Encode(CardVal(BLANK, ["pushNotifications"], None));
      && Decode(prior, j).Some? && Supported(Decode(prior, j).value, Streaming)
      && Decode(FRESH, j).Some? && !Supported(Decode(FRESH, j).value, Streaming)
  {
    CardRoundTrip(CardVal(BLANK, ["pushNotifications"], None));
    CardFieldsFound(CardVal(BLANK, ["pushNotifications"], None));
    ProfileRoundTrip(CardVal(BLANK, ["pushNotifications"], None));
    assert |"streaming"| != |"pushNotifications"|;
  }
}
