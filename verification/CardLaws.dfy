/** The agent card by the names on the wire: what is written, what is read, and what the server allows. */
module CardLaws {
  import opened Schema
  import opened AgentCards
  import opened Handlers

  /** A flag that is set decides; otherwise the legacy list does. */
  predicate Allows(card: CardVal, flag: Option<bool>, name: string) {
    match flag
    case Some(b) => b
    case None => name in card.list
  }

  function FlagsOf(card: CardVal): (Option<bool>, Option<bool>, Option<bool>) {
    match card.obj
    case Some(o) => (o.streaming, o.push, o.history)
    case None => (None, None, None)
  }

  lemma SupportedByName(card: CardVal)
    ensures Supported(card, Streaming) <==> Allows(card, FlagsOf(card).0, "streaming")
    ensures Supported(card, PushNotifications) <==> Allows(card, FlagsOf(card).1, "pushNotifications")
    ensures Supported(card, StateTransitionHistory) <==> Allows(card, FlagsOf(card).2, "stateTransitionHistory")
  {
  }

  /** Streaming requests and push requests are each gated by their own capability. */
  lemma GateReadsCard(card: CardVal)
    ensures GateOf(card).streaming <==> Allows(card, FlagsOf(card).0, "streaming")
    ensures GateOf(card).push <==> Allows(card, FlagsOf(card).1, "pushNotifications")
  {
  }

  /** The derived list names exactly the flags that are true, each once and in this order. */
  lemma DerivedList(o: Capabilities)
    ensures "streaming" in LegacyList(o) <==> o.streaming == Some(true)
    ensures "pushNotifications" in LegacyList(o) <==> o.push == Some(true)
    ensures "stateTransitionHistory" in LegacyList(o) <==> o.history == Some(true)
    ensures forall i :: 0 <= i < |LegacyList(o)| ==> Rank(LegacyList(o)[i]) > 0
    ensures forall i, j :: 0 <= i < j < |LegacyList(o)| ==> Rank(LegacyList(o)[i]) < Rank(LegacyList(o)[j])
  {
    assert |"streaming"| == 9 && |"pushNotifications"| == 17 && |"stateTransitionHistory"| == 22;
    assert Rank("streaming") == 1 && Rank("pushNotifications") == 2 && Rank("stateTransitionHistory") == 3;
  }

  function Rank(name: string): nat {
    if name == "streaming" then 1
    else if name == "pushNotifications" then 2
    else if name == "stateTransitionHistory" then 3
    else 0
  }

  // What is written.

  lemma ObjectWritten(o: Capabilities)
    ensures var m := EncodeCapabilities(o);
      && ("streaming" in m <==> o.streaming.Some?) && (o.streaming.Some? ==> m["streaming"] == Bool(o.streaming.value))
      && ("pushNotifications" in m <==> o.push.Some?) && (o.push.Some? ==> m["pushNotifications"] == Bool(o.push.value))
      && ("stateTransitionHistory" in m <==> o.history.Some?)
      && (o.history.Some? ==> m["stateTransitionHistory"] == Bool(o.history.value))
      && ("extensions" in m <==> o.extensions != [])
      && (o.extensions != [] ==> m["extensions"] == Arr(EncodeExtensions(o.extensions)))
  {
    var fs := CapabilityFields(o);
    assert |"streaming"| == 9 && |"pushNotifications"| == 17 && |"stateTransitionHistory"| == 22;
    assert |"extensions"| == 10;
    FieldsFound(fs);
    assert fs[0].0 == "streaming" && fs[1].0 == "pushNotifications" && fs[2].0 == "stateTransitionHistory";
    assert fs[3].0 == "extensions";
  }

  lemma ExtensionWritten(e: Extension)
    ensures EncodeExtension(e).Obj?
    ensures var m := EncodeExtension(e).fields;
      && "uri" in m && m["uri"] == Str(e.uri)
      && ("description" in m <==> e.description.Some?)
      && (e.description.Some? ==> m["description"] == Str(e.description.value))
      && ("required" in m <==> e.required.Some?) && (e.required.Some? ==> m["required"] == Bool(e.required.value))
      && ("params" in m <==> e.params != map[]) && (e.params != map[] ==> m["params"] == Obj(e.params))
  {
    var fs := ExtensionFields(e);
    assert |"uri"| == 3 && |"description"| == 11 && |"required"| == 8 && |"params"| == 6;
    FieldsFound(fs);
    assert fs[0].0 == "uri" && fs[1].0 == "description" && fs[2].0 == "required" && fs[3].0 == "params";
  }

  lemma {:induction false} ExtensionsWritten(es: seq<Extension>, i: nat)
    requires i < |es|
    ensures |EncodeExtensions(es)| == |es| && EncodeExtensions(es)[i] == EncodeExtension(es[i])
  {
    ExtensionCount(es);
    if i > 0 {
      ExtensionsWritten(es[1..], i - 1);
    }
  }

  lemma {:induction false} ExtensionCount(es: seq<Extension>)
    ensures |EncodeExtensions(es)| == |es|
  {
    if es != [] {
      ExtensionCount(es[1..]);
    }
  }

  /** A card writes its object if it has one, else its list if that is not empty, else no capabilities at all. */
  lemma CardWritten(card: CardVal)
    ensures Encode(card).Obj?
    ensures var m, p := Encode(card).fields, card.profile;
      && "name" in m && m["name"] == Str(p.name)
      && ("title" in m <==> p.title.Some?) && (p.title.Some? ==> m["title"] == Str(p.title.value))
      && ("version" in m <==> p.version.Some?) && (p.version.Some? ==> m["version"] == Str(p.version.value))
      && ("description" in m <==> p.description.Some?)
      && (p.description.Some? ==> m["description"] == Str(p.description.value))
      && ("endpoints" in m <==> EncodeEndpoints(p.endpoints) != map[])
      && ("authentication" in m <==> p.authentication != map[])
      && (p.authentication != map[] ==> m["authentication"] == Obj(p.authentication))
    ensures var m := Encode(card).fields;
      && ("capabilities" in m <==> card.obj.Some? || card.list != [])
      && (card.obj.Some? ==> m["capabilities"] == Obj(EncodeCapabilities(card.obj.value)))
      && (card.obj.None? && card.list != [] ==>
            && m["capabilities"].Arr?
            && m["capabilities"].elems == seq(|card.list|, i requires 0 <= i < |card.list| => Str(card.list[i])))
  {
    CardFieldsFound(card);
    ListWritten(card.list, |card.list|);
    assert card.list[..|card.list|] == card.list;
  }

  lemma {:induction false} ListWritten(list: seq<string>, n: nat)
    requires n == |list|
    ensures EncodeList(list) == seq(n, i requires 0 <= i < n => Str(list[i]))
  {
    if n > 0 {
      ListWritten(list[1..], n - 1);
    }
  }

  // What is read.

  predicate TextOrNothing(m: map<string, Json>, name: string) {
    name in m ==> m[name].Str? || m[name].Null?
  }

  predicate ObjectOrNothing(m: map<string, Json>, name: string) {
    name in m ==> m[name].Obj? || m[name].Null?
  }

  /** A card is read from an object whose plain fields have the right kind, or from null. */
  ghost predicate Readable(j: Json) {
    !j.Null? ==>
    && j.Obj?
    && TextOrNothing(j.fields, "name") && TextOrNothing(j.fields, "title") && TextOrNothing(j.fields, "version")
    && TextOrNothing(j.fields, "description")
    && ObjectOrNothing(j.fields, "endpoints") && ObjectOrNothing(j.fields, "authentication")
    && ("endpoints" in j.fields && j.fields["endpoints"].Obj? ==>
          forall k :: k in j.fields["endpoints"].fields ==> TextOrNothing(j.fields["endpoints"].fields, k))
  }

  lemma ReadExactly(prior: CardVal, j: Json)
    ensures Decode(prior, j).Some? <==> Readable(j)
  {
    if j.Obj? && "endpoints" in j.fields && j.fields["endpoints"].Obj? {
      var m := j.fields["endpoints"].fields;
      assert forall k :: k in m ==> (TextOrNothing(m, k) <==> m[k].Str? || m[k].Null?);
    }
  }

  function TextAt(j: Json, name: string): Option<string> {
    if j.Obj? && name in j.fields && j.fields[name].Str? then Some(j.fields[name].s) else None
  }

  /** Each plain field is read under its own name; null and absence leave it empty. */
  lemma ProfileRead(prior: CardVal, j: Json)
    requires Readable(j)
    ensures var p := Decode(prior, j).value.profile;
      && p.name == (match TextAt(j, "name") case Some(s) => s case None => "")
      && p.title == TextAt(j, "title") && p.version == TextAt(j, "version")
      && p.description == TextAt(j, "description")
      && p.authentication ==
         (if j.Obj? && "authentication" in j.fields && j.fields["authentication"].Obj?
          then j.fields["authentication"].fields else map[])
      && p.endpoints ==
         (if j.Obj? && "endpoints" in j.fields && j.fields["endpoints"].Obj?
          then map k | k in j.fields["endpoints"].fields ::
                 (match TextAt(j.fields["endpoints"], k) case Some(s) => s case None => "")
          else map[])
  {
    ReadExactly(prior, j);
    if j.Obj? && "endpoints" in j.fields && j.fields["endpoints"].Obj? {
      var m := j.fields["endpoints"].fields;
      assert DecodeEndpoints(Lookup(j.fields, "endpoints")).value ==
             map k | k in m :: (match TextAt(j.fields["endpoints"], k) case Some(s) => s case None => "");
    }
  }

  /** An extension is read likewise. */
  lemma ExtensionRead(j: Json)
    ensures DecodeExtension(j).Some? <==> (j.Obj? || j.Null?) && (j.Obj? ==>
      && TextOrNothing(j.fields, "uri") && TextOrNothing(j.fields, "description")
      && FlagOrNothing(j.fields, "required") && ObjectOrNothing(j.fields, "params"))
    ensures DecodeExtension(j).Some? ==>
      var e := DecodeExtension(j).value;
      && e.uri == (match TextAt(j, "uri") case Some(s) => s case None => "")
      && e.description == TextAt(j, "description")
      && e.required == (if j.Obj? && "required" in j.fields && j.fields["required"].Bool?
                        then Some(j.fields["required"].b) else None)
      && e.params == (if j.Obj? && "params" in j.fields && j.fields["params"].Obj?
                      then j.fields["params"].fields else map[])
  {
  }

  predicate FlagOrNothing(m: map<string, Json>, name: string) {
    name in m ==> m[name].Bool? || m[name].Null?
  }

  predicate FlagsFit(m: map<string, Json>) {
    && FlagOrNothing(m, "streaming") && FlagOrNothing(m, "pushNotifications")
    && FlagOrNothing(m, "stateTransitionHistory")
  }

  /** The flags of an object are read under their own names, null like absence. */
  lemma FlagsRead(m: map<string, Json>)
    ensures var r := DecodeCapabilities(m);
      r.Some? ==>
        && FlagsFit(m)
        && (r.value.streaming.Some? <==> "streaming" in m && m["streaming"].Bool?)
        && (r.value.streaming.Some? ==> m["streaming"] == Bool(r.value.streaming.value))
        && (r.value.push.Some? <==> "pushNotifications" in m && m["pushNotifications"].Bool?)
        && (r.value.push.Some? ==> m["pushNotifications"] == Bool(r.value.push.value))
        && (r.value.history.Some? <==> "stateTransitionHistory" in m && m["stateTransitionHistory"].Bool?)
        && (r.value.history.Some? ==> m["stateTransitionHistory"] == Bool(r.value.history.value))
    ensures !FlagsFit(m) ==> DecodeCapabilities(m).None?
    ensures "extensions" in m && !m["extensions"].Arr? && !m["extensions"].Null? ==> DecodeCapabilities(m).None?
  {
  }

  /** A list of strings is read as it stands, null as the empty string; one element of another kind voids it. */
  lemma {:induction false} ListRead(js: seq<Json>)
    ensures DecodeStrings(js).Some? <==> forall i :: 0 <= i < |js| ==> js[i].Str? || js[i].Null?
    ensures DecodeStrings(js).Some? ==>
      && |DecodeStrings(js).value| == |js|
      && forall i :: 0 <= i < |js| ==> DecodeStrings(js).value[i] == if js[i].Str? then js[i].s else ""
  {
    if js != [] {
      ListRead(js[1..]);
      assert forall i :: 0 < i < |js| ==> js[i] == js[1..][i - 1];
    }
  }

  /** Capabilities of any other shape are ignored: the list is empty, and an object held before stays. */
  lemma OtherShapes(prior: CardVal, j: Json)
    requires Readable(j)
    ensures var card := Decode(prior, j).value;
      var caps := if j.Obj? && "capabilities" in j.fields then j.fields["capabilities"] else Null;
      match caps
      case Obj(m) =>
        var o := DecodeCapabilities(m);
        if o.Some? then card.obj == o && card.list == LegacyList(o.value) else card.obj == prior.obj && card.list == []
      case Arr(js) =>
        card.obj == prior.obj && card.list == (if DecodeStrings(js).Some? then DecodeStrings(js).value else [])
      case _ => card.obj == prior.obj && card.list == []
  {
    ReadExactly(prior, j);
  }
}
