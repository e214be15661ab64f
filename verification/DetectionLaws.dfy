/** Detection of secondary-auth demands in the client's terms: the names it writes, and what it gets asked. */
module DetectionLaws {
  import opened Schema
  import opened SecondaryAuth

  /** The word data, in any case. */
  predicate SpellsData(s: string) {
    |s| == 4 && s[0] in "dD" && s[1] in "aA" && s[2] in "tT" && s[3] in "aA"
  }

  lemma LowerOfData(s: string)
    ensures ToLower(s) == "data" <==> SpellsData(s)
  {
    if |s| == 4 {
      LowerOne(s[0], 'd', 'D');
      LowerOne(s[1], 'a', 'A');
      LowerOne(s[2], 't', 'T');
      LowerOne(s[3], 'a', 'A');
      assert ToLower(s) == [LowerChar(s[0]), LowerChar(s[1]), LowerChar(s[2]), LowerChar(s[3])];
      assert "data" == ['d', 'a', 't', 'a'];
    } else {
      assert |ToLower(s)| == |s| != |"data"|;
    }
  }

  lemma LowerOne(c: char, low: char, up: char)
    requires 'a' <= low <= 'z' && up == low - 'a' + 'A'
    ensures LowerChar(c) == low <==> c == low || c == up
  {
  }

  /** The part is a data part with this object. */
  predicate IsData(part: Json, m: map<string, Json>) {
    && part.Obj? && "type" in part.fields && part.fields["type"].Str? && SpellsData(part.fields["type"].s)
    && "data" in part.fields && part.fields["data"] == Obj(m)
  }

  /** The string a data part has under a name. */
  function Carried(part: Json, name: string): Option<string> {
    if part.Obj? && "data" in part.fields && part.fields["data"].Obj? && IsData(part, part.fields["data"].fields)
       && name in part.fields["data"].fields && part.fields["data"].fields[name].Str?
    then Some(part.fields["data"].fields[name].s)
    else None
  }

  ghost predicate Demands(part: Json) {
    exists m: map<string, Json> ::
      IsData(part, m) && "requireSecondaryAuth" in m && m["requireSecondaryAuth"] == Bool(true)
  }

  /** What a part is looked at for, name by name; a part that is no data part says nothing. */
  lemma LookedAt(part: Json)
    ensures Look(part).require <==> Demands(part)
    ensures Look(part).resource == Carried(part, "resource")
    ensures Look(part).uri == Carried(part, "authorization_uri")
    ensures Look(part).token == Carried(part, "secondaryAuthToken")
    ensures !(exists m: map<string, Json> :: IsData(part, m)) ==> Look(part).scopes == []
    ensures forall m: map<string, Json> :: IsData(part, m) && "scopes" in m && m["scopes"].Arr? ==>
      Look(part).scopes == Strings(m["scopes"].elems)
    ensures forall m: map<string, Json> :: IsData(part, m) && !("scopes" in m && m["scopes"].Arr?) ==>
      Look(part).scopes == []
  {
    if part.Obj? && "type" in part.fields && part.fields["type"].Str? {
      LowerOfData(part.fields["type"].s);
      if "data" in part.fields && part.fields["data"].Obj? && SpellsData(part.fields["type"].s) {
        assert IsData(part, part.fields["data"].fields);
        assert DataOf(part) == Some(part.fields["data"].fields);
      }
    }
  }

  /** The strings among JSON values, in order; all others are skipped. */
  lemma {:induction false} StringsInOrder(a: seq<Json>, b: seq<Json>)
    ensures Strings(a + b) == Strings(a) + Strings(b)
  {
    if b == [] {
      assert a + b == a;
    } else {
      assert (a + b)[..|a + b| - 1] == a + b[..|b| - 1];
      StringsInOrder(a, b[..|b| - 1]);
    }
  }

  lemma OneString(j: Json)
    ensures Strings([j]) == match j case Str(s) => [s] case _ => []
  {
    assert [j][..0] == [];
  }

  /** Scopes are collected from the first part on. */
  lemma {:induction false} ScopesFromTheFront(parts: seq<Json>)
    ensures parts != [] ==> Scan(parts).scopes == Look(parts[0]).scopes + Scan(parts[1..]).scopes
    ensures parts == [] ==> Scan(parts).scopes == []
  {
    if parts != [] {
      var one := [parts[0]];
      assert parts == one + parts[1..];
      ScanHomomorphism(one, parts[1..]);
      assert one[..0] == [];
      assert Scan(one) == Combine(Scan([]), Look(parts[0]));
    }
  }

  /** The position of the last part that carries a string under the name, or -1. */
  ghost predicate LastCarrying(parts: seq<Json>, name: string, at: int) {
    && -1 <= at < |parts|
    && (at >= 0 ==> Carried(parts[at], name).Some?)
    && forall j :: at < j < |parts| ==> Carried(parts[j], name).None?
  }

  function ValueAt(parts: seq<Json>, name: string, at: int): string
    requires -1 <= at < |parts|
  {
    if at >= 0 && Carried(parts[at], name).Some? then Carried(parts[at], name).value else ""
  }

  /** What a request asks for, in the names it is written with. */
  lemma DetectedByName(ms: seq<Message>, r: int, u: int, t: int)
    requires LastCarrying(Flatten(ms), "resource", r)
    requires LastCarrying(Flatten(ms), "authorization_uri", u)
    requires LastCarrying(Flatten(ms), "secondaryAuthToken", t)
    ensures Detected(ms).resource == ValueAt(Flatten(ms), "resource", r)
    ensures Detected(ms).uri == ValueAt(Flatten(ms), "authorization_uri", u)
    ensures Detected(ms).token == ValueAt(Flatten(ms), "secondaryAuthToken", t)
    ensures Detected(ms).require <==> exists part :: part in Flatten(ms) && Demands(part)
    ensures Detected(ms).scopes == Scan(Flatten(ms)).scopes
  {
    var parts := Flatten(ms);
    forall j | 0 <= j < |parts|
      ensures Found(Look(parts[j]), Resource) == Carried(parts[j], "resource")
      ensures Found(Look(parts[j]), Uri) == Carried(parts[j], "authorization_uri")
      ensures Found(Look(parts[j]), Token) == Carried(parts[j], "secondaryAuthToken")
      ensures Look(parts[j]).require <==> Demands(parts[j])
    {
      LookedAt(parts[j]);
    }
    LastPresentWins(parts, Resource, r);
    LastPresentWins(parts, Uri, u);
    LastPresentWins(parts, Token, t);
    AnyPartRequires(parts);
  }

  /** The parts of a request are those of its messages, in order. */
  lemma PartsOfOne(m: Message)
    ensures Flatten([m]) == m.parts
  {
    assert [m][..0] == [];
  }

  // The server's own message, sent back.

  function AuthObject(a: SecAuth): map<string, Json> {
    var d := BuildAuthMessage(a).data;
    if d.Obj? && "auth" in d.fields && d.fields["auth"].Obj? then d.fields["auth"].fields else map[]
  }

  /** The message is a data part with one object, and names a URI just if there is one. */
  lemma AuthMessageShape(a: SecAuth)
    ensures BuildAuthMessage(a) == DataPart("data", Obj(map["auth" := Obj(AuthObject(a))]))
    ensures AuthObject(a).Keys == {"resource", "scopes"} + if a.uri != "" then {"authorization_uri"} else {}
    ensures AuthObject(a)["resource"] == Str(a.resource)
    ensures a.uri != "" ==> AuthObject(a)["authorization_uri"] == Str(a.uri)
    ensures AuthObject(a)["scopes"] == Null <==> a.scopes == []
    ensures a.scopes != [] ==> AuthObject(a)["scopes"].Arr? && Strings(AuthObject(a)["scopes"].elems) == a.scopes
  {
    assert |"resource"| == 8 && |"scopes"| == 6 && |"authorization_uri"| == 17;
    StringsOfScopes(a.scopes, |a.scopes|);
    assert a.scopes[..|a.scopes|] == a.scopes;
  }

  /** A client that copies the server's request into a data part, of any spelling, is understood. */
  lemma Echo(part: Json, a: SecAuth, token: string)
    requires IsData(part, AuthObject(a)["requireSecondaryAuth" := Bool(true)]["secondaryAuthToken" := Str(token)])
    ensures Look(part) ==
            Findings(true, Some(a.resource), if a.uri != "" then Some(a.uri) else None, Some(token), a.scopes)
  {
    var m := AuthObject(a)["requireSecondaryAuth" := Bool(true)]["secondaryAuthToken" := Str(token)];
    AuthMessageShape(a);
    LookedAt(part);
    assert |"resource"| == 8 && |"scopes"| == 6 && |"authorization_uri"| == 17;
    assert |"requireSecondaryAuth"| == 20 && |"secondaryAuthToken"| == 18;
    assert m["scopes"] == AuthObject(a)["scopes"];
  }

  /** Copied back without a demand or a token, it is only the request. */
  lemma PlainEcho(part: Json, a: SecAuth)
    requires IsData(part, AuthObject(a))
    ensures Look(part) ==
            Findings(false, Some(a.resource), if a.uri != "" then Some(a.uri) else None, None, a.scopes)
  {
    AuthMessageShape(a);
    LookedAt(part);
    assert |"resource"| == 8 && |"scopes"| == 6 && |"authorization_uri"| == 17;
    assert |"requireSecondaryAuth"| == 20 && |"secondaryAuthToken"| == 18;
  }

  // The missing token.

  /** The text without the white space around it. */
  function TrimSpace(s: string): string {
    if s != "" && IsSpace(s[0]) then TrimSpace(s[1..])
    else if s != "" && IsSpace(s[|s| - 1]) then TrimSpace(s[..|s| - 1])
    else s
  }

  /** A token counts as missing exactly if nothing of it is left by trimming. */
  lemma {:induction false} MissingIfTrimmedAway(s: string)
    ensures Blank(s) <==> TrimSpace(s) == ""
    decreases |s|
  {
    if s != "" && IsSpace(s[0]) {
      MissingIfTrimmedAway(s[1..]);
      assert s == [s[0]] + s[1..];
    } else if s != "" && IsSpace(s[|s| - 1]) {
      MissingIfTrimmedAway(s[..|s| - 1]);
      assert s == s[..|s| - 1] + [s[|s| - 1]];
    }
  }

  /** Of ASCII text: blanks, tabs and line ends are nothing, and any printable character is something. */
  lemma AsciiTokens(s: string)
    requires forall c :: c in s ==> c == ' ' || c == '\t' || c == '\n' || c == '\r' || '!' <= c <= '~'
    ensures Blank(s) <==> forall c :: c in s ==> c == ' ' || c == '\t' || c == '\n' || c == '\r'
  {
  }
}
