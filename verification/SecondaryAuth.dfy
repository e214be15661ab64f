/** Secondary credentials: what a request's messages ask for, and the message that answers a missing token. */
module SecondaryAuth {
  import opened Schema

  datatype SecAuth = SecAuth(require: bool, resource: string, scopes: seq<string>, uri: string, token: string)

  /** What some parts say: absent strings are kept apart from empty ones. */
  datatype Findings = Findings(require: bool, resource: Option<string>, uri: Option<string>, token: Option<string>,
                               scopes: seq<string>)

  const NOTHING := Findings(false, None, None, None, [])

  function Later<T>(a: Option<T>, b: Option<T>): Option<T> {
    if b.Some? then b else a
  }

  function Combine(a: Findings, b: Findings): Findings {
    Findings(a.require || b.require, Later(a.resource, b.resource), Later(a.uri, b.uri), Later(a.token, b.token),
             a.scopes + b.scopes)
  }

  function OrEmpty(o: Option<string>): string {
    if o.Some? then o.value else ""
  }

  function Close(f: Findings): SecAuth {
    SecAuth(f.require, OrEmpty(f.resource), f.scopes, OrEmpty(f.uri), OrEmpty(f.token))
  }

  function LowerChar(c: char): char {
    if 'A' <= c <= 'Z' then c - 'A' + 'a' else c
  }

  function ToLower(s: string): string {
    seq(|s|, i requires 0 <= i < |s| => LowerChar(s[i]))
  }

  /** The object under "data" of a part whose type reads "data" in any case. */
  function DataOf(part: Json): Option<map<string, Json>> {
    if part.Obj? && "type" in part.fields && part.fields["type"].Str? && ToLower(part.fields["type"].s) == "data"
       && "data" in part.fields && part.fields["data"].Obj?
    then Some(part.fields["data"].fields)
    else None
  }

  function StrField(m: map<string, Json>, name: string): Option<string> {
    if name in m && m[name].Str? then Some(m[name].s) else None
  }

  function Strings(js: seq<Json>): seq<string> {
    if js == [] then []
    else Strings(js[..|js| - 1]) + if js[|js| - 1].Str? then [js[|js| - 1].s] else []
  }

  /** What one part says on its own. */
  function Look(part: Json): Findings {
    match DataOf(part)
    case None => NOTHING
    case Some(m) =>
      Findings("requireSecondaryAuth" in m && m["requireSecondaryAuth"] == Bool(true),
               StrField(m, "resource"), StrField(m, "authorization_uri"), StrField(m, "secondaryAuthToken"),
               if "scopes" in m && m["scopes"].Arr? then Strings(m["scopes"].elems) else [])
  }

  function Scan(parts: seq<Json>): Findings {
    if parts == [] then NOTHING
    else Combine(Scan(parts[..|parts| - 1]), Look(parts[|parts| - 1]))
  }

  function Flatten(ms: seq<Message>): seq<Json> {
    if ms == [] then [] else Flatten(ms[..|ms| - 1]) + ms[|ms| - 1].parts
  }

  function Detected(ms: seq<Message>): SecAuth {
    Close(Scan(Flatten(ms)))
  }

  /** The nested accumulator loops. */
  method DetectSecondaryAuth(messages: seq<Message>) returns (out: SecAuth)
    ensures out == Detected(messages)
  {
    out := SecAuth(false, "", [], "", "");
    for i := 0 to |messages|
      invariant out == Detected(messages[..i])
    {
      var parts := messages[i].parts;
      ghost var before := Flatten(messages[..i]);
      assert before + parts[..0] == before;
      for j := 0 to |parts|
        invariant out == Close(Scan(before + parts[..j]))
      {
        ghost var sofar := before + parts[..j];
        ScanSnoc(sofar, parts[j]);
        assert before + parts[..j + 1] == sofar + [parts[j]];
        out := AccumulatePart(out, Scan(sofar), parts[j]);
      }
      assert before + parts[..|parts|] == before + parts;
      assert messages[..i + 1][..i] == messages[..i];
    }
    assert messages[..|messages|] == messages;
  }

  /** The body of the inner loop; `found` is what `start` has accumulated. */
  method AccumulatePart(start: SecAuth, ghost found: Findings, part: Json) returns (out: SecAuth)
    requires start == Close(found)
    ensures out == Close(Combine(found, Look(part)))
  {
    out := start;
    var data := DataOf(part);
    if data.None? {
      return;
    }
    var m := data.value;
    if "requireSecondaryAuth" in m && m["requireSecondaryAuth"] == Bool(true) {
      out := out.(require := true);
    }
    if "resource" in m && m["resource"].Str? {
      out := out.(resource := m["resource"].s);
    }
    if "authorization_uri" in m && m["authorization_uri"].Str? {
      out := out.(uri := m["authorization_uri"].s);
    }
    if "secondaryAuthToken" in m && m["secondaryAuthToken"].Str? {
      out := out.(token := m["secondaryAuthToken"].s);
    }
    if "scopes" in m && m["scopes"].Arr? {
      out := AppendScopes(out, m["scopes"].elems);
    }
  }

  method AppendScopes(start: SecAuth, v: seq<Json>) returns (out: SecAuth)
    ensures out == start.(scopes := start.scopes + Strings(v))
  {
    out := start;
    for k := 0 to |v|
      invariant out == start.(scopes := start.scopes + Strings(v[..k]))
    {
      assert v[..k + 1][..k] == v[..k];
      if v[k].Str? {
        out := out.(scopes := out.scopes + [v[k].s]);
      }
    }
    assert v[..|v|] == v;
  }

  lemma {:induction false} ScanSnoc(parts: seq<Json>, part: Json)
    ensures Scan(parts + [part]) == Combine(Scan(parts), Look(part))
  {
    assert (parts + [part])[..|parts|] == parts;
  }

  lemma CombineAssociates(a: Findings, b: Findings, c: Findings)
    ensures Combine(Combine(a, b), c) == Combine(a, Combine(b, c))
  {
  }

  /** Scanning turns concatenation into combination. */
  lemma {:induction false} ScanHomomorphism(a: seq<Json>, b: seq<Json>)
    ensures Scan(a + b) == Combine(Scan(a), Scan(b))
  {
    if b == [] {
      assert a + b == a;
    } else {
      var init, last := b[..|b| - 1], b[|b| - 1];
      assert a + b == (a + init) + [last];
      ScanSnoc(a + init, last);
      ScanHomomorphism(a, init);
      assert Scan(b) == Combine(Scan(init), Look(last));
      CombineAssociates(Scan(a), Scan(init), Look(last));
    }
  }

  lemma {:induction false} FlattenHomomorphism(a: seq<Message>, b: seq<Message>)
    ensures Flatten(a + b) == Flatten(a) + Flatten(b)
  {
    if b == [] {
      assert a + b == a;
    } else {
      assert (a + b)[..|a + b| - 1] == a + b[..|b| - 1];
      FlattenHomomorphism(a, b[..|b| - 1]);
    }
  }

  /** Two batches of messages are detected as the combination of what each says. */
  lemma DetectionCombines(a: seq<Message>, b: seq<Message>)
    ensures Detected(a + b) == Close(Combine(Scan(Flatten(a)), Scan(Flatten(b))))
  {
    FlattenHomomorphism(a, b);
    ScanHomomorphism(Flatten(a), Flatten(b));
  }

  datatype Field = Resource | Uri | Token

  function Found(f: Findings, field: Field): Option<string> {
    match field
    case Resource => f.resource
    case Uri => f.uri
    case Token => f.token
  }

  /** The position of the last part that carries the field, or -1. */
  ghost predicate LastAt(parts: seq<Json>, field: Field, at: int) {
    && -1 <= at < |parts|
    && (at >= 0 ==> Found(Look(parts[at]), field).Some?)
    && forall j :: at < j < |parts| ==> Found(Look(parts[j]), field).None?
  }

  /** Resource, authorization URI and token are each taken from the last part that has them as a string. */
  lemma {:induction false} LastPresentWins(parts: seq<Json>, field: Field, at: int)
    requires LastAt(parts, field, at)
    ensures Found(Scan(parts), field) == if at < 0 then None else Found(Look(parts[at]), field)
  {
    if parts != [] {
      var init := parts[..|parts| - 1];
      if at < |init| {
        assert LastAt(init, field, at);
        LastPresentWins(init, field, at);
      }
    }
  }

  /** A token is required as soon as any one part says so, wherever it stands. */
  lemma {:induction false} AnyPartRequires(parts: seq<Json>)
    ensures Scan(parts).require <==> exists i :: 0 <= i < |parts| && Look(parts[i]).require
  {
    if parts != [] {
      var init := parts[..|parts| - 1];
      AnyPartRequires(init);
      if Scan(init).require {
        var i :| 0 <= i < |init| && Look(init[i]).require;
        assert Look(parts[i]).require;
      }
    }
  }

  /** Unicode white space, as trimming understands it. */
  predicate IsSpace(c: char) {
    var n := c as int;
    9 <= n <= 13 || n in {0x20, 0x85, 0xA0, 0x1680, 0x2028, 0x2029, 0x202F, 0x205F, 0x3000} || 0x2000 <= n <= 0x200A
  }

  predicate Blank(s: string) {
    forall c :: c in s ==> IsSpace(c)
  }

  predicate NeedsAuth(a: SecAuth) {
    a.require && Blank(a.token)
  }

  /** An unset scope list is encoded as null. */
  function ScopesJson(scopes: seq<string>): Json {
    if scopes == [] then Null else Arr(seq(|scopes|, i requires 0 <= i < |scopes| => Str(scopes[i])))
  }

  function BuildAuthMessage(a: SecAuth): DataPart {
    var auth := map["resource" := Str(a.resource), "scopes" := ScopesJson(a.scopes)];
    var full := if a.uri != "" then auth["authorization_uri" := Str(a.uri)] else auth;
    DataPart("data", Obj(map["auth" := Obj(full)]))
  }

  /** What a client reads out of an authorization message: resource, scopes and URI. */
  function ReadAuthMessage(d: DataPart): Option<(string, seq<string>, string)> {
    if d.kind == "data" && d.data.Obj? && "auth" in d.data.fields && d.data.fields["auth"].Obj? then
      var m := d.data.fields["auth"].fields;
      Some((OrEmpty(StrField(m, "resource")),
            if "scopes" in m && m["scopes"].Arr? then Strings(m["scopes"].elems) else [],
            OrEmpty(StrField(m, "authorization_uri"))))
    else None
  }

  lemma {:induction false} StringsOfScopes(scopes: seq<string>, n: nat)
    requires n <= |scopes|
    ensures Strings(seq(n, i requires 0 <= i < n => Str(scopes[i]))) == scopes[..n]
  {
    if n > 0 {
      var js := seq(n, i requires 0 <= i < n => Str(scopes[i]));
      assert js[..n - 1] == seq(n - 1, i requires 0 <= i < n - 1 => Str(scopes[i]));
      StringsOfScopes(scopes, n - 1);
    }
  }

  /** The message carries the request's resource, scopes and URI in full. */
  lemma AuthMessageExplains(a: SecAuth)
    ensures ReadAuthMessage(BuildAuthMessage(a)) == Some((a.resource, a.scopes, a.uri))
  {
    StringsOfScopes(a.scopes, |a.scopes|);
    assert a.scopes[..|a.scopes|] == a.scopes;
  }
}
