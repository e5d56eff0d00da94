/**
 * `createAxis`: the client wrapper. Thirty-three shorthand runners, each a
 * (verb, response type) or (verb, body encoding) pair; the default-header
 * dictionary and its accessors; and the two interceptor pipelines. The HTTP call
 * a runner makes is returned as a `Call` value instead of being performed.
 */
module Instance {
  import opened Wrappers
  import Js
  import opened Utils

  datatype FetchMethod = Get | Head | Options | Delete
  datatype ModifyMethod = Post | Put | Patch
  datatype ResponseType = Json | Blob | Document | ArrayBuffer | Text | Stream
  datatype ContentType = ApplicationJson | UrlEncoded | Multipart

  /** What a shorthand does: `createFetchRunner(instance, method, responseType)` or `createModifyRunner(instance, method, contentType)`. */
  datatype Runner = Fetch(fetchMethod: FetchMethod, responseType: ResponseType) | Modify(modifyMethod: ModifyMethod, contentType: ContentType)

  function FetchVerb(m: FetchMethod): string {
    match m
    case Get => "get"
    case Head => "head"
    case Options => "options"
    case Delete => "delete"
  }

  function ModifyVerb(m: ModifyMethod): string {
    match m
    case Post => "post"
    case Put => "put"
    case Patch => "patch"
  }

  /** The `responseType` value handed to the client. */
  function ResponseTypeName(rt: ResponseType): string {
    match rt
    case Json => "json"
    case Blob => "blob"
    case Document => "document"
    case ArrayBuffer => "arraybuffer"
    case Text => "text"
    case Stream => "stream"
  }

  /** The `Content-Type` header value. */
  function ContentTypeName(ct: ContentType): string {
    match ct
    case ApplicationJson => "application/json"
    case UrlEncoded => "application/x-www-form-urlencoded"
    case Multipart => "multipart/form-data"
  }

  function ResponseTypeSuffix(rt: ResponseType): string {
    match rt
    case Json => ""
    case Blob => "Blob"
    case Document => "Document"
    case ArrayBuffer => "ArrayBuffer"
    case Text => "Text"
    case Stream => "Stream"
  }

  function ContentTypeSuffix(ct: ContentType): string {
    match ct
    case ApplicationJson => ""
    case UrlEncoded => "UrlEncode"
    case Multipart => "Multipart"
  }

  /** The naming rule of the shorthands: the verb, then the variant (nothing for JSON). */
  function ShorthandName(r: Runner): string {
    match r
    case Fetch(m, rt) => FetchVerb(m) + ResponseTypeSuffix(rt)
    case Modify(m, ct) => ModifyVerb(m) + ContentTypeSuffix(ct)
  }

  /**
   * The shorthand members of the object `createAxis` returns, in the order and
   * in the seven groups it lists them.
   */
  const GetShorthands: seq<(string, Runner)> := [
    ("get", Fetch(Get, Json)),
    ("getBlob", Fetch(Get, Blob)),
    ("getDocument", Fetch(Get, Document)),
    ("getArrayBuffer", Fetch(Get, ArrayBuffer)),
    ("getText", Fetch(Get, Text)),
    ("getStream", Fetch(Get, Stream))
  ]
  const HeadShorthands: seq<(string, Runner)> := [
    ("head", Fetch(Head, Json)),
    ("headBlob", Fetch(Head, Blob)),
    ("headDocument", Fetch(Head, Document)),
    ("headArrayBuffer", Fetch(Head, ArrayBuffer)),
    ("headText", Fetch(Head, Text)),
    ("headStream", Fetch(Head, Stream))
  ]
  const OptionsShorthands: seq<(string, Runner)> := [
    ("options", Fetch(Options, Json)),
    ("optionsBlob", Fetch(Options, Blob)),
    ("optionsDocument", Fetch(Options, Document)),
    ("optionsArrayBuffer", Fetch(Options, ArrayBuffer)),
    ("optionsText", Fetch(Options, Text)),
    ("optionsStream", Fetch(Options, Stream))
  ]
  const DeleteShorthands: seq<(string, Runner)> := [
    ("delete", Fetch(Delete, Json)),
    ("deleteBlob", Fetch(Delete, Blob)),
    ("deleteDocument", Fetch(Delete, Document)),
    ("deleteArrayBuffer", Fetch(Delete, ArrayBuffer)),
    ("deleteText", Fetch(Delete, Text)),
    ("deleteStream", Fetch(Delete, Stream))
  ]
  const PostShorthands: seq<(string, Runner)> := [
    ("post", Modify(Post, ApplicationJson)),
    ("postUrlEncode", Modify(Post, UrlEncoded)),
    ("postMultipart", Modify(Post, Multipart))
  ]
  const PutShorthands: seq<(string, Runner)> := [
    ("put", Modify(Put, ApplicationJson)),
    ("putUrlEncode", Modify(Put, UrlEncoded)),
    ("putMultipart", Modify(Put, Multipart))
  ]
  const PatchShorthands: seq<(string, Runner)> := [
    ("patch", Modify(Patch, ApplicationJson)),
    ("patchUrlEncode", Modify(Patch, UrlEncoded)),
    ("patchMultipart", Modify(Patch, Multipart))
  ]

  const Shorthands: seq<(string, Runner)> :=
    GetShorthands + HeadShorthands + OptionsShorthands + DeleteShorthands +
    PostShorthands + PutShorthands + PatchShorthands

  /** Every entry is named by the naming rule. */
  predicate NamedByRule(t: seq<(string, Runner)>) {
    forall i :: 0 <= i < |t| ==> t[i].0 == ShorthandName(t[i].1)
  }

  /** The position of a runner in the table: verbs in row order, then variants. */
  function TableIndex(r: Runner): nat {
    match r
    case Fetch(m, rt) =>
      (match m case Get => 0 case Head => 6 case Options => 12 case Delete => 18) +
      (match rt case Json => 0 case Blob => 1 case Document => 2 case ArrayBuffer => 3 case Text => 4 case Stream => 5)
    case Modify(m, ct) =>
      (match m case Post => 24 case Put => 27 case Patch => 30) +
      (match ct case ApplicationJson => 0 case UrlEncoded => 1 case Multipart => 2)
  }

  /** The runner at a table position. */
  function RunnerAt(n: nat): Runner {
    if n < 24 then
      Fetch([Get, Head, Options, Delete][n / 6], [Json, Blob, Document, ArrayBuffer, Text, Stream][n % 6])
    else if n < 33 then
      Modify([Post, Put, Patch][(n - 24) / 3], [ApplicationJson, UrlEncoded, Multipart][(n - 24) % 3])
    else
      Fetch(Get, Json)
  }

  /** Entries `from`, `from + 1`, ... in table order. */
  predicate Numbered(t: seq<(string, Runner)>, from: nat) {
    forall i :: 0 <= i < |t| ==> TableIndex(t[i].1) == from + i
  }

  lemma {:induction false} AppendRows(a: seq<(string, Runner)>, b: seq<(string, Runner)>, from: nat)
    requires NamedByRule(a) && NamedByRule(b)
    requires Numbered(a, from) && Numbered(b, from + |a|)
    ensures NamedByRule(a + b) && Numbered(a + b, from)
  {
    forall i | 0 <= i < |a + b|
      ensures (a + b)[i].0 == ShorthandName((a + b)[i].1) && TableIndex((a + b)[i].1) == from + i
    {
      if i >= |a| {
        assert (a + b)[i] == b[i - |a|];
      }
    }
  }

  /** `axis[name]` for a shorthand name: the table entry with that name (names are distinct, `ShorthandNamesDistinct`). */
  function Lookup(table: seq<(string, Runner)>, name: string): (r: Option<Runner>)
    ensures r.Some? ==> exists i :: 0 <= i < |table| && table[i] == (name, r.value)
    ensures r.None? ==> forall i :: 0 <= i < |table| ==> table[i].0 != name
  {
    if |table| == 0 then None
    else if table[0].0 == name then Some(table[0].1)
    else
      var r := Lookup(table[1..], name);
      assert forall i :: 1 <= i < |table| ==> table[i] == table[1..][i - 1];
      r
  }

  /** An independent reading of the naming rule: split a name into verb and variant. */
  function ParseShorthand(name: string): Option<Runner> {
    if StartsWith(name, "get") then ParseFetch(Get, name[3..])
    else if StartsWith(name, "head") then ParseFetch(Head, name[4..])
    else if StartsWith(name, "options") then ParseFetch(Options, name[7..])
    else if StartsWith(name, "delete") then ParseFetch(Delete, name[6..])
    else if StartsWith(name, "post") then ParseModify(Post, name[4..])
    else if StartsWith(name, "put") then ParseModify(Put, name[3..])
    else if StartsWith(name, "patch") then ParseModify(Patch, name[5..])
    else None
  }

  function ParseFetch(m: FetchMethod, suffix: string): Option<Runner> {
    if suffix == "" then Some(Fetch(m, Json))
    else if suffix == "Blob" then Some(Fetch(m, Blob))
    else if suffix == "Document" then Some(Fetch(m, Document))
    else if suffix == "ArrayBuffer" then Some(Fetch(m, ArrayBuffer))
    else if suffix == "Text" then Some(Fetch(m, Text))
    else if suffix == "Stream" then Some(Fetch(m, Stream))
    else None
  }

  function ParseModify(m: ModifyMethod, suffix: string): Option<Runner> {
    if suffix == "" then Some(Modify(m, ApplicationJson))
    else if suffix == "UrlEncode" then Some(Modify(m, UrlEncoded))
    else if suffix == "Multipart" then Some(Modify(m, Multipart))
    else None
  }

  /** The naming rule loses nothing: a name gives back its runner. */
  lemma ParseShorthandName(r: Runner)
    ensures ParseShorthand(ShorthandName(r)) == Some(r)
  {
    match r
    case Fetch(m, rt) => ParseFetchName(m, rt);
    case Modify(m, ct) => ParseModifyName(m, ct);
  }

  /** A string that differs from `w` at a position both have does not start with `w`. */
  lemma DiffersAt(s: string, w: string, i: nat)
    requires i < |w| && i < |s| && s[i] != w[i]
    ensures !StartsWith(s, w)
  {
    if |w| <= |s| {
      assert s[..|w|][i] != w[i];
    }
  }

  lemma ParseFetchName(m: FetchMethod, rt: ResponseType)
    ensures ParseShorthand(ShorthandName(Fetch(m, rt))) == Some(Fetch(m, rt))
  {
    var name := ShorthandName(Fetch(m, rt));
    var v := FetchVerb(m);
    assert name[..|v|] == v && name[|v|..] == ResponseTypeSuffix(rt);
    assert name[0] == v[0];
    match m {
      case Get =>
      case Head =>
        DiffersAt(name, "get", 0);
      case Options =>
        DiffersAt(name, "get", 0);
        DiffersAt(name, "head", 0);
      case Delete =>
        DiffersAt(name, "get", 0);
        DiffersAt(name, "head", 0);
        DiffersAt(name, "options", 0);
    }
  }

  lemma ParseModifyName(m: ModifyMethod, ct: ContentType)
    ensures ParseShorthand(ShorthandName(Modify(m, ct))) == Some(Modify(m, ct))
  {
    var name := ShorthandName(Modify(m, ct));
    var v := ModifyVerb(m);
    assert name[..|v|] == v && name[|v|..] == ContentTypeSuffix(ct);
    assert name[0] == 'p' && name[1] == v[1];
    DiffersAt(name, "get", 0);
    DiffersAt(name, "head", 0);
    DiffersAt(name, "options", 0);
    DiffersAt(name, "delete", 0);
    match m {
      case Post =>
      case Put =>
        DiffersAt(name, "post", 1);
      case Patch =>
        DiffersAt(name, "post", 1);
        DiffersAt(name, "put", 1);
    }
  }

  /** Two runners never share a name. */
  lemma ShorthandNameInjective(r1: Runner, r2: Runner)
    requires ShorthandName(r1) == ShorthandName(r2)
    ensures r1 == r2
  {
    ParseShorthandName(r1);
    ParseShorthandName(r2);
  }

  /** `RunnerAt` undoes `TableIndex`, so distinct runners have distinct positions. */
  lemma RunnerAtTableIndex(r: Runner)
    ensures TableIndex(r) < 33 && RunnerAt(TableIndex(r)) == r
  {
  }

  // Each group, entry by entry: named by the rule and in table order.
  lemma GetRow()
    ensures NamedByRule(GetShorthands) && Numbered(GetShorthands, 0)
  {
    GetRowStart();
    GetRowEnd();
  }

  lemma GetRowStart()
    ensures forall i :: 0 <= i < 3 ==>
      GetShorthands[i].0 == ShorthandName(GetShorthands[i].1) && TableIndex(GetShorthands[i].1) == 0 + i
  {
    forall i | 0 <= i < 3
      ensures GetShorthands[i].0 == ShorthandName(GetShorthands[i].1) && TableIndex(GetShorthands[i].1) == 0 + i
    {
      var rt := [Json, Blob, Document, ArrayBuffer, Text, Stream][i];
      assert GetShorthands[i].1 == Fetch(Get, rt);
      assert GetShorthands[i].0 == "get" + ResponseTypeSuffix(rt);
    }
  }

  lemma GetRowEnd()
    ensures forall i :: 3 <= i < 6 ==>
      GetShorthands[i].0 == ShorthandName(GetShorthands[i].1) && TableIndex(GetShorthands[i].1) == 0 + i
  {
    forall i | 3 <= i < 6
      ensures GetShorthands[i].0 == ShorthandName(GetShorthands[i].1) && TableIndex(GetShorthands[i].1) == 0 + i
    {
      var rt := [Json, Blob, Document, ArrayBuffer, Text, Stream][i];
      assert GetShorthands[i].1 == Fetch(Get, rt);
      assert GetShorthands[i].0 == "get" + ResponseTypeSuffix(rt);
    }
  }

  lemma HeadRow()
    ensures NamedByRule(HeadShorthands) && Numbered(HeadShorthands, 6)
  {
    HeadRowStart();
    HeadRowEnd();
  }

  lemma HeadRowStart()
    ensures forall i :: 0 <= i < 3 ==>
      HeadShorthands[i].0 == ShorthandName(HeadShorthands[i].1) && TableIndex(HeadShorthands[i].1) == 6 + i
  {
    forall i | 0 <= i < 3
      ensures HeadShorthands[i].0 == ShorthandName(HeadShorthands[i].1) && TableIndex(HeadShorthands[i].1) == 6 + i
    {
      var rt := [Json, Blob, Document, ArrayBuffer, Text, Stream][i];
      assert HeadShorthands[i].1 == Fetch(Head, rt);
      assert HeadShorthands[i].0 == "head" + ResponseTypeSuffix(rt);
    }
  }

  lemma HeadRowEnd()
    ensures forall i :: 3 <= i < 6 ==>
      HeadShorthands[i].0 == ShorthandName(HeadShorthands[i].1) && TableIndex(HeadShorthands[i].1) == 6 + i
  {
    forall i | 3 <= i < 6
      ensures HeadShorthands[i].0 == ShorthandName(HeadShorthands[i].1) && TableIndex(HeadShorthands[i].1) == 6 + i
    {
      var rt := [Json, Blob, Document, ArrayBuffer, Text, Stream][i];
      assert HeadShorthands[i].1 == Fetch(Head, rt);
      assert HeadShorthands[i].0 == "head" + ResponseTypeSuffix(rt);
    }
  }

  lemma OptionsRow()
    ensures NamedByRule(OptionsShorthands) && Numbered(OptionsShorthands, 12)
  {
    OptionsRowStart();
    OptionsRowEnd();
  }

  lemma OptionsRowStart()
    ensures forall i :: 0 <= i < 3 ==>
      OptionsShorthands[i].0 == ShorthandName(OptionsShorthands[i].1) && TableIndex(OptionsShorthands[i].1) == 12 + i
  {
    forall i | 0 <= i < 3
      ensures OptionsShorthands[i].0 == ShorthandName(OptionsShorthands[i].1) && TableIndex(OptionsShorthands[i].1) == 12 + i
    {
      var rt := [Json, Blob, Document, ArrayBuffer, Text, Stream][i];
      assert OptionsShorthands[i].1 == Fetch(Options, rt);
      assert OptionsShorthands[i].0 == "options" + ResponseTypeSuffix(rt);
    }
  }

  lemma OptionsRowEnd()
    ensures forall i :: 3 <= i < 6 ==>
      OptionsShorthands[i].0 == ShorthandName(OptionsShorthands[i].1) && TableIndex(OptionsShorthands[i].1) == 12 + i
  {
    forall i | 3 <= i < 6
      ensures OptionsShorthands[i].0 == ShorthandName(OptionsShorthands[i].1) && TableIndex(OptionsShorthands[i].1) == 12 + i
    {
      var rt := [Json, Blob, Document, ArrayBuffer, Text, Stream][i];
      assert OptionsShorthands[i].1 == Fetch(Options, rt);
      assert OptionsShorthands[i].0 == "options" + ResponseTypeSuffix(rt);
    }
  }

  lemma DeleteRow()
    ensures NamedByRule(DeleteShorthands) && Numbered(DeleteShorthands, 18)
  {
    DeleteRowStart();
    DeleteRowEnd();
  }

  lemma DeleteRowStart()
    ensures forall i :: 0 <= i < 3 ==>
      DeleteShorthands[i].0 == ShorthandName(DeleteShorthands[i].1) && TableIndex(DeleteShorthands[i].1) == 18 + i
  {
    forall i | 0 <= i < 3
      ensures DeleteShorthands[i].0 == ShorthandName(DeleteShorthands[i].1) && TableIndex(DeleteShorthands[i].1) == 18 + i
    {
      var rt := [Json, Blob, Document, ArrayBuffer, Text, Stream][i];
      assert DeleteShorthands[i].1 == Fetch(Delete, rt);
      assert DeleteShorthands[i].0 == "delete" + ResponseTypeSuffix(rt);
    }
  }

  lemma DeleteRowEnd()
    ensures forall i :: 3 <= i < 6 ==>
      DeleteShorthands[i].0 == ShorthandName(DeleteShorthands[i].1) && TableIndex(DeleteShorthands[i].1) == 18 + i
  {
    forall i | 3 <= i < 6
      ensures DeleteShorthands[i].0 == ShorthandName(DeleteShorthands[i].1) && TableIndex(DeleteShorthands[i].1) == 18 + i
    {
      var rt := [Json, Blob, Document, ArrayBuffer, Text, Stream][i];
      assert DeleteShorthands[i].1 == Fetch(Delete, rt);
      assert DeleteShorthands[i].0 == "delete" + ResponseTypeSuffix(rt);
    }
  }

  lemma PostRow()
    ensures NamedByRule(PostShorthands) && Numbered(PostShorthands, 24)
  {
    forall i | 0 <= i < |PostShorthands|
      ensures PostShorthands[i].0 == ShorthandName(PostShorthands[i].1)
      ensures TableIndex(PostShorthands[i].1) == 24 + i
    {
      if i == 0 {
      } else if i == 1 {
      } else {
      }
    }
  }

  lemma PutRow()
    ensures NamedByRule(PutShorthands) && Numbered(PutShorthands, 27)
  {
    forall i | 0 <= i < |PutShorthands|
      ensures PutShorthands[i].0 == ShorthandName(PutShorthands[i].1)
      ensures TableIndex(PutShorthands[i].1) == 27 + i
    {
      if i == 0 {
      } else if i == 1 {
      } else {
      }
    }
  }

  lemma PatchRow()
    ensures NamedByRule(PatchShorthands) && Numbered(PatchShorthands, 30)
  {
    forall i | 0 <= i < |PatchShorthands|
      ensures PatchShorthands[i].0 == ShorthandName(PatchShorthands[i].1)
      ensures TableIndex(PatchShorthands[i].1) == 30 + i
    {
      if i == 0 {
      } else if i == 1 {
      } else {
      }
    }
  }

  /**
   * The table has 33 entries; each is named by the naming rule, and the runner
   * at position `i` is `RunnerAt(i)`: 4 fetch verbs by 6 response types, then 3
   * modify verbs by 3 encodings.
   */
  lemma ShorthandTable()
    ensures |Shorthands| == 33
    ensures NamedByRule(Shorthands)
    ensures Numbered(Shorthands, 0)
  {
    GetRow();
    HeadRow();
    OptionsRow();
    DeleteRow();
    PostRow();
    PutRow();
    PatchRow();
    var t := GetShorthands;
    AppendRows(t, HeadShorthands, 0);
    t := t + HeadShorthands;
    AppendRows(t, OptionsShorthands, 0);
    t := t + OptionsShorthands;
    AppendRows(t, DeleteShorthands, 0);
    t := t + DeleteShorthands;
    AppendRows(t, PostShorthands, 0);
    t := t + PostShorthands;
    AppendRows(t, PutShorthands, 0);
    t := t + PutShorthands;
    AppendRows(t, PatchShorthands, 0);
  }

  /** Every runner has an entry, at its position `TableIndex(r)`. */
  lemma RunnerListed(r: Runner)
    ensures TableIndex(r) < |Shorthands| && Shorthands[TableIndex(r)].1 == r
  {
    ShorthandTable();
    RunnerAtTableIndex(r);
    RunnerAtTableIndex(Shorthands[TableIndex(r)].1);
  }

  /** No name appears twice in the table. */
  lemma ShorthandNamesDistinct()
    ensures forall i, j :: 0 <= i < j < |Shorthands| ==> Shorthands[i].0 != Shorthands[j].0
  {
    ShorthandTable();
    forall i, j | 0 <= i < j < |Shorthands|
      ensures Shorthands[i].0 != Shorthands[j].0
    {
      if Shorthands[i].0 == Shorthands[j].0 {
        ShorthandNameInjective(Shorthands[i].1, Shorthands[j].1);
      }
    }
  }

  /** Looking a runner's name up in the table finds that runner. */
  lemma LookupShorthandName(r: Runner)
    ensures Lookup(Shorthands, ShorthandName(r)) == Some(r)
  {
    RunnerListed(r);
    ShorthandTable();
    var found := Lookup(Shorthands, ShorthandName(r));
    if found.Some? {
      var i :| 0 <= i < |Shorthands| && Shorthands[i] == (ShorthandName(r), found.value);
      ShorthandNameInjective(found.value, r);
    }
  }

  /** The request a runner hands to the client instead of performing it. */
  datatype Call =
    | FetchCall(fetchMethod: FetchMethod, url: string, config: Js.Props)
    | ModifyCall(modifyMethod: ModifyMethod, url: string, data: Body, config: Js.Props)

  /** The request body: the params as given, their query-string encoding, or form fields in order. */
  datatype Body = Plain(value: Js.JsValue) | QueryString(text: string) | FormFields(fields: Js.Props)

  /** A modify runner either hands over its call or throws a `TypeError` synchronously. */
  datatype Dispatch = Sent(call: Call) | ThrewTypeError

  /** `{ params, responseType, ...config }` */
  function FetchConfig(rt: ResponseType, params: Js.JsValue, config: Js.JsValue): Js.Props {
    Js.Assign([("params", params), ("responseType", Js.Str(ResponseTypeName(rt)))], Js.OwnEntries(config))
  }

  /** The function `createFetchRunner(instance, method, responseType)` returns, applied to its arguments. */
  function FetchRunner(m: FetchMethod, rt: ResponseType, url: string, params: Js.JsValue, config: Js.JsValue): (c: Call)
    ensures c.FetchCall? && c.fetchMethod == m && c.url == url
    ensures !Js.Has(Js.OwnEntries(config), "params") ==> Js.Get(c.config, "params") == Some(params)
    ensures !Js.Has(Js.OwnEntries(config), "responseType") ==>
      Js.Get(c.config, "responseType") == Some(Js.Str(ResponseTypeName(rt)))
  {
    var base := [("params", params), ("responseType", Js.Str(ResponseTypeName(rt)))];
    Js.AssignAbsent(base, Js.OwnEntries(config), "params");
    Js.AssignAbsent(base, Js.OwnEntries(config), "responseType");
    Js.FindUnique(base, "params", 0);
    Js.FindUnique(base, "responseType", 1);
    FetchCall(m, url, FetchConfig(rt, params, config))
  }

  /**
   * A fetch runner sends `params` and its own `responseType`, but a key the
   * caller's config carries, `params` and `responseType` included, wins.
   */
  lemma FetchConfigPrecedence(rt: ResponseType, params: Js.JsValue, config: Js.JsValue, k: string)
    requires Js.DistinctKeys(Js.OwnEntries(config))
    ensures Js.Get(FetchConfig(rt, params, config), k) ==
      if Js.Has(Js.OwnEntries(config), k) then Js.Get(Js.OwnEntries(config), k)
      else if k == "params" then Some(params)
      else if k == "responseType" then Some(Js.Str(ResponseTypeName(rt)))
      else None
  {
    var base := [("params", params), ("responseType", Js.Str(ResponseTypeName(rt)))];
    Js.AssignGet(base, Js.OwnEntries(config), k);
    if k == "params" {
      Js.FindUnique(base, k, 0);
    } else if k == "responseType" {
      Js.FindUnique(base, k, 1);
    } else {
      Js.FindUnique(base, k, 2);
    }
  }

  /** `{ headers: { 'Content-Type': contentType }, ...config }` */
  function ModifyConfig(ct: ContentType, config: Js.JsValue): Js.Props {
    Js.Assign([("headers", Js.Obj([("Content-Type", Js.Str(ContentTypeName(ct)))]))], Js.OwnEntries(config))
  }

  /**
   * The `Content-Type` header defaults to the runner's content type; a caller's
   * `headers` replaces that whole headers object (the spread is shallow).
   */
  lemma ModifyConfigPrecedence(ct: ContentType, config: Js.JsValue, k: string)
    requires Js.DistinctKeys(Js.OwnEntries(config))
    ensures Js.Get(ModifyConfig(ct, config), k) ==
      if Js.Has(Js.OwnEntries(config), k) then Js.Get(Js.OwnEntries(config), k)
      else if k == "headers" then Some(Js.Obj([("Content-Type", Js.Str(ContentTypeName(ct)))]))
      else None
  {
    var base := [("headers", Js.Obj([("Content-Type", Js.Str(ContentTypeName(ct)))]))];
    Js.AssignGet(base, Js.OwnEntries(config), k);
    if k == "headers" {
      Js.FindUnique(base, k, 0);
    } else {
      Js.FindUnique(base, k, 1);
    }
  }

  /** The fields a form gets from `Object.keys(params).forEach(key => formData.append(key, params[key]))`. */
  function FormOf(p: Js.Props): Js.Props {
    seq(|p|, i requires 0 <= i < |p| => (p[i].0, Js.Get(p, p[i].0).GetOr(Js.Undefined)))
  }

  /** For a well-formed object the form has one field per property, in key order, with that property's value. */
  lemma FormOfObject(p: Js.Props)
    requires Js.DistinctKeys(p)
    ensures FormOf(p) == p
  {
    forall i | 0 <= i < |p|
      ensures FormOf(p)[i] == p[i]
    {
      Js.FindUnique(p, p[i].0, i);
    }
  }

  /**
   * What the function `createModifyRunner(instance, method, contentType)`
   * returns does with its arguments: JSON sends `params` as given, url-encoding
   * sends `stringify(params)`, multipart sends a form built from `params`'s own
   * keys (and `Object.keys` throws on `null` or `undefined`).
   */
  function ModifyDispatch(m: ModifyMethod, ct: ContentType, url: string, params: Js.JsValue, config: Js.JsValue,
                          stringify: Js.JsValue -> string): Dispatch {
    match ct
    case ApplicationJson => Sent(ModifyCall(m, url, Plain(params), ModifyConfig(ct, config)))
    case UrlEncoded => Sent(ModifyCall(m, url, QueryString(stringify(params)), ModifyConfig(ct, config)))
    case Multipart =>
      if Js.IsNullish(params) then ThrewTypeError
      else Sent(ModifyCall(m, url, FormFields(FormOf(Js.OwnEntries(params))), ModifyConfig(ct, config)))
  }

  /** The multipart `forEach`: one field appended per own key, read back through the key. */
  method BuildForm(entries: Js.Props) returns (form: Js.Props)
    ensures form == FormOf(entries)
  {
    form := [];
    var i := 0;
    while i < |entries|
      invariant 0 <= i <= |entries|
      invariant |form| == i
      invariant forall j :: 0 <= j < i ==> form[j] == FormOf(entries)[j]
    {
      form := form + [(entries[i].0, Js.Get(entries, entries[i].0).GetOr(Js.Undefined))];
      i := i + 1;
    }
  }

  /** The modify runner itself; the multipart form is built by `BuildForm`. */
  method ModifyRunner(m: ModifyMethod, ct: ContentType, url: string, params: Js.JsValue, config: Js.JsValue,
                      stringify: Js.JsValue -> string) returns (d: Dispatch)
    ensures d == ModifyDispatch(m, ct, url, params, config, stringify)
  {
    var data: Body := Plain(params);
    if ct == UrlEncoded {
      data := QueryString(stringify(params));
    }
    if ct == Multipart {
      if Js.IsNullish(params) {
        return ThrewTypeError;
      }
      var form := BuildForm(Js.OwnEntries(params));
      data := FormFields(form);
    }
    return Sent(ModifyCall(m, url, data, ModifyConfig(ct, config)));
  }

  /** The call behind a shorthand; `ThrewTypeError` only for a multipart runner given nullish params. */
  function RunnerDispatch(r: Runner, url: string, params: Js.JsValue, config: Js.JsValue,
                          stringify: Js.JsValue -> string): (d: Dispatch)
    ensures d.ThrewTypeError? <==> r.Modify? && r.contentType == Multipart && Js.IsNullish(params)
    ensures d.Sent? ==> d.call.url == url
    ensures d.Sent? && r.Fetch? ==> d.call == FetchCall(r.fetchMethod, url, FetchConfig(r.responseType, params, config))
    ensures d.Sent? && r.Modify? ==>
      (d.call.ModifyCall? && d.call.modifyMethod == r.modifyMethod && d.call.config == ModifyConfig(r.contentType, config))
  {
    match r
    case Fetch(m, rt) => Sent(FetchRunner(m, rt, url, params, config))
    case Modify(m, ct) => ModifyDispatch(m, ct, url, params, config, stringify)
  }

  /** An interceptor as registered: its two handlers (by identity) and its options. */
  type HandlerRef = nat
  datatype Interceptor = Interceptor(onFulfilled: Option<HandlerRef>, onRejected: Option<HandlerRef>, options: Js.JsValue)

  /** The argument of `removeHeader`: one key or a list of keys. */
  datatype HeaderKeys = OneKey(key: string) | KeyList(keys: seq<string>)

  function KeysOf(k: HeaderKeys): seq<string> {
    match k
    case OneKey(key) => [key]
    case KeyList(keys) => keys
  }

  /** Deletes the keys one after another. */
  function DeleteAll(p: Js.Props, keys: seq<string>): Js.Props
    decreases |keys|
  {
    if |keys| == 0 then p else DeleteAll(Js.Delete(p, keys[0]), keys[1..])
  }

  lemma {:induction false} DeleteAllSnoc(p: Js.Props, keys: seq<string>, k: string)
    ensures DeleteAll(p, keys + [k]) == Js.Delete(DeleteAll(p, keys), k)
    decreases |keys|
  {
    if |keys| == 0 {
      assert keys + [k] == [k];
    } else {
      assert (keys + [k])[1..] == keys[1..] + [k];
      DeleteAllSnoc(Js.Delete(p, keys[0]), keys[1..], k);
    }
  }

  /** Removing a list of keys removes exactly those keys; an absent key is a no-op. */
  lemma {:induction false} DeleteAllGet(p: Js.Props, keys: seq<string>, k: string)
    requires Js.DistinctKeys(p)
    ensures Js.Get(DeleteAll(p, keys), k) == if k in keys then None else Js.Get(p, k)
    decreases |keys|
  {
    if |keys| > 0 {
      Js.DeleteDistinct(p, keys[0]);
      Js.DeleteGet(p, keys[0], k);
      DeleteAllGet(Js.Delete(p, keys[0]), keys[1..], k);
      if k !in keys[1..] && k != keys[0] {
        assert k !in keys;
      }
      if k == keys[0] && k in keys[1..] {
        DeleteAllGone(Js.Delete(p, keys[0]), keys[1..], k);
      }
    }
  }

  /** `DeleteAllGet` for every key at once; the result is again a well-formed object. */
  lemma DeleteAllReads(p: Js.Props, keys: seq<string>)
    requires Js.DistinctKeys(p)
    ensures Js.DistinctKeys(DeleteAll(p, keys))
    ensures forall k :: Js.Get(DeleteAll(p, keys), k) == if k in keys then None else Js.Get(p, k)
  {
    DeleteAllDistinct(p, keys);
    forall k
      ensures Js.Get(DeleteAll(p, keys), k) == if k in keys then None else Js.Get(p, k)
    {
      DeleteAllGet(p, keys, k);
    }
  }

  lemma {:induction false} DeleteAllDistinct(p: Js.Props, keys: seq<string>)
    requires Js.DistinctKeys(p)
    ensures Js.DistinctKeys(DeleteAll(p, keys))
    decreases |keys|
  {
    if |keys| > 0 {
      Js.DeleteDistinct(p, keys[0]);
      DeleteAllDistinct(Js.Delete(p, keys[0]), keys[1..]);
    }
  }

  lemma {:induction false} DeleteAllGone(p: Js.Props, keys: seq<string>, k: string)
    requires Js.DistinctKeys(p) && Js.Get(p, k) == None
    ensures Js.Get(DeleteAll(p, keys), k) == None
    decreases |keys|
  {
    if |keys| > 0 {
      Js.DeleteDistinct(p, keys[0]);
      Js.DeleteGet(p, keys[0], k);
      DeleteAllGone(Js.Delete(p, keys[0]), keys[1..], k);
    }
  }

  /** The client instance: its default common headers and its two interceptor pipelines. */
  class Axis {
    var commonHeaders: Js.Props
    var requestInterceptors: seq<Interceptor>
    var responseInterceptors: seq<Interceptor>

    /** The common headers form a JavaScript object: no key occurs twice. */
    predicate Valid()
      reads this
    {
      Js.DistinctKeys(commonHeaders)
    }

    /** `createAxis(config)`: `defaultHeaders` are the common headers the client starts with. */
    constructor (defaultHeaders: Js.Props)
      requires Js.DistinctKeys(defaultHeaders)
      ensures Valid()
      ensures commonHeaders == defaultHeaders
      ensures requestInterceptors == [] && responseInterceptors == []
    {
      commonHeaders := defaultHeaders;
      requestInterceptors := [];
      responseInterceptors := [];
    }

    /** `getHeaders()`: the live common headers, a well-formed object. */
    function GetHeaders(): (h: Js.Props)
      reads this
      ensures h == commonHeaders
      ensures Valid() ==> Js.DistinctKeys(h)
    {
      commonHeaders
    }

    /** `setHeader(key, value)`: afterwards `key` reads `value` and every other header reads as before. */
    method SetHeader(key: string, value: Js.JsValue)
      requires Valid()
      modifies this`commonHeaders
      ensures Valid()
      ensures commonHeaders == Js.Put(old(commonHeaders), key, value)
      ensures forall k :: Js.Get(commonHeaders, k) == if k == key then Some(value) else Js.Get(old(commonHeaders), k)
    {
      Js.PutDistinct(commonHeaders, key, value);
      commonHeaders := Js.Put(commonHeaders, key, value);
      forall k ensures Js.Get(commonHeaders, k) == if k == key then Some(value) else Js.Get(old(commonHeaders), k) {
        Js.PutGet(old(commonHeaders), key, value, k);
      }
    }

    /**
     * `removeHeader(key | keys)`: deletes the given keys, one after another.
     * Afterwards exactly the listed keys are absent and every other header reads
     * as before; a key that was not there is ignored.
     */
    method RemoveHeader(keys: HeaderKeys)
      requires Valid()
      modifies this`commonHeaders
      ensures Valid()
      ensures commonHeaders == DeleteAll(old(commonHeaders), KeysOf(keys))
      ensures forall k :: Js.Get(commonHeaders, k) == if k in KeysOf(keys) then None else Js.Get(old(commonHeaders), k)
    {
      var list := KeysOf(keys);
      var headers := commonHeaders;
      var i := 0;
      while i < |list|
        invariant 0 <= i <= |list|
        invariant headers == DeleteAll(old(commonHeaders), list[..i])
      {
        DeleteAllSnoc(old(commonHeaders), list[..i], list[i]);
        assert list[..i + 1] == list[..i] + [list[i]];
        headers := Js.Delete(headers, list[i]);
        i := i + 1;
      }
      assert list[..i] == list;
      DeleteAllReads(old(commonHeaders), list);
      commonHeaders := headers;
    }

    /** `useRequestInterceptor(...interceptors)`: each is registered once, in argument order. */
    method UseRequestInterceptor(interceptors: seq<Interceptor>)
      modifies this`requestInterceptors
      ensures requestInterceptors == old(requestInterceptors) + interceptors
    {
      var i := 0;
      while i < |interceptors|
        invariant 0 <= i <= |interceptors|
        invariant requestInterceptors == old(requestInterceptors) + interceptors[..i]
      {
        assert interceptors[..i + 1] == interceptors[..i] + [interceptors[i]];
        requestInterceptors := requestInterceptors + [interceptors[i]];
        i := i + 1;
      }
      assert interceptors[..i] == interceptors;
    }

    /** `useResponseInterceptor(...interceptors)`: each is registered once, in argument order. */
    method UseResponseInterceptor(interceptors: seq<Interceptor>)
      modifies this`responseInterceptors
      ensures responseInterceptors == old(responseInterceptors) + interceptors
    {
      var i := 0;
      while i < |interceptors|
        invariant 0 <= i <= |interceptors|
        invariant responseInterceptors == old(responseInterceptors) + interceptors[..i]
      {
        assert interceptors[..i + 1] == interceptors[..i] + [interceptors[i]];
        responseInterceptors := responseInterceptors + [interceptors[i]];
        i := i + 1;
      }
      assert interceptors[..i] == interceptors;
    }
  }
}
