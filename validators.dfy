/** Validation of incoming WebSocket messages (code/security/validators.py).
    A message is a JSON object; the pydantic models WebSocketMessage and
    TextData become functions that either produce the parsed value or the
    list of issues pydantic would report, and validate_message is the method
    that turns those issues into ValidationErrors. */
module Validators {
  import opened Wrappers
  import Text

  /** A JSON value as the message decoder delivers it. `Scalar` stands for
      numbers, booleans and JSON lists: none of them is a string or an
      object, so the validators only read their truthiness (an empty list
      is falsy, like 0 and false). */
  datatype Value = Null | Str(s: string) | Dict(entries: map<string, Value>) | Scalar(truthy: bool)

  /** Python truthiness. */
  predicate Truthy(v: Value)
  {
    match v
    case Null => false
    case Str(s) => s != ""
    case Dict(m) => m.Keys != {}
    case Scalar(t) => t
  }

  /** dict.get(key) with None for a missing key. */
  function Get(m: map<string, Value>, key: string): Value
  {
    if key in m then m[key] else Null
  }

  const MaxTextLength: nat := 5000
  const PreviewLength: nat := 100
  const AllowedTypes: seq<string> := ["audio", "text", "control"]

  /** What pydantic reports; its message wording is not modelled. */
  datatype ErrorKind = Missing | NotAllowedType | NotADict | NotAString | TooLong(length: nat)

  /** One pydantic error: its location path, its kind and the offending input. */
  datatype Issue = Issue(loc: seq<string>, kind: ErrorKind, input: Value)

  /** The error record handed back to the caller. `value` is the input as a
      string when the input is a string; None stands for the str() of any
      other value, whose rendering is not modelled. */
  datatype ValidationError = ValidationError(field: string, kind: ErrorKind, value: Option<string>)

  /** A message that passed the WebSocketMessage model. */
  datatype WsMessage = WsMessage(msgType: string, data: Value)

  /** The `type` field against Literal["audio", "text", "control"]. */
  function TypeIssues(message: map<string, Value>): (r: seq<Issue>)
    ensures |r| <= 1
    ensures r == [] <==> "type" in message && message["type"].Str? && message["type"].s in AllowedTypes
  {
    if "type" !in message then [Issue(["type"], Missing, Dict(message))]
    else
      var t := message["type"];
      if t.Str? && t.s in AllowedTypes then [] else [Issue(["type"], NotAllowedType, t)]
  }

  /** The `data` field against Optional[dict]. */
  function DataIssues(message: map<string, Value>): (r: seq<Issue>)
    ensures |r| <= 1
    ensures r == [] <==> Get(message, "data").Null? || Get(message, "data").Dict?
  {
    var d := Get(message, "data");
    if d.Null? || d.Dict? then [] else [Issue(["data"], NotADict, d)]
  }

  /** WebSocketMessage(**message): every field's issues, in declaration order. */
  function ParseMessage(message: map<string, Value>): (r: Result<WsMessage, seq<Issue>>)
    ensures r.Err? ==> r.error != []
    ensures r.Ok? ==> r.value.msgType in AllowedTypes && r.value.data == Get(message, "data")
    ensures r.Ok? <==> TypeIssues(message) == [] && DataIssues(message) == []
  {
    var issues := TypeIssues(message) + DataIssues(message);
    if issues == [] then Ok(WsMessage(message["type"].s, Get(message, "data")))
    else Err(issues)
  }

  /** TextData(text=v): a string of at most 5000 characters, handed back
      unchanged. The prompt-injection scan only logs and is not modelled. */
  function ParseText(v: Value): (r: Result<string, seq<Issue>>)
    ensures r.Ok? <==> v.Str? && |v.s| <= MaxTextLength
    ensures r.Ok? ==> r.value == v.s
    ensures r.Err? ==> |r.error| == 1 && r.error[0].loc == ["text"] && r.error[0].input == v
    ensures r.Err? && v.Str? ==> r.error[0].kind == TooLong(|v.s|)
  {
    if !v.Str? then Err([Issue(["text"], NotAString, v)])
    else if |v.s| > MaxTextLength then Err([Issue(["text"], TooLong(|v.s|), v)])
    else Ok(v.s)
  }

  /** The input as str() renders it, when that rendering is modelled. */
  function Shown(v: Value): Option<string>
  {
    if v.Str? then Some(v.s) else None
  }

  /** The first `n` characters, as s[:n]. */
  function Prefix(s: string, n: nat): (r: string)
    ensures |r| == Min(n, |s|) && r == s[..|r|]
  {
    if |s| <= n then s else s[..n]
  }

  /** Whether the message reaches the text check: a text message with non-empty
      data whose "text" entry is truthy. */
  predicate ChecksText(m: WsMessage)
  {
    m.msgType == "text" && m.data.Dict? && Truthy(m.data) && Truthy(Get(m.data.entries, "text"))
  }

  /** The acceptance rule stated on the message alone: an allowed type, data
      absent or an object, and, for a text message with a non-empty text
      entry, a string of at most 5000 characters. */
  predicate Acceptable(message: map<string, Value>)
  {
    var t := Get(message, "type");
    var d := Get(message, "data");
    t.Str? && t.s in AllowedTypes && (d.Null? || d.Dict?) &&
    (t.s == "text" && Truthy(d) && Truthy(Get(d.entries, "text")) ==>
      Get(d.entries, "text").Str? && |Get(d.entries, "text").s| <= MaxTextLength)
  }

  /** Turns the message-level issues into errors whose field is the dotted location. */
  method StructureErrors(issues: seq<Issue>) returns (errors: seq<ValidationError>)
    ensures |errors| == |issues|
    ensures forall j :: 0 <= j < |issues| ==>
      errors[j] == ValidationError(Text.Join(issues[j].loc, '.'), issues[j].kind, Shown(issues[j].input))
  {
    errors := [];
    for k := 0 to |issues|
      invariant |errors| == k
      invariant forall j :: 0 <= j < k ==>
        errors[j] == ValidationError(Text.Join(issues[j].loc, '.'), issues[j].kind, Shown(issues[j].input))
    {
      var issue := issues[k];
      errors := errors + [ValidationError(Text.Join(issue.loc, '.'), issue.kind, Shown(issue.input))];
    }
  }

  /** Turns the text issues into errors under "data.", with the input cut to 100 characters. */
  method TextErrors(issues: seq<Issue>) returns (errors: seq<ValidationError>)
    requires forall j :: 0 <= j < |issues| ==> issues[j].loc != []
    ensures |errors| == |issues|
    ensures forall j :: 0 <= j < |issues| ==>
      errors[j] == ValidationError("data." + issues[j].loc[0], issues[j].kind,
                                   if issues[j].input.Str? then Some(Prefix(issues[j].input.s, PreviewLength)) else None)
  {
    errors := [];
    for k := 0 to |issues|
      invariant |errors| == k
      invariant forall j :: 0 <= j < k ==>
        errors[j] == ValidationError("data." + issues[j].loc[0], issues[j].kind,
                                     if issues[j].input.Str? then Some(Prefix(issues[j].input.s, PreviewLength)) else None)
    {
      var issue := issues[k];
      var shown := if issue.input.Str? then Some(Prefix(issue.input.s, PreviewLength)) else None;
      errors := errors + [ValidationError("data." + issue.loc[0], issue.kind, shown)];
    }
  }

  /** validate_message: (True, []) for an acceptable message, (False, errors)
      with at least one error otherwise. A bad type is reported under "type"
      before any text check; an over-long text is reported once under "data.text". */
  method ValidateMessage(message: map<string, Value>) returns (ok: bool, errors: seq<ValidationError>)
    ensures ok <==> errors == []
    ensures ok <==> Acceptable(message)
    ensures TypeIssues(message) != [] ==> !ok && errors[0].field == "type"
    ensures ParseMessage(message).Err? ==> forall j :: 0 <= j < |errors| ==> errors[j].field in {"type", "data"}
    ensures ParseMessage(message).Ok? && ChecksText(ParseMessage(message).value) && Get(Get(message, "data").entries, "text").Str? && !ok ==>
      var s := Get(Get(message, "data").entries, "text").s;
      errors == [ValidationError("data.text", TooLong(|s|), Some(Prefix(s, PreviewLength)))]
  {
    var parsed := ParseMessage(message);
    if parsed.Err? {
      errors := StructureErrors(parsed.error);
      ok := false;
      return;
    }
    var ws := parsed.value;
    if ws.msgType == "text" && Truthy(ws.data) {
      var content := Get(ws.data.entries, "text");
      if Truthy(content) {
        var checked := ParseText(content);
        if checked.Err? {
          errors := TextErrors(checked.error);
          assert "data." + "text" == "data.text";
          ok := false;
          return;
        }
      }
    }
    ok, errors := true, [];
  }

  /** A text message is judged by its text's length alone: two texts of the
      same length (one holding an injection phrase, say) get the same verdict. */
  lemma SameLengthSameVerdict(a: string, b: string)
    requires |a| == |b| && a != "" && b != ""
    ensures Acceptable(map["type" := Str("text"), "data" := Dict(map["text" := Str(a)])])
        <==> Acceptable(map["type" := Str("text"), "data" := Dict(map["text" := Str(b)])])
    ensures Acceptable(map["type" := Str("text"), "data" := Dict(map["text" := Str(a)])]) <==> |a| <= MaxTextLength
  {
    var ma: map<string, Value> := map["type" := Str("text"), "data" := Dict(map["text" := Str(a)])];
    var mb: map<string, Value> := map["type" := Str("text"), "data" := Dict(map["text" := Str(b)])];
    assert Get(ma, "type") == Str("text") && Get(mb, "type") == Str("text");
    assert Get(Get(ma, "data").entries, "text") == Str(a);
    assert Get(Get(mb, "data").entries, "text") == Str(b);
  }

  /** Audio and control payloads, and messages without data, are accepted whatever they hold. */
  lemma UninspectedData(t: string, data: Value)
    requires t in AllowedTypes && (data.Null? || data.Dict?)
    requires t != "text" || data.Null?
    ensures Acceptable(map["type" := Str(t), "data" := data])
  {
    var m: map<string, Value> := map["type" := Str(t), "data" := data];
    assert Get(m, "type") == Str(t) && Get(m, "data") == data;
  }
}
