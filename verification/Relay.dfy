/** The tool relay of internal/basispoints/protocol.go: how a native `run_officejs` call is turned into a
    call of a client tool, and how a client's call is rebuilt as a native one. JSON text is read and written
    by the functions of a codec. */
module Relay {
  import opened Responses
  import opened Catalog
  import Space

  // ---------- JSON text ----------

  type Object = map<string, Json>

  /** `parse` reads a text that holds exactly one JSON object, or says why it does not; `unquote` reads one
      JSON string; `write` is the JSON text of any value, `show` the printed form in which enumeration values
      are compared. */
  datatype Codec = Codec(
    encode: Object -> string,
    parse: string -> Result<Object, string>,
    unquote: string -> Option<string>,
    write: Json -> string,
    show: Json -> string)

  /** Reading an object back from its own text. */
  predicate ReadsBack(codec: Codec, members: Object) {
    codec.parse(codec.encode(members)) == Ok(members)
  }

  function ParseRelayObject(codec: Codec, value: Option<Json>): Result<Object, string> {
    match value
    case Some(Obj(members)) => Ok(members)
    case Some(Str(text)) => codec.parse(text)
    case _ => Err("not_object_or_json_string")
  }

  function Get(members: Object, name: string): Option<Json> {
    if name in members then Some(members[name]) else None
  }

  /** Arguments of a function: an object, its text, or once more a string that holds its text. */
  function DecodeFunctionArguments(codec: Codec, value: Json): Result<Object, string> {
    var direct := ParseRelayObject(codec, Some(value));
    if direct.Ok? || !value.Str? then direct
    else
      match codec.unquote(Space.TrimSpace(value.s))
      case None => direct
      case Some(inner) =>
        if inner == value.s then direct
        else if codec.parse(inner).Ok? then codec.parse(inner)
        else direct
  }

  // ---------- the outer call ----------

  const TRANSPORT_NAME := "run_officejs"
  const TRANSPORT_ALIAS := "functions.run_officejs"

  predicate IsTransportName(name: string) {
    name == TRANSPORT_NAME || name == TRANSPORT_ALIAS
  }

  datatype RelayCall = RelayCall(tool: string, payload: Json, legacy: bool)

  /** The name of exactly one client tool. */
  predicate Referable(name: string) {
    Space.TrimSpace(name) != "" && name == Space.TrimSpace(name) && !IsTransportName(name)
  }

  function TransportEnvelope(codec: Codec, native: Item): Result<RelayCall, string>
    requires native.ToolItem?
  {
    if native.custom || !IsTransportName(native.name) then Err("outer_not_transport")
    else
      match ParseRelayObject(codec, Some(native.payload))
      case Err(reason) => Err("outer_arguments " + reason)
      case Ok(arguments) =>
        var references := Get(arguments, "references");
        if references.Some? && references.value != Arr([]) then
          if !references.value.Arr? || |references.value.items| != 1 then Err("references_invalid")
          else
            var name := references.value.items[0];
            if !name.Str? || !Referable(name.s) then Err("references_invalid")
            else CodeOf(arguments, name.s)
        else
          match Get(arguments, "code")
          case Some(Str(code)) => LegacyEnvelope(codec, code)
          case _ => Err("code_not_string")
  }

  function CodeOf(arguments: Object, tool: string): Result<RelayCall, string> {
    match Get(arguments, "code")
    case Some(Str(code)) => Ok(RelayCall(tool, Str(code), false))
    case _ => Err("code_not_string")
  }

  /** The older form: the code is an object with exactly a tool name and its arguments. */
  function LegacyEnvelope(codec: Codec, code: string): Result<RelayCall, string> {
    match codec.parse(code)
    case Err(reason) => Err("code " + reason)
    case Ok(envelope) =>
      var name := Get(envelope, "tool");
      if name.None? || !name.value.Str? || name.value.s == "" || IsTransportName(name.value.s)
         || "args" !in envelope || |envelope| != 2 then Err("legacy_envelope_invalid")
      else Ok(RelayCall(name.value.s, envelope["args"], true))
  }

  // ---------- parameter schemas ----------

  function Members(value: Option<Json>): Option<Object> {
    match value
    case Some(Obj(members)) => Some(members)
    case _ => None
  }

  /** Whether a value has a type that a schema may name; other type names admit everything. */
  predicate HasType(value: Json, name: string) {
    match name
    case "object" => value.Obj?
    case "array" => value.Arr?
    case "string" => value.Str?
    case "integer" => value.Number?
    case "number" => value.Number?
    case "boolean" => value.Bool?
    case "null" => value.Null?
    case _ => true
  }

  predicate InEnum(codec: Codec, value: Json, options: Option<Json>) {
    match options
    case Some(Arr(items)) => items != [] ==> exists k :: 0 <= k < |items| && codec.show(items[k]) == codec.show(value)
    case _ => true
  }

  /** `schemaMatches`; `kind` is the schema's `type`, of which a list offers alternatives. */
  predicate SchemaMatches(codec: Codec, value: Json, schema: Object)
    decreases Obj(schema), 2, Null
  {
    schema == map[] || MatchesKind(codec, value, schema, Get(schema, "type").GetOr(Null))
  }

  predicate MatchesKind(codec: Codec, value: Json, schema: Object, kind: Json)
    decreases Obj(schema), 1, kind
  {
    if kind.Arr? then
      exists k :: 0 <= k < |kind.items| && MatchesKind(codec, value, schema, kind.items[k])
    else
      var name := Space.TrimSpace(kind.Text());
      && HasType(value, name)
      && (name == "object" ==> MatchesObject(codec, value.members, schema))
      && (name == "array" && Members(Get(schema, "items")).Some? ==>
            forall k | 0 <= k < |value.items| :: SchemaMatches(codec, value.items[k], Members(Get(schema, "items")).value))
      && InEnum(codec, value, Get(schema, "enum"))
  }

  predicate MatchesObject(codec: Codec, members: Object, schema: Object)
    decreases Obj(schema), 0, Null
  {
    && (Get(schema, "required").Some? && schema["required"].Arr? ==>
          forall k | 0 <= k < |schema["required"].items| :: Space.TrimSpace(schema["required"].items[k].Text()) in members)
    && (Members(Get(schema, "properties")).Some? ==>
          var properties := schema["properties"].members;
          forall name | name in members ::
            if name in properties && properties[name].Obj? then SchemaMatches(codec, members[name], properties[name].members)
            else Get(schema, "additionalProperties") != Some(Bool(false)))
  }

  /** Apart from `type`, a change of that keyword leaves every keyword as it was. */
  lemma ObjectIsSeparate(codec: Codec, members: Object, schema: Object, other: Json)
    ensures MatchesObject(codec, members, schema) == MatchesObject(codec, members, schema["type" := other])
  {
    hide SchemaMatches;
    var changed := schema["type" := other];
    assert Get(changed, "required") == Get(schema, "required");
    assert Get(changed, "properties") == Get(schema, "properties");
    assert Get(changed, "additionalProperties") == Get(schema, "additionalProperties");
  }

  /** Only the `type` keyword is read through `kind`. */
  lemma {:induction false} KindIsSeparate(codec: Codec, value: Json, schema: Object, kind: Json, other: Json)
    ensures MatchesKind(codec, value, schema, kind) == MatchesKind(codec, value, schema["type" := other], kind)
    decreases kind
  {
    hide SchemaMatches, MatchesObject, HasType, InEnum;
    var changed := schema["type" := other];
    if kind.Arr? {
      forall k | 0 <= k < |kind.items|
        ensures MatchesKind(codec, value, schema, kind.items[k]) == MatchesKind(codec, value, changed, kind.items[k])
      {
        KindIsSeparate(codec, value, schema, kind.items[k], other);
      }
    } else {
      assert Get(changed, "items") == Get(schema, "items") && Get(changed, "enum") == Get(schema, "enum");
      if value.Obj? {
        ObjectIsSeparate(codec, value.members, schema, other);
      }
      assert HasType(value, "object") ==> value.Obj? by {
        ObjectsHaveMembers(value);
      }
    }
  }

  lemma ObjectsHaveMembers(value: Json)
    ensures HasType(value, "object") <==> value.Obj?
    ensures HasType(value, "array") <==> value.Arr?
  {
  }

  /** A list of types admits what any schema with one of its types alone admits. */
  lemma TypeListOffersAlternatives(codec: Codec, value: Json, schema: Object, kinds: seq<Json>)
    requires Get(schema, "type") == Some(Arr(kinds))
    ensures SchemaMatches(codec, value, schema) <==>
              exists k :: 0 <= k < |kinds| && SchemaMatches(codec, value, schema["type" := kinds[k]])
  {
    assert "type" in schema;
    forall k | 0 <= k < |kinds|
      ensures SchemaMatches(codec, value, schema["type" := kinds[k]]) == MatchesKind(codec, value, schema, kinds[k])
    {
      KindIsSeparate(codec, value, schema, kinds[k], kinds[k]);
      assert Get(schema["type" := kinds[k]], "type") == Some(kinds[k]);
      assert "type" in schema["type" := kinds[k]];
    }
    assert MatchesKind(codec, value, schema, Arr(kinds)) <==>
             exists k :: 0 <= k < |kinds| && MatchesKind(codec, value, schema, kinds[k]);
  }

  // ---------- extraction ----------

  function FunctionItemId(callId: string): string {
    if callId == "" then "" else if "fc_" <= callId then callId else "fc_" + callId
  }

  function WithoutPrefix(s: string, prefix: string): string {
    if prefix <= s then s[|prefix|..] else s
  }

  datatype Extracted = Extracted(call: Item, legacy: bool)

  /** `extractNativeClientToolCallIn`. */
  function Extract(codec: Codec, native: Item, callable: map<string, ToolSpec>, declared: map<string, ToolSpec>)
    : Result<Extracted, string>
    requires native.ToolItem?
  {
    match TransportEnvelope(codec, native)
    case Err(reason) => Err(reason)
    case Ok(relay) =>
      if relay.tool !in callable then
        Err(if relay.tool in declared then "tool_not_allowed_by_tool_choice" else "tool_not_in_catalog")
      else if native.callId == "" then Err("missing_call_id")
      else
        match ExtractCall(codec, native, relay, callable[relay.tool])
        case Err(reason) => Err(reason)
        case Ok(call) => Ok(Extracted(call, relay.legacy))
  }

  function ExtractCall(codec: Codec, native: Item, relay: RelayCall, spec: ToolSpec): Result<Item, string>
    requires native.ToolItem?
  {
    var id := if native.id != "" then native.id else FunctionItemId(native.callId);
    var name := spec.name;
    if spec.tool.Callable? && spec.tool.custom then
      if !relay.payload.Str? then Err("custom_args_not_string")
      else Ok(ToolItem(true, "ctc_" + WithoutPrefix(id, "fc_"), native.callId, name, spec.namespace, relay.payload, "", ""))
    else
      match DecodeFunctionArguments(codec, relay.payload)
      case Err(reason) => Err((if relay.legacy then "arguments " else "code ") + reason)
      case Ok(arguments) =>
        var schema := if spec.tool.Callable? then spec.tool.schema else map[];
        if !SchemaMatches(codec, Obj(arguments), schema) then Err("arguments_schema_mismatch")
        else Ok(ToolItem(false, id, native.callId, name, spec.namespace, Str(codec.encode(arguments)), "completed", ""))
  }

  // ---------- rebuilding history ----------

  function Outer(name: string, payload: string): Object {
    map["summary" := Str("Run client tool " + name),
        "extended_summary" := Str("Relay " + name + " through the external client"),
        "code" := Str(payload),
        "destructive" := Bool(false),
        "references" := Arr([Str(name)])]
  }

  /** The payload text of a call in the client's history; strings are kept as they are. */
  function HistoryPayload(codec: Codec, item: Item): Result<string, string>
    requires item.ToolItem?
  {
    if item.payload.Str? then Ok(item.payload.s)
    else if item.custom then Err("custom tool input must be a string")
    else if item.payload.Obj? then Ok(codec.encode(item.payload.members))
    else Err("function arguments must be a string or a JSON object")
  }

  /** `fallbackTransportCall`; `generated` stands for the call id made up when the item has none. */
  function Rebuild(codec: Codec, item: Item, generated: string): Result<Item, string>
    requires item.ToolItem?
  {
    match HistoryPayload(codec, item)
    case Err(reason) => Err(reason)
    case Ok(payload) =>
      var callId := if item.callId != "" then item.callId else generated;
      Ok(ToolItem(false, FunctionItemId(callId), callId, TRANSPORT_NAME, "",
                  Str(codec.encode(Outer(KeyOf(item.namespace, item.name), payload))), "completed", ""))
  }

  /** A rebuilt call leads back to the tool it names, with the payload unchanged, exactly when the name can
      be referred to; whatever text the payload is. */
  lemma EnvelopeOfRebuilt(codec: Codec, item: Item, generated: string)
    requires item.ToolItem? && Rebuild(codec, item, generated).Ok?
    requires ReadsBack(codec, Outer(KeyOf(item.namespace, item.name), HistoryPayload(codec, item).value))
    ensures var key := KeyOf(item.namespace, item.name);
            TransportEnvelope(codec, Rebuild(codec, item, generated).value)
            == if Referable(key) then Ok(RelayCall(key, Str(HistoryPayload(codec, item).value), false)) else Err("references_invalid")
  {
    hide Referable, KeyOf, HistoryPayload, Outer, CodeOf, LegacyEnvelope;
    OuterRefers(KeyOf(item.namespace, item.name), HistoryPayload(codec, item).value);
  }

  lemma OuterRefers(key: string, payload: string)
    ensures var outer := Outer(key, payload);
            && Get(outer, "references") == Some(Arr([Str(key)])) && Get(outer, "code") == Some(Str(payload))
            && CodeOf(outer, key) == Ok(RelayCall(key, Str(payload), false))
  {
  }

  // ---------- round trip ----------

  /** An extracted call names a tool of the callable catalog, by a name that can be referred to. */
  lemma ExtractedIsCallable(codec: Codec, native: Item, callable: map<string, ToolSpec>, declared: map<string, ToolSpec>)
    requires native.ToolItem? && WellFormed(callable)
    requires Extract(codec, native, callable, declared).Ok?
    ensures var call := Extract(codec, native, callable, declared).value.call;
            && call.ToolItem? && call.callId == native.callId != ""
            && var key := KeyOf(call.namespace, call.name);
               && key in callable && Referable(key)
               && TransportEnvelope(codec, native).Ok? && TransportEnvelope(codec, native).value.tool == key
               && callable[key].tool.Callable? && callable[key].namespace == call.namespace && callable[key].name == call.name
               && callable[key].tool.custom == call.custom
  {
    hide SchemaMatches, DecodeFunctionArguments, TransportEnvelope, Space.TrimSpace, KeyOf, IsTransportName;
    var relay := TransportEnvelope(codec, native).value;
    var spec := callable[relay.tool];
    TrimmedKey(spec.namespace, spec.name);
    EnvelopeNames(codec, native);
  }

  lemma EnvelopeNames(codec: Codec, native: Item)
    requires native.ToolItem? && TransportEnvelope(codec, native).Ok?
    ensures !IsTransportName(TransportEnvelope(codec, native).value.tool) && TransportEnvelope(codec, native).value.tool != ""
  {
    assert Space.TrimSpace("") == "";
  }

  /** The arguments handed to a function tool are the text of an object that fits the tool's schema, the
      one the native call decodes to; a custom tool gets its input as it stands. */
  lemma PayloadFitsTool(codec: Codec, native: Item, callable: map<string, ToolSpec>, declared: map<string, ToolSpec>)
    requires native.ToolItem? && WellFormed(callable)
    requires Extract(codec, native, callable, declared).Ok?
    ensures var call, relay := Extract(codec, native, callable, declared).value.call, TransportEnvelope(codec, native);
            && call.ToolItem? && relay.Ok? && relay.value.tool in callable
            && var tool := callable[relay.value.tool].tool;
               && tool.Callable?
               && (tool.custom ==> call.payload == relay.value.payload && call.payload.Str?)
               && (!tool.custom ==>
                     var arguments := DecodeFunctionArguments(codec, relay.value.payload);
                     && arguments.Ok? && SchemaMatches(codec, Obj(arguments.value), tool.schema)
                     && call.payload == Str(codec.encode(arguments.value)))
  {
    hide SchemaMatches, TransportEnvelope, DecodeFunctionArguments, KeyOf, ExtractCall;
    var relay := TransportEnvelope(codec, native).value;
    CallFitsTool(codec, native, relay, callable[relay.tool]);
  }

  lemma CallFitsTool(codec: Codec, native: Item, relay: RelayCall, spec: ToolSpec)
    requires native.ToolItem? && spec.tool.Callable? && ExtractCall(codec, native, relay, spec).Ok?
    ensures var call, tool := ExtractCall(codec, native, relay, spec).value, spec.tool;
            && call.ToolItem?
            && (tool.custom ==> call.payload == relay.payload && call.payload.Str?)
            && (!tool.custom ==>
                  var arguments := DecodeFunctionArguments(codec, relay.payload);
                  && arguments.Ok? && SchemaMatches(codec, Obj(arguments.value), tool.schema)
                  && call.payload == Str(codec.encode(arguments.value)))
  {
    hide SchemaMatches, DecodeFunctionArguments;
  }

  /** The call as it comes back: under the item id that belongs to its call id. */
  function Returned(call: Item): Item
    requires call.ToolItem?
  {
    var id := FunctionItemId(call.callId);
    ToolItem(call.custom, if call.custom then "ctc_" + WithoutPrefix(id, "fc_") else id, call.callId, call.name, call.namespace,
             call.payload, call.status, call.rest)
  }

  /** What the codec has to read back for one extracted call. */
  predicate Faithful(codec: Codec, native: Item, call: Item)
    requires native.ToolItem? && call.ToolItem?
  {
    && ReadsBack(codec, Outer(KeyOf(call.namespace, call.name), call.payload.Text()))
    && (!call.custom && TransportEnvelope(codec, native).Ok? ==>
          var arguments := DecodeFunctionArguments(codec, TransportEnvelope(codec, native).value.payload);
          arguments.Ok? ==> ReadsBack(codec, arguments.value))
  }

  lemma ExtractCallAgain(codec: Codec, native: Item, relay: RelayCall, spec: ToolSpec, call: Item, rebuilt: Item)
    requires native.ToolItem? && rebuilt.ToolItem? && spec.tool.Callable?
    requires ExtractCall(codec, native, relay, spec) == Ok(call)
    requires rebuilt.callId == call.callId && rebuilt.id == FunctionItemId(call.callId) && rebuilt.id != ""
    requires call.ToolItem? && !call.custom ==>
               var arguments := DecodeFunctionArguments(codec, relay.payload); arguments.Ok? ==> ReadsBack(codec, arguments.value)
    ensures call.ToolItem? && call.payload.Str?
    ensures ExtractCall(codec, rebuilt, RelayCall(relay.tool, call.payload, false), spec) == Ok(Returned(call))
  {
    hide SchemaMatches, FunctionItemId, WithoutPrefix;
  }

  /** A call that was extracted can be rebuilt as history and extracted again: the same tool, name,
      namespace, call id, status and payload come back, to the byte, and never as the older form. From then
      on it does not change any more. */
  lemma ExtractRebuildExtract(codec: Codec, native: Item, callable: map<string, ToolSpec>, declared: map<string, ToolSpec>,
      generated: string, x: Extracted, rebuilt: Item)
    requires native.ToolItem? && WellFormed(callable)
    requires Extract(codec, native, callable, declared) == Ok(x)
    requires x.call.ToolItem? && Faithful(codec, native, x.call)
    requires Rebuild(codec, x.call, generated) == Ok(rebuilt)
    ensures rebuilt.ToolItem? && Extract(codec, rebuilt, callable, declared) == Ok(Extracted(Returned(x.call), false))
    ensures Rebuild(codec, Returned(x.call), generated) == Ok(rebuilt)
  {
    hide SchemaMatches, TransportEnvelope, DecodeFunctionArguments, Outer, KeyOf, Referable, ExtractCall, WellFormed, ReadsBack;
    ExtractedIsCallable(codec, native, callable, declared);
    var key := KeyOf(x.call.namespace, x.call.name);
    var relay := TransportEnvelope(codec, native).value;
    ExtractCallAgain(codec, native, relay, callable[key], x.call, rebuilt);
    EnvelopeOfRebuilt(codec, x.call, generated);
  }

  /** An extracted call can always be rebuilt. */
  lemma ExtractedRebuilds(codec: Codec, native: Item, callable: map<string, ToolSpec>, declared: map<string, ToolSpec>,
      generated: string)
    requires native.ToolItem? && Extract(codec, native, callable, declared).Ok?
    ensures var call := Extract(codec, native, callable, declared).value.call;
            call.ToolItem? && Rebuild(codec, call, generated).Ok?
  {
    hide SchemaMatches, TransportEnvelope, DecodeFunctionArguments, Outer, KeyOf;
  }
}
