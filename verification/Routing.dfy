/** Which outer calls lead to which tool, told by their members: `transportEnvelope`,
    `decodeFunctionArguments` and `extractNativeClientToolCallIn` of internal/basispoints/protocol.go. */
module Routing {
  import opened Responses
  import opened Space
  import opened Catalog
  import opened Relay

  /** A call of the transport itself, whose arguments are this object or its text. */
  predicate Carries(codec: Codec, native: Item, arguments: Object) {
    && native.ToolItem? && !native.custom && native.name in {"run_officejs", "functions.run_officejs"}
    && (native.payload == Obj(arguments) || (native.payload.Str? && codec.parse(native.payload.s) == Ok(arguments)))
  }

  /** No references, or an empty list of them. */
  predicate WithoutReferences(arguments: Object) {
    "references" !in arguments || arguments["references"] == Arr([])
  }

  predicate ToolName(name: string) {
    name != "" && TrimSpace(name) == name && name !in {"run_officejs", "functions.run_officejs"}
  }

  /** Only a call of the transport leads anywhere. */
  lemma OnlyTransport(codec: Codec, native: Item)
    requires native.ToolItem? && TransportEnvelope(codec, native).Ok?
    ensures exists arguments :: Carries(codec, native, arguments)
  {
    hide CodeOf, LegacyEnvelope, Referable;
    var arguments := ParseRelayObject(codec, Some(native.payload)).value;
    assert Carries(codec, native, arguments);
  }

  /** The present form: one reference names the tool, the code is its payload. */
  lemma NewFormIff(codec: Codec, native: Item, arguments: Object, tool: string, code: string)
    requires Carries(codec, native, arguments)
    ensures TransportEnvelope(codec, native) == Ok(RelayCall(tool, Str(code), false)) <==>
              && !WithoutReferences(arguments) && arguments["references"] == Arr([Str(tool)]) && ToolName(tool)
              && "code" in arguments && arguments["code"] == Str(code)
  {
    hide TrimSpace;
    assert ParseRelayObject(codec, Some(native.payload)) == Ok(arguments);
    if WithoutReferences(arguments) {
      LegacyIsMarked(codec, arguments);
    } else if arguments["references"].Arr? && |arguments["references"].items| == 1 {
      assert arguments["references"].items == [arguments["references"].items[0]];
    }
  }

  lemma LegacyIsMarked(codec: Codec, arguments: Object)
    ensures "code" in arguments && arguments["code"].Str? && LegacyEnvelope(codec, arguments["code"].s).Ok? ==>
              LegacyEnvelope(codec, arguments["code"].s).value.legacy
  {
  }

  /** The older form: without references, the code is the text of an object with a tool name and arguments and
      nothing else. */
  lemma OldFormIff(codec: Codec, native: Item, arguments: Object, tool: string, args: Json)
    requires Carries(codec, native, arguments)
    ensures TransportEnvelope(codec, native) == Ok(RelayCall(tool, args, true)) <==>
              && WithoutReferences(arguments) && "code" in arguments && arguments["code"].Str?
              && codec.parse(arguments["code"].s) == Ok(map["tool" := Str(tool), "args" := args])
              && tool != "" && tool !in {"run_officejs", "functions.run_officejs"}
  {
    hide TrimSpace, Referable;
    assert ParseRelayObject(codec, Some(native.payload)) == Ok(arguments);
    if WithoutReferences(arguments) && "code" in arguments && arguments["code"].Str? {
      LegacyIff(codec, arguments["code"].s, tool, args);
    }
  }

  lemma LegacyIff(codec: Codec, code: string, tool: string, args: Json)
    ensures LegacyEnvelope(codec, code) == Ok(RelayCall(tool, args, true)) <==>
              && codec.parse(code) == Ok(map["tool" := Str(tool), "args" := args])
              && tool != "" && tool !in {"run_officejs", "functions.run_officejs"}
  {
    if codec.parse(code).Ok? {
      var envelope := codec.parse(code).value;
      if |envelope| == 2 && "tool" in envelope && "args" in envelope {
        TwoMembers(envelope);
        assert envelope == map["tool" := envelope["tool"], "args" := envelope["args"]];
      }
      assert |map["tool" := Str(tool), "args" := args]| == 2;
    }
  }

  lemma TwoMembers(m: Object)
    requires |m| == 2 && "tool" in m && "args" in m
    ensures m.Keys == {"tool", "args"}
  {
    assert |m.Keys - {"tool", "args"}| == 0;
  }

  /** Arguments are read from an object, from its text, or from a text that holds its text once more. */
  lemma DecodedIff(codec: Codec, value: Json, arguments: Object)
    ensures DecodeFunctionArguments(codec, value) == Ok(arguments) <==>
              || value == Obj(arguments)
              || (value.Str? && codec.parse(value.s) == Ok(arguments))
              || (value.Str? && codec.parse(value.s).Err? && exists inner ::
                    codec.unquote(TrimSpace(value.s)) == Some(inner) && inner != value.s && codec.parse(inner) == Ok(arguments))
  {
    hide TrimSpace;
  }

  /** The client's call that comes out of a native one: its id in the form of its kind, the call id kept, the
      name and namespace those of the tool's declaration. */
  lemma ExtractedShape(codec: Codec, native: Item, callable: map<string, ToolSpec>, declared: map<string, ToolSpec>)
    requires native.ToolItem? && WellFormed(callable) && Extract(codec, native, callable, declared).Ok?
    ensures var call, legacy := Extract(codec, native, callable, declared).value.call, Extract(codec, native, callable, declared).value.legacy;
            && TransportEnvelope(codec, native).Ok? && TransportEnvelope(codec, native).value.tool in callable
            && var relay, spec := TransportEnvelope(codec, native).value, callable[TransportEnvelope(codec, native).value.tool];
               && legacy == relay.legacy
               && call.ToolItem? && call.callId == native.callId && call.name == spec.name && call.namespace == spec.namespace
               && spec.tool.Callable? && call.custom == spec.tool.custom
               && (var id := if native.id != "" then native.id else if "fc_" <= native.callId then native.callId else "fc_" + native.callId;
                   if !call.custom then call.id == id && call.status == "completed"
                   else call.status == "" && call.id == "ctc_" + (if "fc_" <= id then id[3..] else id))
  {
    hide TransportEnvelope, DecodeFunctionArguments, SchemaMatches, TrimSpace, KeyOf;
    var spec := callable[TransportEnvelope(codec, native).value.tool];
    assert Formed(spec);
  }

  /** Why a well-formed outer call is refused: its tool is not offered this turn, or not known at all, or the
      call has no id. */
  lemma RefusedFor(codec: Codec, native: Item, callable: map<string, ToolSpec>, declared: map<string, ToolSpec>)
    requires native.ToolItem? && TransportEnvelope(codec, native).Ok?
    ensures var tool, result := TransportEnvelope(codec, native).value.tool, Extract(codec, native, callable, declared);
            && (tool !in callable && tool in declared ==> result == Err("tool_not_allowed_by_tool_choice"))
            && (tool !in callable && tool !in declared ==> result == Err("tool_not_in_catalog"))
            && (tool in callable && native.callId == "" ==> result == Err("missing_call_id"))
  {
    hide TransportEnvelope, DecodeFunctionArguments, SchemaMatches, TrimSpace;
  }

  /** The payload of a call in the client's history: texts to the letter, objects by their text, and nothing
      else; a custom tool's input must be a text. */
  lemma PayloadKept(codec: Codec, item: Item)
    requires item.ToolItem?
    ensures item.payload.Str? ==> HistoryPayload(codec, item) == Ok(item.payload.s)
    ensures item.payload.Obj? && !item.custom ==> HistoryPayload(codec, item) == Ok(codec.encode(item.payload.members))
    ensures HistoryPayload(codec, item).Err? <==> !item.payload.Str? && (item.custom || !item.payload.Obj?)
  {
  }
}
