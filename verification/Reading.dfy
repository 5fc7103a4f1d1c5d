/** What a decoded event means: how `consume` in internal/basispoints/stream_events.go reads the members of
    its JSON object, and how `response.go` reads a response. JSON text is read and written by a codec. */
module Reading {
  import opened Responses
  import opened Delivery
  import opened Space
  import opened Sse
  import opened Relay

  // ---------- members ----------

  function Member(value: Object, name: string): Json {
    if name in value then value[name] else Null
  }

  /** The trimmed text of a member, "" when it is missing or no string. */
  function TextMember(value: Object, name: string): string {
    TrimSpace(Member(value, name).Text())
  }

  /** The text of a member as it stands, if it is one. */
  function StringMember(value: Object, name: string): Option<string> {
    if Member(value, name).Str? then Some(Member(value, name).s) else None
  }

  function ObjectMember(value: Object, name: string): Object {
    if Member(value, name).Obj? then Member(value, name).members else map[]
  }

  function Elements(value: Json): seq<Json> {
    if value.Arr? then value.items else []
  }

  function DigitsValue(digits: string): Option<nat> {
    if digits == "" then None
    else
      var last, front := digits[|digits| - 1], digits[..|digits| - 1];
      if !('0' <= last <= '9') then None
      else if front == "" then Some(last as int - '0' as int)
      else
        match DigitsValue(front)
        case None => None
        case Some(n) => Some(10 * n + (last as int - '0' as int))
  }

  /** A number written as a 64-bit integer, without fraction or exponent. */
  function Int64(lexeme: string): Option<int> {
    var negative := lexeme != "" && lexeme[0] == '-';
    match DigitsValue(if negative then lexeme[1..] else lexeme)
    case None => None
    case Some(n) =>
      var i := (if negative then -1 else 1) * n;
      if -0x8000_0000_0000_0000 <= i < 0x8000_0000_0000_0000 then Some(i) else None
  }

  function IndexMember(value: Object, name: string): Option<int> {
    if Member(value, name).Number? then Int64(Member(value, name).lexeme) else None
  }

  // ---------- parts and items ----------

  function ReadLogs(codec: Codec, value: Object): LogField {
    if "logprobs" !in value then LogsAbsent
    else
      match value["logprobs"]
      case Null => LogsNull
      case Arr(items) => LogsList(seq(|items|, k requires 0 <= k < |items| => codec.write(items[k])))
      case other => LogsOther(codec.write(other))
  }

  function ReadPart(codec: Codec, value: Json): Part {
    match value
    case Obj(members) =>
      Part(if Member(members, "type").Str? then Some(TextMember(members, "type")) else None,
           StringMember(members, "text"), ReadLogs(codec, members),
           codec.write(Obj(members - {"type", "text", "logprobs"})))
    case _ => NotObject(codec.write(value))
  }

  function ReadParts(codec: Codec, values: seq<Json>): seq<Part> {
    seq(|values|, k requires 0 <= k < |values| => ReadPart(codec, values[k]))
  }

  function ReadItem(codec: Codec, value: Json): Item {
    match value
    case Obj(members) =>
      var id, status, kind := TextMember(members, "id"), TextMember(members, "status"), TextMember(members, "type");
      if kind == "message" then
        MessageItem(id, status, ReadParts(codec, Elements(Member(members, "content"))),
                    codec.write(Obj(members - {"type", "id", "status", "content"})))
      else if kind == "reasoning" then
        ReasoningItem(id,
                      if Member(members, "summary").Arr? then Some(ReadParts(codec, Member(members, "summary").items)) else None,
                      StringMember(members, "encrypted_content"),
                      codec.write(Obj(members - {"type", "id", "summary", "encrypted_content"})))
      else if kind == "function_call" || kind == "custom_tool_call" then
        var payload := if kind == "function_call" then "arguments" else "input";
        ToolItem(kind == "custom_tool_call", id, TextMember(members, "call_id"), TextMember(members, "name"),
                 TextMember(members, "namespace"), Member(members, payload), status,
                 codec.write(Obj(members - {"type", "id", "call_id", "name", "namespace", payload, "status"})))
      else OtherItem(id, kind, codec.write(Obj(members - {"type", "id"})))
    case _ => NonObject(codec.write(value))
  }

  function ReadItems(codec: Codec, values: seq<Json>): seq<Item> {
    seq(|values|, k requires 0 <= k < |values| => ReadItem(codec, values[k]))
  }

  function ReadResponse(codec: Codec, value: Object): Response {
    Response(TextMember(value, "id"), TextMember(value, "status"), ReadItems(codec, Elements(Member(value, "output"))),
             codec.write(Obj(value - {"id", "status", "output"})))
  }

  // ---------- events ----------

  predicate IsFailureKind(kind: string) {
    kind in {"response.failed", "response.cancelled", "error"}
  }

  predicate IsTerminalKind(kind: string) {
    kind in {"response.completed", "response.incomplete"}
  }

  predicate IsItemKind(kind: string) {
    kind in {"response.output_item.added", "response.output_item.done"}
  }

  predicate IsSummaryKind(kind: string) {
    kind in {"response.reasoning_summary_part.added", "response.reasoning_summary_part.done",
             "response.reasoning_summary_text.delta", "response.reasoning_summary_text.done"}
  }

  predicate IsContentKind(kind: string) {
    kind in {"response.content_part.added", "response.content_part.done",
             "response.output_text.delta", "response.output_text.done"}
  }

  /** The kind of an event: its own, or else the name it was sent under. */
  function KindOf(value: Object, name: string): string {
    if TextMember(value, "type") != "" then TextMember(value, "type") else name
  }

  predicate IsDone(m: Message) {
    TrimSpace(m.data) == "[DONE]"
  }

  function ReadItemEvent(codec: Codec, kind: string, value: Object): Upstream {
    var item := ReadItem(codec, Member(value, "item"));
    if !item.MessageItem? && !item.ReasoningItem? then Ignored
    else
      match IndexMember(value, "output_index")
      case None => Unnumbered
      case Some(i) => Output(if kind == "response.output_item.added" then ItemAdded(i, item) else ItemDone(i, item))
  }

  function ReadPartEvent(codec: Codec, ch: Channel, kind: string, value: Object): Upstream {
    var index, part := IndexMember(value, "output_index"), IndexMember(value, if ch == Content then "content_index" else "summary_index");
    if index.None? || part.None? then Unnumbered
    else
      var i, k, id := index.value, part.value, TextMember(value, "item_id");
      if kind in {"response.content_part.added", "response.reasoning_summary_part.added"} then
        Output(PartAdded(ch, i, k, id, ReadPart(codec, Member(value, "part"))))
      else if kind in {"response.output_text.delta", "response.reasoning_summary_text.delta"} then
        Output(TextDelta(ch, i, k, id, StringMember(value, "delta"), ReadLogs(codec, value)))
      else if kind in {"response.output_text.done", "response.reasoning_summary_text.done"} then
        Output(TextDone(ch, i, k, id, StringMember(value, "text"), ReadLogs(codec, value)))
      else Output(PartDone(ch, i, k, id, ReadPart(codec, Member(value, "part"))))
  }

  /** What an event is to the delivery machine. A failure keeps its object as its reason. */
  function Classify(codec: Codec, m: Message): Upstream {
    if IsDone(m) then DoneMarker
    else
      match codec.parse(m.data)
      case Err(_) => BadJson
      case Ok(value) =>
        var kind := KindOf(value, m.event);
        if IsFailureKind(kind) then Failure(codec.encode(value))
        else if IsTerminalKind(kind) then Terminal
        else if kind == "response.created" || kind == "response.in_progress" then
          Meta(TextMember(ObjectMember(value, "response"), "id"))
        else if IsItemKind(kind) then ReadItemEvent(codec, kind, value)
        else if IsSummaryKind(kind) then ReadPartEvent(codec, Summary, kind, value)
        else if IsContentKind(kind) then ReadPartEvent(codec, Content, kind, value)
        else Ignored
  }

  function Classified(codec: Codec, messages: seq<Message>): seq<Upstream> {
    seq(|messages|, k requires 0 <= k < |messages| => Classify(codec, messages[k]))
  }

  /** Whatever is handed on is about a message or a reasoning item, numbered by 64-bit integers; an item is
      never one that could carry a tool call. */
  lemma OutputIsProgress(codec: Codec, m: Message)
    requires Classify(codec, m).Output?
    ensures Progress(Classify(codec, m).ev) && Classify(codec, m).ev.OutputIndex().Some?
  {
    hide ReadItemEvent, ReadPartEvent, IsDone, KindOf, IsFailureKind, IsTerminalKind, IsItemKind, IsSummaryKind, IsContentKind, Progress,
      Event.OutputIndex;
    var value := codec.parse(m.data).value;
    ItemEventIsProgress(codec, KindOf(value, m.event), value);
    PartEventIsProgress(codec, Summary, KindOf(value, m.event), value);
    PartEventIsProgress(codec, Content, KindOf(value, m.event), value);
  }

  lemma ItemEventIsProgress(codec: Codec, kind: string, value: Object)
    ensures var u := ReadItemEvent(codec, kind, value); u.Output? ==> Progress(u.ev) && u.ev.OutputIndex().Some?
  {
    hide ReadItem, Int64;
  }

  lemma PartEventIsProgress(codec: Codec, ch: Channel, kind: string, value: Object)
    ensures var u := ReadPartEvent(codec, ch, kind, value); u.Output? ==> Progress(u.ev) && u.ev.OutputIndex().Some?
  {
    hide ReadPart, ReadLogs, TextMember, StringMember, Int64;
  }
}
