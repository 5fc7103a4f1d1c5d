/** The JSON objects that events, responses, items and parts travel as, with the member names of the events
    that internal/basispoints/protocol.go itself writes; and that reading them gives back what was written. */
module Writing {
  import opened Responses
  import opened Delivery
  import opened Space
  import opened Sse
  import opened Relay
  import opened Reading

  /** What the model keeps as text only, it was read from some JSON value: `values` tells which. */
  type Values = string -> Json

  /** The text of a value that stands for it. */
  predicate Stands(codec: Codec, values: Values, text: string) {
    codec.write(values(text)) == text
  }

  // ---------- numbers ----------

  function Decimal(n: nat): string {
    if n < 10 then [(n + '0' as int) as char] else Decimal(n / 10) + [(n % 10 + '0' as int) as char]
  }

  function Lexeme(i: int): string {
    if i < 0 then "-" + Decimal(-i) else Decimal(i)
  }

  lemma {:induction false} DecimalReads(n: nat)
    ensures Decimal(n) != "" && '0' <= Decimal(n)[0] <= '9' && DigitsValue(Decimal(n)) == Some(n)
  {
    if n >= 10 {
      DecimalReads(n / 10);
      var digits := Decimal(n);
      assert digits[..|digits| - 1] == Decimal(n / 10);
    }
  }

  /** Whole numbers of 64 bits are read back. */
  lemma LexemeReads(i: int)
    requires -0x8000_0000_0000_0000 <= i < 0x8000_0000_0000_0000
    ensures Int64(Lexeme(i)) == Some(i)
  {
    hide Decimal, DigitsValue;
    DecimalReads(if i < 0 then -i else i);
    assert i < 0 ==> Lexeme(i)[1..] == Decimal(-i);
  }

  /** And nothing but such numbers is read as one: digits alone, perhaps behind a minus sign, within range. */
  lemma Int64Exactly(lexeme: string)
    ensures Int64(lexeme).Some? ==>
              && -0x8000_0000_0000_0000 <= Int64(lexeme).value < 0x8000_0000_0000_0000
              && lexeme != "" && ('0' <= lexeme[0] <= '9' || lexeme[0] == '-')
              && forall k | 1 <= k < |lexeme| :: '0' <= lexeme[k] <= '9'
  {
    if Int64(lexeme).Some? {
      DigitsOnly(if lexeme[0] == '-' then lexeme[1..] else lexeme);
      assert lexeme[0] == '-' ==> forall k | 1 <= k < |lexeme| :: lexeme[k] == lexeme[1..][k - 1];
    }
  }

  lemma {:induction false} DigitsOnly(digits: string)
    requires DigitsValue(digits).Some?
    ensures digits != "" && forall k | 0 <= k < |digits| :: '0' <= digits[k] <= '9'
  {
    if |digits| > 1 {
      DigitsOnly(digits[..|digits| - 1]);
    }
  }

  // ---------- parts ----------

  /** The members that are only copied. */
  function Rest(values: Values, rest: string): Object {
    if values(rest).Obj? then values(rest).members else map[]
  }

  predicate RestOk(codec: Codec, values: Values, rest: string, names: set<string>) {
    values(rest).Obj? && Stands(codec, values, rest) && values(rest).members.Keys !! names
  }

  function With(members: Object, name: string, value: Option<Json>): Object {
    if value.Some? then members[name := value.value] else members
  }

  function TextJson(text: Option<string>): Option<Json> {
    if text.Some? then Some(Str(text.value)) else None
  }

  function LogsJson(values: Values, logs: LogField): Option<Json> {
    match logs
    case LogsAbsent => None
    case LogsNull => Some(Null)
    case LogsOther(json) => Some(values(json))
    case LogsList(entries) => Some(Arr(seq(|entries|, k requires 0 <= k < |entries| => values(entries[k]))))
  }

  predicate LogsOk(codec: Codec, values: Values, logs: LogField) {
    match logs
    case LogsOther(json) => Stands(codec, values, json) && !values(json).Null? && !values(json).Arr?
    case LogsList(entries) => forall k | 0 <= k < |entries| :: Stands(codec, values, entries[k])
    case _ => true
  }

  function PartMembers(values: Values, part: Part): Object
    requires part.Part?
  {
    var kind, text, logs := TextJson(part.kind), TextJson(part.text), LogsJson(values, part.logs);
    With(With(With(Rest(values, part.rest), "type", kind), "text", text), "logprobs", logs)
  }

  function PartJson(values: Values, part: Part): Json {
    match part
    case NotObject(json) => values(json)
    case Part(_, _, _, _) => Obj(PartMembers(values, part))
  }

  predicate PartOk(codec: Codec, values: Values, part: Part) {
    match part
    case NotObject(json) => Stands(codec, values, json) && !values(json).Obj?
    case Part(kind, _, logs, rest) =>
      && (kind.Some? ==> Trimmed(kind.value)) && LogsOk(codec, values, logs)
      && RestOk(codec, values, rest, {"type", "text", "logprobs"})
  }

  lemma LogsReadBack(codec: Codec, values: Values, members: Object, logs: LogField)
    requires LogsOk(codec, values, logs)
    requires Get(members, "logprobs") == LogsJson(values, logs)
    ensures ReadLogs(codec, members) == logs
  {
    if logs.LogsList? {
      assert ReadLogs(codec, members).entries == logs.entries;
    }
  }

  lemma RestLeft(members: Object, a: Option<Json>, b: Option<Json>, c: Option<Json>)
    requires members.Keys !! {"type", "text", "logprobs"}
    ensures var m := With(With(With(members, "type", a), "text", b), "logprobs", c);
            && Get(m, "type") == a && Get(m, "text") == b && Get(m, "logprobs") == c
            && m - {"type", "text", "logprobs"} == members
  {
  }

  lemma PartReadBack(codec: Codec, values: Values, part: Part)
    requires PartOk(codec, values, part)
    ensures ReadPart(codec, PartJson(values, part)) == part
  {
    if part.Part? {
      var kind, text, logs := TextJson(part.kind), TextJson(part.text), LogsJson(values, part.logs);
      RestLeft(Rest(values, part.rest), kind, text, logs);
      LogsReadBack(codec, values, PartMembers(values, part), part.logs);
      hide TrimSpace, ReadLogs, LogsJson, With, LogsOk;
    }
  }

  function PartsJson(values: Values, parts: seq<Part>): Json {
    Arr(seq(|parts|, k requires 0 <= k < |parts| => PartJson(values, parts[k])))
  }

  predicate PartsOk(codec: Codec, values: Values, parts: seq<Part>) {
    forall k | 0 <= k < |parts| :: PartOk(codec, values, parts[k])
  }

  lemma PartsReadBack(codec: Codec, values: Values, parts: seq<Part>)
    requires PartsOk(codec, values, parts)
    ensures ReadParts(codec, PartsJson(values, parts).items) == parts
  {
    hide ReadPart, PartJson, PartOk;
    forall k | 0 <= k < |parts| ensures ReadPart(codec, PartJson(values, parts[k])) == parts[k] {
      PartReadBack(codec, values, parts[k]);
    }
  }

  // ---------- items ----------

  const MESSAGE_NAMES := {"type", "id", "status", "content"}
  const REASONING_NAMES := {"type", "id", "summary", "encrypted_content"}
  const OTHER_NAMES := {"type", "id"}

  function PayloadName(custom: bool): string {
    if custom then "input" else "arguments"
  }

  function ToolNames(custom: bool): set<string> {
    {"type", "id", "call_id", "name", "namespace", PayloadName(custom), "status"}
  }

  function MessageMembers(rest: Object, id: string, status: string, content: Json): Object {
    rest["type" := Str("message")]["id" := Str(id)]["status" := Str(status)]["content" := content]
  }

  function ReasoningMembers(rest: Object, id: string, summary: Option<Json>, cipher: Option<Json>): Object {
    With(With(rest["type" := Str("reasoning")]["id" := Str(id)], "summary", summary), "encrypted_content", cipher)
  }

  function ToolMembers(rest: Object, item: Item): Object
    requires item.ToolItem?
  {
    rest["type" := Str(if item.custom then "custom_tool_call" else "function_call")]["id" := Str(item.id)]
    ["call_id" := Str(item.callId)]["name" := Str(item.name)]["namespace" := Str(item.namespace)]
    [PayloadName(item.custom) := item.payload]["status" := Str(item.status)]
  }

  function ItemJson(values: Values, item: Item): Json {
    match item
    case MessageItem(id, status, content, rest) => Obj(MessageMembers(Rest(values, rest), id, status, PartsJson(values, content)))
    case ReasoningItem(id, summary, cipher, rest) =>
      var parts := if summary.Some? then Some(PartsJson(values, summary.value)) else None;
      Obj(ReasoningMembers(Rest(values, rest), id, parts, TextJson(cipher)))
    case ToolItem(_, _, _, _, _, _, _, rest) => Obj(ToolMembers(Rest(values, rest), item))
    case OtherItem(id, kind, rest) => Obj(Rest(values, rest)["type" := Str(kind)]["id" := Str(id)])
    case NonObject(json) => values(json)
  }

  predicate ItemOk(codec: Codec, values: Values, item: Item) {
    match item
    case MessageItem(id, status, content, rest) =>
      Trimmed(id) && Trimmed(status) && PartsOk(codec, values, content) && RestOk(codec, values, rest, MESSAGE_NAMES)
    case ReasoningItem(id, summary, _, rest) =>
      Trimmed(id) && PartsOk(codec, values, summary.GetOr([])) && RestOk(codec, values, rest, REASONING_NAMES)
    case ToolItem(custom, id, callId, name, namespace, _, status, rest) =>
      && Trimmed(id) && Trimmed(callId) && Trimmed(name) && Trimmed(namespace) && Trimmed(status)
      && RestOk(codec, values, rest, ToolNames(custom))
    case OtherItem(id, kind, rest) =>
      && Trimmed(id) && Trimmed(kind) && RestOk(codec, values, rest, OTHER_NAMES)
      && kind !in {"message", "reasoning", "function_call", "custom_tool_call"}
    case NonObject(json) => Stands(codec, values, json) && !values(json).Obj?
  }

  lemma TypesAreTrimmed()
    ensures forall name | name in {"message", "reasoning", "function_call", "custom_tool_call"} :: TrimSpace(name) == name
  {
    hide TrimSpace;
    PlainStays("message");
    PlainStays("reasoning");
    PlainStays("function_call");
    PlainStays("custom_tool_call");
  }

  lemma MessageLeft(rest: Object, id: string, status: string, content: Json)
    requires rest.Keys !! MESSAGE_NAMES
    ensures var m := MessageMembers(rest, id, status, content);
            && Member(m, "type") == Str("message") && Member(m, "id") == Str(id) && Member(m, "status") == Str(status)
            && Member(m, "content") == content && m - MESSAGE_NAMES == rest
  {
  }

  lemma MessageReadBack(codec: Codec, values: Values, item: Item)
    requires item.MessageItem? && ItemOk(codec, values, item)
    ensures ReadItem(codec, ItemJson(values, item)) == item
  {
    hide TrimSpace, PartsOk, MessageMembers, PartsJson, ReadParts, Member;
    TypesAreTrimmed();
    MessageLeft(Rest(values, item.rest), item.id, item.status, PartsJson(values, item.content));
    PartsReadBack(codec, values, item.content);
    PartsAreArray(values, item.content);
  }

  lemma PartsAreArray(values: Values, parts: seq<Part>)
    ensures Elements(PartsJson(values, parts)) == PartsJson(values, parts).items
  {
  }

  lemma ReasoningLeft(rest: Object, id: string, summary: Option<Json>, cipher: Option<Json>)
    requires rest.Keys !! REASONING_NAMES
    ensures var m := ReasoningMembers(rest, id, summary, cipher);
            && Member(m, "type") == Str("reasoning") && Member(m, "id") == Str(id)
            && Member(m, "summary") == summary.GetOr(Null) && Member(m, "encrypted_content") == cipher.GetOr(Null)
            && m - REASONING_NAMES == rest
  {
  }

  lemma ReasoningReadBack(codec: Codec, values: Values, item: Item)
    requires item.ReasoningItem? && ItemOk(codec, values, item)
    ensures ReadItem(codec, ItemJson(values, item)) == item
  {
    hide TrimSpace, PartsOk, ReasoningMembers, ReadParts, Member;
    TypesAreTrimmed();
    var parts := if item.summary.Some? then Some(PartsJson(values, item.summary.value)) else None;
    ReasoningLeft(Rest(values, item.rest), item.id, parts, TextJson(item.cipher));
    PartsReadBack(codec, values, item.summary.GetOr([]));
  }

  lemma ToolLeft(rest: Object, item: Item)
    requires item.ToolItem? && rest.Keys !! ToolNames(item.custom)
    ensures var m := ToolMembers(rest, item);
            && Member(m, "type") == Str(if item.custom then "custom_tool_call" else "function_call")
            && Member(m, "id") == Str(item.id) && Member(m, "call_id") == Str(item.callId) && Member(m, "name") == Str(item.name)
            && Member(m, "namespace") == Str(item.namespace) && Member(m, PayloadName(item.custom)) == item.payload
            && Member(m, "status") == Str(item.status) && m - ToolNames(item.custom) == rest
  {
  }

  lemma ToolReadBack(codec: Codec, values: Values, item: Item)
    requires item.ToolItem? && ItemOk(codec, values, item)
    ensures ReadItem(codec, ItemJson(values, item)) == item
  {
    hide TrimSpace, ToolMembers, Member;
    TypesAreTrimmed();
    ToolLeft(Rest(values, item.rest), item);
  }

  lemma OtherLeft(rest: Object, kind: string, id: string)
    requires rest.Keys !! OTHER_NAMES
    ensures var m := rest["type" := Str(kind)]["id" := Str(id)];
            Member(m, "type") == Str(kind) && Member(m, "id") == Str(id) && m - OTHER_NAMES == rest
  {
  }

  lemma ItemReadBack(codec: Codec, values: Values, item: Item)
    requires ItemOk(codec, values, item)
    ensures ReadItem(codec, ItemJson(values, item)) == item
  {
    match item {
      case MessageItem(_, _, _, _) => MessageReadBack(codec, values, item);
      case ReasoningItem(_, _, _, _) => ReasoningReadBack(codec, values, item);
      case ToolItem(_, _, _, _, _, _, _, _) => ToolReadBack(codec, values, item);
      case OtherItem(id, kind, rest) =>
        hide TrimSpace, Member;
        OtherLeft(Rest(values, rest), kind, id);
      case NonObject(_) =>
    }
  }

  // ---------- responses ----------

  const RESPONSE_NAMES := {"id", "status", "output"}

  function ItemsJson(values: Values, items: seq<Item>): Json {
    Arr(seq(|items|, k requires 0 <= k < |items| => ItemJson(values, items[k])))
  }

  function ResponseMembers(rest: Object, id: string, status: string, output: Json): Object {
    rest["id" := Str(id)]["status" := Str(status)]["output" := output]
  }

  function ResponseObject(values: Values, r: Response): Object {
    ResponseMembers(Rest(values, r.rest), r.id, r.status, ItemsJson(values, r.output))
  }

  predicate ItemsOk(codec: Codec, values: Values, items: seq<Item>) {
    forall k | 0 <= k < |items| :: ItemOk(codec, values, items[k])
  }

  predicate ResponseOk(codec: Codec, values: Values, r: Response) {
    Trimmed(r.id) && Trimmed(r.status) && ItemsOk(codec, values, r.output) && RestOk(codec, values, r.rest, RESPONSE_NAMES)
  }

  lemma ItemsReadBack(codec: Codec, values: Values, items: seq<Item>)
    requires ItemsOk(codec, values, items)
    ensures ItemsJson(values, items).Arr? && ReadItems(codec, ItemsJson(values, items).items) == items
  {
    hide ReadItem, ItemJson, ItemOk;
    forall k | 0 <= k < |items| ensures ReadItem(codec, ItemJson(values, items[k])) == items[k] {
      ItemReadBack(codec, values, items[k]);
    }
  }

  lemma ResponseLeft(rest: Object, id: string, status: string, output: Json)
    requires rest.Keys !! RESPONSE_NAMES
    ensures var m := ResponseMembers(rest, id, status, output);
            && Member(m, "id") == Str(id) && Member(m, "status") == Str(status) && Member(m, "output") == output
            && m - RESPONSE_NAMES == rest
  {
  }

  /** A response is read back as it was written. */
  lemma ResponseReadBack(codec: Codec, values: Values, r: Response)
    requires ResponseOk(codec, values, r)
    ensures ReadResponse(codec, ResponseObject(values, r)) == r
    ensures TextMember(ResponseObject(values, r), "id") == r.id && TextMember(ResponseObject(values, r), "status") == r.status
    ensures Member(ResponseObject(values, r), "output").Arr?
  {
    hide TrimSpace, ItemsOk, ItemsJson, ReadItems, ResponseMembers, Member;
    ResponseLeft(Rest(values, r.rest), r.id, r.status, ItemsJson(values, r.output));
    ItemsReadBack(codec, values, r.output);
  }

  // ---------- events ----------

  function EventKind(e: Event): string {
    match e
    case ItemAdded(_, _) => "response.output_item.added"
    case ItemDone(_, _) => "response.output_item.done"
    case PartAdded(ch, _, _, _, _) => if ch == Content then "response.content_part.added" else "response.reasoning_summary_part.added"
    case TextDelta(ch, _, _, _, _, _) => if ch == Content then "response.output_text.delta" else "response.reasoning_summary_text.delta"
    case TextDone(ch, _, _, _, _, _) => if ch == Content then "response.output_text.done" else "response.reasoning_summary_text.done"
    case PartDone(ch, _, _, _, _) => if ch == Content then "response.content_part.done" else "response.reasoning_summary_part.done"
    case ToolDelta(custom, _, _, _) =>
      if custom then "response.custom_tool_call_input.delta" else "response.function_call_arguments.delta"
    case ToolDone(custom, _, _, _) =>
      if custom then "response.custom_tool_call_input.done" else "response.function_call_arguments.done"
    case Created(_) => "response.created"
    case InProgress(_) => "response.in_progress"
    case Completed(_) => "response.completed"
    case Incomplete(_) => "response.incomplete"
    case Failed(_, _) => "response.failed"
  }

  /** The members of an event about a part, without its content. */
  function PartHead(e: Event): Object
    requires e.IsPartEvent()
  {
    map["type" := Str(EventKind(e)), "output_index" := Number(Lexeme(e.index)), "item_id" := Str(e.itemId)]
    [if e.ch == Content then "content_index" else "summary_index" := Number(Lexeme(e.part))]
  }

  function EventObject(values: Values, e: Event): Object {
    match e
    case ItemAdded(i, item) =>
      map["type" := Str(EventKind(e)), "output_index" := Number(Lexeme(i)), "item" := ItemJson(values, item)]
    case ItemDone(i, item) =>
      map["type" := Str(EventKind(e)), "output_index" := Number(Lexeme(i)), "item" := ItemJson(values, item)]
    case PartAdded(_, _, _, _, content) => PartHead(e)["part" := PartJson(values, content)]
    case PartDone(_, _, _, _, content) => PartHead(e)["part" := PartJson(values, content)]
    case TextDelta(_, _, _, _, delta, logs) => With(With(PartHead(e), "delta", TextJson(delta)), "logprobs", LogsJson(values, logs))
    case TextDone(_, _, _, _, text, logs) => With(With(PartHead(e), "text", TextJson(text)), "logprobs", LogsJson(values, logs))
    case ToolDelta(_, i, id, payload) =>
      map["type" := Str(EventKind(e)), "output_index" := Number(Lexeme(i)), "item_id" := Str(id), "delta" := Str(payload)]
    case ToolDone(custom, i, id, payload) =>
      map["type" := Str(EventKind(e)), "output_index" := Number(Lexeme(i)), "item_id" := Str(id)][PayloadName(custom) := Str(payload)]
    case Created(r) => map["type" := Str(EventKind(e)), "response" := Obj(ResponseObject(values, r))]
    case InProgress(r) => map["type" := Str(EventKind(e)), "response" := Obj(ResponseObject(values, r))]
    case Completed(r) => map["type" := Str(EventKind(e)), "response" := Obj(ResponseObject(values, r))]
    case Incomplete(r) => map["type" := Str(EventKind(e)), "response" := Obj(ResponseObject(values, r))]
    case Failed(r, _) => map["type" := Str(EventKind(e)), "response" := Obj(ResponseObject(values, r))]
  }

  predicate IndexOk(i: int) {
    -0x8000_0000_0000_0000 <= i < 0x8000_0000_0000_0000
  }

  predicate EventOk(codec: Codec, values: Values, e: Event) {
    match e
    case ItemAdded(i, item) => IndexOk(i) && ItemOk(codec, values, item)
    case ItemDone(i, item) => IndexOk(i) && ItemOk(codec, values, item)
    case PartAdded(_, i, k, id, content) => IndexOk(i) && IndexOk(k) && Trimmed(id) && PartOk(codec, values, content)
    case PartDone(_, i, k, id, content) => IndexOk(i) && IndexOk(k) && Trimmed(id) && PartOk(codec, values, content)
    case TextDelta(_, i, k, id, _, logs) => IndexOk(i) && IndexOk(k) && Trimmed(id) && LogsOk(codec, values, logs)
    case TextDone(_, i, k, id, _, logs) => IndexOk(i) && IndexOk(k) && Trimmed(id) && LogsOk(codec, values, logs)
    case ToolDelta(_, i, _, _) => true
    case ToolDone(_, i, _, _) => true
    case _ => ResponseOk(codec, values, e.response)
  }

  /** What the machine is told of an event that was written. */
  function Told(codec: Codec, values: Values, e: Event): Upstream {
    match e
    case ItemAdded(_, item) => if item.MessageItem? || item.ReasoningItem? then Output(e) else Ignored
    case ItemDone(_, item) => if item.MessageItem? || item.ReasoningItem? then Output(e) else Ignored
    case ToolDelta(_, _, _, _) => Ignored
    case ToolDone(_, _, _, _) => Ignored
    case Created(r) => Meta(r.id)
    case InProgress(r) => Meta(r.id)
    case Completed(_) => Terminal
    case Incomplete(_) => Terminal
    case Failed(_, _) => Failure(codec.encode(EventObject(values, e)))
    case _ => Output(e)
  }

  lemma KindIsTrimmed(e: Event)
    ensures EventKind(e) != "" && TrimSpace(EventKind(e)) == EventKind(e)
  {
    hide TrimSpace, EventKind;
    KindIsPlain(e);
    PlainStays(EventKind(e));
  }

  lemma KindIsPlain(e: Event)
    ensures var kind := EventKind(e); kind != "" && 'a' <= kind[0] <= 'z' && 'a' <= kind[|kind| - 1] <= 'z'
  {
    if e.IsPartEvent() {
      PartKindIsPlain(e);
    } else {
      OtherKindIsPlain(e);
    }
    hide EventKind;
  }

  lemma PartKindIsPlain(e: Event)
    requires e.IsPartEvent()
    ensures var kind := EventKind(e); kind != "" && 'a' <= kind[0] <= 'z' && 'a' <= kind[|kind| - 1] <= 'z'
  {
  }

  lemma OtherKindIsPlain(e: Event)
    requires !e.IsPartEvent()
    ensures var kind := EventKind(e); kind != "" && 'a' <= kind[0] <= 'z' && 'a' <= kind[|kind| - 1] <= 'z'
  {
  }

  /** The kinds of part events tell their steps apart. */
  predicate StepKind(e: Event, kind: string) {
    && (kind in {"response.content_part.added", "response.reasoning_summary_part.added"} <==> e.PartAdded?)
    && (kind in {"response.output_text.delta", "response.reasoning_summary_text.delta"} <==> e.TextDelta?)
    && (kind in {"response.output_text.done", "response.reasoning_summary_text.done"} <==> e.TextDone?)
  }

  lemma PartKinds(e: Event)
    requires e.IsPartEvent()
    ensures StepKind(e, EventKind(e))
  {
  }

  /** What the classification asks of a kind. */
  predicate KindSays(kind: string, failure: bool, terminal: bool, meta: bool, item: bool, summary: bool, content: bool) {
    && IsFailureKind(kind) == failure && IsTerminalKind(kind) == terminal
    && (kind == "response.created" || kind == "response.in_progress") == meta
    && IsItemKind(kind) == item && IsSummaryKind(kind) == summary && IsContentKind(kind) == content
  }

  predicate KindTold(e: Event) {
    KindSays(EventKind(e), e.Failed?, e.Completed? || e.Incomplete?, e.Created? || e.InProgress?, e.ItemAdded? || e.ItemDone?,
             e.IsPartEvent() && e.ch == Summary, e.IsPartEvent() && e.ch == Content)
  }

  lemma ItemKinds(e: Event)
    requires e.ItemAdded? || e.ItemDone?
    ensures KindTold(e) && (EventKind(e) == "response.output_item.added" <==> e.ItemAdded?)
  {
  }

  lemma ContentKinds(e: Event)
    requires e.IsPartEvent() && e.ch == Content
    ensures KindTold(e)
  {
  }

  lemma SummaryKinds(e: Event)
    requires e.IsPartEvent() && e.ch == Summary
    ensures KindTold(e)
  {
  }

  lemma ToolKinds(e: Event)
    requires e.ToolDelta? || e.ToolDone?
    ensures KindTold(e)
  {
  }

  lemma ResponseKinds(e: Event)
    requires e.Created? || e.InProgress? || e.Completed? || e.Incomplete? || e.Failed?
    ensures KindTold(e)
  {
  }

  lemma Kinds(e: Event)
    ensures KindTold(e)
  {
    if e.ItemAdded? || e.ItemDone? {
      ItemKinds(e);
    } else if e.IsPartEvent() {
      if e.ch == Content {
        ContentKinds(e);
      } else {
        SummaryKinds(e);
      }
    } else if e.ToolDelta? || e.ToolDone? {
      ToolKinds(e);
    } else {
      ResponseKinds(e);
    }
    hide KindTold;
  }

  lemma TypeMember(values: Values, e: Event)
    ensures Member(EventObject(values, e), "type") == Str(EventKind(e))
  {
    hide Lexeme, ItemJson, PartJson, ResponseObject, EventKind, TextJson, LogsJson;
  }

  lemma KindReadBack(values: Values, e: Event, name: string)
    ensures KindOf(EventObject(values, e), name) == EventKind(e)
  {
    hide EventObject, TrimSpace, EventKind, Member;
    TypeMember(values, e);
    KindIsTrimmed(e);
  }

  lemma ItemEventReadBack(codec: Codec, values: Values, e: Event)
    requires (e.ItemAdded? || e.ItemDone?) && EventOk(codec, values, e)
    ensures ReadItemEvent(codec, EventKind(e), EventObject(values, e)) == Told(codec, values, e)
  {
    hide ItemJson, ItemOk, ReadItem, Int64, Lexeme;
    ItemReadBack(codec, values, e.item);
    LexemeReads(e.index);
  }

  lemma HeadReadBack(e: Event)
    requires e.IsPartEvent() && IndexOk(e.index) && IndexOk(e.part) && Trimmed(e.itemId)
    ensures var head := PartHead(e);
            && IndexMember(head, "output_index") == Some(e.index)
            && IndexMember(head, if e.ch == Content then "content_index" else "summary_index") == Some(e.part)
            && TextMember(head, "item_id") == e.itemId
            && head.Keys !! {"delta", "text", "logprobs"} && "part" !in head
  {
    hide Int64, Lexeme, EventKind, TrimSpace;
    LexemeReads(e.index);
    LexemeReads(e.part);
  }

  /** Adding members leaves the others. */
  lemma SameMembers(a: Object, b: Object, name: string)
    requires Get(a, name) == Get(b, name)
    ensures IndexMember(a, name) == IndexMember(b, name) && TextMember(a, name) == TextMember(b, name)
    ensures StringMember(a, name) == StringMember(b, name) && Member(a, name) == Member(b, name)
  {
    hide Int64, TrimSpace;
  }

  lemma WithReadBack(codec: Codec, values: Values, head: Object, name: string, text: Option<string>, logs: LogField)
    requires name in {"delta", "text"} && LogsOk(codec, values, logs)
    requires head.Keys !! {"delta", "text", "logprobs"}
    ensures var m := With(With(head, name, TextJson(text)), "logprobs", LogsJson(values, logs));
            && StringMember(m, name) == text && ReadLogs(codec, m) == logs
            && forall other | other in head :: Get(m, other) == Get(head, other)
  {
    var m := With(With(head, name, TextJson(text)), "logprobs", LogsJson(values, logs));
    assert Get(m, "logprobs") == LogsJson(values, logs);
    LogsReadBack(codec, values, m, logs);
    hide LogsJson, LogsOk, ReadLogs;
  }

  lemma PartEventReadBack(codec: Codec, values: Values, e: Event)
    requires e.IsPartEvent() && EventOk(codec, values, e)
    ensures ReadPartEvent(codec, e.ch, EventKind(e), EventObject(values, e)) == Output(e)
  {
    hide ReadPartEvent, EventKind, StepKind, EventOk, EventObject;
    PartKinds(e);
    if e.PartAdded? || e.PartDone? {
      ContentEventReadBack(codec, values, e, EventKind(e));
    } else {
      TextEventReadBack(codec, values, e, EventKind(e));
    }
  }

  lemma ContentEventReadBack(codec: Codec, values: Values, e: Event, kind: string)
    requires (e.PartAdded? || e.PartDone?) && EventOk(codec, values, e) && StepKind(e, kind)
    ensures ReadPartEvent(codec, e.ch, kind, EventObject(values, e)) == Output(e)
  {
    hide IndexMember, TextMember, StringMember, PartHead, ReadLogs, ReadPart, PartJson, PartOk, Member, EventKind;
    HeadReadBack(e);
    var head, content := PartHead(e), PartJson(values, e.content);
    PartReadBack(codec, values, e.content);
    ContentReadBack(head, content);
    HeadMembers(e, head["part" := content]);
  }

  lemma TextEventReadBack(codec: Codec, values: Values, e: Event, kind: string)
    requires (e.TextDelta? || e.TextDone?) && EventOk(codec, values, e) && StepKind(e, kind)
    ensures ReadPartEvent(codec, e.ch, kind, EventObject(values, e)) == Output(e)
  {
    hide IndexMember, TextMember, StringMember, PartHead, ReadLogs, LogsJson, LogsOk, With, EventKind, TextJson, ReadPartEvent,
      EventObject, StepKind;
    TextObject(values, e);
    HeadReadBack(e);
    WithReadBack(codec, values, PartHead(e), if e.TextDelta? then "delta" else "text", if e.TextDelta? then e.delta else e.text, e.logs);
    HeadMembers(e, EventObject(values, e));
    TextEventRead(codec, e, kind, EventObject(values, e));
  }

  lemma TextObject(values: Values, e: Event)
    requires e.TextDelta? || e.TextDone?
    ensures EventObject(values, e)
            == With(With(PartHead(e), if e.TextDelta? then "delta" else "text", TextJson(if e.TextDelta? then e.delta else e.text)),
                    "logprobs", LogsJson(values, e.logs))
  {
    hide PartHead, With, TextJson, LogsJson;
  }

  /** An event about a text, from its members. */
  lemma TextEventRead(codec: Codec, e: Event, kind: string, whole: Object)
    requires (e.TextDelta? || e.TextDone?) && StepKind(e, kind)
    requires IndexMember(whole, "output_index") == Some(e.index) && TextMember(whole, "item_id") == e.itemId
    requires IndexMember(whole, if e.ch == Content then "content_index" else "summary_index") == Some(e.part)
    requires e.TextDelta? ==> StringMember(whole, "delta") == e.delta
    requires e.TextDone? ==> StringMember(whole, "text") == e.text
    requires ReadLogs(codec, whole) == e.logs
    ensures ReadPartEvent(codec, e.ch, kind, whole) == Output(e)
  {
    hide IndexMember, TextMember, StringMember, ReadLogs, ReadPart, Member;
  }

  /** More members leave the head as it is. */
  lemma HeadMembers(e: Event, whole: Object)
    requires e.IsPartEvent() && forall name | name in PartHead(e) :: Get(whole, name) == Get(PartHead(e), name)
    ensures IndexMember(whole, "output_index") == IndexMember(PartHead(e), "output_index")
    ensures var position := if e.ch == Content then "content_index" else "summary_index";
            IndexMember(whole, position) == IndexMember(PartHead(e), position)
    ensures TextMember(whole, "item_id") == TextMember(PartHead(e), "item_id")
  {
    hide IndexMember, TextMember, EventKind, Lexeme;
    var head := PartHead(e);
    SameMembers(whole, head, "output_index");
    SameMembers(whole, head, if e.ch == Content then "content_index" else "summary_index");
    SameMembers(whole, head, "item_id");
  }

  lemma ContentReadBack(head: Object, content: Json)
    requires "part" !in head
    ensures var m := head["part" := content];
            Member(m, "part") == content && forall other | other in head :: Get(m, other) == Get(head, other)
  {
  }

  /** What the classification does with an object of this event's kind. */
  lemma ClassifiedByKind(codec: Codec, values: Values, m: Message, e: Event, whole: Object)
    requires codec.parse(m.data) == Ok(whole) && !IsDone(m) && KindOf(whole, m.event) == EventKind(e)
    requires e.ItemAdded? || e.ItemDone? ==> ReadItemEvent(codec, EventKind(e), whole) == Told(codec, values, e)
    requires e.IsPartEvent() ==> ReadPartEvent(codec, e.ch, EventKind(e), whole) == Output(e)
    requires e.Created? || e.InProgress? ==> TextMember(ObjectMember(whole, "response"), "id") == e.response.id
    ensures Classify(codec, m) == if e.Failed? then Failure(codec.encode(whole)) else Told(codec, values, e)
  {
    hide IsDone, KindOf, ReadItemEvent, ReadPartEvent, EventObject, EventKind, TextMember, ObjectMember, IsFailureKind, IsTerminalKind,
      IsItemKind, IsSummaryKind, IsContentKind;
    Kinds(e);
  }

  /** An event is classified as what it was written from: a message or reasoning event as itself, an event
      about a tool call not at all, and the others by their kind and response id. */
  lemma ClassifiesBack(codec: Codec, values: Values, m: Message, e: Event)
    requires codec.parse(m.data) == Ok(EventObject(values, e)) && !IsDone(m) && EventOk(codec, values, e)
    ensures Classify(codec, m) == Told(codec, values, e)
  {
    hide IsDone, KindOf, ReadItemEvent, ReadPartEvent, EventObject, EventOk, EventKind, Classify, TextMember, ObjectMember;
    KindReadBack(values, e, m.event);
    MembersReadBack(codec, values, e);
    ClassifiedByKind(codec, values, m, e, EventObject(values, e));
  }

  lemma MembersReadBack(codec: Codec, values: Values, e: Event)
    requires EventOk(codec, values, e)
    ensures e.ItemAdded? || e.ItemDone? ==> ReadItemEvent(codec, EventKind(e), EventObject(values, e)) == Told(codec, values, e)
    ensures e.IsPartEvent() ==> ReadPartEvent(codec, e.ch, EventKind(e), EventObject(values, e)) == Output(e)
    ensures e.Created? || e.InProgress? ==> TextMember(ObjectMember(EventObject(values, e), "response"), "id") == e.response.id
  {
    hide ReadItemEvent, ReadPartEvent, EventObject, EventOk, EventKind, TextMember, ObjectMember;
    if e.ItemAdded? || e.ItemDone? {
      ItemEventReadBack(codec, values, e);
    } else if e.IsPartEvent() {
      PartEventReadBack(codec, values, e);
    } else if e.Created? || e.InProgress? {
      MetaReadBack(codec, values, e);
    }
  }

  lemma MetaReadBack(codec: Codec, values: Values, e: Event)
    requires (e.Created? || e.InProgress?) && EventOk(codec, values, e)
    ensures TextMember(ObjectMember(EventObject(values, e), "response"), "id") == e.response.id
  {
    hide ResponseObject, ResponseOk, TrimSpace, ItemsJson, EventKind;
    ResponseReadBack(codec, values, e.response);
  }

  /** The name an event is sent under stands in for a type it does not have. */
  lemma NameStandsIn(codec: Codec, values: Values, m: Message, e: Event)
    requires codec.parse(m.data) == Ok(EventObject(values, e) - {"type"}) && m.event == EventKind(e)
    requires !IsDone(m) && EventOk(codec, values, e) && !e.Failed?
    ensures Classify(codec, m) == Told(codec, values, e)
  {
    hide IsDone, KindOf, ReadItemEvent, ReadPartEvent, EventObject, EventOk, EventKind, Classify, TextMember, ObjectMember;
    var full, nameless := EventObject(values, e), EventObject(values, e) - {"type"};
    Nameless(full, m.event);
    MembersReadBack(codec, values, e);
    assert forall name | name != "type" :: Get(nameless, name) == Get(full, name);
    NamelessItem(codec, full, nameless, EventKind(e));
    if e.IsPartEvent() {
      NamelessPart(codec, e.ch, full, nameless, EventKind(e));
    }
    ClassifiedByKind(codec, values, m, e, nameless);
  }

  lemma Nameless(full: Object, name: string)
    ensures KindOf(full - {"type"}, name) == name
  {
    assert TrimSpace("") == "";
    hide TrimSpace;
  }

  lemma NamelessItem(codec: Codec, a: Object, b: Object, kind: string)
    requires forall name | name != "type" :: Get(b, name) == Get(a, name)
    ensures ReadItemEvent(codec, kind, a) == ReadItemEvent(codec, kind, b)
    ensures ObjectMember(a, "response") == ObjectMember(b, "response")
  {
    hide ReadItem, IndexMember, TextMember, StringMember, Member;
    SameMembers(a, b, "output_index");
    SameMembers(a, b, "item");
    SameMembers(a, b, "response");
  }

  lemma NamelessPart(codec: Codec, ch: Channel, a: Object, b: Object, kind: string)
    requires forall name | name != "type" :: Get(b, name) == Get(a, name)
    ensures ReadPartEvent(codec, ch, kind, a) == ReadPartEvent(codec, ch, kind, b)
  {
    hide ReadPart, IndexMember, TextMember, StringMember, Member, ReadLogs;
    SameMembers(a, b, "output_index");
    SameMembers(a, b, if ch == Content then "content_index" else "summary_index");
    SameMembers(a, b, "item_id");
    SameMembers(a, b, "part");
    SameMembers(a, b, "delta");
    SameMembers(a, b, "text");
    SameLogs(codec, a, b);
  }

  lemma SameLogs(codec: Codec, a: Object, b: Object)
    requires Get(a, "logprobs") == Get(b, "logprobs")
    ensures ReadLogs(codec, a) == ReadLogs(codec, b)
  {
  }

  // ---------- everything else ----------

  /** A member that is a whole number of 64 bits. */
  predicate WholeNumber(value: Object, name: string) {
    name in value && value[name].Number? && Int64(value[name].lexeme).Some?
  }

  /** End markers and broken events, whatever they hold. */
  lemma MarkersAndBroken(codec: Codec, m: Message)
    ensures Classify(codec, m) == DoneMarker <==> TrimSpace(m.data) == "[DONE]"
    ensures Classify(codec, m) == BadJson <==> TrimSpace(m.data) != "[DONE]" && codec.parse(m.data).Err?
  {
    hide KindOf, ReadItemEvent, ReadPartEvent, TrimSpace, TextMember, IsFailureKind, IsTerminalKind, IsItemKind, IsSummaryKind, IsContentKind;
    if codec.parse(m.data).Ok? {
      NeitherMarkerNorBroken(codec, KindOf(codec.parse(m.data).value, m.event), codec.parse(m.data).value);
    }
  }

  lemma NeitherMarkerNorBroken(codec: Codec, kind: string, value: Object)
    ensures var u := ReadItemEvent(codec, kind, value); !u.DoneMarker? && !u.BadJson?
    ensures forall ch :: var u := ReadPartEvent(codec, ch, kind, value); !u.DoneMarker? && !u.BadJson?
  {
    hide ReadItem, ReadPart, ReadLogs, TextMember, Int64;
  }

  /** Reported failures, kinds the machine does not know, items that may be tool calls, and events without a
      proper index. */
  lemma ClassifiedOtherwise(codec: Codec, m: Message, value: Object, kind: string)
    requires codec.parse(m.data) == Ok(value) && !IsDone(m) && kind == KindOf(value, m.event)
    ensures kind in {"response.failed", "response.cancelled", "error"} ==> Classify(codec, m) == Failure(codec.encode(value))
    ensures kind !in KNOWN_KINDS ==> Classify(codec, m) == Ignored
    ensures IsItemKind(kind) && !Progress(ItemDone(0, ReadItem(codec, Member(value, "item")))) ==> Classify(codec, m) == Ignored
    ensures IsItemKind(kind) && Progress(ItemDone(0, ReadItem(codec, Member(value, "item")))) && !WholeNumber(value, "output_index") ==>
              Classify(codec, m) == Unnumbered
    ensures IsSummaryKind(kind) && (!WholeNumber(value, "output_index") || !WholeNumber(value, "summary_index")) ==>
              Classify(codec, m) == Unnumbered
    ensures IsContentKind(kind) && (!WholeNumber(value, "output_index") || !WholeNumber(value, "content_index")) ==>
              Classify(codec, m) == Unnumbered
  {
    hide IsDone, KindOf, ReadItem, ReadPart, ReadLogs, TextMember, Int64, StringMember;
    KindsApart(kind);
    KnownKinds(kind);
    hide IsFailureKind, IsTerminalKind, IsItemKind, IsSummaryKind, IsContentKind;
  }

  const KNOWN_KINDS := {
    "response.failed", "response.cancelled", "error", "response.completed", "response.incomplete", "response.created",
    "response.in_progress", "response.output_item.added", "response.output_item.done",
    "response.reasoning_summary_part.added", "response.reasoning_summary_part.done",
    "response.reasoning_summary_text.delta", "response.reasoning_summary_text.done",
    "response.content_part.added", "response.content_part.done", "response.output_text.delta", "response.output_text.done"}

  lemma KnownKinds(kind: string)
    ensures kind in KNOWN_KINDS <==>
              || IsFailureKind(kind) || IsTerminalKind(kind) || kind == "response.created" || kind == "response.in_progress"
              || IsItemKind(kind) || IsSummaryKind(kind) || IsContentKind(kind)
    ensures kind in {"response.failed", "response.cancelled", "error"} <==> IsFailureKind(kind)
  {
  }

  lemma KindsApart(kind: string)
    ensures IsItemKind(kind) || IsSummaryKind(kind) || IsContentKind(kind) ==>
              !IsFailureKind(kind) && !IsTerminalKind(kind) && kind != "response.created" && kind != "response.in_progress"
    ensures IsSummaryKind(kind) || IsContentKind(kind) ==> !IsItemKind(kind)
    ensures IsContentKind(kind) ==> !IsSummaryKind(kind)
  {
  }
}
