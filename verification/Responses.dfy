/** The values that travel between the upstream service, the plugin and its client: responses, their
    output items and content parts, and the streaming events about them.
    A Go string is a sequence of bytes, so every `string` here holds one byte per character.
    Identifiers and type names stand for their trimmed form, "" for a missing one.
    JSON members the program only copies are gathered in a field `rest`. */
module Responses {

  datatype Option<+T> = None | Some(value: T) {
    function GetOr(default: T): T {
      match this
      case Some(v) => v
      case None => default
    }
  }

  datatype Result<+T, +E> = Ok(value: T) | Err(error: E)

  datatype Json =
    | Null
    | Bool(b: bool)
    | Number(lexeme: string)
    | Str(s: string)
    | Arr(items: seq<Json>)
    | Obj(members: map<string, Json>)
  {
    /** What Go's `value.(string)` yields: the text, or "" when the value is no string. */
    function Text(): string {
      if Str? then s else ""
    }
  }

  /** One token probability; it stands by its JSON encoding, which is how the program compares them. */
  type Logprob = string

  /** A `logprobs` member. */
  datatype LogField = LogsAbsent | LogsNull | LogsOther(json: string) | LogsList(entries: seq<Logprob>) {
    function Entries(): seq<Logprob> {
      if LogsList? then entries else []
    }
  }

  /** One element of a message's `content` or of a reasoning item's `summary`. */
  datatype Part =
    | NotObject(json: string)
    | Part(kind: Option<string>, text: Option<string>, logs: LogField, rest: string)
  {
    function Kind(): string {
      if Part? then kind.GetOr("") else ""
    }

    function TextField(): Option<string> {
      if Part? then text else None
    }

    function Logs(): LogField {
      if Part? then logs else LogsAbsent
    }
  }

  /** One element of a response's `output`. */
  datatype Item =
    | MessageItem(id: string, status: string, content: seq<Part>, rest: string)
    | ReasoningItem(id: string, summary: Option<seq<Part>>, cipher: Option<string>, rest: string)
    | ToolItem(custom: bool, id: string, callId: string, name: string, namespace: string,
               payload: Json, status: string, rest: string)
    | OtherItem(id: string, kind: string, rest: string)
    | NonObject(json: string)
  {
    function Id(): string {
      if NonObject? then "" else id
    }
  }

  datatype Response = Response(id: string, status: string, output: seq<Item>, rest: string)

  /** Message text and reasoning summaries stream in the same four steps, told apart by the channel. */
  datatype Channel = Content | Summary

  /** A streaming event. `index` is `output_index`; `part` is `content_index` or `summary_index`. */
  datatype Event =
    | ItemAdded(index: int, item: Item)
    | ItemDone(index: int, item: Item)
    | PartAdded(ch: Channel, index: int, part: int, itemId: string, content: Part)
    | TextDelta(ch: Channel, index: int, part: int, itemId: string, delta: Option<string>, logs: LogField)
    | TextDone(ch: Channel, index: int, part: int, itemId: string, text: Option<string>, logs: LogField)
    | PartDone(ch: Channel, index: int, part: int, itemId: string, content: Part)
    | ToolDelta(custom: bool, index: int, itemId: string, payload: string)
    | ToolDone(custom: bool, index: int, itemId: string, payload: string)
    | Created(response: Response)
    | InProgress(response: Response)
    | Completed(response: Response)
    | Incomplete(response: Response)
    | Failed(response: Response, code: string)
  {
    predicate IsPartEvent() {
      PartAdded? || TextDelta? || TextDone? || PartDone?
    }

    /** The `output_index` member, when the event carries one. */
    function OutputIndex(): Option<int> {
      if ItemAdded? || ItemDone? || IsPartEvent() || ToolDelta? || ToolDone? then Some(index) else None
    }
  }
}
