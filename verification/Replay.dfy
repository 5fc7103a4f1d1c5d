/** The terminal replay: `syntheticEventsFor` of internal/basispoints/protocol.go expands a response into
    the event sequence a client expects, and `keepFinal` of stream_events.go drops or trims what has
    already been streamed. */
module Replay {
  import opened Responses
  import opened Delivery

  // ---------- expanding a response ----------

  /** Whether a part travels in text events. */
  predicate TextPart(ch: Channel, part: Part) {
    ch == Summary || (part.Kind() == "output_text" && part.TextField().Some?)
  }

  /** Whether a part has events at all. */
  predicate Shown(ch: Channel, part: Part) {
    if ch == Content then part.Part? else part.Kind() == "summary_text"
  }

  function TextOf(part: Part): string {
    part.TextField().GetOr("")
  }

  function LogsOf(ch: Channel, part: Part): LogField {
    if ch == Content then LogsList(part.Logs().Entries()) else LogsAbsent
  }

  function PartEvents(ch: Channel, i: int, id: string, k: int, part: Part): seq<Event> {
    if !Shown(ch, part) then []
    else if !TextPart(ch, part) then [PartAdded(ch, i, k, id, part), PartDone(ch, i, k, id, part)]
    else
      [PartAdded(ch, i, k, id, Opening(ch, part))]
      + (if TextOf(part) != "" then [TextDelta(ch, i, k, id, Some(TextOf(part)), LogsOf(ch, part))] else [])
      + [TextDone(ch, i, k, id, Some(TextOf(part)), LogsOf(ch, part)), PartDone(ch, i, k, id, part)]
  }

  /** The events of the first `n` parts. */
  function PartsEvents(ch: Channel, i: int, id: string, parts: seq<Part>, n: nat): seq<Event>
    requires n <= |parts|
  {
    if n == 0 then [] else PartsEvents(ch, i, id, parts, n - 1) + PartEvents(ch, i, id, n - 1, parts[n - 1])
  }

  /** The item as announced: what streams later is left out. */
  function Announced(item: Item, withSummary: bool): Item {
    match item
    case MessageItem(_, _, _, _) => item.(status := "in_progress", content := [])
    case ReasoningItem(_, _, _, _) => if withSummary then item.(summary := Some([]), cipher := None) else item
    case ToolItem(custom, _, _, _, _, _, status, _) =>
      item.(payload := Str(""), status := if custom then status else "in_progress")
    case _ => item
  }

  function BodyEvents(i: int, item: Item, withSummary: bool): seq<Event> {
    match item
    case MessageItem(id, _, content, _) => PartsEvents(Content, i, id, content, |content|)
    case ReasoningItem(id, summary, _, _) =>
      if withSummary then PartsEvents(Summary, i, id, summary.GetOr([]), |summary.GetOr([])|) else []
    case ToolItem(custom, id, _, _, _, payload, _, _) =>
      (if payload.Text() != "" then [ToolDelta(custom, i, id, payload.Text())] else [])
      + [ToolDone(custom, i, id, payload.Text())]
    case _ => []
  }

  function ItemEvents(i: int, item: Item, withSummary: bool): seq<Event> {
    if item.NonObject? then []
    else [ItemAdded(i, Announced(item, withSummary))] + BodyEvents(i, item, withSummary) + [ItemDone(i, item)]
  }

  /** The events of the first `n` items. */
  function OutputEvents(output: seq<Item>, n: nat, withSummary: bool): seq<Event>
    requires n <= |output|
  {
    if n == 0 then [] else OutputEvents(output, n - 1, withSummary) + ItemEvents(n - 1, output[n - 1], withSummary)
  }

  function PrologueEvents(r: Response): seq<Event> {
    var blank := r.(status := "in_progress", output := []);
    [Created(blank), InProgress(blank)]
  }

  function TerminalEvent(r: Response): Event {
    if r.status == "incomplete" then Incomplete(r) else Completed(r.(status := "completed"))
  }

  function Synthetic(r: Response, withPrologue: bool, withSummary: bool): seq<Event> {
    (if withPrologue then PrologueEvents(r) else [])
    + OutputEvents(r.output, |r.output|, withSummary)
    + [TerminalEvent(r)]
  }

  method SyntheticEventsFor(r: Response, withPrologue: bool, withSummary: bool) returns (events: seq<Event>)
    ensures events == Synthetic(r, withPrologue, withSummary)
  {
    events := [];
    if withPrologue {
      events := PrologueEvents(r);
    }
    var items := MakeOutput(r.output, withSummary);
    events := events + items;
    events := events + [TerminalEvent(r)];
  }

  method MakeOutput(output: seq<Item>, withSummary: bool) returns (events: seq<Event>)
    ensures events == OutputEvents(output, |output|, withSummary)
  {
    events := [];
    for i := 0 to |output|
      invariant events == OutputEvents(output, i, withSummary)
    {
      var more := MakeItem(i, output[i], withSummary);
      events := events + more;
    }
  }

  method MakeItem(i: int, item: Item, withSummary: bool) returns (events: seq<Event>)
    ensures events == ItemEvents(i, item, withSummary)
  {
    events := [];
    if !item.NonObject? {
      events := [ItemAdded(i, Announced(item, withSummary))];
      var body := MakeBody(i, item, withSummary);
      events := events + body;
      events := events + [ItemDone(i, item)];
    }
  }

  method MakeBody(i: int, item: Item, withSummary: bool) returns (body: seq<Event>)
    ensures body == BodyEvents(i, item, withSummary)
  {
    body := [];
    match item {
      case MessageItem(id, _, content, _) =>
        body := ContentEvents(Content, i, id, content);
      case ReasoningItem(id, summary, _, _) =>
        if withSummary {
          body := ContentEvents(Summary, i, id, summary.GetOr([]));
        }
      case ToolItem(custom, id, _, _, _, payload, _, _) =>
        var text := payload.Text();
        if text != "" {
          body := [ToolDelta(custom, i, id, text)];
        }
        body := body + [ToolDone(custom, i, id, text)];
      case _ =>
    }
  }

  /** `messageContentEvents` and `reasoningSummaryEvents`. */
  method ContentEvents(ch: Channel, i: int, id: string, parts: seq<Part>) returns (events: seq<Event>)
    ensures events == PartsEvents(ch, i, id, parts, |parts|)
  {
    hide PartEvents;
    events := [];
    for k := 0 to |parts|
      invariant events == PartsEvents(ch, i, id, parts, k)
    {
      var more := MakePart(ch, i, id, k, parts[k]);
      events := events + more;
    }
  }

  /** The body of that loop. */
  method MakePart(ch: Channel, i: int, id: string, k: int, part: Part) returns (events: seq<Event>)
    ensures events == PartEvents(ch, i, id, k, part)
  {
    hide TextPart, Shown, TextOf, LogsOf, Opening;
    events := [];
    if Shown(ch, part) {
      events := [PartAdded(ch, i, k, id, if TextPart(ch, part) then Opening(ch, part) else part)];
      if TextPart(ch, part) {
        if TextOf(part) != "" {
          events := events + [TextDelta(ch, i, k, id, Some(TextOf(part)), LogsOf(ch, part))];
        }
        events := events + [TextDone(ch, i, k, id, Some(TextOf(part)), LogsOf(ch, part))];
      }
      events := events + [PartDone(ch, i, k, id, part)];
    }
  }

  // ---------- filtering the replay ----------

  /** What remains of a replay event after the text already sent: None drops it. */
  function KeepText(p: PartState, e: Event): Option<Event>
    requires e.IsPartEvent()
  {
    match e
    case PartAdded(_, _, _, _, _) => None
    case TextDelta(ch, i, k, id, delta, logs) =>
      var full := delta.GetOr("");
      if |full| <= |p.text| then None
      else Some(TextDelta(ch, i, k, id, Some(full[|p.text|..]), if ch == Content then TrimLogs(p, logs) else logs))
    case TextDone(_, _, _, _, _, _) => if p.textDone then None else Some(e)
    case PartDone(_, _, _, _, _) => if p.done then None else Some(e)
  }

  function TrimLogs(p: PartState, logs: LogField): LogField {
    if logs.LogsList? && |logs.entries| >= |p.logs| then LogsList(logs.entries[|p.logs|..]) else logs
  }

  /** `keepFinal`: what of a replay event the client still needs. */
  function Keep(st: State, e: Event): Option<Event> {
    if e.Created? || e.InProgress? then None
    else
      match e.OutputIndex()
      case None => Some(e)
      case Some(i) =>
        if i in st.reasonings then
          if e.ItemAdded? then None
          else if e.IsPartEvent() && e.ch == Summary && e.part in st.reasonings[i].summaries then
            KeepText(st.reasonings[i].summaries[e.part], e)
          else Some(e)
        else if i in st.messages then
          if e.ItemAdded? || (e.ItemDone? && st.messages[i].done) then None
          else if e.IsPartEvent() && e.ch == Content && e.part in st.messages[i].parts then
            KeepText(st.messages[i].parts[e.part], e)
          else Some(e)
        else Some(e)
  }

  function Kept(st: State, events: seq<Event>): seq<Event> {
    if events == [] then [] else FrameSeq(Keep(st, events[0])) + Kept(st, events[1..])
  }

  lemma {:induction false} KeptAppend(st: State, a: seq<Event>, b: seq<Event>)
    ensures Kept(st, a + b) == Kept(st, a) + Kept(st, b)
  {
    if a == [] {
      assert a + b == b;
    } else {
      assert (a + b)[1..] == a[1..] + b;
      KeptAppend(st, a[1..], b);
    }
  }

  /** The filtering loop of `finishGenerated`. */
  method FilterReplay(st: State, events: seq<Event>) returns (kept: seq<Event>)
    ensures kept == Kept(st, events)
  {
    kept := [];
    for n := 0 to |events|
      invariant kept == Kept(st, events[..n])
    {
      assert events[..n + 1] == events[..n] + [events[n]];
      KeptAppend(st, events[..n], [events[n]]);
      var rest := Keep(st, events[n]);
      if rest.Some? {
        kept := kept + [rest.value];
      }
    }
    assert events[..|events|] == events;
  }

  // ---------- what the expansion announces ----------

  /** An item is announced in progress and without what follows in events of its own; a custom call keeps its
      status, and a reasoning item is announced whole where its summary is not streamed. */
  predicate AnnouncedAs(item: Item, withSummary: bool, shown: Item) {
    match item
    case MessageItem(id, _, _, rest) => shown == MessageItem(id, "in_progress", [], rest)
    case ReasoningItem(id, _, _, rest) => if withSummary then shown == ReasoningItem(id, Some([]), None, rest) else shown == item
    case ToolItem(custom, id, callId, name, namespace, _, status, rest) =>
      shown == ToolItem(custom, id, callId, name, namespace, Str(""), if custom then status else "in_progress", rest)
    case _ => shown == item
  }

  /** Every item that is an object is announced first and closed last, with its own index; what stands between
      is about its parts or its payload. */
  lemma ItemExpanded(i: int, item: Item, withSummary: bool)
    requires !item.NonObject?
    ensures var events := ItemEvents(i, item, withSummary);
            && |events| >= 2 && events[0].ItemAdded? && events[0].index == i && AnnouncedAs(item, withSummary, events[0].item)
            && events[|events| - 1] == ItemDone(i, item)
            && events[1..|events| - 1] == BodyEvents(i, item, withSummary)
    ensures item.ToolItem? ==>
              BodyEvents(i, item, withSummary) ==
                (if item.payload.Str? && item.payload.s != "" then [ToolDelta(item.custom, i, item.id, item.payload.s)] else [])
                + [ToolDone(item.custom, i, item.id, if item.payload.Str? then item.payload.s else "")]
    ensures item.OtherItem? || (item.ReasoningItem? && !withSummary) ==> BodyEvents(i, item, withSummary) == []
  {
    hide PartsEvents;
  }

  /** The first and the last events of a response that is expanded. */
  lemma FrameExpanded(r: Response)
    ensures PrologueEvents(r)
            == [Created(Response(r.id, "in_progress", [], r.rest)), InProgress(Response(r.id, "in_progress", [], r.rest))]
    ensures TerminalEvent(r) == if r.status == "incomplete" then Incomplete(r) else Completed(Response(r.id, "completed", r.output, r.rest))
  {
  }
}
