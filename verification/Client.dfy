/** A client of the event stream that rebuilds every output item from its events and accepts nothing but
    a well-formed delivery; and that whatever a consistent history makes the machine forward is such a
    delivery so far, of exactly the machine's state. */
module Client {
  import opened Responses
  import opened Delivery
  import opened Replay

  datatype Shape = MessageShape | ReasoningShape | ToolShape(custom: bool) | PlainShape

  datatype ClientPart = ClientPart(index: int, kind: string, isText: bool, text: string, logs: seq<Logprob>,
                                   textDone: bool, done: bool)

  /** One output item as the client has assembled it. A message is assembled from its parts; of every
      other item the client keeps the closing snapshot. */
  datatype ClientItem =
    | Absent
    | Present(shape: Shape, id: string, parts: seq<ClientPart>, payload: string, payloadDone: bool,
              closed: bool, final: Option<Item>)

  function ShapeOf(item: Item): Shape {
    match item
    case MessageItem(_, _, _, _) => MessageShape
    case ReasoningItem(_, _, _, _) => ReasoningShape
    case ToolItem(custom, _, _, _, _, _, _, _) => ToolShape(custom)
    case _ => PlainShape
  }

  /** An announcement must not carry what the deltas will bring, nor any ciphertext. */
  predicate BlankOpening(item: Item) {
    match item
    case MessageItem(_, _, content, _) => content == []
    case ReasoningItem(_, summary, cipher, _) => summary == Some([]) && cipher == None
    case ToolItem(_, _, _, _, _, payload, _, _) => payload == Str("")
    case OtherItem(_, _, _) => true
    case NonObject(_) => false
  }

  predicate AllClosed(parts: seq<ClientPart>) {
    forall k | 0 <= k < |parts| :: parts[k].done
  }

  /** The closing snapshot of an item agrees with what has been assembled. */
  predicate ClosesWith(c: ClientItem, item: Item)
    requires c.Present?
  {
    && ShapeOf(item) == c.shape
    && item.Id() == c.id
    && AllClosed(c.parts)
    && match item
       case MessageItem(_, _, content, _) => forall k | 0 <= k < |c.parts| :: SnapshotHolds(c.parts[k], content)
       case ReasoningItem(_, summary, _, _) => forall k | 0 <= k < |c.parts| :: SnapshotHolds(c.parts[k], summary.GetOr([]))
       case ToolItem(_, _, _, _, _, payload, _, _) => c.payloadDone && payload.Text() == c.payload
       case _ => true
  }

  predicate SnapshotHolds(p: ClientPart, parts: seq<Part>) {
    p.isText ==> 0 <= p.index < |parts| && TextOf(parts[p.index]) == p.text
  }

  /** The client takes one event about the item; None rejects it. */
  function ClientStep(c: ClientItem, e: Event): Option<ClientItem> {
    match e
    case ItemAdded(_, item) =>
      if c.Absent? && BlankOpening(item) then
        Some(Present(ShapeOf(item), item.Id(), [], "", false, false, None))
      else None
    case ItemDone(_, item) =>
      if c.Present? && !c.closed && ClosesWith(c, item) then
        Some(c.(closed := true, final := if item.MessageItem? then None else Some(item)))
      else None
    case ToolDelta(custom, _, id, payload) =>
      if c.Present? && !c.closed && c.shape == ToolShape(custom) && id == c.id && !c.payloadDone then
        Some(c.(payload := c.payload + payload))
      else None
    case ToolDone(custom, _, id, payload) =>
      if c.Present? && !c.closed && c.shape == ToolShape(custom) && id == c.id && !c.payloadDone && payload == c.payload then
        Some(c.(payloadDone := true))
      else None
    case PartAdded(_, _, _, _, _) => ClientPartStep(c, e)
    case TextDelta(_, _, _, _, _, _) => ClientPartStep(c, e)
    case TextDone(_, _, _, _, _, _) => ClientPartStep(c, e)
    case PartDone(_, _, _, _, _) => ClientPartStep(c, e)
    case _ => None
  }

  function ClientPartStep(c: ClientItem, e: Event): Option<ClientItem>
    requires e.IsPartEvent()
  {
    if !ListensTo(c, e) then None
    else if e.PartAdded? then
      if (c.parts == [] || (Last(c.parts).done && Last(c.parts).index < e.part)) && OpensBlank(e.ch, e.content) then
        Some(c.(parts := c.parts + [ClientPart(e.part, e.content.Kind(), TextPart(e.ch, e.content), "", [], false, false)]))
      else None
    else if c.parts == [] || Last(c.parts).index != e.part || Last(c.parts).done then None
    else
      match ClientText(Last(c.parts), e)
      case None => None
      case Some(p) => Some(c.(parts := c.parts[..|c.parts| - 1] + [p]))
  }

  function Last(parts: seq<ClientPart>): ClientPart
    requires parts != []
  {
    parts[|parts| - 1]
  }

  predicate OpensBlank(ch: Channel, content: Part) {
    TextPart(ch, content) ==> content.TextField() == Some("")
  }

  function ClientText(p: ClientPart, e: Event): Option<ClientPart>
    requires e.TextDelta? || e.TextDone? || e.PartDone?
  {
    match e
    case TextDelta(ch, _, _, _, delta, logs) =>
      if p.isText && !p.textDone && delta.Some? then
        Some(p.(text := p.text + delta.value, logs := if ch == Content then p.logs + logs.Entries() else p.logs))
      else None
    case TextDone(_, _, _, _, text, _) =>
      if p.isText && !p.textDone && text == Some(p.text) then Some(p.(textDone := true)) else None
    case PartDone(_, _, _, _, content) =>
      if content.Kind() == p.kind && (p.isText ==> p.textDone && TextOf(content) == p.text) then Some(p.(done := true)) else None
  }

  /** The client's view of output index `i` after a stream of events. */
  function ClientRun(i: int, c: ClientItem, events: seq<Event>): Option<ClientItem>
    decreases |events|
  {
    if events == [] then Some(c)
    else if events[0].OutputIndex() != Some(i) then ClientRun(i, c, events[1..])
    else
      match ClientStep(c, events[0])
      case None => None
      case Some(c') => ClientRun(i, c', events[1..])
  }

  lemma {:induction false} ClientRunAppend(i: int, c: ClientItem, a: seq<Event>, b: seq<Event>)
    ensures ClientRun(i, c, a + b) == if ClientRun(i, c, a).None? then None else ClientRun(i, ClientRun(i, c, a).value, b)
    decreases |a|
  {
    if a == [] {
      assert a + b == b;
    } else {
      assert (a + b)[1..] == a[1..] + b;
      if a[0].OutputIndex() != Some(i) {
        ClientRunAppend(i, c, a[1..], b);
      } else if ClientStep(c, a[0]).Some? {
        ClientRunAppend(i, ClientStep(c, a[0]).value, a[1..], b);
      }
    }
  }

  // ---------- the live frames ----------

  predicate IsText(ch: Channel, p: PartState) {
    ch == Summary || p.kind == "output_text"
  }

  /** A streamed part as the client sees it. */
  function Mirror(ch: Channel, k: int, p: PartState): ClientPart {
    ClientPart(k, p.kind, IsText(ch, p), p.text, p.logs, p.textDone, p.done)
  }

  /** Parts are numbered from 0 without gaps, only the last may be open, and only text parts hold text. */
  ghost predicate PartsOk(ch: Channel, parts: map<int, PartState>) {
    && (forall k :: k in parts <==> 0 <= k < |parts|)
    && (forall k | 0 <= k < |parts| - 1 :: parts[k].done)
    && (forall k | k in parts :: PartOk(ch, parts[k]))
  }

  ghost predicate PartOk(ch: Channel, p: PartState) {
    && (ch == Summary ==> p.kind == "summary_text" && p.logs == [])
    && (if IsText(ch, p) then p.done ==> p.textDone else p.text == "" && p.logs == [] && !p.textDone)
  }

  ghost predicate StateOk(st: State) {
    && st.messages.Keys !! st.reasonings.Keys
    && (forall i | i in st.messages :: MessageOk(st.messages[i]))
    && (forall i | i in st.reasonings :: ReasoningOk(st.reasonings[i]))
  }

  ghost predicate MessageOk(m: MessageState) {
    && PartsOk(Content, m.parts)
    && (m.done ==> forall k | k in m.parts :: m.parts[k].done)
  }

  ghost predicate ReasoningOk(r: ReasoningState) {
    && PartsOk(Summary, r.summaries)
    && (r.upstreamDone ==> forall k | k in r.summaries :: r.summaries[k].done)
  }

  ghost predicate PartsMirrored(ch: Channel, parts: map<int, PartState>, seen: seq<ClientPart>) {
    && |seen| == |parts|
    && forall k | 0 <= k < |seen| :: k in parts && seen[k] == Mirror(ch, k, parts[k])
  }

  /** The client's view of index `i` reflects the machine's state. */
  ghost predicate Mirrored(st: State, i: int, c: ClientItem) {
    if i in st.messages then
      && c.Present? && c.shape == MessageShape && c.id == st.messages[i].id
      && c.payload == "" && !c.payloadDone && c.final == None
      && c.closed == st.messages[i].done
      && PartsMirrored(Content, st.messages[i].parts, c.parts)
    else if i in st.reasonings then
      && c.Present? && c.shape == ReasoningShape && c.id == st.reasonings[i].id
      && c.payload == "" && !c.payloadDone && c.final == None
      && !c.closed
      && PartsMirrored(Summary, st.reasonings[i].summaries, c.parts)
    else c == Absent
  }

  lemma PartAddedOk(parts: map<int, PartState>, e: Event)
    requires e.PartAdded? && PartsOk(e.ch, parts) && ApplyPart(parts, e).Some?
    ensures var (parts', frame) := ApplyPart(parts, e).value;
            && PartsOk(e.ch, parts') && |parts'| == |parts| + 1 && e.part == |parts|
            && parts' == parts[e.part := PartState(e.content.Kind(), "", [], false, false)]
            && frame == PartAdded(e.ch, e.index, e.part, e.itemId, Opening(e.ch, e.content))
            && (|parts| > 0 ==> |parts| - 1 in parts && parts[|parts| - 1].done)
            && (e.ch == Summary ==> e.content.Kind() == "summary_text")
  {
    hide Opening;
    var parts' := ApplyPart(parts, e).value.0;
    assert |parts'| == |parts| + 1;
  }

  /** A new part joins behind closed ones. */
  lemma PartAddedMirrored(parts: map<int, PartState>, e: Event, c: ClientItem)
    requires e.PartAdded? && PartsOk(e.ch, parts) && ApplyPart(parts, e).Some?
    requires ListensTo(c, e) && PartsMirrored(e.ch, parts, c.parts)
    ensures PartsOk(e.ch, ApplyPart(parts, e).value.0)
    ensures var c' := ClientStep(c, ApplyPart(parts, e).value.1);
            && c'.Some?
            && PartsMirrored(e.ch, ApplyPart(parts, e).value.0, c'.value.parts)
            && c'.value == c.(parts := c'.value.parts)
  {
    hide ApplyPart, PartsOk;
    PartAddedOk(parts, e);
    assert c.parts != [] ==> Last(c.parts) == Mirror(e.ch, |parts| - 1, parts[|parts| - 1]);
  }

  lemma TextAppliedOk(parts: map<int, PartState>, e: Event)
    requires (e.TextDelta? || e.TextDone? || e.PartDone?) && PartsOk(e.ch, parts) && ApplyPart(parts, e).Some?
    ensures e.part == |parts| - 1 && e.part in parts && !parts[e.part].done && ApplyText(parts[e.part], e).Some?
    ensures PartOk(e.ch, parts[e.part]) && PartOk(e.ch, ApplyText(parts[e.part], e).value)
    ensures ApplyPart(parts, e).value == (parts[e.part := ApplyText(parts[e.part], e).value], ForwardedText(e))
    ensures PartsOk(e.ch, ApplyPart(parts, e).value.0) && |ApplyPart(parts, e).value.0| == |parts|
  {
    hide ApplyText, ForwardedText, PartOk;
    TextStep(e.ch, parts[e.part], e);
    var parts' := ApplyPart(parts, e).value.0;
    assert parts'.Keys == parts.Keys;
    assert |parts'.Keys| == |parts'| && |parts.Keys| == |parts|;
  }

  /** A text event changes the last part only. */
  lemma TextMirrored(parts: map<int, PartState>, e: Event, c: ClientItem)
    requires (e.TextDelta? || e.TextDone? || e.PartDone?) && PartsOk(e.ch, parts) && ApplyPart(parts, e).Some?
    requires ListensTo(c, e) && PartsMirrored(e.ch, parts, c.parts)
    ensures PartsOk(e.ch, ApplyPart(parts, e).value.0)
    ensures var c' := ClientStep(c, ApplyPart(parts, e).value.1);
            && c'.Some? && c'.value.Present?
            && PartsMirrored(e.ch, ApplyPart(parts, e).value.0, c'.value.parts)
            && c'.value == c.(parts := c'.value.parts)
  {
    hide ApplyText, ClientText, PartOk, PartsOk, Mirror, ApplyPart;
    TextAppliedOk(parts, e);
    var p := parts[e.part];
    assert Last(c.parts) == Mirror(e.ch, e.part, p);
    MirrorKeeps(e.ch, e.part, p);
    TextStep(e.ch, p, e);
  }

  lemma MirrorKeeps(ch: Channel, k: int, p: PartState)
    ensures Mirror(ch, k, p).index == k && Mirror(ch, k, p).done == p.done
  {
  }

  lemma TextStep(ch: Channel, p: PartState, e: Event)
    requires (e.TextDelta? || e.TextDone? || e.PartDone?) && e.ch == ch
    requires PartOk(ch, p) && !p.done && ApplyText(p, e).Some?
    ensures PartOk(ch, ApplyText(p, e).value)
    ensures ClientText(Mirror(ch, e.part, p), ForwardedText(e)) == Some(Mirror(ch, e.part, ApplyText(p, e).value))
  {
  }

  /** The event is a part event of the open item the client holds. */
  predicate ListensTo(c: ClientItem, e: Event)
    requires e.IsPartEvent()
  {
    c.Present? && !c.closed && c.shape == (if e.ch == Content then MessageShape else ReasoningShape) && e.itemId == c.id
  }

  lemma ClientRunOne(i: int, c: ClientItem, e: Event)
    ensures ClientRun(i, c, [e]) == if e.OutputIndex() == Some(i) then ClientStep(c, e) else Some(c)
  {
    assert [e][1..] == [];
  }

  /** The frame of a message event moves the client's view of that index along with the state ... */
  lemma MessageStepMirrored(st: State, e: Event, c: ClientItem)
    requires Progress(e) && !IsReasoningEvent(e) && ApplyMessage(st, e).Some?
    requires e.index in st.messages ==> MessageOk(st.messages[e.index]) && e.index !in st.reasonings
    requires Mirrored(st, e.index, c)
    ensures var a := ApplyMessage(st, e).value;
            && a.frame.Some? && a.frame.value.OutputIndex() == Some(e.index)
            && (a.st.reasonings == st.reasonings)
            && (forall j | j != e.index :: j in a.st.messages <==> j in st.messages)
            && (forall j | j != e.index && j in st.messages :: a.st.messages[j] == st.messages[j])
            && e.index in a.st.messages && MessageOk(a.st.messages[e.index]) && e.index !in st.reasonings
    ensures var a := ApplyMessage(st, e).value;
            ClientStep(c, a.frame.value).Some? && Mirrored(a.st, e.index, ClientStep(c, a.frame.value).value)
  {
    if e.PartAdded? {
      hide ApplyPart, ClientPartStep, PartsOk;
      PartAddedMirrored(st.messages[e.index].parts, e, c);
    } else if e.IsPartEvent() {
      hide ApplyPart, ClientPartStep, PartsOk;
      TextMirrored(st.messages[e.index].parts, e, c);
    } else if e.ItemDone? {
      MessageCloses(st.messages[e.index], e, c);
    }
  }

  lemma MessageCloses(m: MessageState, e: Event, c: ClientItem)
    requires e.ItemDone? && e.item.MessageItem? && MessageOk(m) && MessageDoneMatches(m, e.item)
    requires c.Present? && c.shape == MessageShape && c.id == m.id && PartsMirrored(Content, m.parts, c.parts)
    ensures ClosesWith(c, e.item)
    ensures MessageOk(m.(done := true))
  {
    assert forall k | 0 <= k < |c.parts| :: k in m.parts && c.parts[k] == Mirror(Content, k, m.parts[k]);
    assert forall k | k in m.parts :: DonePartMatches(m.parts[k], k, e.item.content);
  }

  /** ... and so does a reasoning event, whose closing snapshot stays with the machine. */
  lemma ReasoningStepMirrored(st: State, e: Event, c: ClientItem)
    requires Progress(e) && IsReasoningEvent(e) && ApplyReasoning(st, e).Some?
    requires e.index in st.reasonings ==> ReasoningOk(st.reasonings[e.index]) && e.index !in st.messages
    requires Mirrored(st, e.index, c)
    ensures var a := ApplyReasoning(st, e).value;
            && (a.frame.Some? ==> a.frame.value.OutputIndex() == Some(e.index))
            && (a.st.messages == st.messages)
            && (forall j | j != e.index :: j in a.st.reasonings <==> j in st.reasonings)
            && (forall j | j != e.index && j in st.reasonings :: a.st.reasonings[j] == st.reasonings[j])
            && e.index in a.st.reasonings && ReasoningOk(a.st.reasonings[e.index]) && e.index !in st.messages
    ensures var a := ApplyReasoning(st, e).value;
            if a.frame.None? then Mirrored(a.st, e.index, c)
            else ClientStep(c, a.frame.value).Some? && Mirrored(a.st, e.index, ClientStep(c, a.frame.value).value)
  {
    if e.PartAdded? {
      hide ApplyPart, ClientPartStep, PartsOk;
      PartAddedMirrored(st.reasonings[e.index].summaries, e, c);
    } else if e.IsPartEvent() {
      hide ApplyPart, ClientPartStep, PartsOk;
      TextMirrored(st.reasonings[e.index].summaries, e, c);
    }
  }

  lemma StepMirrored(st: State, e: Event, i: int, c: ClientItem)
    requires StateOk(st) && Apply(st, e).Some? && Mirrored(st, i, c)
    ensures StateOk(Apply(st, e).value.st)
    ensures var a := Apply(st, e).value;
            var c' := ClientRun(i, c, FrameSeq(a.frame));
            c'.Some? && Mirrored(a.st, i, c'.value)
  {
    var a := Apply(st, e).value;
    if a.frame.Some? {
      ClientRunOne(i, c, a.frame.value);
    }
    StepKeepsOk(st, e);
    hide ClientStep, ApplyReasoning, ApplyMessage, MessageOk, ReasoningOk;
    if i == e.index {
      if IsReasoningEvent(e) {
        ReasoningStepMirrored(st, e, c);
      } else {
        MessageStepMirrored(st, e, c);
      }
    } else {
      ForeignStep(st, e);
    }
  }

  lemma MessageStepKeepsOk(st: State, e: Event)
    requires StateOk(st) && Progress(e) && !IsReasoningEvent(e) && ApplyMessage(st, e).Some?
    ensures StateOk(ApplyMessage(st, e).value.st)
  {
    hide ClientStep, ApplyMessage, MessageOk, ReasoningOk, Mirrored;
    MessageStepMirrored(st, e, ViewOf(st, e.index));
    var a := ApplyMessage(st, e).value;
    assert forall j | j in a.st.messages :: j !in a.st.reasonings;
  }

  lemma ReasoningStepKeepsOk(st: State, e: Event)
    requires StateOk(st) && Progress(e) && IsReasoningEvent(e) && ApplyReasoning(st, e).Some?
    ensures StateOk(ApplyReasoning(st, e).value.st)
  {
    hide ClientStep, ApplyReasoning, MessageOk, ReasoningOk, Mirrored;
    ReasoningStepMirrored(st, e, ViewOf(st, e.index));
    var a := ApplyReasoning(st, e).value;
    assert forall j | j in a.st.messages :: j !in a.st.reasonings;
  }

  lemma StepKeepsOk(st: State, e: Event)
    requires StateOk(st) && Apply(st, e).Some?
    ensures StateOk(Apply(st, e).value.st)
  {
    hide StateOk, ApplyReasoning, ApplyMessage;
    if IsReasoningEvent(e) {
      ReasoningStepKeepsOk(st, e);
    } else {
      MessageStepKeepsOk(st, e);
    }
  }

  /** An event touches its own output index only. */
  lemma ForeignStep(st: State, e: Event)
    requires StateOk(st) && Apply(st, e).Some?
    ensures var a := Apply(st, e).value;
            && (a.frame.Some? ==> a.frame.value.OutputIndex() == Some(e.index))
            && (forall j | j != e.index :: (j in a.st.messages <==> j in st.messages) && (j in a.st.reasonings <==> j in st.reasonings))
            && (forall j | j != e.index && j in st.messages :: a.st.messages[j] == st.messages[j])
            && (forall j | j != e.index && j in st.reasonings :: a.st.reasonings[j] == st.reasonings[j])
  {
    var c := ViewOf(st, e.index);
    hide ClientStep, ApplyReasoning, ApplyMessage, MessageOk, ReasoningOk, Mirrored;
    if IsReasoningEvent(e) {
      ReasoningStepMirrored(st, e, c);
    } else {
      MessageStepMirrored(st, e, c);
    }
  }

  /** Every consistent state has a client's view of each index. */
  ghost function ViewOf(st: State, i: int): (c: ClientItem)
    requires StateOk(st)
    ensures Mirrored(st, i, c)
  {
    if i in st.messages then
      Present(MessageShape, st.messages[i].id, Mirrors(Content, st.messages[i].parts), "", false, st.messages[i].done, None)
    else if i in st.reasonings then
      Present(ReasoningShape, st.reasonings[i].id, Mirrors(Summary, st.reasonings[i].summaries), "", false, false, None)
    else Absent
  }

  ghost function Mirrors(ch: Channel, parts: map<int, PartState>): (seen: seq<ClientPart>)
    requires PartsOk(ch, parts)
    ensures PartsMirrored(ch, parts, seen)
  {
    seq(|parts|, k requires 0 <= k < |parts| => assert k in parts; Mirror(ch, k, parts[k]))
  }

  /** Whatever a consistent history makes the machine forward, the client accepts it and sees its state. */
  lemma {:induction false} RunMirrored(history: seq<Event>, i: int)
    requires Run(history).Some?
    ensures StateOk(Run(history).value.st)
    ensures var c := ClientRun(i, Absent, Run(history).value.frames);
            c.Some? && Mirrored(Run(history).value.st, i, c.value)
  {
    if history != [] {
      var shorter, e := history[..|history| - 1], history[|history| - 1];
      RunMirrored(shorter, i);
      var before := Run(shorter).value;
      StepMirrored(before.st, e, i, ClientRun(i, Absent, before.frames).value);
      ClientRunAppend(i, Absent, before.frames, FrameSeq(Apply(before.st, e).value.frame));
    }
  }
}
