/** The incremental delivery state machine of internal/basispoints/stream_events.go.
    Upstream events about messages and reasoning summaries are buffered until a trial run of the whole
    buffer succeeds; from then on each event is checked and forwarded as it arrives.
    `Naive` specifies the machine by replaying the whole history at every event; and the pre-filter, which
    spares the program most of these trial runs, never blocks a commit. */
module Delivery {
  import opened Responses

  // ---------- progress of one output item ----------

  datatype PartState = PartState(kind: string, text: string, logs: seq<Logprob>, textDone: bool, done: bool)

  datatype MessageState = MessageState(id: string, parts: map<int, PartState>, done: bool)

  datatype ReasoningState = ReasoningState(id: string, summaries: map<int, PartState>, upstreamDone: bool,
                                           doneSummary: Option<seq<Part>>)

  datatype State = State(messages: map<int, MessageState>, reasonings: map<int, ReasoningState>)

  const START := State(map[], map[])

  // ---------- what the machine reads from an event ----------

  const MAX_INDEX := 0x4000_0000

  predicate ValidIndex(i: int) {
    0 <= i <= MAX_INDEX
  }

  /** Events about messages and reasoning; everything else waits for the terminal response. */
  predicate Progress(e: Event) {
    match e
    case ItemAdded(_, item) => item.MessageItem? || item.ReasoningItem?
    case ItemDone(_, item) => item.MessageItem? || item.ReasoningItem?
    case _ => e.IsPartEvent()
  }

  predicate Numbered(e: Event) {
    match e.OutputIndex()
    case None => false
    case Some(i) => ValidIndex(i) && (e.IsPartEvent() ==> ValidIndex(e.part))
  }

  predicate NonEmptyDelta(e: Event) {
    e.TextDelta? && e.delta.Some? && e.delta.value != ""
  }

  predicate LogprobsMatch(value: LogField, logs: seq<Logprob>) {
    match value
    case LogsAbsent => true
    case LogsNull => true
    case LogsOther(_) => false
    case LogsList(got) => got == logs
  }

  // ---------- applying one event ----------

  /** The state after an event and the frame to forward; None when the event is only checked. */
  datatype Applied = Applied(st: State, frame: Option<Event>)

  function Apply(st: State, e: Event): Option<Applied> {
    if !Progress(e) then None
    else if IsReasoningEvent(e) then ApplyReasoning(st, e)
    else ApplyMessage(st, e)
  }

  predicate IsReasoningEvent(e: Event) {
    match e
    case ItemAdded(_, item) => item.ReasoningItem?
    case ItemDone(_, item) => item.ReasoningItem?
    case _ => e.IsPartEvent() && e.ch == Summary
  }

  function ApplyReasoning(st: State, e: Event): Option<Applied>
    requires Progress(e) && IsReasoningEvent(e)
  {
    if e.ItemAdded? then
      if e.index in st.reasonings || e.index in st.messages || e.item.id == "" then None
      else Some(Applied(SetReasoning(st, e.index, ReasoningState(e.item.id, map[], false, None)),
                        Some(ItemAdded(e.index, e.item.(summary := Some([]), cipher := None)))))
    else
      if e.index !in st.reasonings || st.reasonings[e.index].upstreamDone then None else
      var r := st.reasonings[e.index];
      if e.ItemDone? then
        if !ValidateItem(r, e.item) || (exists k | k in r.summaries :: !r.summaries[k].done) then None
        else Some(Applied(SetReasoning(st, e.index, r.(upstreamDone := true, doneSummary := e.item.summary)), None))
      else
        if e.itemId != r.id then None else
        match ApplyPart(r.summaries, e)
        case None => None
        case Some((parts, frame)) => Some(Applied(SetReasoning(st, e.index, r.(summaries := parts)), Some(frame)))
  }

  function SetReasoning(st: State, index: int, r: ReasoningState): State {
    st.(reasonings := st.reasonings[index := r])
  }

  function SetMessage(st: State, index: int, m: MessageState): State {
    st.(messages := st.messages[index := m])
  }

  /** The identity of a reasoning item and the text of every opened summary part; the ciphertext of
      different snapshots of one item may differ and is never compared. */
  predicate ValidateItem(r: ReasoningState, item: Item) {
    && item.ReasoningItem?
    && item.id == r.id
    && (r.upstreamDone ==> item.summary == r.doneSummary)
    && forall k | k in r.summaries :: SummaryMatches(r.summaries[k], k, item.summary.GetOr([]))
  }

  predicate SummaryMatches(p: PartState, k: int, summaries: seq<Part>) {
    && 0 <= k < |summaries|
    && summaries[k].Kind() == "summary_text"
    && summaries[k].TextField().Some?
    && var text := summaries[k].TextField().value;
    && p.text <= text
    && (p.textDone ==> p.text == text)
  }

  function ApplyMessage(st: State, e: Event): Option<Applied>
    requires Progress(e) && !IsReasoningEvent(e)
  {
    if e.ItemAdded? then
      if e.index in st.messages || e.index in st.reasonings || e.item.id == "" then None
      else Some(Applied(SetMessage(st, e.index, MessageState(e.item.id, map[], false)),
                        Some(ItemAdded(e.index, e.item.(status := "in_progress", content := [])))))
    else
      if e.index !in st.messages || st.messages[e.index].done then None else
      var m := st.messages[e.index];
      if e.ItemDone? then
        if !MessageDoneMatches(m, e.item) then None
        else Some(Applied(SetMessage(st, e.index, m.(done := true)), Some(e)))
      else
        if e.itemId != m.id then None else
        match ApplyPart(m.parts, e)
        case None => None
        case Some((parts, frame)) => Some(Applied(SetMessage(st, e.index, m.(parts := parts)), Some(frame)))
  }

  predicate MessageDoneMatches(m: MessageState, item: Item)
    requires item.MessageItem?
  {
    && item.id == m.id
    && |item.content| == |m.parts|
    && forall k | k in m.parts :: DonePartMatches(m.parts[k], k, item.content)
  }

  predicate DonePartMatches(p: PartState, k: int, content: seq<Part>) {
    && p.done
    && (p.kind == "output_text" ==>
          && 0 <= k < |content|
          && content[k].TextField() == Some(p.text)
          && LogprobsMatch(content[k].Logs(), p.logs))
  }

  /** The part events of one item: the new parts and the frame to forward. */
  function ApplyPart(parts: map<int, PartState>, e: Event): Option<(map<int, PartState>, Event)>
    requires e.IsPartEvent()
  {
    if e.PartAdded? then
      if e.part in parts || e.part != |parts| || (e.part > 0 && !(e.part - 1 in parts && parts[e.part - 1].done)) then None
      else if e.ch == Summary && e.content.Kind() != "summary_text" then None
      else Some((parts[e.part := PartState(e.content.Kind(), "", [], false, false)],
                 PartAdded(e.ch, e.index, e.part, e.itemId, Opening(e.ch, e.content))))
    else if e.part !in parts || parts[e.part].done then None
    else
      var p := ApplyText(parts[e.part], e);
      if p.None? then None else Some((parts[e.part := p.value], ForwardedText(e)))
  }

  /** A part is announced without its text: the text only travels in deltas. */
  function Opening(ch: Channel, content: Part): Part {
    if content.NotObject? then NotObject("null")
    else if ch == Summary then content.(text := Some(""))
    else if content.Kind() != "output_text" then content
    else content.(text := Some(""), logs := if content.logs.LogsAbsent? then LogsAbsent else LogsList([]))
  }

  /** Message deltas always carry a `logprobs` list; other frames travel as received. */
  function ForwardedText(e: Event): Event {
    if e.TextDelta? && e.ch == Content && !e.logs.LogsList? then
      TextDelta(e.ch, e.index, e.part, e.itemId, e.delta, LogsList([]))
    else e
  }

  function ApplyText(p: PartState, e: Event): Option<PartState>
    requires e.TextDelta? || e.TextDone? || e.PartDone?
  {
    match e
    case TextDelta(ch, _, _, _, delta, logs) =>
      if delta.None? || p.textDone || (ch == Content && p.kind != "output_text") then None
      else Some(p.(text := p.text + delta.value, logs := if ch == Content then p.logs + logs.Entries() else p.logs))
    case TextDone(ch, _, _, _, text, logs) =>
      if p.textDone || text != Some(p.text) || (ch == Content && (p.kind != "output_text" || !LogprobsMatch(logs, p.logs))) then None
      else Some(p.(textDone := true))
    case PartDone(ch, _, _, _, content) =>
      if content.Kind() != p.kind then None
      else if (ch == Summary || p.kind == "output_text") && (!p.textDone || content.TextField() != Some(p.text)) then None
      else if ch == Content && p.kind == "output_text" && !LogprobsMatch(content.Logs(), p.logs) then None
      else Some(p.(done := true))
  }

  // ---------- running a whole history ----------

  datatype Ran = Ran(st: State, frames: seq<Event>)

  function FrameSeq(frame: Option<Event>): seq<Event> {
    if frame.Some? then [frame.value] else []
  }

  /** Applies every event in order from the empty state; None at the first inconsistency. */
  function Run(history: seq<Event>): Option<Ran> {
    if history == [] then Some(Ran(START, []))
    else
      var before := Run(history[..|history| - 1]);
      if before.None? then None else
      var last := Apply(before.value.st, history[|history| - 1]);
      if last.None? then None
      else Some(Ran(last.value.st, before.value.frames + FrameSeq(last.value.frame)))
  }

  lemma RunAppend(history: seq<Event>, e: Event)
    ensures Run(history + [e]) ==
            if Run(history).None? then None else
            var last := Apply(Run(history).value.st, e);
            if last.None? then None
            else Some(Ran(last.value.st, Run(history).value.frames + FrameSeq(last.value.frame)))
  {
    var all := history + [e];
    assert all[..|all| - 1] == history;
  }

  // ---------- the specification of the machine ----------

  datatype StreamError = InvalidJson | Inconsistent | UpstreamFailed(reason: string)

  /** One decoded upstream event, as `consume` classifies it. `Unnumbered` is a message or reasoning
      event one of whose indices is no JSON integer. */
  datatype Upstream =
    | DoneMarker
    | BadJson
    | Failure(reason: string)
    | Terminal
    | Meta(id: string)
    | Unnumbered
    | Output(ev: Event)
    | Ignored

  /** What one `consume` call hands to its callbacks: the response id to open the stream with, or
      frames to forward, the first batch with the response id. */
  datatype Effect =
    | Quiet
    | Announce(id: string)
    | Forward(meta: Option<string>, frames: seq<Event>)
  {
    function Frames(): seq<Event> {
      if Forward? then frames else []
    }
  }

  datatype Naive = Naive(
    buffered: bool, history: seq<Event>, committed: bool, meta: Option<string>,
    terminal: bool, sentinel: bool, events: nat, deliveredText: bool, deliveredSummary: bool)

  datatype Step = Step(next: Naive, err: Option<StreamError>, effect: Effect)

  function InitialNaive(buffered: bool): Naive {
    Naive(buffered, [], false, None, false, false, 0, false, false)
  }

  predicate Delivers(ch: Channel, frames: seq<Event>) {
    exists k | 0 <= k < |frames| :: NonEmptyDelta(frames[k]) && frames[k].ch == ch
  }

  function Delivering(n: Naive, meta: Option<string>, frames: seq<Event>): Step {
    Step(n.(deliveredText := n.deliveredText || Delivers(Content, frames),
            deliveredSummary := n.deliveredSummary || Delivers(Summary, frames)),
         None, Forward(meta, frames))
  }

  function Refused(n: Naive, err: StreamError): Step {
    Step(n, Some(err), Quiet)
  }

  function NaiveStep(before: Naive, u: Upstream): Step {
    var n := before.(events := before.events + 1);
    if u.DoneMarker? then Step(n.(sentinel := true), None, Quiet)
    else if u.BadJson? then Refused(n, InvalidJson)
    else if n.terminal || n.sentinel then Refused(n, Inconsistent)
    else
      match u
      case Failure(reason) => Refused(n, UpstreamFailed(reason))
      case Terminal => Step(n.(terminal := true), None, Quiet)
      case Meta(id) =>
        if n.meta.Some? && n.meta.value != id then Refused(n, Inconsistent)
        else if n.meta.None? && id != "" then Step(n.(meta := Some(id)), None, Announce(id))
        else Step(n, None, Quiet)
      case Unnumbered => Refused(n, Inconsistent)
      case Ignored => Step(n, None, Quiet)
      case Output(e) =>
        if !Progress(e) then Step(n, None, Quiet)
        else if !Numbered(e) then Refused(n, Inconsistent)
        else NaiveOutput(n, e)
  }

  /** Replays the history and applies one more event. */
  function RunThen(history: seq<Event>, e: Event): Option<Applied> {
    if Run(history).None? then None else Apply(Run(history).value.st, e)
  }

  /** Before the commit every event is recorded; the commit happens at the first non-empty delta at which
      the response id is known and the whole recorded history is consistent. Buffered and committed
      machines refuse the first event that makes the history inconsistent. */
  function NaiveOutput(n: Naive, e: Event): Step {
    var longer := n.(history := n.history + [e]);
    if n.buffered || n.committed then
      match RunThen(n.history, e)
      case None => Refused(n, Inconsistent)
      case Some(a) =>
        if n.committed && a.frame.Some? then Delivering(longer, None, [a.frame.value]) else Step(longer, None, Quiet)
    else
      var run := Run(n.history + [e]);
      if NonEmptyDelta(e) && n.meta.Some? && run.Some? then
        Delivering(longer.(committed := true), n.meta, run.value.frames)
      else Step(longer, None, Quiet)
  }

  /** A machine fed with upstream events up to the first error: its state and everything it forwarded. */
  datatype Fed = Fed(n: Naive, sent: seq<Event>, err: Option<StreamError>)

  function Feed(buffered: bool, us: seq<Upstream>): Fed {
    if us == [] then Fed(InitialNaive(buffered), [], None)
    else
      var before := Feed(buffered, us[..|us| - 1]);
      if before.err.Some? then before
      else
        var s := NaiveStep(before.n, us[|us| - 1]);
        Fed(s.next, before.sent + s.effect.Frames(), s.err)
  }

  // ---------- the terminal response ----------

  /** What has been opened and streamed so far is a beginning of the terminal output. */
  predicate ItemsAccepted(st: State, output: seq<Item>) {
    && (forall i | i in st.reasonings :: 0 <= i < |output| && ValidateItem(st.reasonings[i], output[i]))
    && (forall i | i in st.messages :: 0 <= i < |output| && MessageAccepted(st.messages[i], output[i]))
  }

  predicate MessageAccepted(m: MessageState, item: Item) {
    && item.MessageItem?
    && item.id == m.id
    && (m.done ==> |item.content| == |m.parts|)
    && forall k | k in m.parts :: PartAccepted(m.parts[k], k, item.content)
  }

  predicate PartAccepted(p: PartState, k: int, content: seq<Part>) {
    && 0 <= k < |content|
    && content[k].Part?
    && content[k].kind == Some(p.kind)
    && (p.kind == "output_text" ==>
          && content[k].text.Some?
          && p.text <= content[k].text.value
          && (p.textDone ==> p.text == content[k].text.value)
          && p.logs <= content[k].logs.Entries()
          && (p.textDone ==> LogprobsMatch(content[k].logs, p.logs)))
  }

  /** `validateFinal`: an uncommitted incremental machine has shown nothing and accepts everything. */
  predicate FinalAccepted(n: Naive, r: Response) {
    (n.committed || n.buffered) ==>
      && (n.meta.Some? ==> r.id == n.meta.value)
      && Run(n.history).Some?
      && ItemsAccepted(Run(n.history).value.st, r.output)
  }

  // ---------- the pre-filter ----------

  function LearnItem(ch: Channel, known: map<int, string>, e: Event): map<int, string> {
    if e.ItemAdded? && (if ch == Content then e.item.MessageItem? else e.item.ReasoningItem?) then known[e.index := e.item.id]
    else known
  }

  function LearnPart(ch: Channel, known: map<(int, int), bool>, e: Event): map<(int, int), bool> {
    if e.PartAdded? && e.ch == ch then known[(e.index, e.part) := ch == Summary || e.content.Kind() == "output_text"]
    else known
  }

  /** The id of the last item of the channel's kind announced at each index. */
  function KnownItems(ch: Channel, history: seq<Event>): map<int, string> {
    if history == [] then map[]
    else LearnItem(ch, KnownItems(ch, history[..|history| - 1]), history[|history| - 1])
  }

  /** Whether the last part announced at each index and position can carry the channel's text. */
  function KnownParts(ch: Channel, history: seq<Event>): map<(int, int), bool> {
    if history == [] then map[]
    else LearnPart(ch, KnownParts(ch, history[..|history| - 1]), history[|history| - 1])
  }

  lemma KnownAppend(ch: Channel, history: seq<Event>, e: Event)
    ensures KnownItems(ch, history + [e]) == LearnItem(ch, KnownItems(ch, history), e)
    ensures KnownParts(ch, history + [e]) == LearnPart(ch, KnownParts(ch, history), e)
  {
    var all := history + [e];
    assert all[..|all| - 1] == history;
  }

  predicate PassesFilter(known: map<int, string>, parts: map<(int, int), bool>, e: Event)
    requires e.TextDelta?
  {
    && e.index in known && known[e.index] != "" && known[e.index] == e.itemId
    && (e.index, e.part) in parts && parts[(e.index, e.part)]
  }

  /** The pre-filter knows an opened message and its parts. */
  ghost predicate MessageKnown(i: int, m: MessageState, known: map<int, string>, parts: map<(int, int), bool>) {
    && m.id != "" && i in known && known[i] == m.id
    && forall k | k in m.parts :: (i, k) in parts && parts[(i, k)] == (m.parts[k].kind == "output_text")
  }

  ghost predicate MessagesKnown(messages: map<int, MessageState>, known: map<int, string>, parts: map<(int, int), bool>) {
    forall i | i in messages :: MessageKnown(i, messages[i], known, parts)
  }

  /** The pre-filter knows an opened reasoning item and its summary parts. */
  ghost predicate ReasoningKnown(i: int, r: ReasoningState, known: map<int, string>, parts: map<(int, int), bool>) {
    && r.id != "" && i in known && known[i] == r.id
    && forall k | k in r.summaries :: (i, k) in parts && parts[(i, k)]
  }

  ghost predicate ReasoningsKnown(reasonings: map<int, ReasoningState>, known: map<int, string>, parts: map<(int, int), bool>) {
    forall i | i in reasonings :: ReasoningKnown(i, reasonings[i], known, parts)
  }

  /** A part event touches one part and never changes its kind. */
  lemma PartStep(parts: map<int, PartState>, e: Event)
    requires e.IsPartEvent()
    requires ApplyPart(parts, e).Some?
    ensures var parts' := ApplyPart(parts, e).value.0;
            && parts'.Keys == parts.Keys + {e.part}
            && (forall k | k in parts && k != e.part :: parts'[k] == parts[k])
            && parts'[e.part].kind == (if e.PartAdded? then e.content.Kind() else parts[e.part].kind)
            && (e.PartAdded? <==> e.part !in parts)
            && (e.TextDelta? && e.ch == Content ==> parts[e.part].kind == "output_text")
  {
  }

  lemma MessagePartKnown(i: int, m: MessageState, e: Event, known: map<int, string>, parts: map<(int, int), bool>)
    requires e.IsPartEvent() && e.ch == Content && e.index == i
    requires MessageKnown(i, m, known, parts)
    requires ApplyPart(m.parts, e).Some?
    ensures MessageKnown(i, m.(parts := ApplyPart(m.parts, e).value.0), known, LearnPart(Content, parts, e))
    ensures e.TextDelta? && e.itemId == m.id ==> PassesFilter(known, LearnPart(Content, parts, e), e)
  {
    PartStep(m.parts, e);
  }

  lemma MessageStepKnown(st: State, e: Event, known: map<int, string>, parts: map<(int, int), bool>)
    requires Progress(e) && !IsReasoningEvent(e)
    requires MessagesKnown(st.messages, known, parts)
    requires ApplyMessage(st, e).Some?
    ensures MessagesKnown(ApplyMessage(st, e).value.st.messages, LearnItem(Content, known, e), LearnPart(Content, parts, e))
    ensures ApplyMessage(st, e).value.st.reasonings == st.reasonings
    ensures e.TextDelta? ==> PassesFilter(LearnItem(Content, known, e), LearnPart(Content, parts, e), e)
  {
    if e.IsPartEvent() {
      MessagePartKnown(e.index, st.messages[e.index], e, known, parts);
    }
    var messages' := ApplyMessage(st, e).value.st.messages;
    forall i | i in messages' && i != e.index
      ensures MessageKnown(i, messages'[i], LearnItem(Content, known, e), LearnPart(Content, parts, e))
    {
      assert MessageKnown(i, st.messages[i], known, parts);
    }
  }

  lemma ReasoningPartKnown(i: int, r: ReasoningState, e: Event, known: map<int, string>, parts: map<(int, int), bool>)
    requires e.IsPartEvent() && e.ch == Summary && e.index == i
    requires ReasoningKnown(i, r, known, parts)
    requires ApplyPart(r.summaries, e).Some?
    ensures ReasoningKnown(i, r.(summaries := ApplyPart(r.summaries, e).value.0), known, LearnPart(Summary, parts, e))
    ensures e.TextDelta? && e.itemId == r.id ==> PassesFilter(known, LearnPart(Summary, parts, e), e)
  {
    PartStep(r.summaries, e);
  }

  lemma ReasoningStepKnown(st: State, e: Event, known: map<int, string>, parts: map<(int, int), bool>)
    requires Progress(e) && IsReasoningEvent(e)
    requires ReasoningsKnown(st.reasonings, known, parts)
    requires ApplyReasoning(st, e).Some?
    ensures ReasoningsKnown(ApplyReasoning(st, e).value.st.reasonings, LearnItem(Summary, known, e), LearnPart(Summary, parts, e))
    ensures ApplyReasoning(st, e).value.st.messages == st.messages
    ensures e.TextDelta? ==> PassesFilter(LearnItem(Summary, known, e), LearnPart(Summary, parts, e), e)
  {
    if e.IsPartEvent() {
      ReasoningPartKnown(e.index, st.reasonings[e.index], e, known, parts);
    }
    var reasonings' := ApplyReasoning(st, e).value.st.reasonings;
    forall i | i in reasonings' && i != e.index
      ensures ReasoningKnown(i, reasonings'[i], LearnItem(Summary, known, e), LearnPart(Summary, parts, e))
    {
      assert ReasoningKnown(i, st.reasonings[i], known, parts);
    }
  }

  lemma {:induction false} RunKnows(history: seq<Event>)
    requires Run(history).Some?
    ensures MessagesKnown(Run(history).value.st.messages, KnownItems(Content, history), KnownParts(Content, history))
    ensures ReasoningsKnown(Run(history).value.st.reasonings, KnownItems(Summary, history), KnownParts(Summary, history))
  {
    if history != [] {
      var shorter, e := history[..|history| - 1], history[|history| - 1];
      RunKnows(shorter);
      StepKnown(Run(shorter).value.st, shorter, e);
    }
  }

  lemma StepKnown(st: State, history: seq<Event>, e: Event)
    requires MessagesKnown(st.messages, KnownItems(Content, history), KnownParts(Content, history))
    requires ReasoningsKnown(st.reasonings, KnownItems(Summary, history), KnownParts(Summary, history))
    requires Apply(st, e).Some?
    ensures var st' := Apply(st, e).value.st;
            && MessagesKnown(st'.messages, LearnItem(Content, KnownItems(Content, history), e),
                             LearnPart(Content, KnownParts(Content, history), e))
            && ReasoningsKnown(st'.reasonings, LearnItem(Summary, KnownItems(Summary, history), e),
                               LearnPart(Summary, KnownParts(Summary, history), e))
    ensures e.TextDelta? ==>
              PassesFilter(LearnItem(e.ch, KnownItems(e.ch, history), e), LearnPart(e.ch, KnownParts(e.ch, history), e), e)
  {
    if IsReasoningEvent(e) {
      ReasoningStepKnown(st, e, KnownItems(Summary, history), KnownParts(Summary, history));
    } else {
      MessageStepKnown(st, e, KnownItems(Content, history), KnownParts(Content, history));
    }
  }

  /** The pre-filter never blocks a commit: it passes every delta a trial run would accept. */
  lemma FilterPassesConsistentDeltas(history: seq<Event>, e: Event)
    requires e.TextDelta?
    requires Run(history + [e]).Some?
    ensures PassesFilter(KnownItems(e.ch, history + [e]), KnownParts(e.ch, history + [e]), e)
  {
    RunAppend(history, e);
    RunKnows(history);
    StepKnown(Run(history).value.st, history, e);
    KnownAppend(e.ch, history, e);
  }
}
