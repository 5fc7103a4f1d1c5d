/** A whole well-formed upstream body: the response announced, everything about its messages and reasoning
    items streamed in some order, the terminal event, and perhaps an end marker. Written as an event stream and
    read in any chunks, it is taken without an error, parsed to its response, and delivered. */
module Whole {
  import opened Responses
  import opened Delivery
  import opened Replay
  import opened Client
  import opened Session
  import opened Turn
  import opened LiveForms
  import opened Snapshots
  import opened Space
  import opened Sse
  import opened Relay
  import opened Reading
  import opened Writing
  import opened Parsing
  import opened Wire
  import Feeding
  import EndToEnd

  /** The message and reasoning events among these. */
  function Said(events: seq<Event>): seq<Event> {
    if events == [] then [] else Said(events[..|events| - 1]) + if Progress(events[|events| - 1]) then [events[|events| - 1]] else []
  }

  /** What may stand between the first and the terminal event of the response `id`. */
  predicate Middle(id: string, e: Event) {
    match e
    case Created(r) => r.id == id
    case InProgress(r) => r.id == id
    case Completed(_) => false
    case Incomplete(_) => false
    case Failed(_, _) => false
    case _ => Progress(e) ==> Numbered(e)
  }

  /** The terminal event of a response. */
  function Terminated(r: Response): Event {
    if r.status == "incomplete" then Incomplete(r) else Completed(r)
  }

  /** Everything an upstream sends about a response. */
  ghost predicate Script(events: seq<Event>, r: Response, cuts: int -> seq<seq<Piece>>) {
    && r.id != "" && (r.status == "completed" || r.status == "incomplete")
    && events != [] && events[0].Created?
    && (forall e | e in events :: Middle(r.id, e))
    && Begun(Said(events), r.output, cuts)
  }

  /** The messages that carry these events. */
  predicate Carried(codec: Codec, values: Values, events: seq<Event>, messages: seq<Message>) {
    && |messages| == |events|
    && forall k | 0 <= k < |events| ::
         EventOk(codec, values, events[k]) && !IsDone(messages[k]) && codec.parse(messages[k].data) == Ok(EventObject(values, events[k]))
  }

  // ---------- what the machine is told ----------

  lemma ToldMiddle(codec: Codec, values: Values, id: string, e: Event)
    requires Middle(id, e)
    ensures var u := Told(codec, values, e);
            && (u == Meta(id) || u.Ignored? || (u.Output? && Progress(u.ev) && Numbered(u.ev)))
            && (if Progress(e) then u == Output(e) else !u.Output?)
            && (e.Created? ==> u == Meta(id))
  {
    hide Numbered, EventObject;
  }

  lemma {:induction false} ToldOutputs(codec: Codec, values: Values, id: string, events: seq<Event>, messages: seq<Message>)
    requires Carried(codec, values, events, messages) && forall e | e in events :: Middle(id, e)
    ensures Smooth(id, Classified(codec, messages)) && Outputs(Classified(codec, messages)) == Said(events)
  {
    hide Middle, Numbered, Progress, EventOk, EventObject, IsDone, Classify, Outputs, Smooth;
    if events == [] {
      NothingTold(id);
      assert Classified(codec, messages) == [];
    } else {
      var n := |events| - 1;
      var shorter, e, m := events[..n], events[n], messages[n];
      assert forall x | x in shorter :: x in events;
      ToldOutputs(codec, values, id, shorter, messages[..n]);
      ClassifiesBack(codec, values, m, e);
      ToldMiddle(codec, values, id, e);
      assert Classified(codec, messages) == Classified(codec, messages[..n]) + [Told(codec, values, e)];
      OutputsNext(Classified(codec, messages[..n]), Told(codec, values, e));
      SmoothNext(id, Classified(codec, messages[..n]), Told(codec, values, e));
      assert Said(shorter) + [] == Said(shorter);
    }
  }

  lemma NothingTold(id: string)
    ensures Smooth(id, []) && Outputs([]) == []
  {
  }

  lemma SmoothNext(id: string, us: seq<Upstream>, u: Upstream)
    requires Smooth(id, us) && (u == Meta(id) || u.Ignored? || (u.Output? && Progress(u.ev) && Numbered(u.ev)))
    ensures Smooth(id, us + [u])
  {
    hide Progress, Numbered;
  }

  // ---------- the end of a body ----------

  /** One more event of this kind changes nothing but that the end has come. */
  lemma FedMore(buffered: bool, us: seq<Upstream>, u: Upstream)
    requires var f := Feed(buffered, us); f.err.None? && (u.DoneMarker? || (u.Terminal? && !f.n.terminal && !f.n.sentinel))
    ensures var f, g := Feed(buffered, us), Feed(buffered, us + [u]);
            && g.err.None? && g.sent == f.sent
            && g.n == f.n.(terminal := f.n.terminal || u.Terminal?, sentinel := f.n.sentinel || u.DoneMarker?, events := g.n.events)
  {
    hide NaiveOutput, Progress, Numbered;
    var f, longer := Feed(buffered, us), us + [u];
    assert longer[..|longer| - 1] == us;
    assert f.sent + [] == f.sent;
  }

  /** The terminal event, and end markers after it. */
  lemma {:induction false} FedToTheEnd(buffered: bool, us: seq<Upstream>, markers: nat)
    requires var f := Feed(buffered, us); f.err.None? && !f.n.terminal && !f.n.sentinel
    ensures var f, g := Feed(buffered, us), Feed(buffered, us + [Terminal] + seq(markers, k => DoneMarker));
            && g.err.None? && g.sent == f.sent
            && g.n == f.n.(terminal := true, sentinel := g.n.sentinel, events := g.n.events)
  {
    hide Feed;
    var ended := us + [Terminal];
    if markers == 0 {
      assert ended + seq(0, k => DoneMarker) == ended;
      FedMore(buffered, us, Terminal);
    } else {
      FedToTheEnd(buffered, us, markers - 1);
      var shorter := ended + seq(markers - 1, k => DoneMarker);
      assert ended + seq(markers, k => DoneMarker) == shorter + [DoneMarker];
      FedMore(buffered, shorter, DoneMarker);
    }
  }

  lemma TerminalReadBack(codec: Codec, values: Values, m: Message, r: Response)
    requires codec.parse(m.data) == Ok(EventObject(values, Terminated(r))) && !IsDone(m) && ResponseOk(codec, values, r)
    requires r.status == "completed" || r.status == "incomplete"
    ensures Classify(codec, m) == Terminal && ReadTerminal(codec, m) == Ok(r)
  {
    hide Classify, ResponseOk, ResponseObject, ReadResponse, IsDone, TextMember, FailureOf, EventKind;
    ClassifiesBack(codec, values, m, Terminated(r));
    KindReadBack(values, Terminated(r), m.event);
    ResponseReadBack(codec, values, r);
    TerminalMembers(values, r);
  }

  lemma TerminalMembers(values: Values, r: Response)
    ensures Member(EventObject(values, Terminated(r)), "response") == Obj(ResponseObject(values, r))
    ensures r.status == "completed" || r.status == "incomplete" ==> "response." + r.status == EventKind(Terminated(r))
  {
    hide ResponseObject, EventKind;
    TerminalKind(r);
  }

  lemma TerminalKind(r: Response)
    ensures r.status == "completed" || r.status == "incomplete" ==> "response." + r.status == EventKind(Terminated(r))
  {
    assert "response." + "completed" == "response.completed" && "response." + "incomplete" == "response.incomplete";
  }

  /** The machine takes the whole body, in either mode, and then accepts its response. */
  lemma BodyTaken(codec: Codec, values: Values, buffered: bool, events: seq<Event>, r: Response, cuts: int -> seq<seq<Piece>>,
      messages: seq<Message>, last: Message, markers: seq<Message>)
    requires Script(events, r, cuts) && Carried(codec, values, events, messages)
    requires Carried(codec, values, [Terminated(r)], [last]) && forall m | m in markers :: IsDone(m)
    ensures var f := Feed(buffered, Classified(codec, messages + [last] + markers));
            && f.err.None? && f.n.history == Said(events) && Run(Said(events)).Some?
            && f.n.committed == (!buffered && HasDelta(Said(events)))
            && f.sent == (if f.n.committed then Run(Said(events)).value.frames else [])
            && FinalAccepted(f.n, r)
  {
    hide Feed, Run, Begun, Said, HasDelta, Classify, Outputs, Smooth, ItemsAccepted, Carried, Middle;
    var us := Classified(codec, messages);
    ToldOutputs(codec, values, r.id, events, messages);
    FirstIsMeta(codec, values, r, events, messages, cuts);
    LiveTurn(buffered, r.id, us, r.output, cuts, r);
    LastReadBack(codec, values, last, r);
    FedToTheEnd(buffered, us, |markers|);
    AllClassified(codec, messages, last, markers);
  }

  lemma LastReadBack(codec: Codec, values: Values, last: Message, r: Response)
    requires Carried(codec, values, [Terminated(r)], [last]) && (r.status == "completed" || r.status == "incomplete")
    ensures Classify(codec, last) == Terminal && ReadTerminal(codec, last) == Ok(r)
  {
    hide EventObject, EventKind, IsDone, ReadTerminal, Classify;
    OneCarried(codec, values, Terminated(r), last);
    TerminalReadBack(codec, values, last, r);
  }

  /** And the parser gives its response. */
  lemma BodyParsed(codec: Codec, values: Values, events: seq<Event>, r: Response, cuts: int -> seq<seq<Piece>>,
      messages: seq<Message>, last: Message, markers: seq<Message>)
    requires Script(events, r, cuts) && Carried(codec, values, events, messages)
    requires Carried(codec, values, [Terminated(r)], [last]) && forall m | m in markers :: IsDone(m)
    ensures ParseAll(codec, messages + [last] + markers) == Ok(Some(r))
  {
    hide Feed, Run, Classify, ReadTerminal, ParseAll, Carried, Classified, Begun, Middle, OneAtMost;
    var all := messages + [last] + markers;
    BodyTaken(codec, values, false, events, r, cuts, messages, last, markers);
    LastReadBack(codec, values, last, r);
    ParsedAfterFeed(codec, false, all);
    assert all[|messages|] == last && HoldsTerminal(codec, all[|messages|]);
  }

  lemma OneCarried(codec: Codec, values: Values, e: Event, m: Message)
    requires Carried(codec, values, [e], [m])
    ensures EventOk(codec, values, e) && !IsDone(m) && codec.parse(m.data) == Ok(EventObject(values, e))
  {
    hide EventOk, IsDone, EventObject;
    assert [e][0] == e && [m][0] == m;
  }

  lemma FirstIsMeta(codec: Codec, values: Values, r: Response, events: seq<Event>, messages: seq<Message>, cuts: int -> seq<seq<Piece>>)
    requires Script(events, r, cuts) && Carried(codec, values, events, messages)
    ensures var us := Classified(codec, messages); us != [] && us[0] == Meta(r.id)
  {
    hide EventOk, IsDone, EventObject, Classify, Begun;
    assert events[0] in events;
    ClassifiesBack(codec, values, messages[0], events[0]);
  }

  lemma AllClassified(codec: Codec, messages: seq<Message>, last: Message, markers: seq<Message>)
    requires Classify(codec, last) == Terminal && forall m | m in markers :: IsDone(m)
    ensures Classified(codec, messages + [last] + markers)
            == Classified(codec, messages) + [Terminal] + seq(|markers|, k => DoneMarker)
  {
    hide Classify, IsDone, Classified;
    ClassifiedAppend(codec, messages + [last], markers);
    ClassifiedAppend(codec, messages, [last]);
    ClassifiedOne(codec, last);
    ClassifiedMarkers(codec, markers);
  }

  lemma ClassifiedAppend(codec: Codec, a: seq<Message>, b: seq<Message>)
    ensures Classified(codec, a + b) == Classified(codec, a) + Classified(codec, b)
  {
    hide Classify;
  }

  lemma ClassifiedOne(codec: Codec, m: Message)
    ensures Classified(codec, [m]) == [Classify(codec, m)]
  {
    hide Classify;
  }

  lemma ClassifiedMarkers(codec: Codec, markers: seq<Message>)
    requires forall m | m in markers :: IsDone(m)
    ensures Classified(codec, markers) == seq(|markers|, k => DoneMarker)
  {
    hide IsDone, KindOf, ReadItemEvent, ReadPartEvent;
    forall k | 0 <= k < |markers| ensures Classify(codec, markers[k]) == DoneMarker {
      assert markers[k] in markers;
    }
    hide Classify;
  }

  // ---------- from the bytes to the client ----------

  lemma RenderedBody(messages: seq<Message>, done: bool)
    requires messages != [] && forall m | m in messages :: Writable(m)
    ensures EventBody(Render(messages, done))
    ensures Feeding.WholeBody(Render(messages, done)) == messages + (if done then [Message("", "[DONE]")] else [])
  {
    hide Writable, Render, Scan, BlankAt;
    var text := Render(messages, done);
    RenderedStart(messages, done);
    RoundTrip(messages, done);
    ScanAppend(NOTHING, text, "\n\n");
    assert "" + "\n\n" == "\n\n";
    BlankLines();
    assert messages + (if done then [Message("", "[DONE]")] else []) + [] == messages + (if done then [Message("", "[DONE]")] else []);
  }

  lemma RenderedStart(messages: seq<Message>, done: bool)
    requires messages != []
    ensures var text := Render(messages, done); text != "" && text[0] == 'e' && BlankAt(text) == 0
  {
    var text := Render(messages, done);
    assert text[0] == WriteOne(messages[0])[0] == 'e';
  }

  lemma BlankLines()
    ensures Scan(NOTHING, "\n\n").messages == []
  {
    hide Scan;
    assert "\n\n" == "\n" + ("\n" + "");
    ScanBlank(NOTHING, "\n" + "");
    ScanBlank(NOTHING, "");
    ScanNothing();
  }

  /** A well-formed upstream body with some text in it, written as an event stream and read in any chunks, its
      response transformed without touching messages and reasoning, its frames handed to an open session that
      is then finished: the client ends up with one complete delivery of every output index. Nothing is asked
      of the machine: that it takes the body, commits and accepts the response is part of the claim. */
  lemma WellFormedDelivered(codec: Codec, values: Values, events: seq<Event>, r: Response, cuts: int -> seq<seq<Piece>>,
      messages: seq<Message>, last: Message, done: bool, chunks: seq<string>, sent: Response,
      id: string, heartbeat: bool, ops: seq<Op>, late: bool, i: int)
    requires Script(events, r, cuts) && HasDelta(Said(events)) && Carried(codec, values, events, messages)
    requires Carried(codec, values, [Terminated(r)], [last]) && forall m | m in messages + [last] :: Writable(m)
    requires Feeding.Concat(chunks) == Render(messages + [last], done)
    requires KeepsStreamedItems(r.output, sent.output)
    requires Run(Said(events)).Some? ==> EndToEnd.Offered(ops) == Run(Said(events)).value.frames
    requires !Silent(RunOps(Initial(id, heartbeat), ops))
    ensures Run(Said(events)).Some? && Parsed(codec, Feeding.Concat(chunks)) == Ok(r)
    ensures var ran := Run(Said(events)).value;
            var v := Next(RunOps(Initial(id, heartbeat), ops), Finish(sent, Some(ran.st), true, false, true, false, late));
            && StreamOk(v) && v.ended
            && HeldRun(i, BLANK, Bare(v.accepted)) == Some(FinalHeld(ran.frames, ran.st, sent, i))
  {
    hide Run, Begun, Said, HasDelta, Feed, FinalAccepted, KeepsStreamedItems, RunOps, StreamOk, FinalHeld, HeldRun, Bare, Next, Silent,
      Classified, Feeding.WholeBody, Feeding.Offered, Feeding.Concat, EndToEnd.Offered, ParseAll, Writable, Render, Script, Carried,
      Parsed, EventBody, Carries;
    var written, markers := messages + [last], if done then [Message("", "[DONE]")] else [];
    RenderedBody(written, done);
    MarkersAreDone(done);
    BodyTaken(codec, values, false, events, r, cuts, messages, last, markers);
    BodyParsed(codec, values, events, r, cuts, messages, last, markers);
    SameFeed(codec, false, chunks);
    ParsedBody(codec, Feeding.Concat(chunks), r);
    ChunksDelivered(codec, chunks, r, sent, id, heartbeat, ops, late, i);
  }

  lemma MarkersAreDone(done: bool)
    ensures forall m | m in (if done then [Message("", "[DONE]")] else []) :: IsDone(m)
  {
    hide TrimSpace;
    PlainStays("[DONE]");
  }

  lemma ParsedBody(codec: Codec, raw: string, r: Response)
    requires EventBody(raw) && ParseAll(codec, Feeding.WholeBody(raw)) == Ok(Some(r))
    ensures Parsed(codec, raw) == Ok(r)
  {
    hide TrimSpace, TrimLeft, ParseAll, Feeding.WholeBody;
    TrimSpaceStart(raw);
  }
}
