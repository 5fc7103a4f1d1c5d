/** The central theorem of incremental delivery: for every output index, the live frames of a committed
    machine followed by the filtered replay of an accepted terminal response look to the strict client
    like exactly one complete delivery of the terminal item. */
module Convergence {
  import opened Responses
  import opened Delivery
  import opened Replay
  import opened Client

  // ---------- what the client ends up with ----------

  /** A part delivered in full. Only token probabilities may fall short of the terminal part: those of a
      text that had been streamed to its end are the ones streamed with it. */
  function DeliveredPart(ch: Channel, k: int, live: map<int, PartState>, part: Part): ClientPart {
    if TextPart(ch, part) then
      ClientPart(k, part.Kind(), true, TextOf(part), DeliveredLogs(ch, k, live, part), true, true)
    else ClientPart(k, part.Kind(), false, "", [], false, true)
  }

  function DeliveredLogs(ch: Channel, k: int, live: map<int, PartState>, part: Part): seq<Logprob> {
    if ch == Summary then []
    else if |TextOf(part)| <= |SentText(live, k)| then (if k in live then live[k].logs else [])
    else part.Logs().Entries()
  }

  function SentText(live: map<int, PartState>, k: int): string {
    if k in live then live[k].text else ""
  }

  /** The first `n` parts, those without events left out. */
  function DeliveredParts(ch: Channel, live: map<int, PartState>, parts: seq<Part>, n: nat): seq<ClientPart>
    requires n <= |parts|
  {
    if n == 0 then []
    else DeliveredParts(ch, live, parts, n - 1)
         + if Shown(ch, parts[n - 1]) then [DeliveredPart(ch, n - 1, live, parts[n - 1])] else []
  }

  function LiveParts(st: State, ch: Channel, i: int): map<int, PartState> {
    if ch == Content && i in st.messages then st.messages[i].parts
    else if ch == Summary && i in st.reasonings then st.reasonings[i].summaries
    else map[]
  }

  /** The client's complete view of a terminal item. */
  function Delivered(st: State, i: int, item: Item): ClientItem {
    match item
    case MessageItem(id, _, content, _) =>
      Present(MessageShape, id, DeliveredParts(Content, LiveParts(st, Content, i), content, |content|), "", false, true, None)
    case ReasoningItem(id, summary, _, _) =>
      var parts := summary.GetOr([]);
      Present(ReasoningShape, id, DeliveredParts(Summary, LiveParts(st, Summary, i), parts, |parts|), "", false, true, Some(item))
    case ToolItem(custom, id, _, _, _, payload, _, _) =>
      Present(ToolShape(custom), id, [], payload.Text(), true, true, Some(item))
    case OtherItem(id, _, _) => Present(PlainShape, id, [], "", false, true, Some(item))
    case NonObject(_) => Absent
  }

  // ---------- one part ----------

  /** A streamed part is a beginning of the terminal part. */
  ghost predicate Begins(ch: Channel, p: PartState, part: Part) {
    && Shown(ch, part)
    && part.Kind() == p.kind
    && (IsText(ch, p) <==> TextPart(ch, part))
    && (IsText(ch, p) ==>
          && p.text <= TextOf(part)
          && (p.textDone ==> p.text == TextOf(part))
          && p.logs <= part.Logs().Entries())
  }

  ghost predicate AllBegin(ch: Channel, live: map<int, PartState>, parts: seq<Part>) {
    && PartsOk(ch, live)
    && |live| <= |parts|
    && forall k | k in live :: Begins(ch, live[k], parts[k])
  }

  /** Nothing of a closed part is replayed ... */
  lemma ClosedPart(st: State, ch: Channel, i: int, id: string, k: int, part: Part)
    requires k in LiveParts(st, ch, i) && (ch == Content ==> i !in st.reasonings)
    requires var p := LiveParts(st, ch, i)[k]; PartOk(ch, p) && p.done && Begins(ch, p, part)
    ensures Kept(st, PartEvents(ch, i, id, k, part)) == []
  {
    var events := PartEvents(ch, i, id, k, part);
    forall e | e in events ensures Keep(st, e) == None {
    }
    KeptNone(st, events);
  }

  /** ... because it is what the terminal part prescribes. */
  lemma ClosedPartDelivered(ch: Channel, k: int, live: map<int, PartState>, part: Part)
    requires k in live && PartOk(ch, live[k]) && live[k].done && Begins(ch, live[k], part)
    ensures DeliveredPart(ch, k, live, part) == Mirror(ch, k, live[k])
  {
  }

  lemma {:induction false} KeptNone(st: State, events: seq<Event>)
    requires forall e | e in events :: Keep(st, e) == None
    ensures Kept(st, events) == []
  {
    if events != [] {
      KeptNone(st, events[1..]);
    }
  }

  lemma {:induction false} KeptAll(st: State, events: seq<Event>)
    requires forall e | e in events :: Keep(st, e) == Some(e)
    ensures Kept(st, events) == events
  {
    if events != [] {
      KeptAll(st, events[1..]);
    }
  }

  function Front(parts: seq<ClientPart>): seq<ClientPart>
    requires parts != []
  {
    parts[..|parts| - 1]
  }

  function OptionalDelta(ch: Channel, i: int, id: string, k: int, suffix: string, logs: LogField): seq<Event> {
    if suffix != "" then [TextDelta(ch, i, k, id, Some(suffix), logs)] else []
  }

  function OptionalDone(ch: Channel, i: int, id: string, k: int, part: Part, wanted: bool): seq<Event> {
    if wanted then [TextDone(ch, i, k, id, Some(TextOf(part)), LogsOf(ch, part))] else []
  }

  /** The client with its last part replaced. */
  function WithLast(c: ClientItem, q: ClientPart): ClientItem
    requires c.Present? && c.parts != []
  {
    c.(parts := Front(c.parts) + [q])
  }

  /** The client is in the middle of part `k`. */
  ghost predicate InPart(c: ClientItem, ch: Channel, k: int) {
    && c.Present? && !c.closed && c.shape == (if ch == Content then MessageShape else ReasoningShape)
    && c.parts != [] && Last(c.parts).index == k && !Last(c.parts).done
  }

  lemma DeltaStep(c: ClientItem, ch: Channel, i: int, k: int, suffix: string, logs: LogField)
    requires InPart(c, ch, k) && Last(c.parts).isText && (Last(c.parts).textDone ==> suffix == "")
    ensures var q := Last(c.parts);
            ClientRun(i, c, OptionalDelta(ch, i, c.id, k, suffix, logs))
            == Some(WithLast(c, q.(text := q.text + suffix,
                                   logs := if suffix != "" && ch == Content then q.logs + logs.Entries() else q.logs)))
  {
    var q := Last(c.parts);
    if suffix != "" {
      ClientRunOne(i, c, TextDelta(ch, i, k, c.id, Some(suffix), logs));
    } else {
      assert q.text + suffix == q.text;
      assert c.parts == Front(c.parts) + [q];
    }
  }

  lemma DoneStep(c: ClientItem, ch: Channel, i: int, k: int, part: Part)
    requires InPart(c, ch, k) && Last(c.parts).isText && Last(c.parts).text == TextOf(part)
    ensures var q := Last(c.parts);
            ClientRun(i, c, OptionalDone(ch, i, c.id, k, part, !q.textDone)) == Some(WithLast(c, q.(textDone := true)))
  {
    var q := Last(c.parts);
    if q.textDone {
      assert c.parts == Front(c.parts) + [q];
    } else {
      ClientRunOne(i, c, TextDone(ch, i, k, c.id, Some(TextOf(part)), LogsOf(ch, part)));
    }
  }

  lemma CloseStep(c: ClientItem, ch: Channel, i: int, k: int, part: Part)
    requires InPart(c, ch, k) && Last(c.parts).kind == part.Kind()
    requires Last(c.parts).isText ==> Last(c.parts).textDone && Last(c.parts).text == TextOf(part)
    ensures ClientRun(i, c, [PartDone(ch, i, k, c.id, part)]) == Some(WithLast(c, Last(c.parts).(done := true)))
  {
    ClientRunOne(i, c, PartDone(ch, i, k, c.id, part));
  }

  function TailEvents(ch: Channel, i: int, id: string, k: int, part: Part, suffix: string, logs: LogField, wanted: bool): seq<Event> {
    OptionalDelta(ch, i, id, k, suffix, logs) + (OptionalDone(ch, i, id, k, part, wanted) + [PartDone(ch, i, k, id, part)])
  }

  /** The rest of an open text part closes it with the whole text. */
  lemma TextTail(c: ClientItem, ch: Channel, i: int, k: int, part: Part, suffix: string, logs: LogField)
    requires InPart(c, ch, k)
    requires var q := Last(c.parts);
             q.isText && q.kind == part.Kind() && q.text + suffix == TextOf(part) && (q.textDone ==> suffix == "")
    ensures var q := Last(c.parts);
            var sent := if suffix != "" && ch == Content then q.logs + logs.Entries() else q.logs;
            ClientRun(i, c, TailEvents(ch, i, c.id, k, part, suffix, logs, !q.textDone))
            == Some(WithLast(c, ClientPart(k, part.Kind(), true, TextOf(part), sent, true, true)))
  {
    var q := Last(c.parts);
    var delta := OptionalDelta(ch, i, c.id, k, suffix, logs);
    var done := OptionalDone(ch, i, c.id, k, part, !q.textDone);
    var closing := [PartDone(ch, i, k, c.id, part)];
    DeltaStep(c, ch, i, k, suffix, logs);
    var c1 := ClientRun(i, c, delta).value;
    assert Front(c1.parts) == Front(c.parts);
    DoneStep(c1, ch, i, k, part);
    var c2 := ClientRun(i, c1, done).value;
    assert Front(c2.parts) == Front(c.parts);
    CloseStep(c2, ch, i, k, part);
    ClientRunAppend(i, c, delta, done + closing);
    ClientRunAppend(i, c1, done, closing);
  }

  /** What is kept of a part the machine has opened but not closed completes it. */
  lemma OpenPart(st: State, c: ClientItem, ch: Channel, i: int, k: int, part: Part)
    requires k in LiveParts(st, ch, i) && (ch == Content ==> i !in st.reasonings)
    requires var p := LiveParts(st, ch, i)[k]; PartOk(ch, p) && !p.done && Begins(ch, p, part)
    requires InPart(c, ch, k) && Last(c.parts) == Mirror(ch, k, LiveParts(st, ch, i)[k])
    ensures ClientRun(i, c, Kept(st, PartEvents(ch, i, c.id, k, part)))
            == Some(WithLast(c, DeliveredPart(ch, k, LiveParts(st, ch, i), part)))
  {
    var p := LiveParts(st, ch, i)[k];
    if TextPart(ch, part) {
      var suffix := TextOf(part)[|p.text|..];
      var logs := if ch == Content then LogsList(part.Logs().Entries()[|p.logs|..]) else LogsAbsent;
      KeptOpenText(st, ch, i, c.id, k, part);
      assert p.text + suffix == TextOf(part);
      assert ch == Content ==> p.logs + logs.Entries() == part.Logs().Entries();
      TextTail(c, ch, i, k, part, suffix, logs);
    } else {
      KeptOpenOther(st, ch, i, c.id, k, part);
      CloseStep(c, ch, i, k, part);
    }
  }

  lemma KeptOne(st: State, e: Event)
    ensures Kept(st, [e]) == FrameSeq(Keep(st, e))
  {
    assert [e][1..] == [];
    assert FrameSeq(Keep(st, e)) + [] == FrameSeq(Keep(st, e));
  }

  lemma KeptOpenOther(st: State, ch: Channel, i: int, id: string, k: int, part: Part)
    requires k in LiveParts(st, ch, i) && (ch == Content ==> i !in st.reasonings)
    requires !LiveParts(st, ch, i)[k].done && Shown(ch, part) && !TextPart(ch, part)
    ensures Kept(st, PartEvents(ch, i, id, k, part)) == [PartDone(ch, i, k, id, part)]
  {
    var a, b := PartAdded(ch, i, k, id, part), PartDone(ch, i, k, id, part);
    assert PartEvents(ch, i, id, k, part) == [a] + [b];
    assert Keep(st, a) == None && Keep(st, b) == Some(b);
    hide Keep, Kept, LiveParts, PartEvents, Shown, TextPart;
    KeptAppend(st, [a], [b]);
    KeptOne(st, a);
    KeptOne(st, b);
  }

  lemma TextPartEvents(ch: Channel, i: int, id: string, k: int, part: Part)
    requires Shown(ch, part) && TextPart(ch, part)
    ensures PartEvents(ch, i, id, k, part)
            == [PartAdded(ch, i, k, id, Opening(ch, part))] + TailEvents(ch, i, id, k, part, TextOf(part), LogsOf(ch, part), true)
  {
  }

  lemma KeptDelta(st: State, ch: Channel, i: int, id: string, k: int, part: Part)
    requires k in LiveParts(st, ch, i) && (ch == Content ==> i !in st.reasonings)
    requires var p := LiveParts(st, ch, i)[k]; p.text <= TextOf(part) && p.logs <= part.Logs().Entries()
    ensures var p := LiveParts(st, ch, i)[k];
            Kept(st, OptionalDelta(ch, i, id, k, TextOf(part), LogsOf(ch, part)))
            == OptionalDelta(ch, i, id, k, TextOf(part)[|p.text|..],
                             if ch == Content then LogsList(part.Logs().Entries()[|p.logs|..]) else LogsAbsent)
  {
    if TextOf(part) != "" {
      KeptOne(st, TextDelta(ch, i, k, id, Some(TextOf(part)), LogsOf(ch, part)));
    }
  }

  lemma KeptOpenText(st: State, ch: Channel, i: int, id: string, k: int, part: Part)
    requires k in LiveParts(st, ch, i) && (ch == Content ==> i !in st.reasonings)
    requires Shown(ch, part) && TextPart(ch, part)
    requires var p := LiveParts(st, ch, i)[k]; !p.done && p.text <= TextOf(part) && p.logs <= part.Logs().Entries()
    ensures var p := LiveParts(st, ch, i)[k];
            Kept(st, PartEvents(ch, i, id, k, part))
            == TailEvents(ch, i, id, k, part, TextOf(part)[|p.text|..],
                          if ch == Content then LogsList(part.Logs().Entries()[|p.logs|..]) else LogsAbsent, !p.textDone)
  {
    var added := PartAdded(ch, i, k, id, Opening(ch, part));
    var delta := OptionalDelta(ch, i, id, k, TextOf(part), LogsOf(ch, part));
    var closing := OptionalDone(ch, i, id, k, part, true) + [PartDone(ch, i, k, id, part)];
    TextPartEvents(ch, i, id, k, part);
    KeptAppend(st, [added], delta + closing);
    KeptAppend(st, delta, closing);
    KeptOne(st, added);
    KeptDelta(st, ch, i, id, k, part);
    KeptClosing(st, ch, i, id, k, part);
    assert Kept(st, [added]) == [];
  }

  lemma KeptClosing(st: State, ch: Channel, i: int, id: string, k: int, part: Part)
    requires k in LiveParts(st, ch, i) && (ch == Content ==> i !in st.reasonings)
    requires !LiveParts(st, ch, i)[k].done
    ensures Kept(st, OptionalDone(ch, i, id, k, part, true) + [PartDone(ch, i, k, id, part)])
            == OptionalDone(ch, i, id, k, part, !LiveParts(st, ch, i)[k].textDone) + [PartDone(ch, i, k, id, part)]
  {
    var done := TextDone(ch, i, k, id, Some(TextOf(part)), LogsOf(ch, part));
    var closing := PartDone(ch, i, k, id, part);
    KeptAppend(st, [done], [closing]);
    KeptOne(st, done);
    KeptOne(st, closing);
  }

  /** The filter leaves the events of a part alone of which nothing was streamed. */
  lemma UnseenKept(st: State, ch: Channel, i: int, id: string, k: int, part: Part)
    requires k !in LiveParts(st, ch, i) && (ch == Content ==> i !in st.reasonings) && (ch == Summary ==> i !in st.messages)
    ensures Kept(st, PartEvents(ch, i, id, k, part)) == PartEvents(ch, i, id, k, part)
  {
    hide Kept, TextPart, Shown, TextOf, LogsOf, Opening;
    KeptAll(st, PartEvents(ch, i, id, k, part));
  }

  /** A part the machine has not opened is delivered in full by its replay. */
  lemma NewPart(st: State, c: ClientItem, ch: Channel, i: int, k: int, part: Part)
    requires k !in LiveParts(st, ch, i) && Shown(ch, part)
    requires (ch == Content ==> i !in st.reasonings) && (ch == Summary ==> i !in st.messages)
    requires c.Present? && !c.closed && c.shape == (if ch == Content then MessageShape else ReasoningShape)
    requires c.parts != [] ==> Last(c.parts).done && Last(c.parts).index < k
    ensures ClientRun(i, c, Kept(st, PartEvents(ch, i, c.id, k, part)))
            == Some(c.(parts := c.parts + [DeliveredPart(ch, k, LiveParts(st, ch, i), part)]))
  {
    hide Kept, Keep, ClientRun, PartEvents, TextPart, Shown, TextOf;
    UnseenKept(st, ch, i, c.id, k, part);
    if TextPart(ch, part) {
      NewTextPart(c, ch, i, k, part);
    } else {
      NewOtherPart(c, ch, i, k, part);
    }
  }

  lemma NewTextPart(c: ClientItem, ch: Channel, i: int, k: int, part: Part)
    requires Shown(ch, part) && TextPart(ch, part)
    requires c.Present? && !c.closed && c.shape == (if ch == Content then MessageShape else ReasoningShape)
    requires c.parts != [] ==> Last(c.parts).done && Last(c.parts).index < k
    ensures ClientRun(i, c, PartEvents(ch, i, c.id, k, part))
            == Some(c.(parts := c.parts + [ClientPart(k, part.Kind(), true, TextOf(part),
                       if TextOf(part) != "" && ch == Content then part.Logs().Entries() else [], true, true)]))
  {
    hide ClientRun, PartEvents, TailEvents, Shown, TextPart, Opening, TextOf, LogsOf;
    var c1 := OpenStep(c, ch, i, k, part, Opening(ch, part));
    TextPartEvents(ch, i, c.id, k, part);
    var rest := TailEvents(ch, i, c.id, k, part, TextOf(part), LogsOf(ch, part), true);
    ClientRunAppend(i, c, [PartAdded(ch, i, k, c.id, Opening(ch, part))], rest);
    LogsOfContent(part);
    NewTail(c, c1, ch, i, k, part, TextOf(part), LogsOf(ch, part));
  }

  lemma LogsOfContent(part: Part)
    ensures LogsOf(Content, part).Entries() == part.Logs().Entries()
  {
  }

  /** What follows the announcement of a part that is delivered from its beginning. */
  lemma NewTail(c: ClientItem, c1: ClientItem, ch: Channel, i: int, k: int, part: Part, text: string, logs: LogField)
    requires c.Present? && text == TextOf(part) && InPart(c1, ch, k)
    requires c1 == c.(parts := c.parts + [ClientPart(k, part.Kind(), true, "", [], false, false)])
    ensures ClientRun(i, c1, TailEvents(ch, i, c.id, k, part, text, logs, true))
            == Some(c.(parts := c.parts + [ClientPart(k, part.Kind(), true, text,
                       if text != "" && ch == Content then logs.Entries() else [], true, true)]))
  {
    hide ClientRun, TailEvents, TextOf;
    assert "" + text == text && [] + logs.Entries() == logs.Entries();
    assert Front(c1.parts) == c.parts;
    TextTail(c1, ch, i, k, part, text, logs);
  }

  lemma NewOtherPart(c: ClientItem, ch: Channel, i: int, k: int, part: Part)
    requires Shown(ch, part) && !TextPart(ch, part)
    requires c.Present? && !c.closed && c.shape == (if ch == Content then MessageShape else ReasoningShape)
    requires c.parts != [] ==> Last(c.parts).done && Last(c.parts).index < k
    ensures ClientRun(i, c, PartEvents(ch, i, c.id, k, part))
            == Some(c.(parts := c.parts + [ClientPart(k, part.Kind(), false, "", [], false, true)]))
  {
    var c1 := OpenStep(c, ch, i, k, part, part);
    assert PartEvents(ch, i, c.id, k, part) == [PartAdded(ch, i, k, c.id, part)] + [PartDone(ch, i, k, c.id, part)];
    ClientRunAppend(i, c, [PartAdded(ch, i, k, c.id, part)], [PartDone(ch, i, k, c.id, part)]);
    CloseStep(c1, ch, i, k, part);
  }

  lemma OpenStep(c: ClientItem, ch: Channel, i: int, k: int, part: Part, announced: Part) returns (c1: ClientItem)
    requires Shown(ch, part) && announced == (if TextPart(ch, part) then Opening(ch, part) else part)
    requires c.Present? && !c.closed && c.shape == (if ch == Content then MessageShape else ReasoningShape)
    requires c.parts != [] ==> Last(c.parts).done && Last(c.parts).index < k
    ensures ClientRun(i, c, [PartAdded(ch, i, k, c.id, announced)]) == Some(c1)
    ensures c1 == c.(parts := c.parts + [ClientPart(k, part.Kind(), TextPart(ch, part), "", [], false, false)])
    ensures InPart(c1, ch, k) && Front(c1.parts) == c.parts
  {
    ClientRunOne(i, c, PartAdded(ch, i, k, c.id, announced));
    c1 := c.(parts := c.parts + [ClientPart(k, part.Kind(), TextPart(ch, part), "", [], false, false)]);
    assert Front(c1.parts) == c.parts;
  }

  // ---------- the parts of one item ----------

  /** Delivered parts are closed and numbered below `n`; over the streamed parts there are no gaps. */
  lemma {:induction false} DeliveredShape(ch: Channel, live: map<int, PartState>, parts: seq<Part>, n: nat)
    requires n <= |parts|
    ensures DoneBelow(DeliveredParts(ch, live, parts, n), n)
    ensures AllBegin(ch, live, parts) && n <= |live| ==> |DeliveredParts(ch, live, parts, n)| == n
  {
    hide DeliveredPart, Shown, Begins, PartsOk, AllBegin;
    if n > 0 {
      DeliveredShape(ch, live, parts, n - 1);
      DeliveredDone(ch, n - 1, live, parts[n - 1]);
      if AllBegin(ch, live, parts) && n <= |live| {
        AllBeginShown(ch, live, parts, n - 1);
      }
    }
  }

  ghost predicate DoneBelow(parts: seq<ClientPart>, n: nat) {
    forall k | 0 <= k < |parts| :: parts[k].done && 0 <= parts[k].index < n
  }

  lemma DeliveredDone(ch: Channel, k: int, live: map<int, PartState>, part: Part)
    ensures DeliveredPart(ch, k, live, part).done && DeliveredPart(ch, k, live, part).index == k
  {
  }

  lemma AllBeginShown(ch: Channel, live: map<int, PartState>, parts: seq<Part>, k: nat)
    requires AllBegin(ch, live, parts) && k < |live|
    ensures k < |parts| && Shown(ch, parts[k])
  {
    hide Shown, PartOk;
    assert k in live;
  }

  /** The parts of the client after the replay of the first `n`: those delivered, then those only streamed. */
  function Progressed(ch: Channel, live: map<int, PartState>, parts: seq<Part>, n: nat, seen: seq<ClientPart>): seq<ClientPart>
    requires n <= |parts|
  {
    DeliveredParts(ch, live, parts, n) + if n < |seen| then seen[n..] else []
  }

  /** The client listens to the replay of item `i`; if it has already been closed, nothing is missing. */
  ghost predicate Replayable(st: State, c: ClientItem, ch: Channel, i: int, parts: seq<Part>) {
    var live := LiveParts(st, ch, i);
    && (ch == Content ==> i !in st.reasonings) && (ch == Summary ==> i !in st.messages)
    && AllBegin(ch, live, parts)
    && c.Present? && c.shape == (if ch == Content then MessageShape else ReasoningShape)
    && PartsMirrored(ch, live, c.parts)
    && (c.closed ==> |live| == |parts| && forall k | k in live :: live[k].done)
  }

  lemma {:induction false} PartsReplayed(st: State, c: ClientItem, ch: Channel, i: int, parts: seq<Part>, n: nat)
    requires c.Present? && Replayable(st, c, ch, i, parts) && n <= |parts|
    ensures ClientRun(i, c, Kept(st, PartsEvents(ch, i, c.id, parts, n)))
            == Some(c.(parts := Progressed(ch, LiveParts(st, ch, i), parts, n, c.parts)))
  {
    hide ClientRun, Kept, Replayable, Progressed, LiveParts, PartEvents;
    if n == 0 {
      NoPartsReplayed(st, c, ch, i, parts);
    } else {
      PartsReplayed(st, c, ch, i, parts, n - 1);
      PartReplayed(st, c, ch, i, parts, n - 1);
      ReplayAppend(st, i, c, PartsEvents(ch, i, c.id, parts, n - 1), PartEvents(ch, i, c.id, n - 1, parts[n - 1]));
    }
  }

  lemma NoPartsReplayed(st: State, c: ClientItem, ch: Channel, i: int, parts: seq<Part>)
    requires c.Present?
    ensures ClientRun(i, c, Kept(st, PartsEvents(ch, i, c.id, parts, 0)))
            == Some(c.(parts := Progressed(ch, LiveParts(st, ch, i), parts, 0, c.parts)))
  {
    assert Progressed(ch, LiveParts(st, ch, i), parts, 0, c.parts) == c.parts;
  }

  lemma ReplayAppend(st: State, i: int, c: ClientItem, a: seq<Event>, b: seq<Event>)
    ensures ClientRun(i, c, Kept(st, a + b))
            == if ClientRun(i, c, Kept(st, a)).None? then None else ClientRun(i, ClientRun(i, c, Kept(st, a)).value, Kept(st, b))
  {
    KeptAppend(st, a, b);
    ClientRunAppend(i, c, Kept(st, a), Kept(st, b));
  }

  lemma PartReplayed(st: State, c: ClientItem, ch: Channel, i: int, parts: seq<Part>, k: nat)
    requires Replayable(st, c, ch, i, parts) && k < |parts|
    ensures var live := LiveParts(st, ch, i);
            ClientRun(i, c.(parts := Progressed(ch, live, parts, k, c.parts)), Kept(st, PartEvents(ch, i, c.id, k, parts[k])))
            == Some(c.(parts := Progressed(ch, live, parts, k + 1, c.parts)))
  {
    var live := LiveParts(st, ch, i);
    DeliveredShape(ch, live, parts, k);
    if k !in live {
      UnseenPartReplayed(st, c, ch, i, parts, k);
    } else {
      SeenPartReplayed(st, c, ch, i, parts, k);
    }
  }

  lemma UnseenPartReplayed(st: State, c: ClientItem, ch: Channel, i: int, parts: seq<Part>, k: nat)
    requires Replayable(st, c, ch, i, parts) && k < |parts| && k !in LiveParts(st, ch, i)
    ensures var live := LiveParts(st, ch, i);
            ClientRun(i, c.(parts := Progressed(ch, live, parts, k, c.parts)), Kept(st, PartEvents(ch, i, c.id, k, parts[k])))
            == Some(c.(parts := Progressed(ch, live, parts, k + 1, c.parts)))
  {
    var live := LiveParts(st, ch, i);
    assert k >= |live| == |c.parts|;
    var d := DeliveredParts(ch, live, parts, k);
    DeliveredShape(ch, live, parts, k);
    var c1 := c.(parts := d);
    assert Progressed(ch, live, parts, k, c.parts) == d;
    assert Progressed(ch, live, parts, k + 1, c.parts) == DeliveredParts(ch, live, parts, k + 1);
    if Shown(ch, parts[k]) {
      assert !c.closed && (ch == Content ==> i !in st.reasonings) && (ch == Summary ==> i !in st.messages);
      hide ClientRun, Kept, PartEvents, Replayable;
      NewPart(st, c1, ch, i, k, parts[k]);
    } else {
      assert d + [] == d;
    }
  }

  lemma SeenPartReplayed(st: State, c: ClientItem, ch: Channel, i: int, parts: seq<Part>, k: nat)
    requires Replayable(st, c, ch, i, parts) && k < |parts| && k in LiveParts(st, ch, i)
    ensures var live := LiveParts(st, ch, i);
            ClientRun(i, c.(parts := Progressed(ch, live, parts, k, c.parts)), Kept(st, PartEvents(ch, i, c.id, k, parts[k])))
            == Some(c.(parts := Progressed(ch, live, parts, k + 1, c.parts)))
  {
    var live := LiveParts(st, ch, i);
    SeenPartProgress(st, c, ch, i, parts, k);
    var c1 := c.(parts := Progressed(ch, live, parts, k, c.parts));
    assert ch == Content ==> i !in st.reasonings;
    assert Begins(ch, live[k], parts[k]) && PartOk(ch, live[k]);
    if live[k].done {
      ClosedPart(st, ch, i, c.id, k, parts[k]);
      hide Kept, PartEvents, Replayable, Progressed;
    } else {
      hide ClientRun, Kept, PartEvents, Replayable, Progressed;
      OpenPart(st, c1, ch, i, k, parts[k]);
    }
  }

  /** Replaying a streamed part turns the client's view of it into the delivered one. */
  lemma SeenPartProgress(st: State, c: ClientItem, ch: Channel, i: int, parts: seq<Part>, k: nat)
    requires Replayable(st, c, ch, i, parts) && k < |parts| && k in LiveParts(st, ch, i)
    ensures var live := LiveParts(st, ch, i);
            var before := Progressed(ch, live, parts, k, c.parts);
            var after := Progressed(ch, live, parts, k + 1, c.parts);
            if live[k].done then after == before
            else
              && InPart(c.(parts := before), ch, k)
              && Last(before) == Mirror(ch, k, live[k])
              && after == Front(before) + [DeliveredPart(ch, k, live, parts[k])]
  {
    var live := LiveParts(st, ch, i);
    assert c.parts[k] == Mirror(ch, k, live[k]);
    assert Shown(ch, parts[k]) && Begins(ch, live[k], parts[k]) && PartOk(ch, live[k]);
    assert k < |c.parts| && (!live[k].done ==> k == |c.parts| - 1);
    assert !live[k].done ==> !c.closed;
    if live[k].done {
      ClosedPartDelivered(ch, k, live, parts[k]);
    }
    ProgressStep(ch, live, parts, k, c.parts);
  }

  lemma ProgressStep(ch: Channel, live: map<int, PartState>, parts: seq<Part>, k: nat, seen: seq<ClientPart>)
    requires k < |parts| && k < |seen| && Shown(ch, parts[k])
    ensures var before := Progressed(ch, live, parts, k, seen);
            var after := Progressed(ch, live, parts, k + 1, seen);
            && (DeliveredPart(ch, k, live, parts[k]) == seen[k] ==> after == before)
            && (k == |seen| - 1 ==>
                  && before != [] && Last(before) == seen[k]
                  && after == Front(before) + [DeliveredPart(ch, k, live, parts[k])])
  {
    hide DeliveredPart, Shown;
    var d := DeliveredParts(ch, live, parts, k);
    var p := DeliveredPart(ch, k, live, parts[k]);
    assert DeliveredParts(ch, live, parts, k + 1) == d + [p];
    hide DeliveredParts;
    assert seen[k..] == [seen[k]] + seen[k + 1..];
    assert d + ([seen[k]] + seen[k + 1..]) == (d + [seen[k]]) + seen[k + 1..];
    if k == |seen| - 1 {
      assert seen[k + 1..] == [];
      assert d + [seen[k]] + [] == d + [seen[k]];
      assert d + [p] + [] == d + [p];
      assert Front(d + [seen[k]]) == d;
    }
  }

  // ---------- one item ----------

  /** The terminal item continues what has been streamed at its index, if anything. */
  ghost predicate ItemFits(st: State, i: int, item: Item) {
    && (i in st.reasonings ==> ValidateItem(st.reasonings[i], item))
    && (i in st.messages ==> MessageAccepted(st.messages[i], item))
  }

  predicate Streams(item: Item) {
    item.MessageItem? || item.ReasoningItem?
  }

  function ChannelOf(item: Item): Channel {
    if item.MessageItem? then Content else Summary
  }

  function PartsOf(item: Item): seq<Part>
    requires Streams(item)
  {
    if item.MessageItem? then item.content else item.summary.GetOr([])
  }

  /** The client's view of an announced item that has got so far. */
  function Under(item: Item, parts: seq<ClientPart>, payload: string, payloadDone: bool, closed: bool): ClientItem {
    Present(ShapeOf(item), item.Id(), parts, payload, payloadDone, closed, None)
  }

  function Fresh(item: Item): ClientItem {
    Under(item, [], "", false, false)
  }

  lemma MessageBegins(m: MessageState, item: Item)
    requires MessageOk(m) && MessageAccepted(m, item)
    ensures AllBegin(Content, m.parts, item.content)
  {
    if |m.parts| > 0 {
      assert |m.parts| - 1 in m.parts;
      assert PartAccepted(m.parts[|m.parts| - 1], |m.parts| - 1, item.content);
    }
    forall k | k in m.parts ensures Begins(Content, m.parts[k], item.content[k]) {
      assert PartAccepted(m.parts[k], k, item.content) && PartOk(Content, m.parts[k]);
    }
  }

  lemma ReasoningBegins(r: ReasoningState, item: Item)
    requires ReasoningOk(r) && ValidateItem(r, item)
    ensures AllBegin(Summary, r.summaries, item.summary.GetOr([]))
  {
    var parts := item.summary.GetOr([]);
    if |r.summaries| > 0 {
      assert |r.summaries| - 1 in r.summaries;
      assert SummaryMatches(r.summaries[|r.summaries| - 1], |r.summaries| - 1, parts);
    }
    forall k | k in r.summaries ensures Begins(Summary, r.summaries[k], parts[k]) {
      assert SummaryMatches(r.summaries[k], k, parts) && PartOk(Summary, r.summaries[k]);
    }
  }

  /** After the (possibly dropped) announcement the client is ready for the rest of the item. */
  lemma AnnouncementReplayed(st: State, c: ClientItem, i: int, item: Item)
    requires StateOk(st) && Mirrored(st, i, c) && ItemFits(st, i, item) && Streams(item)
    ensures var c0 := if i in st.messages || i in st.reasonings then c else Fresh(item);
            && ClientRun(i, c, Kept(st, [ItemAdded(i, Announced(item, true))])) == Some(c0)
            && Replayable(st, c0, ChannelOf(item), i, PartsOf(item))
            && c0 == Under(item, c0.parts, "", false, i in st.messages && st.messages[i].done)
  {
    var added := ItemAdded(i, Announced(item, true));
    KeptOne(st, added);
    if i in st.messages {
      MessageBegins(st.messages[i], item);
      if st.messages[i].done {
        assert |st.messages[i].parts| == |item.content|;
      }
    } else if i in st.reasonings {
      ReasoningBegins(st.reasonings[i], item);
    } else {
      ClientRunOne(i, c, added);
      assert LiveParts(st, ChannelOf(item), i) == map[];
    }
  }

  /** Delivered parts carry the text of the terminal parts. */
  lemma {:induction false} DeliveredSnapshot(ch: Channel, live: map<int, PartState>, parts: seq<Part>, n: nat)
    requires n <= |parts|
    ensures forall k | 0 <= k < |DeliveredParts(ch, live, parts, n)| :: SnapshotHolds(DeliveredParts(ch, live, parts, n)[k], parts)
  {
    hide DeliveredLogs, Shown;
    if n > 0 {
      DeliveredSnapshot(ch, live, parts, n - 1);
    }
  }

  lemma ClosingReplayed(st: State, c: ClientItem, i: int, item: Item)
    requires Streams(item) && (i in st.reasonings ==> item.ReasoningItem?) && (item.ReasoningItem? ==> i !in st.messages)
    requires c == Under(item, DeliveredParts(ChannelOf(item), LiveParts(st, ChannelOf(item), i), PartsOf(item), |PartsOf(item)|),
                        "", false, i in st.messages && st.messages[i].done)
    ensures ClientRun(i, c, Kept(st, [ItemDone(i, item)])) == Some(Delivered(st, i, item))
  {
    var closing := ItemDone(i, item);
    KeptOne(st, closing);
    ClientRunOne(i, c, closing);
    DeliveredShape(ChannelOf(item), LiveParts(st, ChannelOf(item), i), PartsOf(item), |PartsOf(item)|);
    DeliveredSnapshot(ChannelOf(item), LiveParts(st, ChannelOf(item), i), PartsOf(item), |PartsOf(item)|);
  }

  lemma StreamedItemReplayed(st: State, c: ClientItem, i: int, item: Item)
    requires StateOk(st) && Mirrored(st, i, c) && ItemFits(st, i, item) && Streams(item)
    ensures ClientRun(i, c, Kept(st, ItemEvents(i, item, true))) == Some(Delivered(st, i, item))
  {
    var ch, parts := ChannelOf(item), PartsOf(item);
    var added, body, closing := [ItemAdded(i, Announced(item, true))], BodyEvents(i, item, true), [ItemDone(i, item)];
    AnnouncementReplayed(st, c, i, item);
    var c0 := if i in st.messages || i in st.reasonings then c else Fresh(item);
    assert body == PartsEvents(ch, i, c0.id, parts, |parts|);
    assert |c0.parts| <= |parts|;
    assert i in st.reasonings ==> item.ReasoningItem?;
    assert item.ReasoningItem? ==> i !in st.messages;
    hide Replayable, ItemFits, Mirrored, StateOk, ClientRun, Kept, BodyEvents, Delivered, PartsEvents;
    PartsReplayed(st, c0, ch, i, parts, |parts|);
    var c1 := c0.(parts := Progressed(ch, LiveParts(st, ch, i), parts, |parts|, c0.parts));
    assert c1.parts == DeliveredParts(ch, LiveParts(st, ch, i), parts, |parts|);
    ClosingReplayed(st, c1, i, item);
    ReplayAppend(st, i, c, added, body);
    ReplayAppend(st, i, c, added + body, closing);
  }

  /** Items that never stream are delivered by the replay alone. */
  lemma OtherItemReplayed(st: State, i: int, item: Item)
    requires i !in st.messages && i !in st.reasonings && !Streams(item)
    ensures ClientRun(i, Absent, Kept(st, ItemEvents(i, item, true))) == Some(Delivered(st, i, item))
  {
    if !item.NonObject? {
      KeptAll(st, ItemEvents(i, item, true));
      OtherItemDelivered(st, i, item);
    }
  }

  lemma OtherItemDelivered(st: State, i: int, item: Item)
    requires !Streams(item) && !item.NonObject?
    ensures ClientRun(i, Absent, ItemEvents(i, item, true)) == Some(Delivered(st, i, item))
  {
    var added, body, closing := ItemAdded(i, Announced(item, true)), BodyEvents(i, item, true), ItemDone(i, item);
    ClientRunOne(i, Absent, added);
    var c1 := if item.ToolItem? then Under(item, [], item.payload.Text(), true, false) else Fresh(item);
    if item.ToolItem? {
      ToolBody(i, item);
    }
    assert ClientRun(i, Fresh(item), body) == Some(c1);
    ClientRunOne(i, c1, closing);
    assert ClientRun(i, c1, [closing]) == Some(Delivered(st, i, item));
    assert ClientRun(i, Absent, [added]) == Some(Fresh(item));
    hide ClientRun, BodyEvents, Delivered, Announced;
    ClientRunAppend(i, Absent, [added], body);
    ClientRunAppend(i, Absent, [added] + body, [closing]);
  }

  lemma ToolBody(i: int, item: Item)
    requires item.ToolItem?
    ensures ClientRun(i, Fresh(item), BodyEvents(i, item, true))
            == Some(Under(item, [], item.payload.Text(), true, false))
  {
    var text := item.payload.Text();
    var delta := if text != "" then [ToolDelta(item.custom, i, item.id, text)] else [];
    var done := ToolDone(item.custom, i, item.id, text);
    assert BodyEvents(i, item, true) == delta + [done];
    var c1 := Under(item, [], text, false, false);
    if text != "" {
      ClientRunOne(i, Fresh(item), delta[0]);
      assert "" + text == text;
    }
    ClientRunOne(i, c1, done);
    ClientRunAppend(i, Fresh(item), delta, [done]);
  }

  lemma ItemReplayed(st: State, c: ClientItem, i: int, item: Item)
    requires StateOk(st) && Mirrored(st, i, c) && ItemFits(st, i, item)
    ensures ClientRun(i, c, Kept(st, ItemEvents(i, item, true))) == Some(Delivered(st, i, item))
  {
    if Streams(item) {
      StreamedItemReplayed(st, c, i, item);
    } else {
      OtherItemReplayed(st, i, item);
    }
  }

  // ---------- the whole response ----------

  ghost predicate Foreign(i: int, events: seq<Event>) {
    forall e | e in events :: e.OutputIndex() != Some(i)
  }

  lemma {:induction false} ForeignRun(st: State, i: int, c: ClientItem, events: seq<Event>)
    requires Foreign(i, events)
    ensures ClientRun(i, c, Kept(st, events)) == Some(c)
  {
    if events != [] {
      assert events[0] in events;
      assert forall e | e in events[1..] :: e in events;
      ForeignRun(st, i, c, events[1..]);
      KeptOne(st, events[0]);
      if Keep(st, events[0]).Some? {
        ClientRunOne(i, c, Keep(st, events[0]).value);
      }
      ClientRunAppend(i, c, FrameSeq(Keep(st, events[0])), Kept(st, events[1..]));
    }
  }

  lemma {:induction false} PartsForeign(ch: Channel, i: int, j: int, id: string, parts: seq<Part>, n: nat)
    requires i != j && n <= |parts|
    ensures Foreign(i, PartsEvents(ch, j, id, parts, n))
  {
    hide PartEvents;
    if n > 0 {
      PartsForeign(ch, i, j, id, parts, n - 1);
      PartForeign(ch, i, j, id, n - 1, parts[n - 1]);
    }
  }

  lemma PartForeign(ch: Channel, i: int, j: int, id: string, k: int, part: Part)
    requires i != j
    ensures Foreign(i, PartEvents(ch, j, id, k, part))
  {
    hide TextPart, Shown, Opening, TextOf, LogsOf;
  }

  lemma ItemForeign(i: int, j: int, item: Item, withSummary: bool)
    requires i != j
    ensures Foreign(i, ItemEvents(j, item, withSummary))
  {
    if Streams(item) {
      PartsForeign(ChannelOf(item), i, j, item.Id(), PartsOf(item), |PartsOf(item)|);
    }
  }

  /** The view of index `i` once the first `n` items have been replayed to a client that held `c`. */
  function ViewAfter(st: State, c: ClientItem, i: int, output: seq<Item>, n: nat): ClientItem
    requires n <= |output|
  {
    if 0 <= i < n then Delivered(st, i, output[i]) else c
  }

  lemma NextItemReplayed(st: State, c: ClientItem, i: int, output: seq<Item>, n: nat)
    requires n < |output| && StateOk(st) && Mirrored(st, i, c) && ItemsAccepted(st, output)
    ensures ClientRun(i, ViewAfter(st, c, i, output, n), Kept(st, ItemEvents(n, output[n], true)))
            == Some(ViewAfter(st, c, i, output, n + 1))
  {
    assert i == n ==> ItemFits(st, i, output[i]);
    hide StateOk, Mirrored, ItemsAccepted, ItemFits, ItemEvents, Delivered, Foreign, ClientRun, Kept;
    if i == n {
      ItemReplayed(st, c, i, output[i]);
    } else {
      ItemForeign(i, n, output[n], true);
      ForeignRun(st, i, ViewAfter(st, c, i, output, n), ItemEvents(n, output[n], true));
    }
  }

  lemma NothingReplayed(st: State, c: ClientItem, i: int, output: seq<Item>)
    ensures ClientRun(i, c, Kept(st, OutputEvents(output, 0, true))) == Some(ViewAfter(st, c, i, output, 0))
  {
  }

  lemma {:induction false} OutputReplayed(st: State, c: ClientItem, i: int, output: seq<Item>, n: nat)
    requires StateOk(st) && Mirrored(st, i, c) && ItemsAccepted(st, output) && n <= |output|
    ensures ClientRun(i, c, Kept(st, OutputEvents(output, n, true))) == Some(ViewAfter(st, c, i, output, n))
  {
    hide StateOk, Mirrored, ItemsAccepted, ItemEvents, ViewAfter, ClientRun, Kept;
    if n == 0 {
      NothingReplayed(st, c, i, output);
    } else {
      OutputReplayed(st, c, i, output, n - 1);
      ReplayAppend(st, i, c, OutputEvents(output, n - 1, true), ItemEvents(n - 1, output[n - 1], true));
      NextItemReplayed(st, c, i, output, n - 1);
    }
  }

  /** What a committed incremental turn shows its client in the end. */
  function Shows(sent: seq<Event>, st: State, r: Response): seq<Event> {
    sent + Kept(st, Synthetic(r, false, true))
  }

  function FinalView(st: State, r: Response, i: int): ClientItem {
    if 0 <= i < |r.output| then Delivered(st, i, r.output[i]) else Absent
  }

  /** The central theorem on histories: the live frames and the filtered replay are one delivery. */
  lemma LiveThenReplay(history: seq<Event>, r: Response, i: int)
    requires Run(history).Some? && ItemsAccepted(Run(history).value.st, r.output)
    ensures var ran := Run(history).value;
            ClientRun(i, Absent, Shows(ran.frames, ran.st, r)) == Some(FinalView(ran.st, r, i))
  {
    var ran := Run(history).value;
    RunMirrored(history, i);
    hide Run, OutputEvents, Delivered;
    ReplayFrom(ran.st, ClientRun(i, Absent, ran.frames).value, r, i);
    ClientRunAppend(i, Absent, ran.frames, Kept(ran.st, Synthetic(r, false, true)));
    hide ItemsAccepted, ClientRun, Kept, StateOk;
  }

  /** The filtered replay completes every item the client has a part of. */
  lemma ReplayFrom(st: State, c: ClientItem, r: Response, i: int)
    requires StateOk(st) && Mirrored(st, i, c) && ItemsAccepted(st, r.output)
    ensures ClientRun(i, c, Kept(st, Synthetic(r, false, true))) == Some(FinalView(st, r, i))
  {
    hide ClientRun, Kept, StateOk, OutputEvents, Delivered, ItemsAccepted;
    var items := OutputEvents(r.output, |r.output|, true);
    OutputReplayed(st, c, i, r.output, |r.output|);
    OutsideView(st, c, r, i);
    assert Synthetic(r, false, true) == items + [TerminalEvent(r)];
    ForeignRun(st, i, FinalView(st, r, i), [TerminalEvent(r)]);
    ReplayAppend(st, i, c, items, [TerminalEvent(r)]);
  }

  lemma OutsideView(st: State, c: ClientItem, r: Response, i: int)
    requires Mirrored(st, i, c) && ItemsAccepted(st, r.output)
    ensures ViewAfter(st, c, i, r.output, |r.output|) == FinalView(st, r, i)
  {
    hide Delivered, ValidateItem, MessageAccepted, PartsMirrored;
  }
}
